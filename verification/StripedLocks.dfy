/**
 Multi-key locking over a fixed array of read-write mutexes (memdb/dblock.go): any number of
 goroutines, each locking the slots of its keys in ascending order and then unlocking them.
 A mutex is described by who holds it and who waits for it; a waiting writer keeps new readers out.
 */
module StripedLocks {
  // ---------------------------------------------------------------- the slots of some keys

  predicate StrictlyAscending(s: seq<nat>) {
    forall i, j :: 0 <= i < j < |s| ==> s[i] < s[j]
  }

  function SlotOf(hash: string -> nat, key: string, size: nat): (slot: nat)
    requires size > 0
    ensures slot < size
  {
    hash(key) % size
  }

  ghost predicate SlotsOf(hash: string -> nat, keys: seq<string>, size: nat, s: seq<nat>)
    requires size > 0
  {
    StrictlyAscending(s) && forall p :: p in s <==> exists k :: k in keys && SlotOf(hash, k, size) == p
  }

  function Inserted(s: seq<nat>, p: nat): seq<nat> {
    if s == [] || s[0] >= p then [p] + s else [s[0]] + Inserted(s[1..], p)
  }

  lemma {:induction false} InsertedKeepsOrder(s: seq<nat>, p: nat)
    requires StrictlyAscending(s) && p !in s
    ensures StrictlyAscending(Inserted(s, p)) && forall q :: q in Inserted(s, p) <==> q in s || q == p
  {
    if s != [] && s[0] < p {
      InsertedKeepsOrder(s[1..], p);
      assert s == [s[0]] + s[1..];
      var r := Inserted(s[1..], p);
      forall j | 0 <= j < |r| ensures s[0] < r[j] {
        assert r[j] in r;
        TailHas(s, r[j]);
        assert r[j] != p ==> exists i :: 0 < i < |s| && s[i] == r[j];
      }
    }
  }

  /** Each slot once, in ascending order; keys may collide. */
  method SortedLockPoses(hash: string -> nat, keys: seq<string>, size: nat) returns (poses: seq<nat>)
    requires size > 0
    ensures SlotsOf(hash, keys, size, poses)
  {
    var slots: set<nat> := {};
    for i := 0 to |keys|
      invariant forall p :: p in slots <==> exists k :: k in keys[..i] && SlotOf(hash, k, size) == p
    {
      assert keys[..i + 1] == keys[..i] + [keys[i]];
      slots := slots + {SlotOf(hash, keys[i], size)};
    }
    assert keys[..|keys|] == keys;
    ghost var all := slots;
    poses := [];
    while slots != {}
      invariant StrictlyAscending(poses) && forall p :: p in all <==> p in slots || p in poses
      invariant forall p :: p in slots ==> p !in poses
      decreases slots
    {
      var p :| p in slots;
      InsertedKeepsOrder(poses, p);
      slots, poses := slots - {p}, Inserted(poses, p);
    }
  }

  /** Unlocking computes the very slots locking did. */
  lemma SlotsUnique(hash: string -> nat, keys: seq<string>, size: nat, s: seq<nat>, t: seq<nat>)
    requires size > 0 && SlotsOf(hash, keys, size, s) && SlotsOf(hash, keys, size, t)
    ensures s == t
  {
    assert forall p :: p in s <==> p in t;
    SameElements(s, t);
  }

  lemma {:induction false} SameElements(s: seq<nat>, t: seq<nat>)
    requires StrictlyAscending(s) && StrictlyAscending(t) && forall p :: p in s <==> p in t
    ensures s == t
    decreases |s|
  {
    assert t != [] ==> t[0] in t;
    if s != [] {
      assert s[0] in t && t != [];
      assert t[0] in s;
      assert s[0] == t[0];
      forall p ensures p in s[1..] <==> p in t[1..] {
        TailHas(s, p);
        TailHas(t, p);
      }
      SameElements(s[1..], t[1..]);
    }
  }

  lemma TailHas(s: seq<nat>, p: nat)
    requires s != [] && StrictlyAscending(s)
    ensures p in s[1..] <==> p in s && p != s[0]
  {
    if p in s && p != s[0] {
      var i :| 0 <= i < |s| && s[i] == p;
      assert s[1..][i - 1] == p;
    }
  }

  // ---------------------------------------------------------------- goroutines

  datatype Mode = Running | Waiting // a waiting writer has announced itself, a waiting reader is queued behind a writer

  /** A goroutine that locks its slots in order and then unlocks them in order. */
  datatype Routine = Routine(poses: seq<nat>, write: bool, got: nat, released: nat, mode: Mode)

  type Id = nat
  type State = map<Id, Routine>

  predicate Sound(r: Routine) {
    && StrictlyAscending(r.poses) && r.released <= r.got <= |r.poses| && (r.released > 0 ==> r.got == |r.poses|)
    && (r.mode == Waiting ==> r.got < |r.poses|)
  }

  predicate Done(r: Routine) {
    r.released == |r.poses|
  }

  predicate Acquiring(r: Routine) {
    r.got < |r.poses|
  }

  function Target(r: Routine): nat
    requires Acquiring(r)
  {
    r.poses[r.got]
  }

  ghost predicate Holds(r: Routine, p: nat) {
    exists k :: r.released <= k < r.got && k < |r.poses| && r.poses[k] == p
  }

  predicate WaitsAt(r: Routine, p: nat) {
    r.mode == Waiting && Acquiring(r) && Target(r) == p
  }

  /** A writer that owns the mutex or has announced itself. */
  ghost predicate Claims(r: Routine, p: nat) {
    r.write && (Holds(r, p) || WaitsAt(r, p))
  }

  ghost predicate Reads(r: Routine, p: nat) {
    !r.write && Holds(r, p)
  }

  ghost predicate Claimed(s: State, p: nat) {
    exists u :: u in s && Claims(s[u], p)
  }

  ghost predicate Read(s: State, p: nat) {
    exists u :: u in s && Reads(s[u], p)
  }

  function Entered(r: Routine): Routine {
    r.(got := r.got + 1, mode := Running)
  }

  // ---------------------------------------------------------------- steps

  datatype Move = Announce | Enter | Queue | Release

  ghost predicate CanMove(s: State, t: Id, m: Move) {
    && t in s
    && var r := s[t];
    match m
    case Announce => r.write && r.mode == Running && Acquiring(r) && !Claimed(s, Target(r))
    case Enter =>
      && Acquiring(r)
      && (if r.write then r.mode == Waiting && !Read(s, Target(r)) else r.mode == Running && !Claimed(s, Target(r)))
    case Queue => !r.write && r.mode == Running && Acquiring(r) && Claimed(s, Target(r))
    case Release => !Acquiring(r) && r.released < |r.poses|
  }

  ghost function Moved(s: State, t: Id, m: Move): State
    requires t in s && (m == Release ==> s[t].released < |s[t].poses|)
  {
    var r := s[t];
    match m
    case Announce => s[t := r.(mode := Waiting)]
    case Queue => s[t := r.(mode := Waiting)]
    case Enter => s[t := Entered(r)]
    case Release =>
      var p := r.poses[r.released];
      var s' := s[t := r.(released := r.released + 1)];
      if r.write then map u | u in s' :: if !s'[u].write && WaitsAt(s'[u], p) then Entered(s'[u]) else s'[u] else s'
  }

  ghost predicate Start(s: State) {
    forall t :: t in s ==> StrictlyAscending(s[t].poses) && s[t].got == 0 && s[t].released == 0 && s[t].mode == Running
  }

  ghost predicate StepOf(s: State, s': State) {
    exists t, m :: CanMove(s, t, m) && s' == Moved(s, t, m)
  }

  ghost predicate IsRun(run: seq<State>) {
    run != [] && Start(run[0]) && forall i :: 0 <= i < |run| - 1 ==> StepOf(run[i], run[i + 1])
  }

  // ---------------------------------------------------------------- the invariant

  ghost predicate Exclusive(s: State) {
    && (forall t, u, p :: t in s && u in s && Claims(s[t], p) && Claims(s[u], p) ==> t == u)
    && (forall t, u, p :: t in s && u in s && s[t].write && Holds(s[t], p) ==> !Reads(s[u], p))
  }

  /** A queued reader is behind a writer. */
  ghost predicate QueuedBehind(s: State) {
    forall t, p :: t in s && !s[t].write && WaitsAt(s[t], p) ==> Claimed(s, p)
  }

  ghost predicate Inv(s: State) {
    (forall t :: t in s ==> Sound(s[t])) && Exclusive(s) && QueuedBehind(s)
  }

  lemma HoldsEntered(r: Routine)
    requires Sound(r) && Acquiring(r) && r.released == 0
    ensures Sound(Entered(r))
    ensures forall p :: Holds(Entered(r), p) <==> Holds(r, p) || p == Target(r)
  {
    var r' := Entered(r);
    forall p ensures Holds(r', p) <==> Holds(r, p) || p == Target(r) {
      if p == Target(r) { assert r'.poses[r.got] == p; }
      if Holds(r, p) {
        var k :| r.released <= k < r.got && k < |r.poses| && r.poses[k] == p;
        assert r'.poses[k] == p;
      }
    }
  }

  lemma HoldsReleased(r: Routine)
    requires Sound(r) && !Acquiring(r) && r.released < |r.poses|
    ensures var r' := r.(released := r.released + 1);
            Sound(r') && forall p :: Holds(r', p) <==> Holds(r, p) && p != r.poses[r.released]
  {
    var r' := r.(released := r.released + 1);
    forall p ensures Holds(r', p) <==> Holds(r, p) && p != r.poses[r.released] {
      if Holds(r', p) {
        var k :| r'.released <= k < r'.got && k < |r'.poses| && r'.poses[k] == p;
        assert r.poses[k] == p;
      }
    }
  }

  /** A state in which every routine has the claims and reads it had, but for t. */
  lemma AnnounceKeeps(s: State, t: Id)
    requires Inv(s) && CanMove(s, t, Announce)
    ensures Inv(Moved(s, t, Announce))
  {
    var s' := Moved(s, t, Announce);
    var q := Target(s[t]);
    assert forall p :: Holds(s'[t], p) <==> Holds(s[t], p);
    assert forall p :: Claims(s'[t], p) <==> Claims(s[t], p) || p == q;
    hide Holds;
    forall u, p | u in s && !s[u].write && WaitsAt(s'[u], p) ensures Claimed(s', p) {
      assert Claimed(s, p);
      var w :| w in s && Claims(s[w], p);
      assert Claims(s'[w], p);
    }
    assert forall u :: u in s && Claims(s[u], q) ==> Claimed(s, q);
  }

  /** Queued readers stay behind a writer as long as no claim is given up and nobody else queues. */
  lemma StillQueued(s: State, s': State)
    requires QueuedBehind(s) && s'.Keys == s.Keys
    requires forall u, p :: u in s && Claims(s[u], p) ==> Claims(s'[u], p)
    requires forall u, p :: u in s && !s'[u].write && WaitsAt(s'[u], p) ==> !s[u].write && WaitsAt(s[u], p)
    ensures QueuedBehind(s')
  {
    hide Claims, WaitsAt;
    forall u, p | u in s' && !s'[u].write && WaitsAt(s'[u], p) ensures Claimed(s', p) {
      assert WaitsAt(s[u], p) && Claimed(s, p);
      var w :| w in s && Claims(s[w], p);
      assert Claims(s'[w], p);
    }
  }

  ghost predicate Owns(r: Routine, p: nat) {
    r.write && Holds(r, p)
  }

  /** No claim is new; only at q may there be a new reader, with no owner, or a new owner, with no reader. */
  lemma StillExclusive(s: State, s': State, q: nat)
    requires Exclusive(s) && s'.Keys == s.Keys
    requires forall u, p :: u in s && Claims(s'[u], p) ==> Claims(s[u], p)
    requires forall u, p :: u in s && Reads(s'[u], p) ==>
             Reads(s[u], p) || (p == q && forall w :: w in s ==> !Owns(s'[w], q))
    requires forall u, p :: u in s && Owns(s'[u], p) ==>
             Owns(s[u], p) || (p == q && forall w :: w in s ==> !Reads(s'[w], q))
    ensures Exclusive(s')
  {
    assert forall t, u, p :: t in s && u in s && Owns(s[t], p) ==> !Reads(s[u], p);
    assert forall t, u, p :: t in s && u in s && Owns(s'[t], p) ==> !Reads(s'[u], p) by { hide Owns, Reads, Claims; }
    hide Reads, Claims;
  }

  lemma QueueKeeps(s: State, t: Id)
    requires Inv(s) && CanMove(s, t, Queue)
    ensures Inv(Moved(s, t, Queue))
  {
    var s' := Moved(s, t, Queue);
    assert forall p :: Holds(s'[t], p) <==> Holds(s[t], p);
    StillExclusive(s, s', 0);
    forall u, p | u in s && !s[u].write && WaitsAt(s'[u], p) ensures Claimed(s', p) {
      assert Claimed(s, p);
      var w :| w in s && Claims(s[w], p);
      assert Claims(s'[w], p);
    }
  }

  /** A writer that enters keeps its claim and finds no reader. */
  lemma EnterWriteKeeps(s: State, t: Id)
    requires Inv(s) && CanMove(s, t, Enter) && s[t].write
    ensures Inv(Moved(s, t, Enter))
  {
    var s' := Moved(s, t, Enter);
    var q := Target(s[t]);
    HoldsEntered(s[t]);
    assert WaitsAt(s[t], q) && !WaitsAt(s'[t], q);
    hide Holds, StrictlyAscending, Exclusive;
    assert forall p :: Claims(s'[t], p) <==> Claims(s[t], p);
    assert forall u :: u in s && Reads(s[u], q) ==> Read(s, q);
    StillQueued(s, s');
    StillExclusive(s, s', q);
  }

  /** A reader that enters finds no writer. */
  lemma EnterReadKeeps(s: State, t: Id)
    requires Inv(s) && CanMove(s, t, Enter) && !s[t].write
    ensures Inv(Moved(s, t, Enter))
  {
    var s' := Moved(s, t, Enter);
    var q := Target(s[t]);
    HoldsEntered(s[t]);
    hide Holds, StrictlyAscending, Exclusive;
    assert forall u :: u in s && Claims(s[u], q) ==> Claimed(s, q);
    StillQueued(s, s');
    StillExclusive(s, s', q);
  }

  lemma ReleaseReadKeeps(s: State, t: Id)
    requires Inv(s) && CanMove(s, t, Release) && !s[t].write
    ensures Inv(Moved(s, t, Release))
  {
    var s' := Moved(s, t, Release);
    HoldsReleased(s[t]);
    hide Holds, StrictlyAscending, Exclusive;
    StillQueued(s, s');
    StillExclusive(s, s', 0);
  }

  /** What a routine is after a writer let go of q. */
  lemma AfterUnlock(s: State, t: Id, u: Id)
    requires Inv(s) && CanMove(s, t, Release) && s[t].write && u in s
    ensures var s', q := Moved(s, t, Release), s[t].poses[s[t].released];
            && u in s' && Sound(s'[u]) && s'[u].write == s[u].write
            && (forall p :: Claims(s'[u], p) ==> Claims(s[u], p) && !(u == t && p == q))
            && (forall p :: Claims(s[u], p) && p != q ==> Claims(s'[u], p))
            && (forall p :: Reads(s'[u], p) ==> Reads(s[u], p) || p == q)
            && (forall p :: Owns(s'[u], p) ==> Owns(s[u], p))
            && (forall p :: !s'[u].write && WaitsAt(s'[u], p) ==> p != q && WaitsAt(s[u], p))
  {
    var q := s[t].poses[s[t].released];
    if u == t {
      HoldsReleased(s[t]);
    } else if !s[u].write && WaitsAt(s[u], q) {
      HoldsEntered(s[u]);
    }
    hide Holds, StrictlyAscending, Exclusive, QueuedBehind;
  }

  lemma ReleaseWriteKeeps(s: State, t: Id)
    requires Inv(s) && CanMove(s, t, Release) && s[t].write
    ensures Inv(Moved(s, t, Release))
  {
    var s', q := Moved(s, t, Release), s[t].poses[s[t].released];
    assert Claims(s[t], q) by { assert Holds(s[t], q); }
    hide Moved, Holds, StrictlyAscending, Claims, Reads, WaitsAt, Sound;
    assert s'.Keys == s.Keys by { MovedKeys(s, t, Release); }
    forall u | u in s
      ensures u in s' && Sound(s'[u])
      ensures forall p :: Claims(s'[u], p) ==> Claims(s[u], p) && !(u == t && p == q)
      ensures forall p :: Reads(s'[u], p) ==> Reads(s[u], p) || p == q
      ensures forall p :: Owns(s'[u], p) ==> Owns(s[u], p)
    {
      AfterUnlock(s, t, u);
    }
    forall w | w in s ensures !Owns(s'[w], q) { OwnsClaims(s'[w], q); }
    StillExclusive(s, s', q);
    forall u, p | u in s' && !s'[u].write && WaitsAt(s'[u], p) ensures Claimed(s', p) {
      AfterUnlock(s, t, u);
      assert Claimed(s, p);
      var w :| w in s && Claims(s[w], p);
      AfterUnlock(s, t, w);
      assert Claims(s'[w], p);
    }
  }

  lemma OwnsClaims(r: Routine, p: nat)
    ensures Owns(r, p) ==> Claims(r, p)
  {
  }

  lemma MovedKeys(s: State, t: Id, m: Move)
    requires CanMove(s, t, m)
    ensures Moved(s, t, m).Keys == s.Keys
  {
  }

  lemma MoveKeeps(s: State, t: Id, m: Move)
    requires Inv(s) && CanMove(s, t, m)
    ensures Inv(Moved(s, t, m))
  {
    match m
    case Announce => AnnounceKeeps(s, t);
    case Queue => QueueKeeps(s, t);
    case Enter => if s[t].write { EnterWriteKeeps(s, t); } else { EnterReadKeeps(s, t); }
    case Release => if s[t].write { ReleaseWriteKeeps(s, t); } else { ReleaseReadKeeps(s, t); }
  }

  lemma {:induction false} RunKeeps(run: seq<State>, i: nat)
    requires IsRun(run) && i < |run|
    ensures Inv(run[i])
  {
    hide Inv, Moved, Claimed, Read;
    if i == 0 {
      StartKeeps(run[0]);
    } else {
      RunKeeps(run, i - 1);
      assert StepOf(run[i - 1], run[i]);
      var t, m :| CanMove(run[i - 1], t, m) && run[i] == Moved(run[i - 1], t, m);
      MoveKeeps(run[i - 1], t, m);
    }
  }

  lemma StartKeeps(s: State)
    requires Start(s)
    ensures Inv(s)
  {
  }

  // ---------------------------------------------------------------- no deadlock

  lemma {:induction false} Highest(s: State, ts: set<Id>) returns (t: Id)
    requires ts != {} && ts <= s.Keys && forall u :: u in ts ==> Acquiring(s[u])
    ensures t in ts && forall u :: u in ts ==> Target(s[u]) <= Target(s[t])
    decreases |ts|
  {
    var first :| first in ts;
    var rest := ts - {first};
    t := first;
    if rest != {} {
      var u := Highest(s, rest);
      if Target(s[u]) > Target(s[first]) { t := u; }
    }
    forall v | v in ts ensures Target(s[v]) <= Target(s[t]) {
      assert v == first || v in rest;
    }
  }

  ghost predicate SomeMove(s: State) {
    exists t, m :: CanMove(s, t, m)
  }

  /** Whoever holds a slot either lets go next or waits at a higher one. */
  lemma HolderMoves(s: State, u: Id, p: nat)
    requires u in s && Sound(s[u]) && Holds(s[u], p)
    ensures SomeMove(s) || (Acquiring(s[u]) && Target(s[u]) > p)
  {
    if !Acquiring(s[u]) { assert CanMove(s, u, Release); }
  }

  /** At the highest slot anybody waits for, somebody can move. */
  lemma ClaimantMoves(s: State, w: Id, p: nat)
    requires Inv(s) && w in s && Claims(s[w], p) && forall u :: u in s && Acquiring(s[u]) ==> Target(s[u]) <= p
    ensures SomeMove(s)
  {
    if Holds(s[w], p) {
      HolderMoves(s, w, p);
    } else if !Read(s, p) {
      assert CanMove(s, w, Enter);
    } else {
      var u :| u in s && Reads(s[u], p);
      HolderMoves(s, u, p);
    }
  }

  /** As long as a goroutine is not finished, one of them can go on. */
  lemma DeadlockFree(run: seq<State>, i: nat, t0: Id)
    requires IsRun(run) && i < |run| && t0 in run[i] && !Done(run[i][t0])
    ensures SomeMove(run[i])
  {
    RunKeeps(run, i);
    hide IsRun;
    var s := run[i];
    if !Acquiring(s[t0]) {
      assert CanMove(s, t0, Release);
    } else {
      var ts := set u | u in s && Acquiring(s[u]);
      assert t0 in ts;
      var t := Highest(s, ts);
      var p := Target(s[t]);
      assert forall u :: u in s && Acquiring(s[u]) ==> u in ts;
      if s[t].mode == Running && !s[t].write {
        assert CanMove(s, t, if Claimed(s, p) then Queue else Enter);
      } else if s[t].mode == Running && !Claimed(s, p) {
        assert CanMove(s, t, Announce);
      } else {
        assert s[t].mode == Waiting ==> WaitsAt(s[t], p);
        assert s[t].mode == Waiting && s[t].write ==> Claims(s[t], p);
        assert Claimed(s, p);
        var w :| w in s && Claims(s[w], p);
        ClaimantMoves(s, w, p);
      }
    }
  }

  /** Readers share; a writer is alone. */
  lemma MutualExclusion(run: seq<State>, i: nat, t: Id, u: Id, p: nat)
    requires IsRun(run) && i < |run| && t in run[i] && u in run[i] && Holds(run[i][t], p) && Holds(run[i][u], p)
    ensures t == u || (!run[i][t].write && !run[i][u].write)
  {
    RunKeeps(run, i);
    hide Holds, IsRun;
    var a, b := run[i][t], run[i][u];
    assert (a.write ==> Claims(a, p)) && (b.write ==> Claims(b, p)) && (!a.write ==> Reads(a, p))
        && (!b.write ==> Reads(b, p));
  }

  /** A goroutine holds just the slots it has locked and not yet unlocked; in the end none. */
  lemma HeldSlots(run: seq<State>, i: nat, t: Id, p: nat)
    requires IsRun(run) && i < |run| && t in run[i]
    ensures var r := run[i][t]; r.released <= r.got <= |r.poses| && (Holds(r, p) <==> p in r.poses[r.released..r.got])
  {
    RunKeeps(run, i);
    hide IsRun;
    var r := run[i][t];
    if p in r.poses[r.released..r.got] {
      var k :| 0 <= k < r.got - r.released && r.poses[r.released..r.got][k] == p;
      assert r.poses[r.released + k] == p;
    }
  }

  // ---------------------------------------------------------------- no endless run

  function Left(r: Routine): int {
    3 * (|r.poses| - r.got) + (|r.poses| - r.released) + if r.mode == Running then 1 else 0
  }

  ghost function Total(s: State, ts: set<Id>): int
    requires ts <= s.Keys
  {
    if ts == {} then 0
    else
      var t :| t in ts;
      Left(s[t]) + Total(s, ts - {t})
  }

  lemma {:induction false} TotalFalls(s: State, s': State, ts: set<Id>, t: Id)
    requires ts <= s.Keys && ts <= s'.Keys && forall u :: u in ts ==> Left(s'[u]) <= Left(s[u])
    requires t in ts ==> Left(s'[t]) < Left(s[t])
    ensures Total(s', ts) <= Total(s, ts) && (t in ts ==> Total(s', ts) < Total(s, ts))
    decreases |ts|
  {
    if ts != {} {
      var u :| u in ts && Total(s, ts) == Left(s[u]) + Total(s, ts - {u})
          && Total(s', ts) == Left(s'[u]) + Total(s', ts - {u});
      TotalFalls(s, s', ts - {u}, t);
    }
  }

  lemma {:induction false} TotalPositive(s: State, ts: set<Id>)
    requires ts <= s.Keys && forall u :: u in ts ==> Sound(s[u])
    ensures Total(s, ts) >= 0
    decreases |ts|
  {
    if ts != {} {
      var u :| u in ts && Total(s, ts) == Left(s[u]) + Total(s, ts - {u});
      assert Sound(s[u]) && Left(s[u]) >= 0;
      TotalPositive(s, ts - {u});
    }
  }

  lemma MoveFalls(s: State, t: Id, m: Move)
    requires Inv(s) && CanMove(s, t, m)
    ensures var s' := Moved(s, t, m); s'.Keys == s.Keys && Total(s', s.Keys) < Total(s, s.Keys)
  {
    var s' := Moved(s, t, m);
    MovedKeys(s, t, m);
    hide Exclusive, QueuedBehind, Claimed, Read, StrictlyAscending;
    TotalFalls(s, s', s.Keys, t);
  }

  /** No scheduler can keep the goroutines busy for ever. */
  lemma {:induction false} RunIsBounded(run: seq<State>, i: nat)
    requires IsRun(run) && i < |run|
    ensures run[i].Keys == run[0].Keys && 0 <= Total(run[i], run[i].Keys) <= Total(run[0], run[0].Keys) - i
  {
    hide Moved, Claimed, Read, Exclusive, QueuedBehind, Start;
    RunKeeps(run, i);
    TotalPositive(run[i], run[i].Keys);
    if i > 0 {
      RunIsBounded(run, i - 1);
      RunKeeps(run, i - 1);
      assert StepOf(run[i - 1], run[i]);
      var t, m :| CanMove(run[i - 1], t, m) && run[i] == Moved(run[i - 1], t, m);
      MoveFalls(run[i - 1], t, m);
    }
  }

  /** A run that can go on no further ends with every goroutine finished and every mutex free. */
  lemma AllFinish(run: seq<State>, t: Id, p: nat)
    requires IsRun(run) && !SomeMove(run[|run| - 1]) && t in run[|run| - 1]
    ensures Done(run[|run| - 1][t]) && !Holds(run[|run| - 1][t], p)
  {
    hide Start, StepOf, SomeMove;
    if !Done(run[|run| - 1][t]) { DeadlockFree(run, |run| - 1, t); }
    HeldSlots(run, |run| - 1, t, p);
  }

  /** Whatever the scheduler does, it is at the end after at most as many steps as there was work, with all goroutines
      started there finished. */
  lemma Finishes(run: seq<State>)
    requires IsRun(run)
    ensures |run| <= Total(run[0], run[0].Keys) + 1
    ensures !SomeMove(run[|run| - 1]) <==> forall t :: t in run[0] ==> t in run[|run| - 1] && Done(run[|run| - 1][t])
  {
    hide Start, StepOf, SomeMove, Done;
    RunIsBounded(run, |run| - 1);
    var last := run[|run| - 1];
    if SomeMove(last) {
      var t := SomeUnfinished(run);
      assert t in run[0];
    } else {
      forall t | t in run[0] ensures t in last && Done(last[t]) {
        AllFinish(run, t, 0);
      }
    }
  }

  lemma SomeUnfinished(run: seq<State>) returns (t: Id)
    requires IsRun(run) && SomeMove(run[|run| - 1])
    ensures t in run[|run| - 1] && !Done(run[|run| - 1][t])
  {
    RunKeeps(run, |run| - 1);
    var last := run[|run| - 1];
    var m;
    t, m :| CanMove(last, t, m);
    assert Sound(last[t]);
  }

  /** What a goroutine locks is settled before it starts. */
  lemma {:induction false} PosesStay(run: seq<State>, i: nat, t: Id)
    requires IsRun(run) && i < |run| && t in run[i]
    ensures t in run[0] && run[i][t].poses == run[0][t].poses
  {
    RunIsBounded(run, i);
    if i > 0 {
      RunIsBounded(run, i - 1);
      PosesStay(run, i - 1, t);
      assert StepOf(run[i - 1], run[i]);
      hide CanMove, Start;
    }
  }

  /** Goroutines for any keys can start: their slots are those that locking computes. */
  ghost predicate StartsWith(s: State, hash: string -> nat, size: nat, keys: map<Id, seq<string>>)
    requires size > 0
  {
    && s.Keys == keys.Keys
    && forall t :: t in s ==>
         SlotsOf(hash, keys[t], size, s[t].poses) && s[t].got == 0 && s[t].released == 0 && s[t].mode == Running
  }

  /** Any goroutines locking any keys, whose slots may collide, all get their locks and finish. */
  lemma AllKeysServed(run: seq<State>, hash: string -> nat, size: nat, keys: map<Id, seq<string>>)
    requires size > 0 && run != [] && StartsWith(run[0], hash, size, keys)
    requires forall i :: 0 <= i < |run| - 1 ==> StepOf(run[i], run[i + 1])
    requires !SomeMove(run[|run| - 1])
    ensures var last := run[|run| - 1];
            forall t :: t in keys ==> t in last && Done(last[t]) && SlotsOf(hash, keys[t], size, last[t].poses)
  {
    hide StepOf, SomeMove, Done;
    assert Start(run[0]);
    hide Start;
    Finishes(run);
    forall t | t in keys ensures SlotsOf(hash, keys[t], size, run[|run| - 1][t].poses) {
      PosesStay(run, |run| - 1, t);
    }
  }
}
