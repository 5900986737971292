/**
 The whole node: the buffered Raft node together with the application that consumes its Readys.
 The cursor is raftLog.applied, the batch the committed entries of the Ready in flight, and the
 trail what the state machine has been given since the node started.
 */
module ApplyLoop {
  import opened RaftTypes
  import opened LogView
  import opened LogStore
  import opened Limits
  import opened RaftNode
  import opened Cluster
  import opened Buffered
  import opened BufferedLog
  import opened Varint
  import opened Publishing

  datatype Phase = Fresh | Given | Snapped | Finished

  datatype Replica = Replica(host: Host, cursor: nat, batch: seq<Entry>, appliedIndex: nat, phase: Phase,
      trail: seq<Seen>)

  datatype AppAction =
    | Plain(a: Action) // Local, Persist and Send
    | TakeReady(maxSize: nat)
    | Deliver // publishSnapshot and publishEntries
    | NoTrigger
    | Trigger // CreateSnapshot
    | Trim // Compact
    | Confirm // Advance
    | Kill

  /** The committed entries a Ready hands out. */
  ghost predicate IsBatch(h: Host, cursor: nat, maxSize: nat, batch: seq<Entry>) {
    var lo := Max(cursor + 1, BaseOf(h.store, h.unstable) + 1);
    if lo <= h.vol.committed && h.vol.committed <= |h.vol.log|
    then LimitedTo(h.vol.log[lo - 1..h.vol.committed], maxSize, batch)
    else batch == []
  }

  /** What Advance makes of raftLog.applied; None is the out-of-range panic. */
  function CursorAfter(x: Replica): Option<nat> {
    var newApplied := if x.batch != [] then x.batch[|x.batch| - 1].index else SnapOf(x.host.ready);
    if newApplied == 0 then Some(x.cursor)
    else if x.host.vol.committed < newApplied || newApplied < x.cursor then None
    else Some(newApplied)
  }

  function SnapIndexOf(r: Ready): Option<nat> {
    if r.snap.Some? then Some(r.snap.value.index) else None
  }

  function CompactAt(appliedIndex: nat): nat {
    if appliedIndex > CATCH_UP then Sub64(appliedIndex, CATCH_UP) else 1
  }

  function Due(x: Replica): bool {
    Sub64(x.appliedIndex, x.host.snapIndex) > SNAP_COUNT
  }

  ghost predicate AppDoes(voters: set<Id>, net: set<Msg>, x: Replica, a: AppAction, x': Replica) {
    match a
    case Plain(b) =>
      (b.Local? || b.Persist? || b.Send?) && Does(voters, net, x.host, b, x'.host) && x' == x.(host := x'.host)
    case TakeReady(maxSize) =>
      && Does(voters, net, x.host, Accept, x'.host) && IsBatch(x.host, x.cursor, maxSize, x'.batch)
      && x' == x.(host := x'.host, batch := x'.batch, phase := Fresh)
    case Deliver =>
      && x.host.stage == Stored && x.phase == Fresh
      && var p := Publish(x.appliedIndex, SnapIndexOf(x.host.ready), x.batch);
      && p.Done? && x' == x.(appliedIndex := p.applied, trail := x.trail + p.seen, phase := Given)
    case NoTrigger => x.host.stage == Stored && x.phase == Given && !Due(x) && x' == x.(phase := Finished)
    case Trigger =>
      && x.host.stage == Stored && x.phase == Given && Due(x)
           && Does(voters, net, x.host, TakeSnapshot(x.appliedIndex), x'.host)
      && x' == x.(host := x'.host, phase := Snapped)
    case Trim =>
      && x.host.stage == Stored && x.phase == Snapped
      && Does(voters, net, x.host, HostAction(x, a), x'.host) && x' == x.(host := x'.host, phase := Finished)
    case Confirm =>
      && x.host.stage == Stored && x.phase == Finished && CursorAfter(x).Some?
           && Does(voters, net, x.host, Advance, x'.host)
      && x' == x.(host := x'.host, cursor := CursorAfter(x).value)
    case Kill =>
      && Does(voters, net, x.host, Crash, x'.host)
      && x' == Replica(x'.host, x.host.snapIndex, [], x.host.snapIndex, Fresh, [Jumped(x.host.snapIndex)])
  }

  /** What the Raft node sees of an action. */
  function HostAction(x: Replica, a: AppAction): Action {
    match a
    case Plain(b) => b
    case TakeReady(_) => Accept
    case Trigger => TakeSnapshot(x.appliedIndex)
    case Trim => Compact(CompactAt(x.appliedIndex))
    case Confirm => Advance
    case Kill => Crash
    case _ => Pause
  }

  lemma AppDoesHost(voters: set<Id>, net: set<Msg>, x: Replica, a: AppAction, x': Replica)
    requires AppDoes(voters, net, x, a, x')
    ensures Does(voters, net, x.host, HostAction(x, a), x'.host)
  {
    hide Handle, Fits, Tracks, CanHappen, StoreReady, SelfAcked, Stabilised;
  }

  // ---------------------------------------------------------------- the invariant

  function From(x: Replica): nat {
    Max(x.cursor, SnapOf(x.host.ready))
  }

  ghost predicate BatchOk(n: Node, lo: nat, batch: seq<Entry>) {
    lo + |batch| <= n.committed <= |n.log| && batch == n.log[lo..lo + |batch|]
  }

  ghost predicate FromLog(m: Seen, n: Node) {
    m.Applied? ==> 0 < m.e.index <= n.committed <= |n.log| && n.log[m.e.index - 1] == m.e
  }

  ghost predicate TrailOk(trail: seq<Seen>, applied: nat, n: Node) {
    && Contiguous(trail) && PositionOf(trail[|trail| - 1]) == applied
    && forall m :: m in trail ==> FromLog(m, n)
  }

  ghost predicate AppOk(x: Replica) {
    && var h := x.host;
    && h.store.base <= h.snapIndex && x.cursor <= h.disk.committed && x.appliedIndex <= h.disk.committed
    && TrailOk(x.trail, x.appliedIndex, h.disk)
    && (h.stage == Idle ==> x.appliedIndex == x.cursor && h.snapIndex <= x.cursor)
    && (h.stage == Accepted ==>
          && x.phase == Fresh && x.appliedIndex == x.cursor && h.snapIndex <= x.cursor
          && BatchOk(h.ready.node, From(x), x.batch))
    && (h.stage != Idle && h.ready.snap.Some? ==> x.cursor < h.ready.snap.value.index)
    && (h.stage == Stored ==> BatchOk(h.disk, From(x), x.batch))
    && (h.stage == Stored && x.phase == Fresh ==> x.appliedIndex == x.cursor && h.snapIndex <= From(x))
    && (h.stage == Stored && x.phase != Fresh ==>
         x.appliedIndex == From(x) + |x.batch| && h.snapIndex <= x.appliedIndex)
    && (h.stage == Stored && x.phase == Snapped ==>
         h.snapIndex == x.appliedIndex && h.store.base + CATCH_UP < x.appliedIndex)
    && (h.stage == Stored && h.ready.snap.None? && x.cursor < h.store.base ==>
         x.phase == Finished && h.store.base + CATCH_UP == x.appliedIndex)
  }

  ghost predicate Ground(h: Host) {
    && LogsOk(h) && Ordered(h.disk, h.vol)
    && (h.stage != Idle ==> Ordered(h.disk, h.ready.node) && Ordered(h.ready.node, h.vol))
    && (h.stage == Stored ==> h.disk == h.ready.node)
  }

  lemma TrailMoves(trail: seq<Seen>, applied: nat, n: Node, n': Node)
    requires TrailOk(trail, applied, n) && n.committed <= n'.committed <= |n'.log| && n.committed <= |n.log|
             && n.log[..n.committed] <= n'.log
    ensures TrailOk(trail, applied, n')
  {
    forall m | m in trail ensures FromLog(m, n') {
      assert FromLog(m, n);
      if m.Applied? {
        assert n.log[..n.committed][m.e.index - 1] == n'.log[m.e.index - 1];
      }
    }
  }

  // ---------------------------------------------------------------- every action keeps it

  lemma PlainOk(voters: set<Id>, net: set<Msg>, x: Replica, b: Action, x': Replica)
    requires AppOk(x) && Ground(x.host) && AppDoes(voters, net, x, Plain(b), x')
    ensures AppOk(x')
  {
    hide LogsOk, TrailOk, BatchOk, IndexedFrom, Matching, Handle, Fits, Tracks, CanHappen, StoreReady;
    if b.Persist? {
      StoreReadyOk(x.host);
      TrailMoves(x.trail, x.appliedIndex, x.host.disk, x'.host.disk);
      PersistBase(x.host);
    }
  }

  lemma PersistBase(h: Host)
    requires LogsOk(h) && h.stage == Accepted
    ensures h.store.base <= h.snapIndex ==> SettlingBase(h) <= SnapAfter(h.snapIndex, h.ready)
    ensures h.snapIndex <= h.disk.committed
  {
    hide TailOk, Joined, ReadyOk, SuffixOf;
  }

  lemma BatchTaken(h: Host, cursor: nat, maxSize: nat, batch: seq<Entry>)
    requires IsBatch(h, cursor, maxSize, batch) && h.vol.committed <= |h.vol.log|
    requires BaseOf(h.store, h.unstable) <= h.vol.committed && cursor <= h.vol.committed
    ensures BatchOk(h.vol, Max(cursor, BaseOf(h.store, h.unstable)), batch)
  {
    var lo := Max(cursor, BaseOf(h.store, h.unstable));
    if lo < h.vol.committed {
      assert batch <= h.vol.log[lo..h.vol.committed];
      assert batch == h.vol.log[lo..h.vol.committed][..|batch|];
    }
  }

  lemma PendingAhead(h: Host)
    requires LogsOk(h) && h.stage == Idle && h.unstable.snap.Some?
    ensures h.disk.committed < h.unstable.snap.value.index <= h.vol.committed
  {
    hide TailOk, Joined, ReadyOk, SuffixOf;
  }

  lemma TakeReadyOk(voters: set<Id>, net: set<Msg>, x: Replica, maxSize: nat, x': Replica)
    requires AppOk(x) && Ground(x.host) && AppDoes(voters, net, x, TakeReady(maxSize), x')
    ensures AppOk(x')
  {
    hide LogsOk, TrailOk, BatchOk, IndexedFrom, Matching, IsBatch;
    if x.host.unstable.snap.Some? { PendingAhead(x.host); }
    BatchTaken(x.host, x.cursor, maxSize, x'.batch);
  }

  /** Behind which position a Ready's entries start. */
  function BatchStart(applied: nat, r: Ready): nat {
    if r.snap.Some? then r.snap.value.index else applied
  }

  /** What a Ready hands out starts right behind what was applied, or behind its snapshot, and is as much of what is
      committed from there on as fits, but something if there is anything. */
  lemma ReadyExact(voters: set<Id>, net: set<Msg>, x: Replica, maxSize: nat, x': Replica)
    requires AppOk(x) && Ground(x.host) && AppDoes(voters, net, x, TakeReady(maxSize), x')
    ensures var n, from := x.host.vol, BatchStart(x.appliedIndex, x'.host.ready);
            && x'.host.ready.node == n && x.appliedIndex <= from <= n.committed <= |n.log|
            && LimitedTo(n.log[from..n.committed], maxSize, x'.batch)
  {
    hide LogsOk, TrailOk, BatchOk, IndexedFrom, Matching, LimitedTo;
    if x.host.unstable.snap.Some? { PendingAhead(x.host); }
    var from := if x.host.unstable.snap.Some? then x.host.unstable.snap.value.index else x.appliedIndex;
    if from == x.host.vol.committed {
      EmptyLimit(maxSize);
      assert x.host.vol.log[from..from] == [];
    }
  }

  /** A delivered batch is published whole: no gap, no repeat. */
  lemma DeliverExact(x: Replica)
    requires AppOk(x) && Ordered(x.host.disk, x.host.vol) && x.host.stage == Stored && x.phase == Fresh
             && x.host.disk.committed < TWO_64 - 1
    ensures IndexedFrom(x.batch, From(x))
    ensures Publish(x.appliedIndex, SnapIndexOf(x.host.ready), x.batch)
         == Done(From(x) + |x.batch|, (if x.host.ready.snap.Some? then [Jumped(From(x))] else []) + AllApplied(x.batch))
  {
    hide TrailOk, Publish, Matching;
    PublishesAll(x.appliedIndex, SnapIndexOf(x.host.ready), x.batch);
  }

  lemma BatchFromLog(n: Node, lo: nat, batch: seq<Entry>, m: Seen)
    requires BatchOk(n, lo, batch) && IndexedFrom(n.log, 0) && m in AllApplied(batch)
    ensures FromLog(m, n)
  {
    var i :| 0 <= i < |batch| && AllApplied(batch)[i] == m;
    assert batch[i] == n.log[lo + i];
  }

  lemma DeliverOk(voters: set<Id>, net: set<Msg>, x: Replica, x': Replica)
    requires AppOk(x) && Ground(x.host) && AppDoes(voters, net, x, Deliver, x') && x.host.disk.committed < TWO_64 - 1
    ensures AppOk(x')
  {
    hide LogsOk, Matching, Publish, TrailOk, AllApplied, IndexedFrom;
    DeliverExact(x);
    DeliveredTrail(x);
  }

  lemma DeliveredTrail(x: Replica)
    requires AppOk(x) && Ordered(x.host.disk, x.host.vol) && x.host.stage == Stored && x.phase == Fresh
    requires x.host.disk.committed < TWO_64 - 1
    ensures var p := Publish(x.appliedIndex, SnapIndexOf(x.host.ready), x.batch);
            p.Done? && TrailOk(x.trail + p.seen, p.applied, x.host.disk)
  {
    hide Matching, Publish, Contiguous, FromLog, AllApplied, IndexedFrom;
    DeliverExact(x);
    var p := Publish(x.appliedIndex, SnapIndexOf(x.host.ready), x.batch);
    PublishContiguous(x.trail, x.appliedIndex, SnapIndexOf(x.host.ready), x.batch);
    forall m | m in x.trail + p.seen ensures FromLog(m, x.host.disk) {
      if m in AllApplied(x.batch) {
        BatchFromLog(x.host.disk, From(x), x.batch, m);
      } else {
        JumpFromLog(m, x.host.disk);
      }
    }
  }

  lemma JumpFromLog(m: Seen, n: Node)
    ensures m.Jumped? ==> FromLog(m, n)
  {
  }

  lemma DueExact(x: Replica)
    requires x.host.snapIndex <= x.appliedIndex < TWO_64
    ensures Due(x) <==> x.appliedIndex > x.host.snapIndex + SNAP_COUNT
    ensures x.appliedIndex > CATCH_UP ==> CompactAt(x.appliedIndex) == x.appliedIndex - CATCH_UP
  {
    Sub64Exact(x.appliedIndex, x.host.snapIndex);
    if x.appliedIndex > CATCH_UP { Sub64Exact(x.appliedIndex, CATCH_UP); }
  }

  lemma TriggerOk(voters: set<Id>, net: set<Msg>, x: Replica, a: AppAction, x': Replica)
    requires AppOk(x) && Ground(x.host) && AppDoes(voters, net, x, a, x') && x.host.disk.committed < TWO_64 - 1
    requires a.NoTrigger? || a.Trigger? || a.Trim?
    ensures AppOk(x')
  {
    hide LogsOk, TrailOk, Ordered, Due, CompactAt;
    DueExact(x);
  }

  /** Advance moves the cursor to what the application has applied, and its range check holds. */
  lemma CursorExact(x: Replica)
    requires AppOk(x) && Ordered(x.host.disk, x.host.vol) && x.host.stage == Stored && x.phase != Fresh
    ensures CursorAfter(x) == Some(x.appliedIndex)
  {
    hide TrailOk, Matching;
    if x.batch != [] {
      assert x.batch[|x.batch| - 1] == x.host.disk.log[x.appliedIndex - 1];
    }
  }

  lemma ConfirmOk(voters: set<Id>, net: set<Msg>, x: Replica, x': Replica)
    requires AppOk(x) && Ground(x.host) && AppDoes(voters, net, x, Confirm, x')
    ensures AppOk(x')
  {
    hide LogsOk, TrailOk, Ordered, SelfAcked, Stabilised, CursorAfter;
    CursorExact(x);
  }

  lemma KillOk(voters: set<Id>, net: set<Msg>, x: Replica, x': Replica)
    requires AppOk(x) && Ground(x.host) && AppDoes(voters, net, x, Kill, x')
    ensures AppOk(x')
  {
    hide TailOk, Joined, ReadyOk, SuffixOf, Matching, IndexedFrom;
  }

  lemma AppKept(voters: set<Id>, net: set<Msg>, x: Replica, a: AppAction, x': Replica)
    requires AppOk(x) && Ground(x.host) && AppDoes(voters, net, x, a, x') && x.host.disk.committed < TWO_64 - 1
    ensures AppOk(x')
  {
    hide AppOk, Ground, AppDoes;
    match a {
      case Plain(b) => PlainOk(voters, net, x, b, x');
      case TakeReady(maxSize) => TakeReadyOk(voters, net, x, maxSize, x');
      case Deliver => DeliverOk(voters, net, x, x');
      case Confirm => ConfirmOk(voters, net, x, x');
      case Kill => KillOk(voters, net, x, x');
      case _ => TriggerOk(voters, net, x, a, x');
    }
  }
}
