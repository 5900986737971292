/** The two-part log of a node that works on while its entries are being stored. */
module BufferedLog {
  import opened RaftTypes
  import opened LogView
  import opened LogStore
  import opened Quorum
  import opened RaftNode
  import opened Core = RaftCore
  import opened Cluster
  import opened ClusterSafety
  import opened Buffered
  import opened BufferedSim

  /** The unstable entries are the end of the log in memory. */
  ghost predicate TailOk(u: Unstable, log: seq<Entry>) {
    0 < u.offset <= |log| + 1 && u.ents == log[u.offset - 1..]
  }

  // ---------------------------------------------------------------- facts from the atomic cluster

  /** What holds of a node at an earlier and a later moment. */
  ghost predicate Ordered(a: Node, b: Node) {
    && a.committed <= b.committed && a.committed <= |a.log| && b.committed <= |b.log|
    && a.log[..a.committed] <= b.log
    && IndexedFrom(a.log, 0) && IndexedFrom(b.log, 0)
    && Matching(a.log, b.log)
  }

  lemma LogIndexed(lls: LeaderLogs, log: seq<Entry>)
    requires Traced(lls, log) && Indexed(lls)
    ensures IndexedFrom(log, 0)
  {
  }

  lemma NodeIndexed(run: seq<Cluster>, i: nat, v: Id)
    requires IsRun(run) && i < |run| && v in run[i].nodes
    ensures IndexedFrom(run[i].nodes[v].log, 0) && run[i].nodes[v].committed <= |run[i].nodes[v].log|
  {
    hide Initial, Next, CoreInv, MsgOk, CommitKnown, ReadInv, Indexed, IndexedFrom, Traced, LeaderLogsOk;
    RunInv(run, i);
    NodeLogTraced(run[i], v);
    LogIndexed(run[i].core.leaderLog, run[i].nodes[v].log);
  }

  lemma RunOrdered(run: seq<Cluster>, i: nat, j: nat, v: Id)
    requires IsRun(run) && i <= j < |run| && v in run[i].nodes
    ensures v in run[j].nodes && Ordered(run[i].nodes[v], run[j].nodes[v])
  {
    hide Initial, Next, IndexedFrom, Later;
    RunLater(run, i, j);
    NodeIndexed(run, i, v);
    NodeIndexed(run, j, v);
    CommittedIsKept(run, i, j, v);
    var a, b := run[i].nodes[v].log, run[j].nodes[v].log;
    forall k: nat {:trigger a[..k]} | 0 < k <= |a| && k <= |b| && a[k - 1].term == b[k - 1].term
      ensures a[..k] == b[..k]
    {
      LogMatching(run, i, j, v, v, k);
    }
  }

  /** The node on disk, the one in the Ready and the one in memory follow each other in the atomic cluster. */
  lemma HostOrdered(run: seq<Cluster>, s: System, v: Id)
    requires Backs(run, s) && v in s.hosts
    ensures var h := s.hosts[v];
            && Ordered(h.disk, h.vol)
            && (h.stage != Idle ==> Ordered(h.disk, h.ready.node) && Ordered(h.ready.node, h.vol))
  {
    hide IsRun, Follows, Ordered;
    var h := s.hosts[v];
    NonEmptyRun(run);
    assert run[|run| - 1].nodes[v] == h.disk;
    if h.stage == Accepted {
      var run1 := ReplayOrdered(run, s.net, v, h.before, h.ready.node, h.ready.out);
      var run2 := ReplayOrdered(run1, s.net, v, h.since, h.vol, h.outbox);
      RunOrdered(run2, |run| - 1, |run2| - 1, v);
    } else {
      var _ := ReplayOrdered(run, s.net, v, h.since, h.vol, h.outbox);
      RunOrdered(run, |run| - 1, |run| - 1, v);
    }
  }

  lemma NonEmptyRun(run: seq<Cluster>)
    requires IsRun(run)
    ensures run != []
  {
    hide Initial, Next;
  }

  /** A node and what its pending events make of it. */
  lemma ReplayOrdered(run: seq<Cluster>, net: set<Msg>, v: Id, evs: seq<Event>, n': Node, out: set<Msg>)
      returns (run': seq<Cluster>)
    requires run != [] && IsRun(run) && v in run[|run| - 1].nodes && net <= run[|run| - 1].msgs
    requires Follows(run[|run| - 1].voters, net, run[|run| - 1].nodes[v], evs, n', out)
    ensures IsRun(run') && run' != [] && run <= run' && Ordered(run[|run| - 1].nodes[v], n')
    ensures var c, c' := run[|run| - 1], run'[|run'| - 1];
            c'.voters == c.voters && v in c'.nodes && c'.nodes[v] == n' && c.msgs <= c'.msgs
  {
    hide IsRun, Follows, Ordered, Spoils;
    run' := CatchUp(run, v, net, evs, n', out);
    NonEmptyRun(run');
    RunOrdered(run', |run| - 1, |run'| - 1, v);
  }

  // ---------------------------------------------------------------- the invariant of one host

  ghost predicate StoreOk(h: Host) {
    SuffixOf(h.store, h.disk.log) && h.store.base <= h.disk.committed && h.snapIndex <= h.disk.committed
  }

  /** The node whose log storage holds, or will hold once the Ready in flight is stored. */
  function Settling(h: Host): Node {
    if h.stage == Accepted then h.ready.node else h.disk
  }

  function SettlingBase(h: Host): nat {
    if h.stage == Accepted && h.ready.snap.Some? then h.ready.snap.value.index else h.store.base
  }

  /** The pending snapshot that the Ready in flight carries. */
  function Carried(h: Host): Option<SnapMeta> {
    if h.stage == Idle then None else h.ready.snap
  }

  ghost predicate SnapOk(s: SnapMeta, offset: nat, n: Node) {
    0 < s.index <= n.committed && offset == s.index + 1 && s.term == TermAt(n.log, s.index)
  }

  /** Below the offset, and up to where storage begins, what storage holds or will hold is the log. */
  ghost predicate Joined(u: Unstable, stored: seq<Entry>, base: nat, log: seq<Entry>) {
    && 0 < u.offset && u.offset - 1 <= |stored| && u.offset - 1 <= |log|
         && stored[..u.offset - 1] == log[..u.offset - 1]
    && base <= |stored| && base <= |log| && stored[..base] == log[..base]
    && (u.ents == [] ==> u.offset == |stored| + 1)
  }

  /** A log that is not what was stored goes on behind what was committed then. */
  ghost predicate Beyond(stored: Node, log: seq<Entry>) {
    log == stored.log || stored.committed < |log|
  }

  function FirstNew(r: Ready): nat
    requires |r.ents| <= |r.node.log|
  {
    |r.node.log| + 1 - |r.ents|
  }

  /** Storing this Ready will make storage hold the log it was taken from. */
  ghost predicate ReadyOk(r: Ready, disk: Node, base: nat) {
    && |r.ents| <= |r.node.log| && r.ents == r.node.log[|r.node.log| - |r.ents|..]
    && match r.snap
       case Some(s) => SnapOk(s, FirstNew(r), r.node) && disk.committed < s.index
       case None => Joined(Unstable(FirstNew(r), r.ents, None), disk.log, base, r.node.log) && Beyond(disk, r.node.log)
  }

  ghost predicate LogsOk(h: Host) {
    && StoreOk(h) && TailOk(h.unstable, h.vol.log) && Beyond(Settling(h), h.vol.log)
    && (h.unstable.snap.Some? ==> SnapOk(h.unstable.snap.value, h.unstable.offset, h.vol))
    && (if h.unstable.snap == Carried(h) then Joined(h.unstable, Settling(h).log, SettlingBase(h), h.vol.log)
        else h.unstable.snap.Some? && Settling(h).committed < h.unstable.snap.value.index)
    && (h.stage == Accepted ==> ReadyOk(h.ready, h.disk, h.store.base))
    && (h.stage == Accepted && h.unstable.snap == h.ready.snap ==> h.unstable.offset <= FirstNew(h.ready))
    && (h.stage != Idle && h.ready.snap.Some? ==> h.ready.snap.value.index <= h.ready.node.committed)
  }

  lemma AppendOnward(v: View, committed: nat, index: nat, logTerm: Term, commit: nat, ents: seq<Entry>)
    ensures match MaybeAppend(v, committed, index, logTerm, commit, ents)
            case Appended(_, c, _) => committed <= c
            case _ => true
  {
  }

  lemma DispatchOnward(voters: set<Id>, n: Node, m: Msg)
    requires Dispatch(voters, n, m).Step?
    ensures n.committed <= Dispatch(voters, n, m).node.committed
  {
    hide MaybeAppend, ConflictByTerm, CommittedIndex, IsQuorum, UpToDate, VoteWon, VoteLost;
    if m.App? { AppendOnward(FullView(n.log), n.committed, m.index, m.logTerm, m.commit, m.entries); }
  }

  lemma HandleOnward(voters: set<Id>, n: Node, ev: Event)
    requires Handle(voters, n, ev).Step?
    ensures n.committed <= Handle(voters, n, ev).node.committed
  {
    hide Dispatch, VoteWon, CommittedIndex;
    if ev.Recv? && n.term <= ev.m.term { DispatchOnward(voters, MeetTerm(voters, n, ev.m), ev.m); }
  }

  // ---------------------------------------------------------------- local events

  lemma WriteTail(u: Unstable, log: seq<Entry>, ents: seq<Entry>)
    requires TailOk(u, log) && ents != [] && 0 < ents[0].index <= |log| + 1
    ensures ents[0].index <= u.offset + |u.ents|
    ensures TailOk(TruncateAndAppend(u, ents), log[..ents[0].index - 1] + ents)
  {
    var after := ents[0].index;
    var log', u' := log[..after - 1] + ents, TruncateAndAppend(u, ents);
    if after > u.offset {
      assert u.ents[..after - u.offset] == log[u.offset - 1..after - 1];
      assert u'.ents == log'[u.offset - 1..];
    } else {
      assert u'.ents == log'[after - 1..];
    }
  }

  lemma WriteJoined(u: Unstable, stored: seq<Entry>, base: nat, log: seq<Entry>, ents: seq<Entry>)
    requires TailOk(u, log) && Joined(u, stored, base, log) && ents != [] && base < ents[0].index <= |log| + 1
    requires ents[0].index <= u.offset + |u.ents|
    ensures Joined(TruncateAndAppend(u, ents), stored, base, log[..ents[0].index - 1] + ents)
    ensures TruncateAndAppend(u, ents).offset <= u.offset
  {
    var after := ents[0].index;
    var log', u' := log[..after - 1] + ents, TruncateAndAppend(u, ents);
    var o := u'.offset - 1;
    assert log'[..o] == log[..o] && log'[..base] == log[..base];
    assert stored[..o] == stored[..u.offset - 1][..o] == log[..u.offset - 1][..o];
  }

  lemma SettlingBelow(h: Host)
    requires LogsOk(h) && Ordered(h.disk, h.vol)
             && (h.stage != Idle ==> Ordered(h.disk, h.ready.node) && Ordered(h.ready.node, h.vol))
    ensures SettlingBase(h) <= h.vol.committed && Settling(h).committed <= h.vol.committed
    ensures Carried(h).Some? ==> Carried(h).value.index <= Settling(h).committed || h.stage == Stored
    ensures Carried(h).Some? ==> Carried(h).value.index <= h.vol.committed
  {
    hide TailOk, Joined, SuffixOf, Matching, IndexedFrom;
  }

  /** h' is h with another node in memory. */
  ghost predicate Memory(h: Host, h': Host) {
    h' == h.(vol := h'.vol, unstable := h'.unstable, outbox := h'.outbox, since := h'.since)
  }

  lemma KeepLogs(h: Host, h': Host)
    requires LogsOk(h) && Memory(h, h') && h'.unstable == h.unstable && h'.vol.log == h.vol.log
             && h.vol.committed <= h'.vol.committed
    ensures LogsOk(h')
  {
    hide TailOk, Joined, ReadyOk, SuffixOf;
  }

  lemma WriteLogs(h: Host, h': Host, ents: seq<Entry>)
    requires LogsOk(h) && Memory(h, h') && ents != [] && h.vol.committed < ents[0].index <= |h.vol.log| + 1
    requires ents[0].index <= h.unstable.offset + |h.unstable.ents|
             && h'.unstable == TruncateAndAppend(h.unstable, ents)
    requires h'.vol.log == h.vol.log[..ents[0].index - 1] + ents && h.vol.committed <= h'.vol.committed
    requires SettlingBase(h) <= h.vol.committed && Settling(h).committed <= h.vol.committed
    ensures LogsOk(h')
  {
    hide TailOk, Joined, ReadyOk, SuffixOf;
    WriteTail(h.unstable, h.vol.log, ents);
    if h.unstable.snap == Carried(h) {
      WriteJoined(h.unstable, Settling(h).log, SettlingBase(h), h.vol.log, ents);
    }
  }

  lemma ReloadLogs(h: Host, h': Host, snap: SnapMeta)
    requires LogsOk(h) && Memory(h, h') && h'.unstable == Restored(snap)
    requires h.vol.committed < snap.index == |h'.vol.log| == h'.vol.committed && snap.term == LastTerm(h'.vol.log)
    requires Settling(h).committed <= h.vol.committed
             && (Carried(h).Some? ==> Carried(h).value.index <= h.vol.committed)
    ensures LogsOk(h')
  {
    hide Joined, ReadyOk, SuffixOf;
  }

  lemma LocalLogs(voters: set<Id>, net: set<Msg>, h: Host, ev: Event, op: LogOp, h': Host)
    requires LogsOk(h) && Ordered(h.disk, h.vol)
             && (h.stage != Idle ==> Ordered(h.disk, h.ready.node) && Ordered(h.ready.node, h.vol))
    requires Does(voters, net, h, Local(ev, op), h')
    ensures LogsOk(h')
  {
    hide Handle, CanHappen, LogsOk, Ordered, IndexedFrom;
    SettlingBelow(h);
    HandleOnward(voters, h.vol, ev);
    match op {
      case Keep => KeepLogs(h, h');
      case Write(ents) => WriteLogs(h, h', ents);
      case Reload(snap) => ReloadLogs(h, h', snap);
    }
  }

  // ---------------------------------------------------------------- accepting and storing a Ready

  lemma AcceptLogs(voters: set<Id>, net: set<Msg>, h: Host, h': Host)
    requires LogsOk(h) && Ordered(h.disk, h.vol) && Does(voters, net, h, Accept, h')
    ensures LogsOk(h')
  {
    hide Matching, IndexedFrom, SuffixOf;
    assert |h.vol.log| + 1 - |h.unstable.ents| == h.unstable.offset;
  }

  /** Storage holding a log up to some position, with entries of another log written after it. */
  lemma AppendSuffix(store: View, log: seq<Entry>, n: seq<Entry>, first: nat)
    requires SuffixOf(store, log) && store.base < first <= |log| + 1 && first <= |n| + 1
             && log[..first - 1] == n[..first - 1]
    requires IndexedFrom(n, 0) && (first == |n| + 1 ==> |log| == |n|)
    ensures StoreAppend(store, n[first - 1..]).Some? && SuffixOf(StoreAppend(store, n[first - 1..]).value, n)
    ensures StoreAppend(store, n[first - 1..]).value.base == store.base
  {
    var ents := n[first - 1..];
    assert TermAt(log, store.base) == TermAt(n, store.base) by {
      assert store.base > 0 ==> log[..first - 1][store.base - 1] == n[..first - 1][store.base - 1];
    }
    if ents == [] {
      assert log == log[..first - 1] && n == n[..first - 1];
    } else {
      assert ents[0].index == first;
      var store' := StoreAppend(store, ents).value;
      assert store.ents[..first - store.base - 1] == log[store.base..first - 1] == log[..first - 1][store.base..];
      assert store'.ents == n[..first - 1][store.base..] + ents == n[store.base..];
    }
  }

  /** The same, when storage was compacted to a position behind the first of the entries. */
  lemma AppendCompacted(store: View, log: seq<Entry>, n: seq<Entry>, first: nat)
    requires SuffixOf(store, log) && 0 < first <= store.base <= |n| && log[..store.base] == n[..store.base]
    requires IndexedFrom(n, 0) && (log == n || store.base < |n|)
    ensures StoreAppend(store, n[first - 1..]).Some? && SuffixOf(StoreAppend(store, n[first - 1..]).value, n)
    ensures StoreAppend(store, n[first - 1..]).value.base == store.base
  {
    var ents, b := n[first - 1..], store.base;
    assert ents[0].index == first;
    hide IndexedFrom;
    assert TermAt(log, b) == TermAt(n, b) by {
      assert log[..b][b - 1] == n[..b][b - 1];
    }
    if b < |n| {
      assert StoreAppend(store, ents) == Some(store.(ents := n[b..])) by {
        assert ents[b + 1 - first..] == n[b..];
        assert store.ents[..0] + n[b..] == n[b..];
      }
    } else {
      assert StoreAppend(store, ents) == Some(store);
    }
  }

  lemma SnapReadyStored(store: View, snapIndex: nat, r: Ready, disk: Node, base: nat)
    requires ReadyOk(r, disk, base) && r.snap.Some? && snapIndex <= disk.committed && IndexedFrom(r.node.log, 0)
    requires r.node.committed <= |r.node.log|
    ensures StoreReady(store, snapIndex, r).Some?
    ensures var st := StoreReady(store, snapIndex, r).value; SuffixOf(st, r.node.log) && st.base == r.snap.value.index
  {
    hide StoreAppend;
    var s := r.snap.value;
    AppendSuffix(View(s.index, s.term, []), r.node.log[..s.index], r.node.log, s.index + 1);
  }

  lemma PlainReadyStored(store: View, snapIndex: nat, r: Ready, disk: Node)
    requires ReadyOk(r, disk, store.base) && r.snap.None? && IndexedFrom(r.node.log, 0)
    requires SuffixOf(store, disk.log) && store.base <= disk.committed
    ensures StoreReady(store, snapIndex, r).Some?
    ensures var st := StoreReady(store, snapIndex, r).value; SuffixOf(st, r.node.log) && st.base == store.base
  {
    hide StoreAppend, SuffixOf, IndexedFrom;
    if store.base < FirstNew(r) {
      AppendSuffix(store, disk.log, r.node.log, FirstNew(r));
    } else {
      AppendCompacted(store, disk.log, r.node.log, FirstNew(r));
    }
  }

  /** A Ready can always be stored, and then storage holds the log it was taken from. */
  lemma StoreReadyOk(h: Host)
    requires LogsOk(h) && h.stage == Accepted && Ordered(h.disk, h.ready.node)
    ensures StoreReady(h.store, h.snapIndex, h.ready).Some?
    ensures var st := StoreReady(h.store, h.snapIndex, h.ready).value;
            SuffixOf(st, h.ready.node.log) && st.base == SettlingBase(h)
  {
    hide TailOk, Matching, Joined, ReadyOk, SuffixOf, IndexedFrom, StoreReady, Beyond;
    if h.ready.snap.Some? {
      SnapReadyStored(h.store, h.snapIndex, h.ready, h.disk, h.store.base);
    } else {
      PlainReadyStored(h.store, h.snapIndex, h.ready, h.disk);
    }
  }

  lemma PersistLogs(voters: set<Id>, net: set<Msg>, h: Host, h': Host)
    requires LogsOk(h) && Ordered(h.disk, h.ready.node) && Does(voters, net, h, Persist, h')
    ensures LogsOk(h')
  {
    StoreReadyOk(h);
    hide TailOk, Joined, SuffixOf, Matching, IndexedFrom, StoreReady;
  }

  // ---------------------------------------------------------------- Advance

  /** While stableTo drops entries, no other snapshot than the Ready's own is pending. */
  ghost predicate SafeAdvance(u: Unstable, r: Ready) {
    LastOf(r).Some? && Drops(u, LastOf(r).value.0, LastOf(r).value.1) ==>
        u.snap.None? || u.snap.value.index == SnapOf(r)
  }

  /** The log the two parts stand for is the log in memory, but for what was compacted. */
  ghost predicate OverlayOk(h: Host) {
    Coherent(h.store, h.unstable) && SuffixOf(LogOf(h.store, h.unstable), h.vol.log)
  }

  /** The entry that ends the stored log, found again in memory, has the same log before it. */
  lemma StoredPrefix(h: Host, i: nat, t: Term)
    requires TailOk(h.unstable, h.vol.log) && Ordered(h.disk, h.vol) && Drops(h.unstable, i, t)
    requires i == |h.disk.log| && t == LastTerm(h.disk.log)
    ensures i <= |h.vol.log| && h.disk.log == h.vol.log[..i]
  {
    assert h.vol.log[i - 1] == h.unstable.ents[i - h.unstable.offset];
    assert h.disk.log[..i] == h.disk.log;
  }

  /** stableTo drops only entries that storage holds. */
  lemma DropsOnlyStored(h: Host, i: nat, t: Term, k: nat)
    requires TailOk(h.unstable, h.vol.log) && Ordered(h.disk, h.vol) && SuffixOf(h.store, h.disk.log)
             && Drops(h.unstable, i, t)
    requires i == |h.disk.log| && t == LastTerm(h.disk.log) && h.store.base < k && h.unstable.offset <= k <= i
    ensures k <= Last(h.store) && EntryAt(h.store, k) == h.unstable.ents[k - h.unstable.offset]
  {
    StoredPrefix(h, i, t);
    assert h.vol.log[k - 1] == h.unstable.ents[k - h.unstable.offset];
  }

  lemma StableTail(u: Unstable, log: seq<Entry>, last: Option<(nat, Term)>, snapIndex: nat)
    requires TailOk(u, log)
    ensures TailOk(Stabilised(u, last, snapIndex), log)
  {
  }

  lemma AckOnward(voters: set<Id>, h: Host)
    requires SelfAcked(voters, h).Step?
    ensures SelfAcked(voters, h).node.log == h.vol.log && h.vol.committed <= SelfAcked(voters, h).node.committed
  {
    hide CommittedIndex;
  }

  /** Advance with no newer snapshot pending. */
  lemma AdvanceJoined(h: Host)
    requires LogsOk(h) && h.stage == Stored && Ordered(h.disk, h.vol) && h.unstable.snap == h.ready.snap
    requires LastOf(h.ready).Some? ==> LastOf(h.ready).value == (|h.disk.log|, LastTerm(h.disk.log))
    ensures var u' := Stabilised(h.unstable, LastOf(h.ready), SnapOf(h.ready));
            u'.snap == None && Joined(u', h.disk.log, h.store.base, h.vol.log)
  {
    if LastOf(h.ready).Some? && Drops(h.unstable, LastOf(h.ready).value.0, LastOf(h.ready).value.1) {
      StoredPrefix(h, LastOf(h.ready).value.0, LastOf(h.ready).value.1);
    }
  }

  lemma AdvanceLogs(voters: set<Id>, net: set<Msg>, h: Host, h': Host)
    requires LogsOk(h) && Ordered(h.disk, h.vol) && h.disk == h.ready.node && Does(voters, net, h, Advance, h')
    requires LastOf(h.ready).Some? ==> LastOf(h.ready).value == (|h.disk.log|, LastTerm(h.disk.log))
    requires SafeAdvance(h.unstable, h.ready)
    ensures LogsOk(h')
  {
    hide SelfAcked, TailOk, Joined, SuffixOf, Matching, IndexedFrom, ReadyOk;
    AckOnward(voters, h);
    StableTail(h.unstable, h.vol.log, LastOf(h.ready), SnapOf(h.ready));
    if h.unstable.snap == h.ready.snap {
      AdvanceJoined(h);
    }
  }

  // ---------------------------------------------------------------- the other actions

  lemma CrashLogs(voters: set<Id>, net: set<Msg>, h: Host, h': Host)
    requires LogsOk(h) && Ordered(h.disk, h.vol) && Does(voters, net, h, Crash, h')
    ensures LogsOk(h')
  {
    hide Matching, IndexedFrom, ReadyOk;
  }

  lemma CompactLogs(voters: set<Id>, net: set<Msg>, h: Host, k: nat, h': Host)
    requires LogsOk(h) && Ordered(h.disk, h.vol) && Does(voters, net, h, Compact(k), h')
    ensures LogsOk(h')
  {
    hide TailOk, ReadyOk, Matching, IndexedFrom, Beyond;
    var c := h.disk.committed;
    assert h.disk.log[..k] == h.disk.log[..c][..k] == h.vol.log[..c][..k] == h.vol.log[..k];
    assert SuffixOf(h'.store, h'.disk.log) by {
      assert TermOf(h.store, k) == TermAt(h.disk.log, k);
    }
  }

  lemma DoesLogs(voters: set<Id>, net: set<Msg>, h: Host, a: Action, h': Host)
    requires LogsOk(h) && Ordered(h.disk, h.vol)
             && (h.stage != Idle ==> Ordered(h.disk, h.ready.node) && Ordered(h.ready.node, h.vol))
    requires h.stage == Stored ==> h.disk == h.ready.node
    requires h.stage != Idle && LastOf(h.ready).Some? ==>
             LastOf(h.ready).value == (|h.ready.node.log|, LastTerm(h.ready.node.log))
    requires Does(voters, net, h, a, h') && (a.Advance? ==> SafeAdvance(h.unstable, h.ready))
    ensures LogsOk(h')
  {
    hide LogsOk, Ordered, SafeAdvance;
    match a {
      case Local(ev, op) => LocalLogs(voters, net, h, ev, op, h');
      case Accept => AcceptLogs(voters, net, h, h');
      case Persist => PersistLogs(voters, net, h, h');
      case Send(_) =>
      case Pause =>
      case Advance => AdvanceLogs(voters, net, h, h');
      case Crash => CrashLogs(voters, net, h, h');
      case Compact(k) => CompactLogs(voters, net, h, k, h');
      case TakeSnapshot(k) => TakeLogs(voters, net, h, k, h');
    }
  }

  lemma TakeLogs(voters: set<Id>, net: set<Msg>, h: Host, k: nat, h': Host)
    requires LogsOk(h) && Does(voters, net, h, TakeSnapshot(k), h')
    ensures LogsOk(h')
  {
    hide TailOk, Joined, SuffixOf, ReadyOk;
  }

  // ---------------------------------------------------------------- the end of the log

  /** The unstable entries are the end of the log in memory, and a Ready's last entry is the end of the log it has. */
  ghost predicate TailInv(h: Host) {
    && TailOk(h.unstable, h.vol.log)
    && (h.stage != Idle && LastOf(h.ready).Some? ==>
         LastOf(h.ready).value == (|h.ready.node.log|, LastTerm(h.ready.node.log)))
  }

  lemma TailKept(voters: set<Id>, net: set<Msg>, h: Host, a: Action, h': Host)
    requires TailInv(h) && Ordered(h.disk, h.vol) && Does(voters, net, h, a, h')
    ensures TailInv(h')
  {
    hide Handle, CanHappen, Matching, SelfAcked;
    match a {
      case Local(_, op) =>
        if op.Write? { WriteTail(h.unstable, h.vol.log, op.ents); }
      case Advance =>
        AckOnward(voters, h);
        StableTail(h.unstable, h.vol.log, LastOf(h.ready), SnapOf(h.ready));
      case _ =>
    }
  }

  /** With no snapshot pending, storage itself holds what is below the offset. */
  lemma JoinedDisk(h: Host)
    requires LogsOk(h) && h.unstable.snap == None
    ensures Joined(h.unstable, h.disk.log, h.store.base, h.vol.log)
  {
    if h.stage == Accepted {
      var o := h.unstable.offset - 1;
      var f := FirstNew(h.ready) - 1;
      assert h.disk.log[..o] == h.disk.log[..f][..o] == h.ready.node.log[..f][..o] == h.ready.node.log[..o];
    }
  }

  lemma StoreValid(store: View, log: seq<Entry>)
    requires SuffixOf(store, log) && IndexedFrom(log, 0)
    ensures ValidView(store)
  {
  }

  lemma JoinedOverlay(store: View, u: Unstable, stored: seq<Entry>, log: seq<Entry>)
    requires SuffixOf(store, stored) && ValidView(store) && IndexedFrom(log, 0) && TailOk(u, log) && u.snap == None
    requires Joined(u, stored, store.base, log) && store.base < u.offset
    ensures Coherent(store, u) && SuffixOf(LogOf(store, u), log)
  {
    assert IndexedFrom(u.ents, u.offset - 1);
    var b, o := store.base, u.offset - 1;
    assert Reaches(store, u);
    assert TermAt(stored, b) == TermAt(log, b) by {
      assert b > 0 ==> stored[..o][b - 1] == log[..o][b - 1];
    }
    assert store.ents[..o - b] == stored[b..o] == stored[..o][b..] == log[..o][b..];
    assert StoredPart(store, u) == log[..o][b..];
    assert log[..o][b..] + log[o..] == log[b..];
  }

  lemma CompactedOverlay(store: View, u: Unstable, stored: seq<Entry>, log: seq<Entry>)
    requires SuffixOf(store, stored) && ValidView(store) && IndexedFrom(log, 0) && TailOk(u, log) && u.snap == None
    requires Joined(u, stored, store.base, log) && u.offset <= store.base
    ensures Coherent(store, u) && SuffixOf(LogOf(store, u), log)
  {
    assert IndexedFrom(u.ents, u.offset - 1);
    var b := store.base;
    assert store.baseTerm == u.ents[b - u.offset].term == TermAt(log, b) by {
      assert stored[..b][b - 1] == log[..b][b - 1];
    }
    assert u.ents[b + 1 - u.offset..] == log[b..];
  }

  lemma SnapOverlay(store: View, u: Unstable, n: Node)
    requires ValidView(store) && IndexedFrom(n.log, 0) && TailOk(u, n.log) && u.snap.Some?
             && SnapOk(u.snap.value, u.offset, n)
    ensures Coherent(store, u) && SuffixOf(LogOf(store, u), n.log)
  {
    assert IndexedFrom(u.ents, u.offset - 1);
    assert [] + u.ents == u.ents;
  }

  /** In a host whose logs are in order, the two parts stand for the log in memory. */
  lemma LogsOverlay(h: Host)
    requires LogsOk(h) && Ordered(h.disk, h.vol)
    ensures OverlayOk(h)
  {
    hide Joined, TailOk, SuffixOf, ReadyOk, Matching;
    StoreValid(h.store, h.disk.log);
    if h.unstable.snap.Some? {
      SnapOverlay(h.store, h.unstable, h.vol);
    } else {
      JoinedDisk(h);
      if h.store.base < h.unstable.offset {
        JoinedOverlay(h.store, h.unstable, h.disk.log, h.vol.log);
      } else {
        CompactedOverlay(h.store, h.unstable, h.disk.log, h.vol.log);
      }
    }
  }
}
