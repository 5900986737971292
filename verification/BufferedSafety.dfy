/** The theorems about whole runs of the buffered system. */
module BufferedSafety {
  import opened RaftTypes
  import opened LogView
  import opened LogStore
  import opened Quorum
  import opened RaftNode
  import opened Core = RaftCore
  import opened Cluster
  import opened ClusterSafety
  import opened Buffered
  import opened BufferedSim
  import opened BufferedLog
  import opened BufferedRestore

  ghost predicate HostsOk(s: System) {
    forall v :: v in s.hosts ==> EndsOk(s.hosts[v]) && TailInv(s.hosts[v])
  }

  lemma HostsKept(run: seq<Cluster>, s: System, s': System)
    requires Backs(run, s) && HostsOk(s) && SystemStep(s, s')
    ensures HostsOk(s')
  {
    hide Backs, EndsOk, TailInv, Does, Ordered;
    var v, a :| Acts(s, s', v, a);
    HostOrdered(run, s, v);
    EndsKept(s.voters, s.net, s.hosts[v], a, s'.hosts[v]);
    TailKept(s.voters, s.net, s.hosts[v], a, s'.hosts[v]);
  }

  lemma FirstTails(s: System)
    requires InitialSystem(s)
    ensures forall v :: v in s.hosts ==> TailInv(s.hosts[v])
  {
    hide FirstNode, BootLog;
    var boot :| BootLog(boot) && s == FirstSystem(s.voters, boot);
    forall v | v in s.hosts ensures TailInv(s.hosts[v]) {
      FirstTail(s.voters, v, boot);
    }
  }

  lemma FirstTail(voters: set<Id>, v: Id, boot: seq<Entry>)
    ensures TailInv(FirstHost(voters, v, boot))
  {
  }

  /** Refinement: at any two moments the disks are as in two moments of one run of the atomic cluster. */
  lemma RunBacked(sys: seq<System>, i: nat, j: nat) returns (run: seq<Cluster>, n: nat)
    requires IsSystemRun(sys) && i <= j < |sys|
    ensures 0 < n <= |run| && Backs(run[..n], sys[i]) && Backs(run, sys[j]) && HostsOk(sys[j])
    decreases j
  {
    hide Backs, EndsOk, TailInv, InitialSystem, HostsOk;
    if j == 0 {
      run := FirstBacked(sys[0]);
      FirstTails(sys[0]);
      FirstOk(sys[0]);
      n := |run|;
      NonEmpty(run, sys[0]);
      assert run[..n] == run;
    } else {
      var k := Min(i, j - 1);
      run, n := RunBacked(sys, k, j - 1);
      assert SystemStep(sys[j - 1], sys[j]);
      var run' := StepBacked(run, sys[j - 1], sys[j]);
      HostsKept(run, sys[j - 1], sys[j]);
      assert run'[..n] == run[..n];
      run := run';
      if i == j {
        n := |run|;
        assert run[..n] == run;
      }
    }
  }

  lemma FirstOk(s: System)
    requires forall v :: v in s.hosts ==> EndsOk(s.hosts[v])
    requires forall v :: v in s.hosts ==> TailInv(s.hosts[v])
    ensures HostsOk(s)
  {
  }

  lemma NonEmpty(run: seq<Cluster>, s: System)
    requires Backs(run, s)
    ensures run != []
  {
  }

  lemma StepBacked(run: seq<Cluster>, s: System, s': System) returns (run': seq<Cluster>)
    requires Backs(run, s) && SystemStep(s, s') && HostsOk(s)
    ensures Backs(run', s') && run <= run'
  {
    hide Backs, EndsOk, TailInv, Does;
    var v, a :| Acts(s, s', v, a);
    run' := ActBacked(run, s, s', v, a);
  }

  // ---------------------------------------------------------------- protocol safety with real storage

  /** What is durably committed on two disks, at any two moments, agrees. */
  lemma DurableStateMachineSafety(sys: seq<System>, i: nat, j: nat, u: Id, v: Id)
    requires IsSystemRun(sys) && i <= j < |sys| && u in sys[i].hosts && v in sys[j].hosts
    ensures var a, b := sys[i].hosts[u].disk, sys[j].hosts[v].disk;
            && a.committed <= |a.log| && b.committed <= |b.log|
            && (a.log[..a.committed] <= b.log[..b.committed] || b.log[..b.committed] <= a.log[..a.committed])
  {
    hide IsRun, HostTraced, IsSystemRun;
    var run, n := RunBacked(sys, i, j);
    assert run[..n][n - 1] == run[n - 1];
    StateMachineSafety(run, n - 1, |run| - 1, u, v);
  }

  /** The atomic run in which host v also did what it has only in memory. */
  lemma InMemory(run: seq<Cluster>, voters: set<Id>, net: set<Msg>, v: Id, h: Host) returns (run': seq<Cluster>)
    requires IsRun(run) && HostTraced(voters, net, h) && run != []
    requires var c := run[|run| - 1]; c.voters == voters && v in c.nodes && c.nodes[v] == h.disk && net <= c.msgs
    ensures IsRun(run') && run <= run'
    ensures var c, c' := run[|run| - 1], run'[|run'| - 1];
            && c'.voters == voters && c'.nodes == c.nodes[v := h.vol] && c.msgs <= c'.msgs
            && c'.spoiled <= c.spoiled + StoredSpoils(voters, h) + Spoils(voters, Settling(h), h.since)
  {
    hide IsRun, Follows, Spoils;
    run' := run;
    if h.stage == Accepted {
      run' := CatchUp(run, v, net, h.before, h.ready.node, h.ready.out);
      NonEmptyRun(run');
    }
    var mid := run'[|run'| - 1];
    assert mid.nodes == run[|run| - 1].nodes[v := Settling(h)];
    run' := CatchUp(run', v, net, h.since, h.vol, h.outbox);
  }

  /** One atomic run in which first u and then v is as it is in memory. */
  lemma TwoInMemory(sys: seq<System>, i: nat, u: Id, v: Id) returns (run: seq<Cluster>, n: nat)
    requires IsSystemRun(sys) && i < |sys| && u in sys[i].hosts && v in sys[i].hosts
    ensures IsRun(run) && n < |run| && run[n].voters == run[|run| - 1].voters == sys[i].voters
    ensures u in run[n].nodes && run[n].nodes[u] == sys[i].hosts[u].vol
    ensures v in run[|run| - 1].nodes && run[|run| - 1].nodes[v] == sys[i].hosts[v].vol
            && sys[i].net <= run[|run| - 1].msgs
  {
    hide IsRun, HostTraced, IsSystemRun, StoredSpoils, Spoils, Settling, HostsOk;
    var s := sys[i];
    var run0, _ := RunBacked(sys, i, i);
    run := InMemory(run0, s.voters, s.net, u, s.hosts[u]);
    NonEmptyRun(run);
    n := |run| - 1;
    if u != v {
      run := InMemory(run, s.voters, s.net, v, s.hosts[v]);
    }
  }

  /** Whatever can happen in memory happens without a panic. */
  lemma InMemoryNoPanic(sys: seq<System>, i: nat, v: Id, ev: Event)
    requires IsSystemRun(sys) && i < |sys| && v in sys[i].hosts && CanHappen(sys[i].net, sys[i].hosts[v].vol, ev)
    ensures Handle(sys[i].voters, sys[i].hosts[v].vol, ev) != Panic
  {
    hide IsRun, IsSystemRun, Handle;
    var run, n := TwoInMemory(sys, i, v, v);
    LastNode(run, v);
    CanStill(sys[i].net, run[|run| - 1].msgs, sys[i].hosts[v].vol, ev);
    NoPanic(run, |run| - 1, v, ev);
  }

  lemma LastNode(run: seq<Cluster>, v: Id)
    requires IsRun(run) && run != [] && v in run[|run| - 1].nodes
    ensures v in run[|run| - 1].voters && run[|run| - 1].nodes[v].id == v
  {
    hide Initial, Next;
    NodeIds(run, v);
  }

  /** Two nodes that lead the same term, even only in memory, are one. */
  lemma InMemoryElectionSafety(sys: seq<System>, i: nat, u: Id, v: Id)
    requires IsSystemRun(sys) && i < |sys| && u in sys[i].hosts && v in sys[i].hosts
    requires var a, b := sys[i].hosts[u].vol, sys[i].hosts[v].vol;
             a.role == Leader && b.role == Leader && a.term == b.term
    ensures u == v
  {
    hide IsRun, IsSystemRun;
    var run, n := TwoInMemory(sys, i, u, v);
    ElectionSafety(run, n, |run| - 1, u, v);
  }

  lemma InMemoryLogMatching(sys: seq<System>, i: nat, u: Id, v: Id, k: nat)
    requires IsSystemRun(sys) && i < |sys| && u in sys[i].hosts && v in sys[i].hosts
    requires var a, b := sys[i].hosts[u].vol.log, sys[i].hosts[v].vol.log;
             0 < k <= |a| && k <= |b| && a[k - 1].term == b[k - 1].term
    ensures sys[i].hosts[u].vol.log[..k] == sys[i].hosts[v].vol.log[..k]
  {
    hide IsRun, IsSystemRun;
    var run, n := TwoInMemory(sys, i, u, v);
    LogMatching(run, n, |run| - 1, u, v, k);
  }

  // ---------------------------------------------------------------- the log in two parts

  lemma FirstLogs(voters: set<Id>, v: Id, boot: seq<Entry>)
    requires BootLog(boot)
    ensures LogsOk(FirstHost(voters, v, boot)) && Apart(FirstHost(voters, v, boot))
  {
    assert boot[0..] == boot;
  }

  ghost predicate AllLogsOk(s: System) {
    forall v :: v in s.hosts ==> LogsOk(s.hosts[v]) && Apart(s.hosts[v])
  }

  lemma StoredIsDisk(run: seq<Cluster>, s: System, v: Id)
    requires Backs(run, s) && v in s.hosts && s.hosts[v].stage == Stored
    ensures s.hosts[v].disk == s.hosts[v].ready.node
  {
    hide IsRun, Follows;
  }

  lemma VolatileId(run: seq<Cluster>, s: System, v: Id)
    requires Backs(run, s) && v in s.hosts
    ensures s.hosts[v].vol.id == v
  {
    hide IsRun, HostTraced;
    NonEmptyRun(run);
    var run' := InMemory(run, s.voters, s.net, v, s.hosts[v]);
    NonEmptyRun(run');
    LastNode(run', v);
  }

  lemma StoredIsSafe(run: seq<Cluster>, s: System, v: Id)
    requires Backs(run, s) && HostsOk(s) && AllLogsOk(s) && v in s.hosts && s.hosts[v].stage == Stored
    ensures SafeAdvance(s.hosts[v].unstable, s.hosts[v].ready)
  {
    hide Backs, EndsOk, Ordered, LogsOk, Apart, TailInv, SafeAdvance;
    HostOrdered(run, s, v);
    StoredIsDisk(run, s, v);
    ApartIsSafe(s.hosts[v]);
  }

  lemma LogsKept(run: seq<Cluster>, s: System, s': System)
    requires Backs(run, s) && HostsOk(s) && SystemStep(s, s') && AllLogsOk(s)
    ensures AllLogsOk(s')
  {
    hide Backs, EndsOk, Does, Ordered, LogsOk, Apart, SafeAdvance;
    var v, a :| Acts(s, s', v, a);
    HostOrdered(run, s, v);
    VolatileId(run, s, v);
    if s.hosts[v].stage == Stored {
      StoredIsDisk(run, s, v);
      StoredIsSafe(run, s, v);
    }
    if a.Advance? { AdvanceStage(s.voters, s.net, s.hosts[v], s'.hosts[v]); }
    DoesLogs(s.voters, s.net, s.hosts[v], a, s'.hosts[v]);
    ApartKept(run, s, v, a, s'.hosts[v]);
  }

  lemma AdvanceStage(voters: set<Id>, net: set<Msg>, h: Host, h': Host)
    requires Does(voters, net, h, Advance, h')
    ensures h.stage == Stored
  {
  }

  lemma RunLogs(sys: seq<System>, j: nat) returns (run: seq<Cluster>)
    requires IsSystemRun(sys) && j < |sys|
    ensures Backs(run, sys[j]) && HostsOk(sys[j]) && AllLogsOk(sys[j])
    decreases j
  {
    hide Backs, HostsOk, InitialSystem, AllLogsOk, SystemStep;
    var n;
    run, n := RunBacked(sys, j, j);
    if j == 0 {
      FirstAllLogs(sys[0]);
    } else {
      var run0 := RunLogs(sys, j - 1);
      LogsKept(run0, sys[j - 1], sys[j]);
    }
  }

  lemma FirstAllLogs(s: System)
    requires InitialSystem(s)
    ensures AllLogsOk(s)
  {
    hide LogsOk, Apart, BootLog, FirstHost;
    var boot :| BootLog(boot) && s == FirstSystem(s.voters, boot);
    forall v | v in s.hosts ensures LogsOk(s.hosts[v]) && Apart(s.hosts[v]) {
      FirstLogs(s.voters, v, boot);
    }
  }

  /** Whatever a node does between a Ready and its Advance, the entries dropped are not behind a snapshot that came
      since. */
  lemma AdvanceAlwaysSafe(sys: seq<System>, i: nat, v: Id)
    requires IsSystemRun(sys) && i < |sys| && v in sys[i].hosts && sys[i].hosts[v].stage == Stored
    ensures SafeAdvance(sys[i].hosts[v].unstable, sys[i].hosts[v].ready)
  {
    hide Backs, HostsOk, AllLogsOk, IsSystemRun, SafeAdvance;
    var run := RunLogs(sys, i);
    StoredIsSafe(run, sys[i], v);
  }

  /** The two-part log is one sequence: at every moment storage and the unstable part stand for the log in memory. */
  lemma OverlayHolds(sys: seq<System>, i: nat, v: Id)
    requires IsSystemRun(sys) && i < |sys| && v in sys[i].hosts
    ensures OverlayOk(sys[i].hosts[v])
  {
    hide Backs, HostsOk, LogsOk, Ordered, OverlayOk, IsSystemRun;
    var run := RunLogs(sys, i);
    HostOrdered(run, sys[i], v);
    LogsOverlay(sys[i].hosts[v]);
  }

  /** Storing a Ready never finds a gap, and storage then holds the log the Ready was taken from. */
  lemma PersistNeverPanics(sys: seq<System>, i: nat, v: Id)
    requires IsSystemRun(sys) && i < |sys| && v in sys[i].hosts && sys[i].hosts[v].stage == Accepted
    ensures var h := sys[i].hosts[v];
            && StoreReady(h.store, h.snapIndex, h.ready).Some?
            && SuffixOf(StoreReady(h.store, h.snapIndex, h.ready).value, h.ready.node.log)
  {
    hide Backs, HostsOk, LogsOk, Ordered, IsSystemRun, StoreReady, SuffixOf;
    var run := RunLogs(sys, i);
    HostOrdered(run, sys[i], v);
    StoreReadyOk(sys[i].hosts[v]);
  }

  /** The entries an Advance is about to drop are in storage, whatever was truncated and written again meanwhile. */
  lemma StableToDropsOnlyStored(sys: seq<System>, i: nat, v: Id, k: nat)
    requires IsSystemRun(sys) && i < |sys| && v in sys[i].hosts && sys[i].hosts[v].stage == Stored
    requires var h := sys[i].hosts[v];
             && LastOf(h.ready).Some? && Drops(h.unstable, LastOf(h.ready).value.0, LastOf(h.ready).value.1)
             && h.store.base < k && h.unstable.offset <= k <= LastOf(h.ready).value.0
    ensures var h := sys[i].hosts[v];
            k <= Last(h.store) && EntryAt(h.store, k) == h.unstable.ents[k - h.unstable.offset]
  {
    hide Backs, Ordered, IsSystemRun, EndsOk, SuffixOf, Joined, ReadyOk, SnapOk;
    var run := RunLogs(sys, i);
    var h := sys[i].hosts[v];
    HostOrdered(run, sys[i], v);
    StoredIsDisk(run, sys[i], v);
    DropsOnlyStored(h, LastOf(h.ready).value.0, LastOf(h.ready).value.1, k);
  }

  /** Writing entries never finds the unstable part too short. */
  lemma WriteNeverPanics(sys: seq<System>, i: nat, v: Id, ev: Event, n': Node, ents: seq<Entry>)
    requires IsSystemRun(sys) && i < |sys| && v in sys[i].hosts && Fits(sys[i].hosts[v].vol, ev, n', Write(ents))
    ensures ents[0].index <= sys[i].hosts[v].unstable.offset + |sys[i].hosts[v].unstable.ents|
  {
    hide Backs, IsSystemRun, EndsOk;
    var run, n := RunBacked(sys, i, i);
    WriteTail(sys[i].hosts[v].unstable, sys[i].hosts[v].vol.log, ents);
  }

  // ---------------------------------------------------------------- the log operations cover what the handlers do

  ghost predicate SomeOpFits(n: Node, ev: Event, n': Node) {
    exists op :: Fits(n, ev, n', op)
  }

  lemma KeepFits(n: Node, ev: Event, n': Node)
    requires n'.log == n.log
    ensures SomeOpFits(n, ev, n')
  {
    assert Fits(n, ev, n', Keep);
  }

  lemma WriteFits(n: Node, ev: Event, n': Node, ents: seq<Entry>)
    requires ents != [] && n.committed < ents[0].index <= |n.log| + 1 && IndexedFrom(ents, ents[0].index - 1)
    requires n'.log == n.log[..ents[0].index - 1] + ents
    ensures SomeOpFits(n, ev, n')
  {
    assert Fits(n, ev, n', Write(ents));
  }

  /** A leader appends after its last entry. */
  lemma AppendFits(n: Node, ev: Event, n': Node, ents: seq<Entry>)
    requires IndexedFrom(ents, |n.log|) && n.committed <= |n.log| && n'.log == n.log + ents
    ensures SomeOpFits(n, ev, n')
  {
    if ents == [] {
      KeepFits(n, ev, n');
    } else {
      assert n.log[..|n.log|] == n.log;
      WriteFits(n, ev, n', ents);
    }
  }

  /** maybeAppend keeps the log or overwrites it from the first conflict on, above what is committed. */
  lemma AppFits(n: Node, ev: Event, m: Msg, n0: Node)
    requires m.App? && IndexedFrom(m.entries, m.index) && HandleApp(n, m).Step? && n.log == n0.log
             && n.committed == n0.committed
    ensures SomeOpFits(n0, ev, HandleApp(n, m).node)
  {
    hide FindConflict, ConflictByTerm, SomeOpFits;
    var n' := HandleApp(n, m).node;
    var r := MaybeAppend(FullView(n.log), n.committed, m.index, m.logTerm, m.commit, m.entries);
    if n'.log == n.log {
      KeepFits(n0, ev, n');
    } else {
      var ci := FindConflict(FullView(n.log), m.entries);
      var rest := m.entries[ci - (m.index + 1)..];
      assert n'.log == Overwrite(FullView(n.log), rest).ents;
      WriteFits(n0, ev, n', rest);
    }
  }

  lemma SnapFits(n: Node, m: Msg, n0: Node)
    requires m.Snap? && HandleSnap(n, m).Step? && n.log == n0.log && n.committed == n0.committed
    ensures SomeOpFits(n0, Recv(m), HandleSnap(n, m).node)
  {
    var n' := HandleSnap(n, m).node;
    if n'.log == n.log {
      KeepFits(n0, Recv(m), n');
    } else {
      assert Fits(n0, Recv(m), n', Reload(SnapMeta(|m.prefix|, LastTerm(m.prefix))));
    }
  }

  lemma LeadFits(voters: set<Id>, n0: Node, ev: Event, n: Node)
    requires n.log == n0.log && n0.committed <= |n0.log|
    ensures SomeOpFits(n0, ev, BecomeLeader(voters, n))
  {
    AppendFits(n0, ev, BecomeLeader(voters, n), [Entry(|n.log| + 1, n.term, Normal, [])]);
  }

  lemma DispatchFits(voters: set<Id>, n0: Node, n: Node, m: Msg)
    requires Dispatch(voters, n, m).Step? && n.log == n0.log && n.committed == n0.committed && n0.committed <= |n0.log|
    requires m.App? ==> IndexedFrom(m.entries, m.index)
    ensures SomeOpFits(n0, Recv(m), Dispatch(voters, n, m).node)
  {
    hide HandleApp, HandleSnap, BecomeLeader, CommittedIndex, VoteWon, VoteLost, IsQuorum, SomeOpFits, IndexedFrom;
    var n' := Dispatch(voters, n, m).node;
    if m.App? && n.role != Leader {
      AppFits(AsFollower(voters, n, m), Recv(m), m, n0);
    } else if m.Snap? && n.role != Leader {
      SnapFits(AsFollower(voters, n, m), m, n0);
    } else if m.VoteResp? && n.role == Candidate && VoteWon(voters, RecordVote(n.votes, m.from, !m.reject)) {
      LeadFits(voters, n0, Recv(m), n.(votes := RecordVote(n.votes, m.from, !m.reject)));
    } else {
      KeepFits(n0, Recv(m), n');
    }
  }

  lemma HandleFits(voters: set<Id>, n: Node, ev: Event)
    requires Handle(voters, n, ev).Step? && n.committed <= |n.log|
             && (ev.Recv? && ev.m.App? ==> IndexedFrom(ev.m.entries, ev.m.index))
    ensures SomeOpFits(n, ev, Handle(voters, n, ev).node)
  {
    hide Dispatch, BecomeLeader, CommittedIndex, VoteWon, SomeOpFits;
    var n' := Handle(voters, n, ev).node;
    if ev.Recv? && n.term <= ev.m.term {
      DispatchFits(voters, n, MeetTerm(voters, n, ev.m), ev.m);
    } else if ev.Hup? && n.role != Leader {
      var c := BecomeCandidate(voters, n);
      var c' := c.(votes := RecordVote(c.votes, n.id, true));
      if VoteWon(voters, c'.votes) { LeadFits(voters, n, ev, c'); } else { KeepFits(n, ev, n'); }
    } else if ev.Propose? && n.role == Leader {
      AppendFits(n, ev, n', NewEntries(n, ev.items));
    } else {
      KeepFits(n, ev, n');
    }
  }

  lemma SentAreIndexed(run: seq<Cluster>, m: Msg)
    requires IsRun(run) && m in run[|run| - 1].msgs && m.App?
    ensures IndexedFrom(m.entries, m.index)
  {
    hide Initial, Next, CoreInv, NodeOk, CommitKnown, ReadInv, Settled;
    var c := run[|run| - 1];
    RunInv(run, |run| - 1);
    assert MsgOk(c.core, c.marks, m);
    assert IndexedFrom(c.core.leaderLog[m.term], 0);
  }

  /** Whatever can happen to a node in memory is an action of its host: some way of writing the log fits it. */
  lemma EveryEventFits(sys: seq<System>, i: nat, v: Id, ev: Event)
    requires IsSystemRun(sys) && i < |sys| && v in sys[i].hosts && CanHappen(sys[i].net, sys[i].hosts[v].vol, ev)
    ensures Handle(sys[i].voters, sys[i].hosts[v].vol, ev).Step?
    ensures SomeOpFits(sys[i].hosts[v].vol, ev, Handle(sys[i].voters, sys[i].hosts[v].vol, ev).node)
  {
    hide IsRun, IsSystemRun, Handle, SomeOpFits, IndexedFrom;
    InMemoryNoPanic(sys, i, v, ev);
    var run, n := TwoInMemory(sys, i, v, v);
    NonEmptyRun(run);
    NodeIndexed(run, |run| - 1, v);
    if ev.Recv? && ev.m.App? { SentAreIndexed(run, ev.m); }
    HandleFits(sys[i].voters, sys[i].hosts[v].vol, ev);
  }
}
