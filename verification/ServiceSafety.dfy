/** What the state machines of all nodes are given, over whole runs of the service. */
module ServiceSafety {
  import opened RaftTypes
  import opened LogView
  import opened RaftNode
  import opened Core = RaftCore
  import opened Buffered
  import opened BufferedSim
  import opened BufferedLog
  import opened BufferedSafety
  import opened Varint
  import opened Publishing
  import opened ApplyLoop
  import opened Limits
  import opened BufferedReads

  datatype Service = Service(voters: set<Id>, replicas: map<Id, Replica>, net: set<Msg>)

  function HostsOf(s: Service): System {
    System(s.voters, map v | v in s.replicas :: s.replicas[v].host, s.net)
  }

  ghost predicate Serves(s: Service, s': Service, v: Id, a: AppAction) {
    && v in s.replicas && v in s'.replicas && AppDoes(s.voters, s.net, s.replicas[v], a, s'.replicas[v])
    && s' == s.(replicas := s.replicas[v := s'.replicas[v]],
                net := if a.Plain? && a.a.Send? then s.net + {a.a.m} else s.net)
  }

  ghost predicate ServiceStep(s: Service, s': Service) {
    exists v, a :: Serves(s, s', v, a)
  }

  function FirstReplica(voters: set<Id>, v: Id, boot: seq<Entry>): Replica {
    Replica(FirstHost(voters, v, boot), 0, [], 0, Fresh, [Jumped(0)])
  }

  ghost predicate InitialService(s: Service) {
    && NO_NODE !in s.voters && s.voters != {}
    && exists boot :: BootLog(boot)
         && s == Service(s.voters, map v | v in s.voters :: FirstReplica(s.voters, v, boot), {})
  }

  /** Positions fit into 64 bits. */
  ghost predicate Bounded(s: Service) {
    forall v :: v in s.replicas ==> s.replicas[v].host.disk.committed < TWO_64 - 1
  }

  ghost predicate IsServiceRun(run: seq<Service>) {
    && run != [] && InitialService(run[0])
    && (forall i :: 0 <= i < |run| - 1 ==> ServiceStep(run[i], run[i + 1]))
    && (forall i :: 0 <= i < |run| ==> Bounded(run[i]))
  }

  // ---------------------------------------------------------------- the hosts of a service run are a system run

  ghost function HostRun(run: seq<Service>): seq<System> {
    seq(|run|, i requires 0 <= i < |run| => HostsOf(run[i]))
  }

  lemma StepOfHosts(s: Service, s': Service)
    requires ServiceStep(s, s')
    ensures SystemStep(HostsOf(s), HostsOf(s'))
  {
    hide AppDoes, Does;
    var v, a :| Serves(s, s', v, a);
    AppDoesHost(s.voters, s.net, s.replicas[v], a, s'.replicas[v]);
    var b := HostAction(s.replicas[v], a);
    assert HostsOf(s').hosts == HostsOf(s).hosts[v := s'.replicas[v].host];
    PlainActions(s.voters, s.net, s.replicas[v], a, s'.replicas[v]);
    assert Acts(HostsOf(s), HostsOf(s'), v, b);
  }

  lemma PlainActions(voters: set<Id>, net: set<Msg>, x: Replica, a: AppAction, x': Replica)
    requires AppDoes(voters, net, x, a, x')
    ensures var b := HostAction(x, a); (b.Send? <==> a.Plain? && a.a.Send?) && (b.Send? ==> b == a.a)
  {
    hide Does, Publish, CursorAfter, IsBatch;
  }

  lemma FirstOfHosts(s: Service)
    requires InitialService(s)
    ensures InitialSystem(HostsOf(s))
  {
    hide BootLog, FirstHost;
    var boot :| BootLog(boot) && s == Service(s.voters, map v | v in s.voters :: FirstReplica(s.voters, v, boot), {});
    assert HostsOf(s) == FirstSystem(s.voters, boot);
  }

  lemma RunOfHosts(run: seq<Service>)
    requires IsServiceRun(run)
    ensures IsSystemRun(HostRun(run))
  {
    hide InitialService, ServiceStep, SystemStep, InitialSystem, HostsOf, Bounded;
    FirstOfHosts(run[0]);
    var sys := HostRun(run);
    forall i | 0 <= i < |sys| - 1 ensures SystemStep(sys[i], sys[i + 1]) {
      StepOfHosts(run[i], run[i + 1]);
    }
  }

  lemma GroundAt(run: seq<Service>, i: nat, v: Id)
    requires IsServiceRun(run) && i < |run| && v in run[i].replicas
    ensures Ground(run[i].replicas[v].host)
  {
    hide IsServiceRun, IsSystemRun, Backs, HostsOk, LogsOk, Ordered;
    RunOfHosts(run);
    var sys := HostRun(run);
    assert sys[i] == HostsOf(run[i]);
    var c := RunLogs(sys, i);
    HostOrdered(c, sys[i], v);
    if sys[i].hosts[v].stage == Stored { StoredIsDisk(c, sys[i], v); }
  }

  lemma FirstReplicaOk(voters: set<Id>, v: Id, boot: seq<Entry>)
    ensures AppOk(FirstReplica(voters, v, boot))
  {
  }

  lemma FirstReplicasOk(s: Service, v: Id)
    requires InitialService(s) && v in s.replicas
    ensures AppOk(s.replicas[v])
  {
    hide AppOk, FirstReplica, BootLog;
    var boot :| BootLog(boot) && s == Service(s.voters, map u | u in s.voters :: FirstReplica(s.voters, u, boot), {});
    FirstReplicaOk(s.voters, v, boot);
  }

  lemma AppOkStep(s: Service, s': Service, v: Id)
    requires ServiceStep(s, s') && Bounded(s) && v in s.replicas && AppOk(s.replicas[v]) && Ground(s.replicas[v].host)
    ensures v in s'.replicas && AppOk(s'.replicas[v])
  {
    hide AppOk, Ground, AppDoes;
    var u, a :| Serves(s, s', u, a);
    if u == v { AppKept(s.voters, s.net, s.replicas[v], a, s'.replicas[v]); }
  }

  lemma SameReplicas(s: Service, s': Service)
    requires ServiceStep(s, s')
    ensures s'.replicas.Keys == s.replicas.Keys
  {
    hide AppDoes;
  }

  lemma AppOkAt(run: seq<Service>, i: nat, v: Id)
    requires IsServiceRun(run) && i < |run| && v in run[i].replicas
    ensures AppOk(run[i].replicas[v])
    decreases i
  {
    hide AppOk, Ground, InitialService, ServiceStep, Bounded;
    if i == 0 {
      FirstReplicasOk(run[0], v);
    } else {
      SameReplicas(run[i - 1], run[i]);
      AppOkAt(run, i - 1, v);
      GroundAt(run, i - 1, v);
      assert Bounded(run[i - 1]);
      AppOkStep(run[i - 1], run[i], v);
    }
  }

  // ---------------------------------------------------------------- the theorems

  /** Exactly once: since a node started, its state machine was given committed entries in order, each once, with no gap
      but the jumps to a snapshot. */
  lemma ExactlyOnce(run: seq<Service>, i: nat, v: Id)
    requires IsServiceRun(run) && i < |run| && v in run[i].replicas
    ensures var x := run[i].replicas[v];
            && Contiguous(x.trail) && PositionOf(x.trail[|x.trail| - 1]) == x.appliedIndex
            && forall m :: m in x.trail ==> FromLog(m, x.host.disk)
  {
    hide IsServiceRun, Contiguous, FromLog;
    AppOkAt(run, i, v);
  }

  /** Nothing committed is passed over: what a Ready hands out starts right behind what was applied, or behind its
      snapshot, and is all that is committed from there on if it fits into the size limit, else as much as fits, and
      something in any case. */
  lemma ReadyCarriesCommitted(run: seq<Service>, i: nat, v: Id, maxSize: nat)
    requires IsServiceRun(run) && i < |run| - 1 && Serves(run[i], run[i + 1], v, TakeReady(maxSize))
    ensures var x, x' := run[i].replicas[v], run[i + 1].replicas[v];
            var n, from := x.host.vol, BatchStart(x.appliedIndex, x'.host.ready);
            && x.appliedIndex <= from <= n.committed <= |n.log|
            && x'.batch <= n.log[from..n.committed]
            && (TotalSize(n.log[from..n.committed]) <= maxSize ==> x'.batch == n.log[from..n.committed])
            && (from < n.committed ==> x'.batch != [])
  {
    hide AppOk, Ground, IsServiceRun, AppDoes, TotalSize;
    AppOkAt(run, i, v);
    GroundAt(run, i, v);
    var x, x' := run[i].replicas[v], run[i + 1].replicas[v];
    ReadyExact(run[i].voters, run[i].net, x, maxSize, x');
    var n, from := x.host.vol, BatchStart(x.appliedIndex, x'.host.ready);
    LimitedFits(n.log[from..n.committed], maxSize, x'.batch);
  }

  /** Publishing is never fatal and never drops or repeats an entry of the batch. */
  lemma PublishNeverFatal(run: seq<Service>, i: nat, v: Id)
    requires IsServiceRun(run) && i < |run| && v in run[i].replicas
    requires run[i].replicas[v].host.stage == Stored && run[i].replicas[v].phase == Fresh
    ensures var x := run[i].replicas[v];
            Publish(x.appliedIndex, SnapIndexOf(x.host.ready), x.batch) ==
            Done(From(x) + |x.batch|, (if x.host.ready.snap.Some? then [Jumped(From(x))] else []) + AllApplied(x.batch))
  {
    hide AppOk, Publish, AllApplied, InitialService, ServiceStep, LogsOk, Ordered;
    AppOkAt(run, i, v);
    GroundAt(run, i, v);
    assert Bounded(run[i]);
    DeliverExact(run[i].replicas[v]);
  }

  /** appliedTo never panics: Advance moves the cursor to what was applied. */
  lemma CursorNeverPanics(run: seq<Service>, i: nat, v: Id)
    requires IsServiceRun(run) && i < |run| && v in run[i].replicas
    requires run[i].replicas[v].host.stage == Stored && run[i].replicas[v].phase != Fresh
    ensures CursorAfter(run[i].replicas[v]) == Some(run[i].replicas[v].appliedIndex)
  {
    hide AppOk, IsServiceRun, CursorAfter, LogsOk, Ordered;
    AppOkAt(run, i, v);
    GroundAt(run, i, v);
    CursorExact(run[i].replicas[v]);
  }

  /** A snapshot that is due can be taken, and storage can be compacted behind it. */
  lemma SnapshotNeverFails(run: seq<Service>, i: nat, v: Id)
    requires IsServiceRun(run) && i < |run| && v in run[i].replicas
    requires run[i].replicas[v].host.stage == Stored && run[i].replicas[v].phase == Given && Due(run[i].replicas[v])
    ensures var x := run[i].replicas[v];
            var h := x.host;
            && h.snapIndex + SNAP_COUNT < x.appliedIndex <= Last(h.store) // newer than the last one, and in the log
            && h.store.base < CompactAt(x.appliedIndex) == x.appliedIndex - CATCH_UP <= Last(h.store)
  {
    hide InitialService, ServiceStep, Ordered, TrailOk, BatchOk, TailOk, Joined, ReadyOk, Due, CompactAt;
    AppOkAt(run, i, v);
    GroundAt(run, i, v);
    assert Bounded(run[i]);
    DueExact(run[i].replicas[v]);
    DiskCommitted(run[i].replicas[v].host);
  }

  lemma DiskCommitted(h: Host)
    requires Ground(h)
    ensures h.disk.committed <= |h.disk.log|
  {
  }

  /** State machine replication: at any two moments, two nodes that were given an entry for the same position were given
      the same. */
  lemma ReplicasAgree(run: seq<Service>, i: nat, j: nat, u: Id, v: Id, e: Entry, f: Entry)
    requires IsServiceRun(run) && i <= j < |run| && u in run[i].replicas && v in run[j].replicas
    requires Applied(e) in run[i].replicas[u].trail && Applied(f) in run[j].replicas[v].trail && e.index == f.index
    ensures e == f
  {
    hide IsServiceRun, IsSystemRun, Contiguous;
    ExactlyOnce(run, i, u);
    ExactlyOnce(run, j, v);
    RunOfHosts(run);
    var sys := HostRun(run);
    DurableStateMachineSafety(sys, i, j, u, v);
    var a, b := run[i].replicas[u].host.disk, run[j].replicas[v].host.disk;
    assert sys[i].hosts[u] == run[i].replicas[u].host && sys[j].hosts[v] == run[j].replicas[v].host;
    assert FromLog(Applied(e), a) && FromLog(Applied(f), b);
    var k := e.index - 1;
    assert a.log[..a.committed][k] == e && b.log[..b.committed][k] == f;
  }

  /** Linearizable reads: whatever any state machine was given before a leader took the read is at or below the index
      the read is answered with, which is no further than what the leader has committed, and with several voters just
      what it had committed when it took the read. */
  lemma ReadsCoverApplied(run: seq<Service>, i: nat, j: nat, v: Id, ctx: Ctx, index: nat, u: Id)
    requires IsServiceRun(run) && i <= j < |run| - 1 && u in run[i].replicas && v in run[j].replicas
    requires TakesRead(HostsOf(run[i]), HostsOf(run[i + 1]), v, ctx)
    requires AnswersAs(HostsOf(run[j]), HostsOf(run[j + 1]), v, ctx, index)
    requires run[j].replicas[v].host.vol.term == run[i].replicas[v].host.vol.term
    requires NoSystemReuse(HostRun(run), run[i].replicas[v].host.vol.term, j + 1)
    ensures run[i].replicas[u].appliedIndex <= index <= run[j].replicas[v].host.vol.committed
    ensures |run[i].voters| > 1 ==> index == run[i].replicas[v].host.vol.committed
  {
    hide IsServiceRun, IsSystemRun, NoSystemReuse, AnswersAs, TrailOk, BatchOk;
    AppOkAt(run, i, u);
    RunOfHosts(run);
    DurableReadIndex(HostRun(run), i, j, v, ctx, index, u);
  }
}
