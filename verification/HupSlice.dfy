/**
 A node that is to campaign first looks through the entries it has committed and not applied
 (etcd/raft/raft.go). They can have been compacted: the application compacts behind what it has
 applied before Advance moves the cursor.
 */
module HupSlice {
  import opened RaftTypes
  import opened LogView
  import opened LogStore
  import opened Limits
  import opened RaftNode
  import opened Core = RaftCore
  import opened Buffered
  import opened BufferedLog
  import opened BufferedSafety
  import opened Varint
  import opened Publishing
  import opened ApplyLoop
  import opened ServiceSafety

  /** A node that would campaign: no leader, and no snapshot pending. */
  predicate Promotable(x: Replica) {
    x.host.vol.role != Leader && x.host.unstable.snap.None?
  }

  /** The unapplied entries can be read: their range is none that the log refuses or panics on. */
  ghost predicate SliceInRange(x: Replica)
    requires Coherent(x.host.store, x.host.unstable)
  {
    var log := LogOf(x.host.store, x.host.unstable);
    var lo, hi := x.cursor + 1, x.host.vol.committed + 1;
    lo <= hi && log.base < lo && hi <= Last(log) + 1
  }

  /** In every run of the service, the entries are there exactly when storage was not compacted beyond the cursor. */
  lemma HupExactly(run: seq<Service>, i: nat, v: Id)
    requires IsServiceRun(run) && i < |run| && v in run[i].replicas && Promotable(run[i].replicas[v])
    ensures Coherent(run[i].replicas[v].host.store, run[i].replicas[v].host.unstable)
    ensures SliceInRange(run[i].replicas[v]) <==> run[i].replicas[v].host.store.base <= run[i].replicas[v].cursor
  {
    hide IsServiceRun, IsSystemRun, TrailOk, BatchOk, LogsOk, Coherent, LogOf, Matching, IndexedFrom;
    AppOkAt(run, i, v);
    GroundAt(run, i, v);
    RunOfHosts(run);
    OverlayHolds(HostRun(run), i, v);
    assert HostRun(run)[i].hosts[v] == run[i].replicas[v].host;
  }

  /** That they are not happens only between compaction and Advance, after a batch longer than the catch-up distance. */
  lemma CompactedAhead(run: seq<Service>, i: nat, v: Id)
    requires IsServiceRun(run) && i < |run| && v in run[i].replicas && Promotable(run[i].replicas[v])
    requires run[i].replicas[v].cursor < run[i].replicas[v].host.store.base
    ensures var x := run[i].replicas[v];
            x.host.stage == Stored && x.phase == Finished && x.cursor + CATCH_UP < x.appliedIndex
  {
    hide IsServiceRun, TrailOk, BatchOk, TailOk, Joined, ReadyOk, SuffixOf, Matching, IndexedFrom;
    AppOkAt(run, i, v);
    GroundAt(run, i, v);
  }

  // ---------------------------------------------------------------- a run in which it happens

  function Taken(x: Replica, batch: seq<Entry>): Replica {
    var h := x.host;
    x.(host := h.(stage := Accepted, ready := Ready(h.vol, h.outbox, h.unstable.ents, h.unstable.snap),
                  outbox := {}, before := h.since, since := []),
       batch := batch, phase := Fresh)
  }

  function Kept(x: Replica): Replica {
    x.(host := x.host.(stage := Stored, disk := x.host.ready.node, before := []))
  }

  function Told(x: Replica): Replica {
    x.(appliedIndex := |x.batch|, trail := x.trail + AllApplied(x.batch), phase := Given)
  }

  function Snapshotted(x: Replica): Replica {
    x.(host := x.host.(snapIndex := x.appliedIndex), phase := Snapped)
  }

  function Trimmed(x: Replica, k: nat): Replica
    requires x.host.store.base < k <= Last(x.host.store)
  {
    x.(host := x.host.(store := StoreCompact(x.host.store, k)), phase := Finished)
  }

  /** A node that has nothing in memory that is not stored, and has applied nothing. */
  ghost predicate Untouched(x: Replica, boot: seq<Entry>) {
    && var h := x.host;
    && h.store == View(0, 0, boot) && h.snapIndex == 0 && h.unstable == Unstable(|boot| + 1, [], None)
    && h.vol.log == boot && h.vol.committed == |boot| && h.vol.role == Follower && h.disk == h.vol
    && x.cursor == 0 && x.appliedIndex == 0
  }

  lemma FirstUntouched(voters: set<Id>, v: Id, boot: seq<Entry>)
    ensures var x := FirstReplica(voters, v, boot); Untouched(x, boot) && x.host.stage == Idle
  {
  }

  lemma WholeBatch(boot: seq<Entry>)
    ensures LimitedTo(boot, TotalSize(boot), boot)
  {
  }

  lemma TakeStep(voters: set<Id>, x: Replica, boot: seq<Entry>)
    requires Untouched(x, boot) && x.host.stage == Idle && |boot| > 0
    ensures AppDoes(voters, {}, x, TakeReady(TotalSize(boot)), Taken(x, boot)) && Untouched(Taken(x, boot), boot)
  {
    hide TotalSize, LimitedTo;
    WholeBatch(boot);
    assert boot[0..|boot|] == boot;
  }

  lemma KeepStep(voters: set<Id>, x: Replica, boot: seq<Entry>)
    requires Untouched(x, boot) && x.host.stage == Accepted && x.host.ready == Ready(x.host.vol, {}, [], None)
    ensures AppDoes(voters, {}, x, Plain(Persist), Kept(x)) && Untouched(Kept(x), boot)
  {
  }

  lemma TellStep(voters: set<Id>, x: Replica, boot: seq<Entry>)
    requires BootLog(boot) && |boot| < TWO_64 - 1 && x.host.stage == Stored && x.phase == Fresh && x.appliedIndex == 0
    requires x.batch == boot && x.host.ready.snap == None
    ensures AppDoes(voters, {}, x, Deliver, Told(x))
  {
    hide Publish, AllApplied;
    PublishesAll(0, None, boot);
    assert [] + AllApplied(boot) == AllApplied(boot);
  }

  lemma SnapStep(voters: set<Id>, x: Replica, boot: seq<Entry>)
    requires SNAP_COUNT < |boot| < TWO_64 && x.host.stage == Stored && x.phase == Given && x.appliedIndex == |boot|
    requires x.host.snapIndex == 0 && x.host.store == View(0, 0, boot) && x.host.disk.committed == |boot|
    ensures AppDoes(voters, {}, x, Trigger, Snapshotted(x))
  {
    hide Due;
    DueExact(x);
  }

  lemma TrimStep(voters: set<Id>, x: Replica, boot: seq<Entry>)
    requires CATCH_UP < |boot| < TWO_64 && x.host.stage == Stored && x.phase == Snapped && x.appliedIndex == |boot|
    requires x.host.snapIndex == |boot| && x.host.store == View(0, 0, boot) && x.host.disk.committed == |boot|
    ensures AppDoes(voters, {}, x, Trim, Trimmed(x, |boot| - CATCH_UP))
  {
    hide CompactAt;
    DueExact(x);
  }

  /** The service after one of its nodes went on. */
  function Moved(s: Service, v: Id, x: Replica): Service {
    s.(replicas := s.replicas[v := x])
  }

  lemma MovedServes(s: Service, v: Id, a: AppAction, x: Replica)
    requires v in s.replicas && s.net == {} && AppDoes(s.voters, {}, s.replicas[v], a, x) && !(a.Plain? && a.a.Send?)
    ensures ServiceStep(s, Moved(s, v, x))
  {
    hide AppDoes;
    assert Serves(s, Moved(s, v, x), v, a);
  }

  lemma MovedBounded(s: Service, v: Id, x: Replica)
    requires Bounded(s) && x.host.disk.committed < TWO_64 - 1
    ensures Bounded(Moved(s, v, x))
  {
  }

  ghost function FirstService(voters: set<Id>, boot: seq<Entry>): Service {
    Service(voters, map u | u in voters :: FirstReplica(voters, u, boot), {})
  }

  lemma FirstIsInitial(voters: set<Id>, boot: seq<Entry>)
    requires NO_NODE !in voters && voters != {} && BootLog(boot) && |boot| < TWO_64 - 1
    ensures InitialService(FirstService(voters, boot)) && Bounded(FirstService(voters, boot))
  {
    hide BootLog;
  }

  /** Whatever voters there are, if there are more bootstrap entries than the catch-up distance and the first batch has
      them all, a node comes to where it would find its unapplied entries compacted. */
  lemma LongBatchIsAhead(voters: set<Id>, v: Id, boot: seq<Entry>) returns (run: seq<Service>)
    requires NO_NODE !in voters && v in voters && BootLog(boot) && CATCH_UP < |boot| < TWO_64 - 1
    ensures IsServiceRun(run) && |run| == 6 && v in run[5].replicas && Promotable(run[5].replicas[v])
    ensures run[5].replicas[v].cursor < run[5].replicas[v].host.store.base
  {
    hide AppDoes, InitialService, ServiceStep, Bounded, FirstReplica, BootLog, TotalSize, AllApplied;
    var s0 := FirstService(voters, boot);
    var x0 := FirstReplica(voters, v, boot);
    FirstIsInitial(voters, boot);
    FirstUntouched(voters, v, boot);
    TakeStep(voters, x0, boot);
    var x1 := Taken(x0, boot);
    var x2, x3, x4 := Kept(x1), Told(Kept(x1)), Snapshotted(Told(Kept(x1)));
    FirstReadyEmpty(voters, v, boot);
    KeepStep(voters, x1, boot);
    TellStep(voters, x2, boot);
    SnapStep(voters, x3, boot);
    TrimStep(voters, x4, boot);
    var x5 := Trimmed(x4, |boot| - CATCH_UP);
    run := [s0, Moved(s0, v, x1), Moved(s0, v, x2), Moved(s0, v, x3), Moved(s0, v, x4), Moved(s0, v, x5)];
    var acts := [TakeReady(TotalSize(boot)), Plain(Persist), Deliver, Trigger, Trim];
    LinkStages(s0, v, [x0, x1, x2, x3, x4, x5], run, acts);
  }

  lemma FirstReadyEmpty(voters: set<Id>, v: Id, boot: seq<Entry>)
    ensures var x := FirstReplica(voters, v, boot); x.host.outbox == {} && x.host.unstable.ents == []
  {
  }

  lemma LinkStages(s0: Service, v: Id, xs: seq<Replica>, run: seq<Service>, acts: seq<AppAction>)
    requires v in s0.replicas && s0.net == {} && |xs| == |run| == |acts| + 1 && InitialService(s0) && Bounded(s0)
    requires s0.replicas[v] == xs[0] && run[0] == s0 && forall k :: 0 < k < |run| ==> run[k] == Moved(s0, v, xs[k])
    requires forall k :: 0 <= k < |xs| ==> xs[k].host.disk.committed < TWO_64 - 1
    requires forall k :: 0 <= k < |acts| ==> !(acts[k].Plain? && acts[k].a.Send?)
    requires forall k :: 0 <= k < |acts| ==> AppDoes(s0.voters, {}, xs[k], acts[k], xs[k + 1])
    ensures IsServiceRun(run)
  {
    hide AppDoes, InitialService, ServiceStep, Bounded;
    forall k: nat | k < |run| - 1 ensures ServiceStep(run[k], run[k + 1]) {
      assert Moved(run[k], v, xs[k + 1]) == run[k + 1];
      MovedServes(run[k], v, acts[k], xs[k + 1]);
    }
    forall k: nat | k < |run| ensures Bounded(run[k]) {
      if k > 0 { MovedBounded(s0, v, xs[k]); }
    }
  }
}
