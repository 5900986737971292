/** Nothing stands in the way: in every run a node can take any event, and can go on from every stage of a Ready. */
module BufferedProgress {
  import opened RaftTypes
  import opened LogView
  import opened LogStore
  import opened RaftNode
  import opened Core = RaftCore
  import opened Cluster
  import opened ClusterSafety
  import opened Buffered
  import opened BufferedSim
  import opened BufferedLog
  import opened BufferedSafety

  /** Whatever message was sent to a node can reach it now, and whatever else may happen to it can: the cluster then is
      as the handler says. */
  lemma EveryEventHappens(run: seq<Cluster>, i: nat, v: Id, ev: Event) returns (c': Cluster)
    requires IsRun(run) && i < |run| && v in run[i].nodes && (ev.Recv? ==> ev.m in run[i].msgs && ev.m.to == v)
    ensures Handle(run[i].voters, run[i].nodes[v], ev).Step? && Next(run[i], c')
    ensures var e := Handle(run[i].voters, run[i].nodes[v], ev);
            c'.voters == run[i].voters && c'.nodes == run[i].nodes[v := e.node] && c'.msgs == run[i].msgs + e.out
  {
    hide Initial, Handle, Record, Mark;
    var c := run[i];
    NodeIsVoter(run, i, v);
    NoPanic(run, i, v, ev);
    c' := After(c, v, ev, Handle(c.voters, c.nodes[v], ev));
    assert Moves(c, c', v, ev);
  }

  lemma NodeIsVoter(run: seq<Cluster>, i: nat, v: Id)
    requires IsRun(run) && i < |run| && v in run[i].nodes
    ensures v in run[i].voters && run[i].nodes[v].id == v
  {
    hide Initial, Next, CoreInv, NodeOk, MsgOk, CommitKnown, Indexed, ReadInv;
    RunInv(run, i);
  }

  // ---------------------------------------------------------------- events in memory

  /** The system after host v went on to h. */
  function WithHost(s: System, v: Id, h: Host): System {
    s.(hosts := s.hosts[v := h])
  }

  lemma HostActs(s: System, v: Id, a: Action, h': Host)
    requires v in s.hosts && Does(s.voters, s.net, s.hosts[v], a, h') && !a.Send?
    ensures Acts(s, WithHost(s, v, h'), v, a)
  {
    hide Does;
    assert WithHost(s, v, h').hosts[v] == h';
  }

  /** Whatever can happen to a node in memory is a step of the system, and the log in two parts follows it. */
  lemma EveryEventIsTaken(sys: seq<System>, i: nat, v: Id, ev: Event) returns (s': System, op: LogOp)
    requires IsSystemRun(sys) && i < |sys| && v in sys[i].hosts && ev != Restart && !ev.SelfAck?
    requires CanHappen(sys[i].net, sys[i].hosts[v].vol, ev)
    ensures Acts(sys[i], s', v, Local(ev, op))
    ensures var e := Handle(sys[i].voters, sys[i].hosts[v].vol, ev);
            e.Step? && s'.hosts[v].vol == e.node && s'.hosts[v].outbox == sys[i].hosts[v].outbox + e.out
  {
    hide IsSystemRun, Handle, Fits, CanHappen;
    var s, h := sys[i], sys[i].hosts[v];
    EveryEventFits(sys, i, v, ev);
    var e := Handle(s.voters, h.vol, ev);
    op :| Fits(h.vol, ev, e.node, op);
    var u' := Followed(sys, i, v, ev, op);
    var h' := h.(vol := e.node, unstable := u', outbox := h.outbox + e.out, since := h.since + [ev]);
    s' := WithHost(s, v, h');
    HostActs(s, v, Local(ev, op), h');
  }

  lemma Followed(sys: seq<System>, i: nat, v: Id, ev: Event, op: LogOp) returns (u': Unstable)
    requires IsSystemRun(sys) && i < |sys| && v in sys[i].hosts && Handle(sys[i].voters, sys[i].hosts[v].vol, ev).Step?
    requires Fits(sys[i].hosts[v].vol, ev, Handle(sys[i].voters, sys[i].hosts[v].vol, ev).node, op)
    ensures Tracks(sys[i].hosts[v].unstable, op, u')
  {
    hide IsSystemRun, Handle;
    var u := sys[i].hosts[v].unstable;
    match op {
      case Keep => u' := u;
      case Write(ents) =>
        WriteNeverPanics(sys, i, v, ev, Handle(sys[i].voters, sys[i].hosts[v].vol, ev).node, ents);
        u' := TruncateAndAppend(u, ents);
      case Reload(snap) => u' := Restored(snap);
    }
  }

  // ---------------------------------------------------------------- the stages of a Ready

  /** The action that comes next for a Ready. */
  function NextAction(stage: Stage): Action {
    match stage
    case Idle => Accept
    case Accepted => Persist
    case Stored => Advance
  }

  lemma AdvanceSteps(sys: seq<System>, i: nat, v: Id)
    requires IsSystemRun(sys) && i < |sys| && v in sys[i].hosts && sys[i].hosts[v].stage == Stored
    ensures SelfAcked(sys[i].voters, sys[i].hosts[v]).Step?
  {
    hide IsSystemRun, Backs, TailInv, EndsOk, Acknowledge;
    var s, h := sys[i], sys[i].hosts[v];
    var run, _ := RunBacked(sys, i, i);
    if h.vol.role == Leader && h.ready.ents != [] {
      AckWithin(run, s, v);
      InMemoryNoPanic(sys, i, v, SelfAck(LastOf(h.ready).value.0));
    }
  }

  lemma SnapWithinDisk(sys: seq<System>, i: nat, v: Id)
    requires IsSystemRun(sys) && i < |sys| && v in sys[i].hosts
    ensures sys[i].hosts[v].snapIndex <= |sys[i].hosts[v].disk.log|
  {
    hide IsSystemRun, Backs, HostsOk, TailOk, Joined, ReadyOk, SuffixOf, Matching, IndexedFrom, Beyond;
    var run := RunLogs(sys, i);
    HostOrdered(run, sys[i], v);
    assert LogsOk(sys[i].hosts[v]);
  }

  /** A Ready can be taken, stored and advanced, each when it is due, without a panic. */
  lemma StagesGoOn(sys: seq<System>, i: nat, v: Id) returns (s': System)
    requires IsSystemRun(sys) && i < |sys| && v in sys[i].hosts
    ensures Acts(sys[i], s', v, NextAction(sys[i].hosts[v].stage))
  {
    hide IsSystemRun, SelfAcked, Stabilised, StoreReady;
    var s, h := sys[i], sys[i].hosts[v];
    var h' := h;
    match h.stage {
      case Idle =>
        h' := h.(stage := Accepted, ready := Ready(h.vol, h.outbox, h.unstable.ents, h.unstable.snap),
                 outbox := {}, before := h.since, since := []);
      case Accepted =>
        PersistNeverPanics(sys, i, v);
        h' := h.(stage := Stored, disk := h.ready.node, before := [],
                 store := StoreReady(h.store, h.snapIndex, h.ready).value,
                 snapIndex := SnapAfter(h.snapIndex, h.ready));
      case Stored =>
        AdvanceSteps(sys, i, v);
        var e := SelfAcked(s.voters, h);
        h' := h.(stage := Idle, vol := e.node, outbox := h.outbox + e.out,
                 unstable := Stabilised(h.unstable, LastOf(h.ready), SnapOf(h.ready)),
                 since := h.since + SelfAcks(h));
    }
    s' := WithHost(s, v, h');
    HostActs(s, v, NextAction(h.stage), h');
  }

  /** Whatever a stored Ready has to send can be sent. */
  lemma EveryMessageIsSent(sys: seq<System>, i: nat, v: Id, m: Msg) returns (s': System)
    requires IsSystemRun(sys) && i < |sys| && v in sys[i].hosts && sys[i].hosts[v].stage == Stored
    requires m in sys[i].hosts[v].ready.out
    ensures Acts(sys[i], s', v, Send(m)) && m in s'.net
  {
    hide IsSystemRun;
    s' := sys[i].(net := sys[i].net + {m});
    assert s'.hosts == sys[i].hosts[v := sys[i].hosts[v]];
  }

  /** A node can crash and come back at any moment. */
  lemma EveryCrashIsSurvived(sys: seq<System>, i: nat, v: Id) returns (s': System)
    requires IsSystemRun(sys) && i < |sys| && v in sys[i].hosts
    ensures Acts(sys[i], s', v, Crash)
    ensures var n, disk := s'.hosts[v].vol, sys[i].hosts[v].disk;
            n.term == disk.term && n.vote == disk.vote && n.log == disk.log && n.committed == disk.committed
  {
    hide IsSystemRun;
    SnapWithinDisk(sys, i, v);
    s' := WithHost(sys[i], v, Restarted(sys[i].voters, sys[i].hosts[v]));
    HostActs(sys[i], v, Crash, Restarted(sys[i].voters, sys[i].hosts[v]));
  }
}
