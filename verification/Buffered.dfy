/**
 The cluster as it really runs: a node works in memory, hands out a Ready, and only what a Ready
 carried is stored, sent and acknowledged. In memory the node goes on meanwhile; a crash loses
 everything that was not stored.
 */
module Buffered {
  import opened RaftTypes
  import opened LogView
  import opened LogStore
  import opened RaftNode
  import opened Core = RaftCore
  import opened Cluster

  datatype Ready = Ready(node: Node, out: set<Msg>, ents: seq<Entry>, snap: Option<SnapMeta>)
  datatype Stage = Idle | Accepted | Stored

  datatype Host = Host(
    disk: Node, // what a restart comes back with
    store: View, // MemoryStorage
    snapIndex: nat, // the position of its snapshot
    stage: Stage,
    ready: Ready, // the one in flight, unless Idle
    vol: Node, // the node in memory
    unstable: Unstable,
    outbox: set<Msg>,
    before: seq<Event>, // history: the events the Ready in flight covers, until it is stored
    since: seq<Event>) // history: the events after it

  datatype System = System(voters: set<Id>, hosts: map<Id, Host>, net: set<Msg>)

  /** What an event does to the two-part log. */
  datatype LogOp = Keep | Write(ents: seq<Entry>) | Reload(snap: SnapMeta)

  datatype Action =
    | Local(ev: Event, op: LogOp)
    | Accept
    | Persist
    | Send(m: Msg)
    | Advance
    | Crash
    | Compact(k: nat)
    | TakeSnapshot(k: nat)
    | Pause // the application is busy with a stored Ready

  // ---------------------------------------------------------------- one host

  /** op is a way of turning n's log into the log of n'. */
  ghost predicate Fits(n: Node, ev: Event, n': Node, op: LogOp) {
    match op
    case Keep => n'.log == n.log
    case Write(ents) =>
      && ents != [] && n.committed < ents[0].index <= |n.log| + 1 && IndexedFrom(ents, ents[0].index - 1)
      && n'.log == n.log[..ents[0].index - 1] + ents
    case Reload(snap) =>
      && ev.Recv? && ev.m.Snap? && n'.log == ev.m.prefix && n.committed < |ev.m.prefix| == n'.committed
      && TermAt(n.log, |ev.m.prefix|) != LastTerm(ev.m.prefix)
      && snap == SnapMeta(|ev.m.prefix|, LastTerm(ev.m.prefix))
  }

  ghost predicate Tracks(u: Unstable, op: LogOp, u': Unstable) {
    match op
    case Keep => u' == u
    case Write(ents) => ents != [] && ents[0].index <= u.offset + |u.ents| && u' == TruncateAndAppend(u, ents)
    case Reload(snap) => u' == Restored(snap)
  }

  /** Storage once a Ready's snapshot and entries are in it; None is a panic. */
  function StoreReady(store: View, snapIndex: nat, r: Ready): Option<View> {
    var base :=
      if r.snap.Some? && snapIndex < r.snap.value.index then View(r.snap.value.index, r.snap.value.term, []) else store;
    StoreAppend(base, r.ents)
  }

  function SnapAfter(snapIndex: nat, r: Ready): nat {
    if r.snap.Some? then Max(snapIndex, r.snap.value.index) else snapIndex
  }

  function LastOf(r: Ready): Option<(nat, Term)> {
    if r.ents == [] then None else var e := r.ents[|r.ents| - 1]; Some((e.index, e.term))
  }

  function SnapOf(r: Ready): nat {
    if r.snap.Some? then r.snap.value.index else 0
  }

  /** A leader acknowledges to itself what the Ready stored. */
  ghost function SelfAcked(voters: set<Id>, h: Host): Effect {
    if h.vol.role == Leader && h.ready.ents != [] then Acknowledge(voters, h.vol, h.vol.id, LastOf(h.ready).value.0)
    else Step(h.vol, {}, [])
  }

  function SelfAcks(h: Host): seq<Event> {
    if h.vol.role == Leader && h.ready.ents != [] then [SelfAck(LastOf(h.ready).value.0)] else []
  }

  function Restarted(voters: set<Id>, h: Host): Host
    requires h.snapIndex <= |h.disk.log|
  {
    var n := BecomeFollower(voters, h.disk, h.disk.term, NO_NODE);
    h.(disk := n, vol := n, stage := Idle, outbox := {}, before := [], since := [],
       store := View(h.snapIndex, TermAt(n.log, h.snapIndex), n.log[h.snapIndex..]),
       unstable := Unstable(|n.log| + 1, [], None))
  }

  ghost predicate Does(voters: set<Id>, net: set<Msg>, h: Host, a: Action, h': Host) {
    match a
    case Local(ev, op) =>
      && ev != Restart && !ev.SelfAck? && CanHappen(net, h.vol, ev)
      && var e := Handle(voters, h.vol, ev);
      && e.Step? && Fits(h.vol, ev, e.node, op) && Tracks(h.unstable, op, h'.unstable)
      && h' == h.(vol := e.node, unstable := h'.unstable, outbox := h.outbox + e.out, since := h.since + [ev])
    case Accept =>
      && h.stage == Idle
      && h' == h.(stage := Accepted, ready := Ready(h.vol, h.outbox, h.unstable.ents, h.unstable.snap),
                  outbox := {}, before := h.since, since := [])
    case Persist =>
      && h.stage == Accepted && StoreReady(h.store, h.snapIndex, h.ready).Some?
      && h' == h.(stage := Stored, disk := h.ready.node, before := [],
                  store := StoreReady(h.store, h.snapIndex, h.ready).value,
                      snapIndex := SnapAfter(h.snapIndex, h.ready))
    case Send(m) => h.stage == Stored && m in h.ready.out && h' == h
    case Advance =>
      && h.stage == Stored
      && var e := SelfAcked(voters, h);
      && e.Step?
      && h' == h.(stage := Idle, vol := e.node, outbox := h.outbox + e.out,
                  unstable := Stabilised(h.unstable, LastOf(h.ready), SnapOf(h.ready)),
                  since := h.since + SelfAcks(h))
    case Crash => h.snapIndex <= |h.disk.log| && h' == Restarted(voters, h)
    case Compact(k) =>
      && h.stage == Stored && h.store.base < k <= Last(h.store) && k <= h.disk.committed
      && h' == h.(store := StoreCompact(h.store, k))
    case TakeSnapshot(k) =>
      && h.stage == Stored && h.snapIndex < k <= Last(h.store) && h.store.base <= k <= h.disk.committed
      && h' == h.(snapIndex := k)
    case Pause => h' == h
  }

  // ---------------------------------------------------------------- the system

  ghost predicate SystemStep(s: System, s': System) {
    exists v, a :: Acts(s, s', v, a)
  }

  ghost predicate Acts(s: System, s': System, v: Id, a: Action) {
    && v in s.hosts && v in s'.hosts && Does(s.voters, s.net, s.hosts[v], a, s'.hosts[v])
    && s' == s.(hosts := s.hosts[v := s'.hosts[v]], net := if a.Send? then s.net + {a.m} else s.net)
  }

  /** Every host has stored the bootstrap entries. */
  function FirstHost(voters: set<Id>, v: Id, boot: seq<Entry>): Host {
    var n := FirstNode(voters, v, boot);
    Host(n, View(0, 0, boot), 0, Idle, Ready(n, {}, [], None), n, Unstable(|boot| + 1, [], None), {}, [], [])
  }

  ghost function FirstSystem(voters: set<Id>, boot: seq<Entry>): System {
    System(voters, map v | v in voters :: FirstHost(voters, v, boot), {})
  }

  ghost predicate InitialSystem(s: System) {
    NO_NODE !in s.voters && s.voters != {} && exists boot :: BootLog(boot) && s == FirstSystem(s.voters, boot)
  }

  ghost predicate IsSystemRun(run: seq<System>) {
    && run != [] && InitialSystem(run[0])
    && forall i :: 0 <= i < |run| - 1 ==> SystemStep(run[i], run[i + 1])
  }
}
