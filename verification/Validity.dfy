/** Where the entries of a log come from: nothing is ever replicated that nobody proposed. */
module Validity {
  import opened RaftTypes
  import opened Quorum
  import opened LogView
  import opened RaftNode
  import opened Core = RaftCore
  import opened Cluster
  import opened ClusterDispatch
  import opened ClusterSafety

  // ---------------------------------------------------------------- one event

  /** The entries a message carries. */
  function Carried(m: Msg): seq<Entry> {
    match m
    case App(_, _, _, _, _, entries, _) => entries
    case Snap(_, _, _, prefix) => prefix
    case _ => []
  }

  /** The empty entry with which a node that wins an election opens its term. */
  ghost predicate Opens(n: Node, n': Node, x: Entry) {
    n.role != Leader && n'.role == Leader && x == Entry(|n.log| + 1, n'.term, Normal, [])
  }

  /** Item k of a proposal to a leader, as an entry. */
  ghost predicate Item(n: Node, ev: Event, x: Entry) {
    && ev.Propose? && n.role == Leader
    && exists k: nat :: k < |ev.items| && x == Entry(|n.log| + k + 1, n.term, ev.items[k].0, ev.items[k].1)
  }

  /** Everything in the new log was in the old one or in the message, opens a term, or was proposed. */
  ghost predicate LogFrom(n: Node, ev: Event, n': Node) {
    forall x :: x in n'.log ==> x in n.log || (ev.Recv? && x in Carried(ev.m)) || Opens(n, n', x) || Item(n, ev, x)
  }

  ghost predicate OutFrom(n: Node, out: set<Msg>) {
    forall m, x :: m in out && x in Carried(m) ==> x in n.log
  }

  lemma AppendFrom(log: seq<Entry>, committed: nat, index: nat, logTerm: Term, commit: nat, ents: seq<Entry>)
    ensures var r := MaybeAppend(FullView(log), committed, index, logTerm, commit, ents);
            r.Appended? ==> forall x :: x in r.view.ents ==> x in log || x in ents
  {
    hide FindConflict;
  }

  lemma AppFrom(n: Node, m: Msg)
    requires m.App? && HandleApp(n, m).Step?
    ensures forall x :: x in HandleApp(n, m).node.log ==> x in n.log || x in m.entries
    ensures forall r :: r in HandleApp(n, m).out ==> Carried(r) == []
  {
    hide MaybeAppend, ConflictByTerm;
    AppendFrom(n.log, n.committed, m.index, m.logTerm, m.commit, m.entries);
  }

  lemma DispatchFrom(voters: set<Id>, n: Node, m: Msg)
    requires Dispatch(voters, n, m).Step?
    ensures LogFrom(n, Recv(m), Dispatch(voters, n, m).node) && OutFrom(n, Dispatch(voters, n, m).out)
  {
    hide HandleApp, ConflictByTerm, CommittedIndex, VoteWon, VoteLost, UpToDate, IsQuorum, ReleaseCount;
    if m.App? && n.role != Leader { AppFrom(AsFollower(voters, n, m), m); }
  }

  lemma HandleFrom(voters: set<Id>, n: Node, ev: Event)
    requires Handle(voters, n, ev).Step?
    ensures LogFrom(n, ev, Handle(voters, n, ev).node) && OutFrom(n, Handle(voters, n, ev).out)
  {
    hide Dispatch, VoteWon, CommittedIndex;
    if ev.Recv? && n.term <= ev.m.term {
      DispatchFrom(voters, MeetTerm(voters, n, ev.m), ev.m);
      if n.term < ev.m.term { FollowerStays(voters, MeetTerm(voters, n, ev.m), ev.m); }
    }
  }

  // ---------------------------------------------------------------- within a set of entries

  ghost predicate LogWithin(log: seq<Entry>, s: iset<Entry>) {
    forall x :: x in log ==> x in s
  }

  ghost predicate MailWithin(msgs: set<Msg>, s: iset<Entry>) {
    forall m :: m in msgs ==> LogWithin(Carried(m), s)
  }

  /** What an event makes is in s if what it starts from and what it makes anew is. */
  lemma HandleWithin(voters: set<Id>, n: Node, ev: Event, s: iset<Entry>)
    requires Handle(voters, n, ev).Step? && LogWithin(n.log, s) && (ev.Recv? ==> LogWithin(Carried(ev.m), s))
    requires forall x :: Opens(n, Handle(voters, n, ev).node, x) || Item(n, ev, x) ==> x in s
    ensures LogWithin(Handle(voters, n, ev).node.log, s) && MailWithin(Handle(voters, n, ev).out, s)
  {
    hide Handle, Opens, Item;
    HandleFrom(voters, n, ev);
  }

  // ---------------------------------------------------------------- runs of the cluster

  ghost predicate Booted(c: Cluster, x: Entry) {
    exists v :: v in c.nodes && x in c.nodes[v].log
  }

  /** In this step x opens a term, or is an item of what is proposed. */
  ghost predicate Makes(c: Cluster, c': Cluster, x: Entry) {
    exists v, ev :: Moves(c, c', v, ev) && (Opens(c.nodes[v], c'.nodes[v], x) || Item(c.nodes[v], ev, x))
  }

  /** The entries a run can speak of up to moment i: those it started with, and those a step before i made. */
  ghost predicate Sourced(run: seq<Cluster>, i: nat, x: Entry)
    requires i < |run|
  {
    Booted(run[0], x) || exists k: nat :: k < i && Makes(run[k], run[k + 1], x)
  }

  ghost function Sources(run: seq<Cluster>, i: nat): iset<Entry>
    requires i < |run|
  {
    iset x | Sourced(run, i, x)
  }

  ghost predicate AllWithin(c: Cluster, s: iset<Entry>) {
    (forall v :: v in c.nodes ==> LogWithin(c.nodes[v].log, s)) && MailWithin(c.msgs, s)
  }

  ghost predicate MakesWithin(c: Cluster, c': Cluster, s: iset<Entry>) {
    forall x :: Makes(c, c', x) ==> x in s
  }

  lemma StepWithin(c: Cluster, c': Cluster, s: iset<Entry>)
    requires Next(c, c') && AllWithin(c, s) && MakesWithin(c, c', s)
    ensures AllWithin(c', s)
  {
    hide Handle, Record, Mark, Opens, Item, LogWithin;
    var v, ev :| Moves(c, c', v, ev);
    HandleWithin(c.voters, c.nodes[v], ev, s);
  }

  lemma FirstWithin(c: Cluster, s: iset<Entry>)
    requires Initial(c) && forall x :: Booted(c, x) ==> x in s
    ensures AllWithin(c, s)
  {
    hide Core.Init, BootLog;
  }

  lemma MoreSources(run: seq<Cluster>, i: nat)
    requires i < |run| - 1
    ensures Sources(run, i) <= Sources(run, i + 1)
    ensures MakesWithin(run[i], run[i + 1], Sources(run, i + 1))
  {
    hide Makes, Booted;
  }

  lemma WithinMore(c: Cluster, s: iset<Entry>, s': iset<Entry>)
    requires AllWithin(c, s) && s <= s'
    ensures AllWithin(c, s')
  {
  }

  lemma {:induction false} RunWithin(run: seq<Cluster>, i: nat)
    requires IsRun(run) && i < |run|
    ensures AllWithin(run[i], Sources(run, i))
  {
    hide AllWithin, Next, Initial, Makes, Booted;
    if i == 0 {
      FirstWithin(run[0], Sources(run, 0));
    } else {
      RunWithin(run, i - 1);
      MoreSources(run, i - 1);
      WithinMore(run[i - 1], Sources(run, i - 1), Sources(run, i));
      assert Next(run[i - 1], run[i]);
      StepWithin(run[i - 1], run[i], Sources(run, i));
    }
  }

  /** Validity: every entry in any log was there from the start, opened the term of a new leader and is empty, or is an
      item proposed earlier to the leader of its term, with that kind and that data. */
  lemma NothingInvented(run: seq<Cluster>, i: nat, v: Id, x: Entry)
    requires IsRun(run) && i < |run| && v in run[i].nodes && x in run[i].nodes[v].log
    ensures Booted(run[0], x) || exists k: nat :: k < i && Makes(run[k], run[k + 1], x)
  {
    hide IsRun, Makes, Booted;
    RunWithin(run, i);
    assert x in Sources(run, i);
  }
}
