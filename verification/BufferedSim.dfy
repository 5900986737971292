/** Every run of the buffered system is a run of the atomic cluster seen late: a node's events happen when they are
    stored. */
module BufferedSim {
  import opened RaftTypes
  import opened LogView
  import opened LogStore
  import opened Quorum
  import opened RaftNode
  import opened Core = RaftCore
  import opened Cluster
  import opened ClusterSafety
  import opened Buffered

  // ---------------------------------------------------------------- replaying a node's events

  datatype Replayed = Stuck | At(node: Node, out: set<Msg>)

  ghost function Replay(voters: set<Id>, n: Node, evs: seq<Event>): Replayed {
    if evs == [] then At(n, {})
    else
      match Replay(voters, n, evs[..|evs| - 1])
      case Stuck => Stuck
      case At(m, out) =>
        match Handle(voters, m, evs[|evs| - 1])
        case Panic => Stuck
        case Step(m', out', _) => At(m', out + out')
  }

  /** Each of the events could happen when its turn came. */
  ghost predicate Possible(voters: set<Id>, msgs: set<Msg>, n: Node, evs: seq<Event>) {
    forall i {:trigger evs[..i]} :: 0 <= i < |evs| ==>
      Replay(voters, n, evs[..i]).At? && CanHappen(msgs, Replay(voters, n, evs[..i]).node, evs[i])
  }

  ghost predicate Follows(voters: set<Id>, msgs: set<Msg>, n: Node, evs: seq<Event>, n': Node, out: set<Msg>) {
    Possible(voters, msgs, n, evs) && Replay(voters, n, evs) == At(n', out)
  }

  /** The terms in which one of the events uses a read context again. */
  ghost function Spoils(voters: set<Id>, n: Node, evs: seq<Event>): set<Term> {
    if evs == [] then {}
    else
      var k := |evs| - 1;
      Spoils(voters, n, evs[..k]) +
        match Replay(voters, n, evs[..k])
        case Stuck => {}
        case At(m, _) => if Reuses(voters, m, evs[k]) then {m.term} else {}
  }

  lemma FollowsNothing(voters: set<Id>, msgs: set<Msg>, n: Node)
    ensures Follows(voters, msgs, n, [], n, {})
  {
  }

  lemma FollowsMore(voters: set<Id>, msgs: set<Msg>, n: Node, evs: seq<Event>, n': Node, out: set<Msg>, ev: Event)
    requires Follows(voters, msgs, n, evs, n', out) && CanHappen(msgs, n', ev) && Handle(voters, n', ev).Step?
    ensures var e := Handle(voters, n', ev); Follows(voters, msgs, n, evs + [ev], e.node, out + e.out)
  {
    hide Handle, CanHappen;
    var evs' := evs + [ev];
    assert evs'[..|evs|] == evs;
    forall i {:trigger evs'[..i]} | 0 <= i < |evs'|
      ensures Replay(voters, n, evs'[..i]).At? && CanHappen(msgs, Replay(voters, n, evs'[..i]).node, evs'[i])
    {
      if i < |evs| { assert evs'[..i] == evs[..i]; }
    }
  }

  lemma FollowsLess(voters: set<Id>, msgs: set<Msg>, n: Node, evs: seq<Event>, n': Node, out: set<Msg>)
    returns (m: Node, out0: set<Msg>)
    requires Follows(voters, msgs, n, evs, n', out) && evs != []
    ensures var ev := evs[|evs| - 1]; var e := Handle(voters, m, ev);
            && Follows(voters, msgs, n, evs[..|evs| - 1], m, out0) && CanHappen(msgs, m, ev)
            && e.Step? && n' == e.node && out == out0 + e.out
  {
    hide Handle, CanHappen;
    var k := |evs| - 1;
    var r := Replay(voters, n, evs[..k]);
    m, out0 := r.node, r.out;
    forall i {:trigger evs[..k][..i]} | 0 <= i < k
      ensures Replay(voters, n, evs[..k][..i]).At?
              && CanHappen(msgs, Replay(voters, n, evs[..k][..i]).node, evs[..k][i])
    {
      assert evs[..k][..i] == evs[..i];
    }
  }

  lemma FollowsWider(voters: set<Id>, msgs: set<Msg>, msgs': set<Msg>, n: Node, evs: seq<Event>, n': Node,
      out: set<Msg>)
    requires Follows(voters, msgs, n, evs, n', out) && msgs <= msgs'
    ensures Follows(voters, msgs', n, evs, n', out)
  {
    hide Handle, Replay;
  }

  // ---------------------------------------------------------------- a host against the atomic cluster

  /** How the node in memory came from the one on disk. */
  ghost predicate HostTraced(voters: set<Id>, net: set<Msg>, h: Host) {
    && (h.stage == Idle ==> h.before == [] && Follows(voters, net, h.disk, h.since, h.vol, h.outbox))
    && (h.stage == Accepted ==>
          && Follows(voters, net, h.disk, h.before, h.ready.node, h.ready.out)
          && Follows(voters, net, h.ready.node, h.since, h.vol, h.outbox))
    && (h.stage == Stored ==>
          && h.before == [] && h.disk == h.ready.node
          && Follows(voters, net, h.disk, h.since, h.vol, h.outbox))
  }

  ghost function Disks(s: System): map<Id, Node> {
    map v | v in s.hosts :: s.hosts[v].disk
  }

  /** The atomic run ends with the nodes as they are on disk. */
  ghost predicate Backs(run: seq<Cluster>, s: System) {
    && IsRun(run)
    && var c := run[|run| - 1];
    && c.voters == s.voters && c.nodes == Disks(s) && s.net <= c.msgs
    && (forall v :: v in s.hosts ==> HostTraced(s.voters, s.net, s.hosts[v]))
    && (forall v :: v in s.hosts && s.hosts[v].stage == Stored ==> s.hosts[v].ready.out <= c.msgs)
  }

  lemma OneMore(run: seq<Cluster>, v: Id, ev: Event) returns (run': seq<Cluster>)
    requires IsRun(run) && Enabled(run[|run| - 1], v, ev)
    ensures Handle(run[|run| - 1].voters, run[|run| - 1].nodes[v], ev).Step?
    ensures IsRun(run') && run <= run' && |run'| == |run| + 1
    ensures var c := run[|run| - 1]; run'[|run|] == After(c, v, ev, Handle(c.voters, c.nodes[v], ev))
  {
    hide Handle, Initial, After, CanHappen;
    var c := run[|run| - 1];
    NoPanic(run, |run| - 1, v, ev);
    var c' := After(c, v, ev, Handle(c.voters, c.nodes[v], ev));
    run' := run + [c'];
    assert Moves(c, c', v, ev);
    forall i | 0 <= i < |run'| - 1 ensures Next(run'[i], run'[i + 1]) {
      if i < |run| - 1 { assert Next(run[i], run[i + 1]); }
    }
  }

  /** A node's pending events can all happen in the atomic cluster. */
  lemma CatchUp(run: seq<Cluster>, v: Id, msgs: set<Msg>, evs: seq<Event>, n': Node, out: set<Msg>)
      returns (run': seq<Cluster>)
    requires IsRun(run) && v in run[|run| - 1].nodes && msgs <= run[|run| - 1].msgs
    requires Follows(run[|run| - 1].voters, msgs, run[|run| - 1].nodes[v], evs, n', out)
    ensures IsRun(run') && run <= run'
    ensures var c, c' := run[|run| - 1], run'[|run'| - 1];
            && c'.voters == c.voters && c'.nodes == c.nodes[v := n'] && c.msgs + out <= c'.msgs
            && c'.spoiled == c.spoiled + Spoils(c.voters, c.nodes[v], evs)
    decreases |evs|
  {
    hide Handle, CanHappen, Initial, Next;
    var c := run[|run| - 1];
    if evs == [] {
      run' := run;
    } else {
      var m, out0 := FollowsLess(c.voters, msgs, c.nodes[v], evs, n', out);
      var run1 := CatchUp(run, v, msgs, evs[..|evs| - 1], m, out0);
      var c1 := run1[|run1| - 1];
      NodeIds(run1, v);
      CanStill(msgs, c1.msgs, m, evs[|evs| - 1]);
      run' := OneMore(run1, v, evs[|evs| - 1]);
    }
  }

  lemma CanStill(msgs: set<Msg>, msgs': set<Msg>, n: Node, ev: Event)
    requires CanHappen(msgs, n, ev) && msgs <= msgs'
    ensures CanHappen(msgs', n, ev)
  {
  }

  lemma NodeIds(run: seq<Cluster>, v: Id)
    requires IsRun(run) && v in run[|run| - 1].nodes
    ensures v in run[|run| - 1].voters && run[|run| - 1].nodes[v].id == v
  {
    hide Initial, Next, CoreInv, NodeOk, MsgOk, CommitKnown, Indexed, ReadInv;
    RunInv(run, |run| - 1);
  }

  // ---------------------------------------------------------------- what a leader acknowledges to itself

  /** The unstable entries, if any, end where the log ends. */
  ghost predicate EndsOk(h: Host) {
    && 0 < h.unstable.offset && IndexedFrom(h.unstable.ents, h.unstable.offset - 1)
    && (h.unstable.ents != [] ==> h.unstable.offset - 1 + |h.unstable.ents| == |h.vol.log|)
    && (h.stage != Idle && h.ready.ents != [] ==> LastOf(h.ready).value.0 == |h.ready.node.log|)
  }

  lemma StabilisedEnds(u: Unstable, last: Option<(nat, Term)>, snapIndex: nat, n: nat)
    requires 0 < u.offset && IndexedFrom(u.ents, u.offset - 1) && (u.ents != [] ==> u.offset - 1 + |u.ents| == n)
    ensures var u' := Stabilised(u, last, snapIndex);
            0 < u'.offset && IndexedFrom(u'.ents, u'.offset - 1) && (u'.ents != [] ==> u'.offset - 1 + |u'.ents| == n)
  {
  }

  lemma AckKeepsLog(voters: set<Id>, n: Node, from: Id, index: nat)
    requires Acknowledge(voters, n, from, index).Step?
    ensures Acknowledge(voters, n, from, index).node.log == n.log
  {
    hide CommittedIndex;
  }

  lemma EndsKept(voters: set<Id>, net: set<Msg>, h: Host, a: Action, h': Host)
    requires Does(voters, net, h, a, h') && EndsOk(h)
    ensures EndsOk(h')
  {
    hide Handle, Acknowledge;
    if a.Advance? {
      if h.vol.role == Leader && h.ready.ents != [] { AckKeepsLog(voters, h.vol, h.vol.id, LastOf(h.ready).value.0); }
      StabilisedEnds(h.unstable, LastOf(h.ready), SnapOf(h.ready), |h.vol.log|);
    }
  }

  /** Since the Ready was accepted (at `mid`), the node has not been elected in a new term: nobody could have voted for
      it. */
  ghost predicate Led(voters: set<Id>, mid: Node, n: Node) {
    && n.id == mid.id && mid.term <= n.term
    && (|voters| == 1 ==> mid.log <= n.log)
    && (|voters| != 1 && n.term == mid.term ==>
          (n.role == Candidate ==> n.log == mid.log) && (n.role == Leader ==> mid.log <= n.log))
    && (|voters| != 1 && n.term > mid.term ==>
          n.role != Leader && (n.role == Candidate ==> forall u :: u in n.votes && n.votes[u] ==> u == n.id))
  }

  lemma OwnVoteLoses(voters: set<Id>, votes: map<Id, bool>, id: Id)
    requires |voters| != 1 && forall u :: u in votes && votes[u] ==> u == id
    ensures !VoteWon(voters, votes)
  {
    var g := Granted(voters, votes);
    assert g <= {id};
    SubsetSize(g, {id});
    if VoteWon(voters, votes) {
      SubsetSize(g, voters);
    }
  }

  lemma HupLed(voters: set<Id>, mid: Node, n: Node)
    requires Led(voters, mid, n)
    ensures HandleHup(voters, n).Step? && Led(voters, mid, HandleHup(voters, n).node)
  {
    hide VoteWon;
    var c := BecomeCandidate(voters, n);
    if |voters| != 1 { OwnVoteLoses(voters, RecordVote(c.votes, n.id, true), n.id); }
  }

  lemma VoteLed(voters: set<Id>, mid: Node, n: Node, m: Msg)
    requires Led(voters, mid, n) && |voters| != 1 && m.VoteResp? && n.role == Candidate && n.term == m.term
    requires !m.reject ==> m.term <= mid.term
    ensures Led(voters, mid, HandleVoteResp(voters, n, m).node)
  {
    hide VoteWon, VoteLost;
    if n.term > mid.term { OwnVoteLoses(voters, RecordVote(n.votes, m.from, !m.reject), n.id); }
  }

  /** A node that does not campaign stays out of office whatever it is told. */
  lemma OthersLed(voters: set<Id>, n: Node, m: Msg)
    requires Dispatch(voters, n, m).Step? && !m.VoteResp?
    ensures var n' := Dispatch(voters, n, m).node;
            && n'.id == n.id && n'.term ==
                 (if n.role == Candidate && (m.App? || m.Heartbeat? || m.Snap?) then m.term else n.term)
            && (n'.role == n.role || n'.role == Follower)
                 && (n'.role != Follower ==> n'.log == n.log && n'.votes == n.votes)
  {
    hide MaybeAppend, ConflictByTerm, CommittedIndex, UpToDate, IsQuorum;
  }

  lemma DispatchLed(voters: set<Id>, mid: Node, n: Node, m: Msg)
    requires Led(voters, mid, n) && |voters| != 1 && n.term == m.term && Dispatch(voters, n, m).Step?
    requires m.VoteResp? && !m.reject ==> m.term <= mid.term
    ensures Led(voters, mid, Dispatch(voters, n, m).node)
  {
    if !m.VoteResp? {
      OthersLed(voters, n, m);
      hide Dispatch;
    } else if n.role == Candidate {
      VoteLed(voters, mid, n, m);
    }
  }

  lemma LedStep(voters: set<Id>, mid: Node, n: Node, ev: Event)
    requires Led(voters, mid, n) && Handle(voters, n, ev).Step?
    requires ev.Recv? ==> |voters| != 1 && (ev.m.VoteResp? && !ev.m.reject ==> ev.m.term <= mid.term)
    ensures Led(voters, mid, Handle(voters, n, ev).node)
  {
    hide Dispatch, HandleHup, Acknowledge;
    match ev {
      case Hup => HupLed(voters, mid, n);
      case Recv(m) =>
        if n.term <= m.term { DispatchLed(voters, mid, MeetTerm(voters, n, m), m); }
      case SelfAck(index) => AckLed(voters, n, index);
      case _ =>
    }
  }

  lemma AckLed(voters: set<Id>, n: Node, index: nat)
    ensures Acknowledge(voters, n, n.id, index).Step? ==>
              var n' := Acknowledge(voters, n, n.id, index).node;
              n'.log == n.log && n'.role == n.role && n'.term == n.term && n'.votes == n.votes && n'.id == n.id
  {
    hide CommittedIndex;
  }

  /** No vote for a later term has been cast for this node, and a lone voter has no mail. */
  ghost predicate NoLaterVotes(voters: set<Id>, msgs: set<Msg>, n: Node) {
    forall m :: m in msgs && m.to == n.id ==> |voters| != 1 && (m.VoteResp? && !m.reject ==> m.term <= n.term)
  }

  lemma FollowsStillLed(voters: set<Id>, msgs: set<Msg>, mid: Node, n0: Node, evs: seq<Event>, n: Node, out: set<Msg>)
    requires Follows(voters, msgs, n0, evs, n, out) && NoLaterVotes(voters, msgs, mid) && Led(voters, mid, n0)
    ensures Led(voters, mid, n)
    decreases |evs|
  {
    hide Handle;
    if evs == [] {
    } else {
      var m, out0 := FollowsLess(voters, msgs, n0, evs, n, out);
      FollowsStillLed(voters, msgs, mid, n0, evs[..|evs| - 1], m, out0);
      LedStep(voters, mid, m, evs[|evs| - 1]);
    }
  }

  lemma FollowsLed(voters: set<Id>, msgs: set<Msg>, mid: Node, evs: seq<Event>, n: Node, out: set<Msg>)
    requires Follows(voters, msgs, mid, evs, n, out) && NoLaterVotes(voters, msgs, mid)
    ensures Led(voters, mid, n)
  {
    hide Follows, NoLaterVotes;
    FollowsStillLed(voters, msgs, mid, mid, evs, n, out);
  }

  lemma VotesAreKnown(s: Core.Core, marks: Marks, m: Msg, n: Node)
    requires MsgOk(s, marks, m) && NodeOk(s, n) && VotesFollowCampaigns(s) && m.to == n.id
    ensures |s.voters| != 1 && (m.VoteResp? && !m.reject ==> m.term <= n.term)
  {
    SubsetSize({m.from, m.to}, s.voters);
    if m.VoteResp? && !m.reject {
      var b := Ballot(m.from, m.term, m.to);
      assert b in s.ballots;
    }
  }

  /** Every vote was cast for a campaign its candidate had reached. */
  ghost predicate VotesFollowCampaigns(s: Core.Core) {
    && (forall b :: b in s.ballots ==> (b.cand, b.term) in s.campaign)
    && (forall v: Id, t: Term :: (v, t) in s.campaign ==> v in s.term && t <= s.term[v])
  }

  lemma CampaignsReached(s: Core.Core)
    requires CoreInv(s)
    ensures VotesFollowCampaigns(s)
  {
    hide LeaderLogsOk, NodeLogsOk, ElectionsOk, AcksOk, CommitsOk, LeadersKeep, NodesKeep, BallotsKeep, Traced;
  }

  lemma DiskHasNoLaterVotes(run: seq<Cluster>, v: Id)
    requires IsRun(run) && v in run[|run| - 1].nodes
    ensures var c := run[|run| - 1]; NoLaterVotes(c.voters, c.msgs, c.nodes[v])
  {
    hide Initial, Next, CoreInv, NodeOk, MsgOk, CommitKnown, Indexed, ReadInv, VotesFollowCampaigns;
    var c := run[|run| - 1];
    RunInv(run, |run| - 1);
    CampaignsReached(c.core);
    forall m | m in c.msgs && m.to == v
      ensures |c.voters| != 1 && (m.VoteResp? && !m.reject ==> m.term <= c.nodes[v].term)
    {
      NodeIdIs(c, v);
      VotesAreKnown(c.core, c.marks, m, c.nodes[v]);
    }
  }

  lemma NodeIdIs(c: Cluster, v: Id)
    requires Wired(c) && v in c.nodes
    ensures c.nodes[v].id == v
  {
  }

  /** When a leader acknowledges a stored Ready to itself, its log still holds that Ready's entries. */
  lemma AckWithin(run: seq<Cluster>, s: System, v: Id)
    requires Backs(run, s) && v in s.hosts && EndsOk(s.hosts[v])
    requires var h := s.hosts[v]; h.stage == Stored && h.vol.role == Leader && h.ready.ents != []
    ensures var h := s.hosts[v]; LastOf(h.ready).value.0 <= |h.vol.log|
  {
    hide Initial, Next, Follows, IndexedFrom;
    var h := s.hosts[v];
    var c := run[|run| - 1];
    DiskHasNoLaterVotes(run, v);
    assert c.nodes[v] == h.disk;
    FewerVotes(c.voters, c.msgs, s.net, h.disk);
    FollowsLed(s.voters, s.net, h.disk, h.since, h.vol, h.outbox);
  }

  lemma FewerVotes(voters: set<Id>, msgs: set<Msg>, msgs': set<Msg>, n: Node)
    requires NoLaterVotes(voters, msgs, n) && msgs' <= msgs
    ensures NoLaterVotes(voters, msgs', n)
  {
  }

  // ---------------------------------------------------------------- the simulation

  lemma TracedWider(voters: set<Id>, net: set<Msg>, net': set<Msg>, h: Host)
    requires HostTraced(voters, net, h) && net <= net'
    ensures HostTraced(voters, net', h)
  {
    hide Follows;
    if h.stage == Accepted {
      FollowsWider(voters, net, net', h.disk, h.before, h.ready.node, h.ready.out);
      FollowsWider(voters, net, net', h.ready.node, h.since, h.vol, h.outbox);
    } else {
      FollowsWider(voters, net, net', h.disk, h.since, h.vol, h.outbox);
    }
  }

  lemma LocalTraced(voters: set<Id>, net: set<Msg>, h: Host, ev: Event, op: LogOp, h': Host)
    requires HostTraced(voters, net, h) && Does(voters, net, h, Local(ev, op), h')
    ensures HostTraced(voters, net, h') && h'.disk == h.disk && h'.stage == h.stage && h'.ready == h.ready
  {
    hide Follows, Handle, Fits, Tracks, CanHappen;
    var from := if h.stage == Accepted then h.ready.node else h.disk;
    FollowsMore(voters, net, from, h.since, h.vol, h.outbox, ev);
  }

  lemma AcceptTraced(voters: set<Id>, net: set<Msg>, h: Host, h': Host)
    requires HostTraced(voters, net, h) && Does(voters, net, h, Accept, h')
    ensures HostTraced(voters, net, h') && h'.disk == h.disk && h'.stage == Accepted
  {
    hide Follows;
    FollowsNothing(voters, net, h.vol);
  }

  lemma AdvanceTraced(voters: set<Id>, net: set<Msg>, h: Host, h': Host)
    requires HostTraced(voters, net, h) && Does(voters, net, h, Advance, h') && EndsOk(h)
    requires h.vol.role == Leader && h.ready.ents != [] ==> LastOf(h.ready).value.0 <= |h.vol.log|
    ensures HostTraced(voters, net, h') && h'.disk == h.disk && h'.stage == Idle
  {
    hide Follows, Acknowledge, Stabilised;
    if h.vol.role == Leader && h.ready.ents != [] {
      FollowsMore(voters, net, h.disk, h.since, h.vol, h.outbox, SelfAck(LastOf(h.ready).value.0));
    } else {
      assert h.since + [] == h.since && h.outbox + {} == h.outbox;
    }
  }

  /** The disks after one of them changed. */
  lemma DisksAfter(s: System, s': System, v: Id)
    requires v in s.hosts && v in s'.hosts && s'.hosts == s.hosts[v := s'.hosts[v]]
    ensures Disks(s') == Disks(s)[v := s'.hosts[v].disk]
  {
  }

  /** Everything but the run itself: hosts other than v see more of the network at most. */
  lemma BacksOthers(run: seq<Cluster>, s: System, run': seq<Cluster>, s': System, v: Id)
    requires Backs(run, s) && v in s.hosts && v in s'.hosts && s'.hosts == s.hosts[v := s'.hosts[v]]
             && s'.voters == s.voters
    requires s.net <= s'.net && HostTraced(s'.voters, s'.net, s'.hosts[v])
    requires IsRun(run')
    requires var c, c' := run[|run| - 1], run'[|run'| - 1];
             && c'.voters == c.voters && c'.nodes == c.nodes[v := s'.hosts[v].disk]
             && c.msgs <= c'.msgs && s'.net <= c'.msgs
                  && (s'.hosts[v].stage == Stored ==> s'.hosts[v].ready.out <= c'.msgs)
    ensures Backs(run', s')
  {
    hide Initial, Next, HostTraced;
    DisksAfter(s, s', v);
    forall u | u in s'.hosts ensures HostTraced(s'.voters, s'.net, s'.hosts[u]) {
      if u != v { TracedWider(s.voters, s.net, s'.net, s.hosts[u]); }
    }
  }

  /** The terms spoiled by the events that are about to be stored. */
  ghost function StoredSpoils(voters: set<Id>, h: Host): set<Term> {
    Spoils(voters, h.disk, h.before)
  }

  /** What happened to the atomic run when host v went on from h to h'. */
  ghost predicate Extended(run: seq<Cluster>, run': seq<Cluster>, v: Id, h: Host, h': Host) {
    && run != [] && run <= run' && IsRun(run')
    && var c, c' := run[|run| - 1], run'[|run'| - 1];
    && c'.voters == c.voters && c'.nodes == c.nodes[v := h'.disk] && c.msgs <= c'.msgs
    && (h'.stage == Stored ==> h'.ready.out <= c'.msgs)
    && c'.spoiled <= c.spoiled + StoredSpoils(c.voters, h)
  }

  /** Actions that store nothing need no step of the atomic cluster. */
  lemma QuietBacked(run: seq<Cluster>, s: System, v: Id, h': Host)
    requires Backs(run, s) && v in s.hosts && h'.disk == s.hosts[v].disk
    requires h'.stage == Stored ==> s.hosts[v].stage == Stored && h'.ready == s.hosts[v].ready
    ensures Extended(run, run, v, s.hosts[v], h')
  {
    hide Initial, Next, HostTraced;
    var c := run[|run| - 1];
    assert c.nodes[v] == s.hosts[v].disk;
    assert c.nodes == c.nodes[v := h'.disk];
  }

  lemma HostBacked(run: seq<Cluster>, s: System, v: Id, a: Action, h': Host, net': set<Msg>)
      returns (run': seq<Cluster>)
    requires Backs(run, s) && v in s.hosts && Does(s.voters, s.net, s.hosts[v], a, h') && EndsOk(s.hosts[v])
    requires net' == if a.Send? then s.net + {a.m} else s.net
    ensures Extended(run, run', v, s.hosts[v], h') && HostTraced(s.voters, net', h')
  {
    hide Backs, Extended, EndsOk, Handle, Acknowledge, Stabilised, StoreReady, Follows, Fits, Tracks, CanHappen;
    var h := s.hosts[v];
    BackedHost(run, s, v);
    run' := run;
    match a {
      case Local(ev, op) =>
        LocalTraced(s.voters, s.net, h, ev, op, h');
        QuietBacked(run, s, v, h');
      case Accept =>
        AcceptTraced(s.voters, s.net, h, h');
        QuietBacked(run, s, v, h');
      case Persist => run' := PersistBacked(run, s, v, h');
      case Send(_) =>
        TracedWider(s.voters, s.net, net', h);
        QuietBacked(run, s, v, h');
      case Advance =>
        if h.vol.role == Leader && h.ready.ents != [] { AckWithin(run, s, v); }
        AdvanceTraced(s.voters, s.net, h, h');
        QuietBacked(run, s, v, h');
      case Crash => run' := CrashBacked(run, s, v, h');
      case _ => QuietBacked(run, s, v, h');
    }
  }

  lemma BackedHost(run: seq<Cluster>, s: System, v: Id)
    requires Backs(run, s) && v in s.hosts
    ensures HostTraced(s.voters, s.net, s.hosts[v])
  {
    hide HostTraced, IsRun;
  }

  lemma ActBacked(run: seq<Cluster>, s: System, s': System, v: Id, a: Action) returns (run': seq<Cluster>)
    requires Backs(run, s) && Acts(s, s', v, a) && EndsOk(s.hosts[v])
    ensures Backs(run', s') && run <= run' && run != []
    ensures run'[|run'| - 1].spoiled <= run[|run| - 1].spoiled + StoredSpoils(s.voters, s.hosts[v])
  {
    hide IsRun, HostTraced, EndsOk, Does;
    run' := HostBacked(run, s, v, a, s'.hosts[v], s'.net);
    NetBacked(run, s, run', s', v, a);
    BacksOthers(run, s, run', s', v);
  }

  lemma NetBacked(run: seq<Cluster>, s: System, run': seq<Cluster>, s': System, v: Id, a: Action)
    requires Backs(run, s) && Acts(s, s', v, a) && Extended(run, run', v, s.hosts[v], s'.hosts[v])
    ensures s'.net <= run'[|run'| - 1].msgs
  {
    hide IsRun, HostTraced, Handle, Acknowledge, Stabilised, StoreReady, Fits, Tracks, CanHappen;
  }

  lemma PersistBacked(run: seq<Cluster>, s: System, v: Id, h': Host) returns (run': seq<Cluster>)
    requires Backs(run, s) && v in s.hosts && Does(s.voters, s.net, s.hosts[v], Persist, h')
    ensures Extended(run, run', v, s.hosts[v], h') && HostTraced(s.voters, s.net, h')
  {
    hide Initial, Next, Follows;
    var h := s.hosts[v];
    run' := CatchUp(run, v, s.net, h.before, h.ready.node, h.ready.out);
  }

  lemma CrashBacked(run: seq<Cluster>, s: System, v: Id, h': Host) returns (run': seq<Cluster>)
    requires Backs(run, s) && v in s.hosts && Does(s.voters, s.net, s.hosts[v], Crash, h')
    ensures Extended(run, run', v, s.hosts[v], h') && HostTraced(s.voters, s.net, h')
  {
    hide Initial, Next, Record, Mark, Follows;
    NodeIds(run, v);
    run' := OneMore(run, v, Restart);
    FollowsNothing(s.voters, s.net, h'.disk);
  }

  lemma FirstHostTraced(voters: set<Id>, v: Id, boot: seq<Entry>)
    ensures var h := FirstHost(voters, v, boot); HostTraced(voters, {}, h) && EndsOk(h) && h.stage == Idle
  {
    hide Follows;
    FollowsNothing(voters, {}, FirstNode(voters, v, boot));
  }

  lemma FirstBacked(s: System) returns (run: seq<Cluster>)
    requires InitialSystem(s)
    ensures |run| == 1 && Backs(run, s) && forall v :: v in s.hosts ==> EndsOk(s.hosts[v])
  {
    hide FirstCluster, BootLog, HostTraced, EndsOk, FirstNode, Next;
    var boot :| BootLog(boot) && s == FirstSystem(s.voters, boot);
    run := [FirstCluster(s.voters, boot)];
    FirstFields(s.voters, boot);
    forall v | v in s.hosts
      ensures HostTraced(s.voters, s.net, s.hosts[v]) && EndsOk(s.hosts[v]) && s.hosts[v].stage == Idle
    {
      FirstHostTraced(s.voters, v, boot);
    }
    assert run[0].nodes == Disks(s);
  }
}
