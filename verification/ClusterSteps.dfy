/** Every handler keeps the protocol invariant and never panics. */
module ClusterSteps {
  import opened RaftTypes
  import opened Quorum
  import opened LogView
  import opened RaftNode
  import opened Core = RaftCore
  import opened Cluster
  import opened ClusterFrame

  // ---------------------------------------------------------------- consequences of the invariant

  /** A settled prefix is in every leader log of an equal or later term. */
  lemma SettledInLeader(s: Core.Core, p: seq<Entry>, t: Term, u: Term)
    requires Shape(s) && CommitsOk(s) && LeadersKeep(s)
    requires Settled(s, p, t) && t <= u && u in s.leaderLog
    ensures p <= s.leaderLog[u]
  {
    if p != [] {
      var d :| SettledBy(s, p, t, d);
      LeaderCompleteness(s, d, u);
    }
  }

  lemma LeaderHoldsItsLog(s: Core.Core, n: Node)
    requires Shape(s) && ElectionsOk(s) && NodeOk(s, n) && n.role == Leader
    ensures n.term in s.leaderLog && n.log == s.leaderLog[n.term] && n.term != BOOT_TERM && Leads(s, n.id)
  {
    assert ElectionOk(s, n.term);
  }

  lemma TracedIndexed(lls: LeaderLogs, log: seq<Entry>)
    requires Indexed(lls) && Traced(lls, log)
    ensures IndexedFrom(log, 0)
  {
    if log != [] {
      var ll := lls[LastTerm(log)];
      forall i | 0 <= i < |log| ensures log[i].index == i + 1 {
        assert log[i] == ll[i];
      }
    }
  }

  lemma LeaderLogFacts(lls: LeaderLogs, t: Term)
    requires LeaderLogsOk(lls) && t in lls
    ensures forall i :: 0 <= i < |lls[t]| ==> lls[t][i].term > 0
  {
    assert LeaderLogOk(lls, t);
    forall i | 0 <= i < |lls[t]| ensures lls[t][i].term > 0 {
      assert Linked(lls, t, i);
    }
  }

  /** Log matching between a node's log and any leader's log. */
  lemma LogsMatch(lls: LeaderLogs, log: seq<Entry>, t: Term)
    requires LeaderLogsOk(lls) && Traced(lls, log) && t in lls
    ensures Matching(log, lls[t])
  {
    var ll := lls[t];
    forall i: nat | 0 < i <= |log| && i <= |ll| && log[i - 1].term == ll[i - 1].term ensures log[..i] == ll[..i] {
      LeaderPrefixTraced(lls, t, i);
      assert ll[..i][i - 1] == ll[i - 1];
      TracedMatch(lls, log, ll[..i], i);
    }
  }

  // ---------------------------------------------------------------- role changes

  lemma BumpNode(s: Core.Core, n: Node, t: Term, lead: Id)
    requires Shape(s) && BallotsOk(s) && NodeOk(s, n) && n.term <= t
    ensures NodeOk(BumpTerm(s, n.id, t), BecomeFollower(s.voters, n, t, lead))
  {
    SettledStays(s, BumpTerm(s, n.id, t), n.log[..n.committed], n.term, t);
  }

  lemma AsFollowerNode(s: Core.Core, n: Node, m: Msg)
    requires Shape(s) && BallotsOk(s) && NodeOk(s, n) && n.role != Leader && m.term == n.term
    ensures NodeOk(s, AsFollower(s.voters, n, m))
  {
  }

  lemma MeetTermNode(s: Core.Core, n: Node, m: Msg)
    requires CoreInv(s) && NodeOk(s, n) && n.term <= m.term
    ensures var s' := BumpTerm(s, n.id, m.term);
            CoreInv(s') && Evolves(s, s', n.id) && NodeOk(s', MeetTerm(s.voters, n, m))
    ensures MeetTerm(s.voters, n, m).term == m.term && MeetTerm(s.voters, n, m).id == n.id
    ensures MeetTerm(s.voters, n, m).committed == n.committed && MeetTerm(s.voters, n, m).log == n.log
  {
    hide LeaderLogsOk, NodeLogsOk, CampaignsOk, BallotsOk, ElectionsOk, AcksOk, CommitsOk, LeadersKeep, NodesKeep,
      BallotsKeep;
    BumpTermEvolves(s, n.id, m.term);
    if m.term > n.term {
      BumpNode(s, n, m.term, if m.App? || m.Heartbeat? || m.Snap? then m.from else NO_NODE);
    } else {
      assert BumpTerm(s, n.id, m.term) == s by {
        assert s.term[n.id := s.term[n.id]] == s.term;
      }
    }
  }

  // ---------------------------------------------------------------- elections

  lemma CandidateNode(s: Core.Core, n: Node)
    requires Shape(s) && BallotsOk(s) && CampaignsOk(s) && ElectionsOk(s) && NodeOk(s, n)
    ensures var c := BecomeCandidate(s.voters, n);
            NodeOk(Campaign(s, n.id), c.(votes := RecordVote(c.votes, n.id, true)))
  {
    var s' := Campaign(s, n.id);
    var t := n.term + 1;
    CampaignFresh(s, n.id);
    SettledStays(s, s', n.log[..n.committed], n.term, t);
    assert t in s.leaderOf && t != BOOT_TERM ==> ElectionOk(s, t);
  }

  lemma WonElects(s: Core.Core, n: Node)
    requires Shape(s) && NodeOk(s, n) && n.role == Candidate && VoteWon(s.voters, n.votes)
    ensures CanElect(s, n.id, Entry(|n.log| + 1, n.term, Normal, []))
  {
    var g, w := Granted(s.voters, n.votes), VotersFor(s, n.term, n.id);
    assert g <= w;
    QuorumGrows(g, w, s.voters);
  }

  lemma LeaderNode(s: Core.Core, n: Node)
    requires Shape(s) && NodeOk(s, n) && n.role == Candidate && n.term !in s.leaderLog
    ensures var e := Entry(|n.log| + 1, n.term, Normal, []);
            NodeOk(Elect(s, n.id, e), BecomeLeader(s.voters, n))
  {
    var e := Entry(|n.log| + 1, n.term, Normal, []);
    var s' := Elect(s, n.id, e);
    assert (n.log + [e])[..n.committed] == n.log[..n.committed];
    SettledStays(s, s', n.log[..n.committed], n.term, n.term);
  }

  // ---------------------------------------------------------------- what a good step is

  /** A step of node n from history s to s' that keeps everything about the node and what it sends. */
  ghost predicate Good(s: Core.Core, n: Node, s': Core.Core, e: Effect, marks': Marks) {
    && e.Step? && CoreInv(s') && Evolves(s, s', n.id) && Indexed(s'.leaderLog)
    && NodeOk(s', e.node) && e.node.id == n.id
    && n.committed <= e.node.committed && n.term <= e.node.term
    && (forall d :: d in s'.commits && d !in s.commits ==> Declared(s', n.id, d, e.node.committed))
    && (forall m :: m in e.out ==> MsgOk(s', marks', m))
  }

  /** Commit d was declared by v, which has it committed. */
  ghost predicate Declared(s: Core.Core, v: Id, d: Commit, committed: nat) {
    d.term in s.leaderOf && s.leaderOf[d.term] == v && d.term != BOOT_TERM && d.index <= committed
  }

  ghost predicate Ready(s: Core.Core, n: Node) {
    CoreInv(s) && Indexed(s.leaderLog) && NodeOk(s, n) && NO_NODE !in s.voters
  }

  lemma ElectionGood(s: Core.Core, n: Node)
    requires Ready(s, n) && n.role == Candidate && VoteWon(s.voters, n.votes)
    ensures var n' := BecomeLeader(s.voters, n); var s' := NoteElection(s, n.id, n');
            && CoreInv(s') && Evolves(s, s', n.id) && Indexed(s'.leaderLog) && NodeOk(s', n')
            && s'.commits == s.commits && n'.term == n.term && n'.id == n.id && n'.committed == n.committed
  {
    var e := Entry(|n.log| + 1, n.term, Normal, []);
    var n' := BecomeLeader(s.voters, n);
    assert n'.log == n.log + [e] && n'.log[|n'.log| - 1] == e;
    ElectionCore(s, n);
    hide CoreInv, Evolves, NodeOk, VoteWon;
  }

  lemma NodeTraced(s: Core.Core, n: Node)
    requires Shape(s) && NodeLogsOk(s) && NodeOk(s, n)
    ensures Traced(s.leaderLog, n.log)
  {
  }

  lemma ElectionCore(s: Core.Core, n: Node)
    requires Ready(s, n) && n.role == Candidate && VoteWon(s.voters, n.votes)
    ensures var e := Entry(|n.log| + 1, n.term, Normal, []); var s' := Elect(s, n.id, e);
            && CoreInv(s') && Evolves(s, s', n.id) && Indexed(s'.leaderLog)
            && NodeOk(s', BecomeLeader(s.voters, n))
  {
    hide LeaderLogsOk, NodeLogsOk, CampaignsOk, BallotsOk, ElectionsOk, AcksOk, CommitsOk, LeadersKeep, NodesKeep,
      BallotsKeep;
    hide CandidateOk, LeaderOk, Settled, Evolves, VoteWon, CanElect, Traced;
    assert s.log[n.id] == n.log && s.term[n.id] == n.term;
    hide NodeOk;
    var e := Entry(|n.log| + 1, n.term, Normal, []);
    WonElects(s, n);
    ElectEvolves(s, n.id, e);
    LeaderNode(s, n);
    NodeTraced(s, n);
    TracedIndexed(s.leaderLog, n.log);
  }

  lemma GoodAfterMeet(s: Core.Core, n: Node, m: Msg, s2: Core.Core, e: Effect, marks: Marks)
    requires Ready(s, n) && n.term <= m.term
    requires n.id in s.term && Good(BumpTerm(s, n.id, m.term), MeetTerm(s.voters, n, m), s2, e, marks)
    ensures Good(s, n, s2, e, marks)
  {
    hide CoreInv, NodeOk, Evolves, MsgOk, Indexed;
    var s1 := BumpTerm(s, n.id, m.term);
    MeetTermNode(s, n, m);
    EvolvesTrans(s, s1, s2, n.id);
  }

  lemma ReadyAfterMeet(s: Core.Core, n: Node, m: Msg)
    requires Ready(s, n) && n.term <= m.term
    ensures n.id in s.term && n.id in s.log
    ensures Ready(BumpTerm(s, n.id, m.term), MeetTerm(s.voters, n, m))
    ensures Evolves(s, BumpTerm(s, n.id, m.term), n.id)
    ensures MeetTerm(s.voters, n, m).term == m.term && MeetTerm(s.voters, n, m).id == n.id
  {
    assert n.id in s.term && n.id in s.log;
    hide CoreInv, NodeOk, Evolves;
    MeetTermNode(s, n, m);
  }

  lemma MsgAfterMeet(s: Core.Core, n: Node, m: Msg, marks: Marks)
    requires Ready(s, n) && n.term <= m.term && MsgOk(s, marks, m)
    ensures n.id in s.term && MsgOk(BumpTerm(s, n.id, m.term), marks, m)
  {
    hide CoreInv, MsgOk, Evolves;
    ReadyAfterMeet(s, n, m);
    MsgStays(s, BumpTerm(s, n.id, m.term), n.id, marks, marks, m);
  }

  lemma StayGood(s: Core.Core, n: Node, marks: Marks)
    requires Ready(s, n)
    ensures Good(s, n, s, Step(n, {}, []), marks)
  {
    EvolvesRefl(s, n.id);
    hide CoreInv, Evolves;
  }

  // ---------------------------------------------------------------- Hup

  lemma CandidateCore(s: Core.Core, n: Node)
    requires Ready(s, n)
    ensures n.id in s.term && n.id in s.log
    ensures var c := BecomeCandidate(s.voters, n); var c' := c.(votes := RecordVote(c.votes, n.id, true));
            var s' := Campaign(s, n.id);
            Ready(s', c') && Evolves(s, s', n.id) && s'.commits == s.commits
  {
    hide LeaderLogsOk, NodeLogsOk, CampaignsOk, BallotsOk, ElectionsOk, AcksOk, CommitsOk, LeadersKeep, NodesKeep,
      BallotsKeep;
    hide CandidateOk, LeaderOk, Settled, Evolves;
    assert n.id in s.term && n.id in s.log;
    hide NodeOk;
    CampaignEvolves(s, n.id);
    CandidateNode(s, n);
  }

  lemma VoteRequestsOk(s: Core.Core, n: Node, marks: Marks)
    requires Shape(s) && CampaignsOk(s) && NodeOk(s, n) && n.role == Candidate
    ensures forall m :: m in VoteRequests(s.voters, n) ==> MsgOk(s, marks, m)
  {
  }

  lemma HupWins(s: Core.Core, n: Node, c: Node, marks: Marks)
    requires Ready(s, n) && n.id in s.term && n.id in s.log && c.id == n.id
    requires var s1 := Campaign(s, n.id); Ready(s1, c) && Evolves(s, s1, n.id) && s1.commits == s.commits
    requires c.role == Candidate && VoteWon(s.voters, c.votes) && n.committed == c.committed && n.term <= c.term
    ensures var n' := BecomeLeader(s.voters, c);
            Good(s, n, NoteElection(Campaign(s, n.id), n.id, n'), Step(n', {}, []), marks)
  {
    hide CoreInv, Shape, NodeOk, Evolves, VoteWon, Indexed, MsgOk, Elect;
    var s1 := Campaign(s, n.id);
    ElectionGood(s1, c);
    EvolvesTrans(s, s1, NoteElection(s1, n.id, BecomeLeader(s.voters, c)), n.id);
  }

  lemma HupRuns(s: Core.Core, n: Node, c: Node, marks: Marks)
    requires Ready(s, n) && n.id in s.term && n.id in s.log && c.id == n.id
    requires var s1 := Campaign(s, n.id); Ready(s1, c) && Evolves(s, s1, n.id) && s1.commits == s.commits
    requires c.role == Candidate && n.committed == c.committed && n.term <= c.term
    ensures Good(s, n, Campaign(s, n.id), Step(c, VoteRequests(s.voters, c), []), marks)
  {
    hide LeaderLogsOk, NodeLogsOk, CampaignsOk, BallotsOk, ElectionsOk, AcksOk, CommitsOk, LeadersKeep, NodesKeep,
      BallotsKeep;
    hide NodeOk, Evolves, Indexed, MsgOk;
    VoteRequestsOk(Campaign(s, n.id), c, marks);
  }

  lemma HupGood(s: Core.Core, n: Node, marks: Marks)
    requires Ready(s, n)
    ensures var e := HandleHup(s.voters, n); e.Step? && Good(s, n, Record(s, n.id, n, Hup, e), e, marks)
  {
    hide CoreInv, Shape, NodeOk, Evolves, VoteWon, Indexed, MsgOk, Good, Elect, VoteRequests;
    if n.role == Leader {
      ReadyAfterMeet(s, n, VoteResp(0, 0, n.term, true));
      StayGood(s, n, marks);
    } else {
      var c := BecomeCandidate(s.voters, n);
      var c' := c.(votes := RecordVote(c.votes, n.id, true));
      CandidateCore(s, n);
      if VoteWon(s.voters, c'.votes) {
        HupWins(s, n, c', marks);
      } else {
        HupRuns(s, n, c', marks);
      }
    }
  }

  // ---------------------------------------------------------------- votes

  lemma MayGrant(s: Core.Core, n: Node, m: Msg, marks: Marks)
    requires Ready(s, n) && m.VoteReq? && m.term == n.term && MsgOk(s, marks, m)
    requires (n.vote == m.from || n.vote == NO_NODE) && UpToDate(m.index, m.logTerm, n.log)
    ensures CanVote(s, n.id, m.from)
  {
    hide LeaderLogsOk, NodeLogsOk, ElectionsOk, AcksOk, CommitsOk, LeadersKeep, NodesKeep, BallotsKeep, Settled,
      CandidateOk, LeaderOk;
    forall b | b in s.ballots && b.voter == n.id && b.term == n.term ensures b.cand == m.from {
      assert b == Ballot(n.id, n.term, b.cand);
    }
  }

  lemma GrantNode(s: Core.Core, n: Node, m: Msg)
    requires Shape(s) && BallotsOk(s) && NodeOk(s, n) && CanVote(s, n.id, m.from)
    requires n.vote == m.from || n.vote == NO_NODE
    requires m.from != n.id && NO_NODE !in s.voters
    ensures NodeOk(CastVote(s, n.id, m.from), n.(vote := m.from))
  {
    SettledStays(s, CastVote(s, n.id, m.from), n.log[..n.committed], n.term, n.term);
  }

  lemma GrantGood(s: Core.Core, n: Node, m: Msg, marks: Marks)
    requires Ready(s, n) && m.VoteReq? && m.term == n.term && MsgOk(s, marks, m) && m.to == n.id
    requires (n.vote == m.from || n.vote == NO_NODE) && UpToDate(m.index, m.logTerm, n.log)
    requires n.id in s.term
    ensures Good(s, n, CastVote(s, n.id, m.from), Step(n.(vote := m.from), {VoteResp(n.id, m.from, m.term, false)}, []),
            marks)
  {
    hide LeaderLogsOk, NodeLogsOk, CampaignsOk, BallotsOk, ElectionsOk, AcksOk, CommitsOk, LeadersKeep, NodesKeep,
      BallotsKeep;
    hide Settled, CandidateOk, LeaderOk, Evolves, Indexed;
    assert s.term[n.id] == n.term && n.id in s.voters;
    hide NodeOk;
    MayGrant(s, n, m, marks);
    hide CanVote;
    CastVoteEvolves(s, n.id, m.from);
    GrantNode(s, n, m);
  }

  lemma DenyGood(s: Core.Core, n: Node, m: Msg, marks: Marks)
    requires Ready(s, n) && m.VoteReq? && m.term == n.term && MsgOk(s, marks, m) && m.to == n.id
    ensures Good(s, n, s, Step(n, {VoteResp(n.id, m.from, n.term, true)}, []), marks)
  {
    hide LeaderLogsOk, NodeLogsOk, CampaignsOk, BallotsOk, ElectionsOk, AcksOk, CommitsOk, LeadersKeep, NodesKeep,
      BallotsKeep;
    hide Settled, CandidateOk, LeaderOk, Indexed;
    EvolvesRefl(s, n.id);
    hide Evolves;
  }

  lemma VoteReqGood(s: Core.Core, n: Node, m: Msg, marks: Marks)
    requires Ready(s, n) && m.VoteReq? && m.term == n.term && MsgOk(s, marks, m) && m.to == n.id
    requires n.id in s.term && n.id in s.log
    ensures var e := HandleVoteReq(n, m); Good(s, n, RecordMsg(s, n.id, n, m, e), e, marks)
  {
    hide CoreInv, NodeOk, MsgOk, Good, Indexed;
    if (n.vote == m.from || (n.vote == NO_NODE && n.lead == NO_NODE)) && UpToDate(m.index, m.logTerm, n.log) {
      GrantGood(s, n, m, marks);
    } else {
      DenyGood(s, n, m, marks);
    }
  }

  lemma RecordedVoteNode(s: Core.Core, n: Node, m: Msg, marks: Marks)
    requires NodeOk(s, n) && n.role == Candidate && m.VoteResp? && m.term == n.term && MsgOk(s, marks, m)
             && m.to == n.id
    ensures NodeOk(s, n.(votes := RecordVote(n.votes, m.from, !m.reject)))
  {
  }

  lemma VoteRespGood(s: Core.Core, n: Node, m: Msg, marks: Marks)
    requires Ready(s, n) && m.VoteResp? && m.term == n.term && MsgOk(s, marks, m) && m.to == n.id
    requires n.id in s.term && n.id in s.log
    ensures var e := if n.role == Candidate then HandleVoteResp(s.voters, n, m) else Step(n, {}, []);
            Good(s, n, RecordMsg(s, n.id, n, m, e), e, marks)
  {
    hide LeaderLogsOk, NodeLogsOk, CampaignsOk, BallotsOk, ElectionsOk, AcksOk, CommitsOk, LeadersKeep, NodesKeep,
      BallotsKeep;
    hide NodeOk, Evolves, VoteWon, VoteLost, Indexed, MsgOk, Elect;
    EvolvesRefl(s, n.id);
    if n.role == Candidate {
      var c := n.(votes := RecordVote(n.votes, m.from, !m.reject));
      RecordedVoteNode(s, n, m, marks);
      if VoteWon(s.voters, c.votes) {
        ElectionGood(s, c);
      } else if VoteLost(s.voters, c.votes) {
        StepDownNode(s, c, NO_NODE);
      }
    }
  }

  lemma StepDownNode(s: Core.Core, n: Node, lead: Id)
    requires Shape(s) && NodeOk(s, n)
    ensures NodeOk(s, BecomeFollower(s.voters, n, n.term, lead))
  {
  }
}
