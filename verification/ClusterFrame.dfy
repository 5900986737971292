/** What a step of one node leaves intact: other nodes' facts, old messages, old history. */
module ClusterFrame {
  import opened RaftTypes
  import opened Quorum
  import opened RaftNode
  import opened Core = RaftCore
  import opened Cluster

  /** History only grows, and only node v's part of it. */
  ghost predicate Evolves(s: Core.Core, s': Core.Core, v: Id) {
    && Shape(s) && Shape(s') && Grows(s, s')
    && s.ballots <= s'.ballots && (forall b :: b in s'.ballots && b !in s.ballots ==> b.voter == v)
    && (forall p :: p in s.campaign ==> p in s'.campaign && s'.campaign[p] == s.campaign[p])
    && (forall t :: t in s.leaderOf ==> t in s'.leaderOf && s'.leaderOf[t] == s.leaderOf[t])
    && (forall t :: t in s'.leaderOf && t !in s.leaderOf ==> s'.leaderOf[t] == v)
    && s.commits <= s'.commits
    && (forall u :: u in s.voters && u != v ==> s'.term[u] == s.term[u] && s'.log[u] == s.log[u])
    && (forall u, t :: u != v ==> Acked(s'.acked, u, t) == Acked(s.acked, u, t))
  }

  lemma EvolvesTrans(a: Core.Core, b: Core.Core, c: Core.Core, v: Id)
    requires Evolves(a, b, v) && Evolves(b, c, v)
    ensures Evolves(a, c, v)
  {
    assert Extends(a.leaderLog, c.leaderLog);
    forall u, t | u in a.voters && Acked(c.acked, u, t) != Acked(a.acked, u, t)
      ensures a.term[u] <= t && Acked(a.acked, u, t) <= Acked(c.acked, u, t) {
      if Acked(b.acked, u, t) == Acked(a.acked, u, t) { assert a.term[u] <= b.term[u] <= t; }
    }
  }

  lemma EvolvesRefl(s: Core.Core, v: Id)
    requires Shape(s)
    ensures Evolves(s, s, v)
  {
  }

  ghost predicate MarksGrow(marks: Marks, marks': Marks) {
    forall k :: k in marks ==> k in marks' && marks'[k] == marks[k]
  }

  lemma SettledStays(s: Core.Core, s': Core.Core, p: seq<Entry>, t: Term, t': Term)
    requires Settled(s, p, t) && t <= t'
    requires s.commits <= s'.commits && Extends(s.leaderLog, s'.leaderLog)
    ensures Settled(s', p, t')
  {
    if p != [] {
      var d :| SettledBy(s, p, t, d);
      assert SettledBy(s', p, t', d);
    }
  }

  lemma SettledShorter(s: Core.Core, p: seq<Entry>, q: seq<Entry>, t: Term)
    requires Settled(s, p, t) && q <= p
    ensures Settled(s, q, t)
  {
    if q != [] {
      var d :| SettledBy(s, p, t, d);
      assert SettledBy(s, q, t, d);
    }
  }

  lemma AckedGrows(s: Core.Core, s': Core.Core, u: Id, t: Term)
    requires Shape(s) && Shape(s') && Grows(s, s') && u in s.voters
    ensures Acked(s.acked, u, t) <= Acked(s'.acked, u, t)
  {
  }

  lemma NodeStays(s: Core.Core, s': Core.Core, v: Id, n: Node)
    requires Evolves(s, s', v) && n.id != v && NodeOk(s, n)
    ensures NodeOk(s', n)
  {
    SettledStays(s, s', n.log[..n.committed], n.term, n.term);
    if n.role == Leader {
      forall u | u in n.progress ensures n.progress[u] <= Acked(s'.acked, u, n.term) {
        AckedGrows(s, s', u, n.term);
      }
    }
  }

  lemma MsgStays(s: Core.Core, s': Core.Core, v: Id, marks: Marks, marks': Marks, m: Msg)
    requires Evolves(s, s', v) && MarksGrow(marks, marks') && MsgOk(s, marks, m)
    ensures MsgOk(s', marks', m)
  {
    assert s.term[m.from] <= s'.term[m.from];
    match m {
      case App(_, _, term, index, _, entries, commit) =>
        var ll, ll' := s.leaderLog[term], s'.leaderLog[term];
        assert ll <= ll';
        assert ll'[index..index + |entries|] == ll[index..index + |entries|];
        assert ll'[..commit] == ll[..commit];
        SettledStays(s, s', ll[..commit], term, term);
      case AppResp(from, _, term, index, reject, _, _) => AckedGrows(s, s', from, term);
      case Heartbeat(_, to, term, commit, ctx) =>
        AckedGrows(s, s', to, term);
        assert s.leaderLog[term] <= s'.leaderLog[term];
        assert s'.leaderLog[term][..commit] == s.leaderLog[term][..commit];
        SettledStays(s, s', s.leaderLog[term][..commit], term, term);
      case Snap(_, _, term, prefix) =>
        SettledStays(s, s', prefix, term, term);
      case _ =>
    }
  }

  lemma BumpTermEvolves(s: Core.Core, v: Id, t: Term)
    requires CoreInv(s) && v in s.voters
    ensures CoreInv(BumpTerm(s, v, t)) && Evolves(s, BumpTerm(s, v, t), v)
  {
    hide LeaderLogsOk, NodeLogsOk, CampaignsOk, BallotsOk, ElectionsOk, AcksOk, CommitsOk, LeadersKeep, NodesKeep,
      BallotsKeep, IsQuorum;
    BumpTermKeeps(s, v, t);
  }

  lemma CampaignFresh(s: Core.Core, v: Id)
    requires Shape(s) && CampaignsOk(s) && v in s.voters
    ensures (v, s.term[v] + 1) !in s.campaign
  {
  }

  lemma CampaignEvolves(s: Core.Core, v: Id)
    requires CoreInv(s) && v in s.voters
    ensures CoreInv(Campaign(s, v)) && Evolves(s, Campaign(s, v), v)
  {
    hide LeaderLogsOk, NodeLogsOk, CampaignsOk, BallotsOk, ElectionsOk, AcksOk, CommitsOk, LeadersKeep, NodesKeep,
      BallotsKeep, IsQuorum;
    CampaignFresh(s, v);
    CampaignKeeps(s, v);
  }

  lemma CastVoteEvolves(s: Core.Core, v: Id, w: Id)
    requires CoreInv(s) && CanVote(s, v, w)
    ensures CoreInv(CastVote(s, v, w)) && Evolves(s, CastVote(s, v, w), v)
  {
    hide LeaderLogsOk, NodeLogsOk, CampaignsOk, BallotsOk, ElectionsOk, AcksOk, CommitsOk, LeadersKeep, NodesKeep,
      BallotsKeep, IsQuorum;
    CastVoteKeeps(s, v, w);
  }

  lemma ElectEvolves(s: Core.Core, v: Id, e: Entry)
    requires CoreInv(s) && CanElect(s, v, e)
    ensures CoreInv(Elect(s, v, e)) && Evolves(s, Elect(s, v, e), v) && s.term[v] !in s.leaderLog
  {
    hide LeaderLogsOk, NodeLogsOk, CampaignsOk, BallotsOk, ElectionsOk, AcksOk, CommitsOk, LeadersKeep, NodesKeep,
      BallotsKeep, IsQuorum, VotersFor, Extends;
    ElectKeeps(s, v, e);
  }

  lemma ExtendEvolves(s: Core.Core, v: Id, ents: seq<Entry>)
    requires CoreInv(s) && CanExtend(s, v, ents)
    ensures CoreInv(Extend(s, v, ents)) && Evolves(s, Extend(s, v, ents), v)
  {
    hide LeaderLogsOk, NodeLogsOk, CampaignsOk, BallotsOk, ElectionsOk, AcksOk, CommitsOk, LeadersKeep, NodesKeep,
      BallotsKeep, IsQuorum, Extends;
    ExtendKeeps(s, v, ents);
  }

  lemma ReplicateEvolves(s: Core.Core, v: Id, k: nat)
    requires CoreInv(s) && CanReplicate(s, v, k)
    ensures CoreInv(Replicate(s, v, k)) && Evolves(s, Replicate(s, v, k), v)
  {
    hide LeaderLogsOk, NodeLogsOk, CampaignsOk, BallotsOk, ElectionsOk, AcksOk, CommitsOk, LeadersKeep, NodesKeep,
      BallotsKeep, IsQuorum, Merge;
    ReplicateKeeps(s, v, k);
  }

  lemma DecideEvolves(s: Core.Core, v: Id, t: Term, k: nat)
    requires CoreInv(s) && OwnAt(s, t, k) && IsQuorum(AckedSet(s, t, k), s.voters)
    ensures CoreInv(Decide(s, t, k)) && Evolves(s, Decide(s, t, k), v)
  {
    hide LeaderLogsOk, NodeLogsOk, CampaignsOk, BallotsOk, ElectionsOk, AcksOk, CommitsOk, LeadersKeep, NodesKeep,
      BallotsKeep, IsQuorum, AckedSet, OwnAt;
    DecideKeeps(s, t, k);
  }
}
