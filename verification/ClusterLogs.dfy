/** Appends, heartbeats, snapshots and acknowledgements keep the protocol invariant and never panic. */
module ClusterLogs {
  import opened RaftTypes
  import opened Quorum
  import opened LogView
  import opened RaftNode
  import opened Core = RaftCore
  import opened Cluster
  import opened ClusterFrame
  import opened ClusterSteps

  // ---------------------------------------------------------------- a follower takes entries and acknowledges

  lemma NoteAcksIs(s: Core.Core, v: Id, r: Msg)
    requires v in s.term && v in s.log && r.AppResp?
    ensures NoteAcks(s, v, {r}) == if r.reject then s else NoteAck(s, v, r.index)
  {
    assert r in {r};
  }

  /** Node n, a follower of the leader of its term, now agrees with the leader up to k. */
  lemma TakeNode(s: Core.Core, n: Node, k: nat, committed: nat)
    requires Shape(s) && NodeOk(s, n) && n.role == Follower
    requires n.term in s.leaderLog && k <= |s.leaderLog[n.term]|
    requires var log := Merge(n.log, s.leaderLog[n.term], k);
             committed <= |log| && Settled(s, log[..committed], n.term)
    ensures NodeOk(Replicate(s, n.id, k), n.(log := Merge(n.log, s.leaderLog[n.term], k), committed := committed))
  {
    var s' := Replicate(s, n.id, k);
    SettledStays(s, s', Merge(n.log, s.leaderLog[n.term], k)[..committed], n.term, n.term);
  }

  lemma TakeGood(s: Core.Core, n: Node, to: Id, k: nat, committed: nat, marks: Marks)
    requires Ready(s, n) && n.role == Follower && to in s.voters && to != n.id && BOOT_TERM <= n.term
    requires n.term in s.leaderLog && k <= |s.leaderLog[n.term]| && n.committed <= committed
    requires var log := Merge(n.log, s.leaderLog[n.term], k);
             committed <= |log| && Settled(s, log[..committed], n.term)
    requires n.id in s.term && n.id in s.log
    ensures var n' := n.(log := Merge(n.log, s.leaderLog[n.term], k), committed := committed);
            var out := {AppResp(n.id, to, n.term, k, false, 0, 0)};
            Good(s, n, NoteAcks(s, n.id, out), Step(n', out, []), marks)
  {
    hide LeaderLogsOk, NodeLogsOk, CampaignsOk, BallotsOk, ElectionsOk, AcksOk, CommitsOk, LeadersKeep, NodesKeep,
      BallotsKeep;
    hide Settled, CandidateOk, LeaderOk, Evolves, Merge;
    assert s.term[n.id] == n.term && n.id in s.voters;
    hide NodeOk;
    ReplicateEvolves(s, n.id, k);
    TakeNode(s, n, k, committed);
    var r := AppResp(n.id, to, n.term, k, false, 0, 0);
    NoteAcksIs(s, n.id, r);
    var s' := Replicate(s, n.id, k);
    assert MsgOk(s', marks, r);
  }

  /** A node's committed prefix is in the log of the leader of its term. */
  lemma CommittedInLeader(s: Core.Core, n: Node)
    requires CoreInv(s) && NodeOk(s, n) && n.term in s.leaderLog
    ensures n.log[..n.committed] <= s.leaderLog[n.term] && n.committed <= |s.leaderLog[n.term]|
  {
    hide LeaderLogsOk, NodeLogsOk, CampaignsOk, BallotsOk, ElectionsOk, AcksOk, CommitsOk, LeadersKeep, NodesKeep,
      BallotsKeep;
    hide CandidateOk, LeaderOk;
    SettledInLeader(s, n.log[..n.committed], n.term, n.term);
  }

  /** An append below the commit position is answered with the commit position. */
  lemma EarlyGood(s: Core.Core, n: Node, to: Id, marks: Marks)
    requires Ready(s, n) && n.role == Follower && to in s.voters && to != n.id && BOOT_TERM <= n.term
    requires n.term in s.leaderLog && n.id in s.term && n.id in s.log
    ensures var out := {AppResp(n.id, to, n.term, n.committed, false, 0, 0)};
            Good(s, n, NoteAcks(s, n.id, out), Step(n, out, []), marks)
  {
    hide LeaderLogsOk, NodeLogsOk, CampaignsOk, BallotsOk, ElectionsOk, AcksOk, CommitsOk, LeadersKeep, NodesKeep,
      BallotsKeep;
    hide CandidateOk, LeaderOk, Settled, Good, Indexed;
    assert n.committed <= |n.log| && Settled(s, n.log[..n.committed], n.term);
    CommittedInLeader(s, n);
    hide NodeOk;
    var ll := s.leaderLog[n.term];
    assert ll[..n.committed] == n.log[..n.committed];
    assert Merge(n.log, ll, n.committed) == n.log;
    TakeGood(s, n, to, n.committed, n.committed, marks);
    assert n.(log := n.log, committed := n.committed) == n;
  }

  /** A rejected append changes nothing. */
  lemma RefuseGood(s: Core.Core, n: Node, r: Msg, marks: Marks)
    requires Ready(s, n) && r.AppResp? && r.reject && r.from == n.id && r.to in s.voters && r.to != n.id
    requires BOOT_TERM <= r.term == n.term && n.id in s.term && n.id in s.log
    ensures Good(s, n, NoteAcks(s, n.id, {r}), Step(n, {r}, []), marks)
  {
    hide LeaderLogsOk, NodeLogsOk, CampaignsOk, BallotsOk, ElectionsOk, AcksOk, CommitsOk, LeadersKeep, NodesKeep,
      BallotsKeep;
    hide CandidateOk, LeaderOk, Settled, Indexed;
    NoteAcksIs(s, n.id, r);
    EvolvesRefl(s, n.id);
    hide Evolves;
  }

  /** The commit position after an append lies in a prefix the leader had settled. */
  lemma AppendedSettled(s: Core.Core, log: seq<Entry>, ll: seq<Entry>, committed: nat, k: nat, commit: nat, t: Term)
    requires k <= |ll| && commit <= |ll| && committed <= |log| && log[..committed] <= ll
    requires Settled(s, log[..committed], t) && Settled(s, ll[..commit], t)
    ensures var c := Max(committed, Min(commit, k));
            c <= |Merge(log, ll, k)| && Settled(s, Merge(log, ll, k)[..c], t)
  {
    var c := Max(committed, Min(commit, k));
    MergeKeeps(log, ll, k, log[..committed]);
    assert ll[..k] <= Merge(log, ll, k);
    if c == committed {
      assert Merge(log, ll, k)[..c] == log[..committed];
    } else {
      assert Merge(log, ll, k)[..c] == ll[..k][..c] == ll[..c];
      SettledShorter(s, ll[..commit], ll[..c], t);
    }
  }

  lemma AppendStep(s: Core.Core, n: Node, m: Msg, marks: Marks)
    requires Ready(s, n) && m.App? && m.term == n.term && MsgOk(s, marks, m) && n.committed <= m.index
    requires TermAt(n.log, m.index) == m.logTerm
    ensures var ll := s.leaderLog[m.term]; var k := m.index + |m.entries|;
            && MaybeAppend(FullView(n.log), n.committed, m.index, m.logTerm, m.commit, m.entries)
               == Appended(FullView(Merge(n.log, ll, k)), Max(n.committed, Min(m.commit, k)), k)
  {
    hide NodeLogsOk, CampaignsOk, BallotsOk, ElectionsOk, AcksOk, CommitsOk, LeadersKeep, NodesKeep, BallotsKeep;
    hide CandidateOk, LeaderOk, Settled, Traced, LeaderLogsOk, MaybeAppend, Merge, Matching, IndexedFrom;
    var ll := s.leaderLog[m.term];
    NodeTraced(s, n);
    LogsMatch(s.leaderLog, n.log, m.term);
    LeaderLogFacts(s.leaderLog, m.term);
    MaybeAppendMerges(n.log, ll, n.committed, m.index, |m.entries|, m.commit);
  }

  lemma AppendGood(s: Core.Core, n: Node, m: Msg, marks: Marks)
    requires Ready(s, n) && n.role == Follower && m.App? && m.term == n.term && MsgOk(s, marks, m) && m.to == n.id
    requires n.committed <= m.index && TermAt(n.log, m.index) == m.logTerm
    requires n.id in s.term && n.id in s.log
    ensures var e := HandleApp(n, m); e.Step? && Good(s, n, NoteAcks(s, n.id, e.out), e, marks)
  {
    hide LeaderLogsOk, NodeLogsOk, CampaignsOk, BallotsOk, ElectionsOk, AcksOk, CommitsOk, LeadersKeep, NodesKeep,
      BallotsKeep;
    hide CandidateOk, LeaderOk, Settled, Good, MaybeAppend, Merge;
    AppendStep(s, n, m, marks);
    CommittedInLeader(s, n);
    var ll, k := s.leaderLog[m.term], m.index + |m.entries|;
    AppendedSettled(s, n.log, ll, n.committed, k, m.commit, n.term);
    TakeGood(s, n, m.from, k, Max(n.committed, Min(m.commit, k)), marks);
  }

  lemma AppGood(s: Core.Core, n: Node, m: Msg, marks: Marks)
    requires Ready(s, n) && n.role == Follower && m.App? && m.term == n.term && MsgOk(s, marks, m) && m.to == n.id
    requires n.id in s.term && n.id in s.log
    ensures var e := HandleApp(n, m); e.Step? && Good(s, n, NoteAcks(s, n.id, e.out), e, marks)
  {
    hide CoreInv, NodeOk, Indexed, Good, MaybeAppend, Merge, Settled;
    if m.index < n.committed {
      EarlyGood(s, n, m.from, marks);
    } else if TermAt(n.log, m.index) == m.logTerm {
      AppendGood(s, n, m, marks);
    } else {
      MaybeAppendRefuses(n.log, n.committed, m.index, m.logTerm, m.commit, m.entries);
      var v := FullView(n.log);
      var hint := ConflictByTerm(v, Min(m.index, Last(v)), m.logTerm);
      RefuseGood(s, n, AppResp(n.id, m.from, n.term, m.index, true, hint, TermOf(v, hint)), marks);
    }
  }

  // ---------------------------------------------------------------- heartbeats

  /** What a heartbeat may commit is what the receiver acknowledged to this very leader. */
  lemma HeartbeatCommit(s: Core.Core, n: Node, m: Msg, marks: Marks)
    requires Shape(s) && AcksOk(s) && NodeOk(s, n) && m.Heartbeat? && m.term == n.term && MsgOk(s, marks, m)
             && m.to == n.id
    ensures m.commit <= |n.log| && m.commit <= |s.leaderLog[m.term]|
            && n.log[..m.commit] == s.leaderLog[m.term][..m.commit]
  {
    var ll := s.leaderLog[m.term];
    if m.commit > 0 {
      assert ll[..Acked(s.acked, n.id, m.term)] <= n.log;
    }
  }

  lemma HeartbeatGood(s: Core.Core, n: Node, m: Msg, marks: Marks)
    requires Ready(s, n) && n.role == Follower && m.Heartbeat? && m.term == n.term && MsgOk(s, marks, m) && m.to == n.id
    requires m.ctx != [] ==> (m.term, m.ctx) in marks && n.id !in marks[(m.term, m.ctx)].late
    ensures var e := HandleHeartbeat(n, m); e.Step? && Good(s, n, s, e, marks)
  {
    hide LeaderLogsOk, NodeLogsOk, CampaignsOk, BallotsOk, ElectionsOk, AcksOk, CommitsOk, LeadersKeep, NodesKeep,
      BallotsKeep;
    hide CandidateOk, LeaderOk, Settled, Indexed;
    HeartbeatCommit(s, n, m, marks);
    EvolvesRefl(s, n.id);
    hide Evolves;
  }

  // ---------------------------------------------------------------- snapshots

  lemma SnapMatches(s: Core.Core, n: Node, m: Msg, marks: Marks)
    requires Ready(s, n) && m.Snap? && m.term == n.term && MsgOk(s, marks, m)
    ensures var k, ll := |m.prefix|, s.leaderLog[m.term];
            && ll[..k] == m.prefix
            && (TermAt(n.log, k) == LastTerm(m.prefix) <==> m.prefix <= n.log)
  {
    hide NodeLogsOk, CampaignsOk, BallotsOk, ElectionsOk, AcksOk, CommitsOk, LeadersKeep, NodesKeep, BallotsKeep;
    hide CandidateOk, LeaderOk, Settled, Traced;
    var k, ll := |m.prefix|, s.leaderLog[m.term];
    NodeTraced(s, n);
    LogsMatch(s.leaderLog, n.log, m.term);
    LeaderLogFacts(s.leaderLog, m.term);
    assert ll[..k] == m.prefix && m.prefix[k - 1] == ll[k - 1];
    if TermAt(n.log, k) == LastTerm(m.prefix) {
      AgreeUpTo(n.log, ll, k);
    } else {
      assert k <= |n.log| ==> n.log[k - 1] != m.prefix[k - 1];
    }
  }

  lemma SnapGood(s: Core.Core, n: Node, m: Msg, marks: Marks)
    requires Ready(s, n) && n.role == Follower && m.Snap? && m.term == n.term && MsgOk(s, marks, m) && m.to == n.id
    requires n.id in s.term && n.id in s.log
    ensures var e := HandleSnap(n, m); e.Step? && Good(s, n, NoteAcks(s, n.id, e.out), e, marks)
  {
    hide CoreInv, NodeOk, Indexed, Good, Settled;
    var k, ll := |m.prefix|, s.leaderLog[m.term];
    if k <= n.committed {
      EarlyGood(s, n, m.from, marks);
    } else {
      SnapMatches(s, n, m, marks);
      assert Merge(n.log, ll, k)[..k] == m.prefix;
      TakeGood(s, n, m.from, k, k, marks);
      if m.prefix <= n.log {
        assert n.(log := n.log, committed := k) == n.(committed := k);
      }
    }
  }

  // ---------------------------------------------------------------- acknowledgements

  lemma ReachedAcked(s: Core.Core, n: Node, index: nat)
    requires Shape(s) && s.voters == n.progress.Keys
    requires forall u :: u in n.progress ==> n.progress[u] <= Acked(s.acked, u, n.term)
    requires IsQuorum(Reached(s.voters, n.progress, index), s.voters)
    ensures IsQuorum(AckedSet(s, n.term, index), s.voters)
  {
    QuorumGrows(Reached(s.voters, n.progress, index), AckedSet(s, n.term, index), s.voters);
  }

  lemma ProgressNode(s: Core.Core, n: Node, from: Id, index: nat)
    requires NodeOk(s, n) && n.role == Leader && from in s.voters && index <= Acked(s.acked, from, n.term)
    ensures NodeOk(s, n.(progress := n.progress[from := index]))
  {
  }

  lemma CommitNode(s: Core.Core, n: Node, index: nat)
    requires Shape(s) && NodeOk(s, n) && n.role == Leader && n.term in s.leaderLog && n.log == s.leaderLog[n.term]
    requires n.committed <= index <= |n.log|
    ensures NodeOk(Decide(s, n.term, index), n.(committed := index))
  {
    assert SettledBy(Decide(s, n.term, index), n.log[..index], n.term, Commit(n.term, index));
  }

  /** The leader commits what a majority acknowledged, if it is of its own term. */
  lemma CommitGood(s: Core.Core, n: Node, index: nat, marks: Marks)
    requires Ready(s, n) && n.role == Leader && n.committed < index && TermAt(n.log, index) == n.term
    requires IsQuorum(Reached(s.voters, n.progress, index), s.voters)
    ensures index <= |n.log| && Good(s, n, Decide(s, n.term, index), Step(n.(committed := index), {}, []), marks)
  {
    hide LeaderLogsOk, NodeLogsOk, CampaignsOk, BallotsOk, ElectionsOk, AcksOk, CommitsOk, LeadersKeep, NodesKeep,
      BallotsKeep;
    hide CandidateOk, Settled, Indexed, Evolves, IsQuorum;
    LeaderHoldsItsLog(s, n);
    assert 0 < n.term by { TermPositive(s, n); }
    assert OwnAt(s, n.term, index);
    ReachedAcked(s, n, index);
    DecideEvolves(s, n.id, n.term, index);
    CommitNode(s, n, index);
    hide NodeOk;
  }

  lemma TermPositive(s: Core.Core, n: Node)
    requires Shape(s) && NodeLogsOk(s) && NodeOk(s, n)
    ensures BOOT_TERM <= n.term
  {
  }

  lemma AcknowledgeGood(s: Core.Core, n: Node, from: Id, index: nat, marks: Marks)
    requires Ready(s, n) && n.role == Leader && from in s.voters && index <= Acked(s.acked, from, n.term)
    ensures var e := Acknowledge(s.voters, n, from, index);
            e.Step? && e.node.role == Leader && Good(s, n, NoteCommit(s, n, e.node), e, marks)
  {
    hide LeaderLogsOk, NodeLogsOk, CampaignsOk, BallotsOk, ElectionsOk, AcksOk, CommitsOk, LeadersKeep, NodesKeep,
      BallotsKeep;
    hide CandidateOk, LeaderOk, Settled, Indexed, IsQuorum;
    assert n.progress.Keys == s.voters;
    EvolvesRefl(s, n.id);
    hide Evolves;
    if n.progress[from] < index {
      var n' := n.(progress := n.progress[from := index]);
      ProgressNode(s, n, from, index);
      hide NodeOk;
      var mci := CommittedIndex(s.voters, n'.progress);
      if mci > n.committed && TermAt(n.log, mci) == n.term {
        CommitGood(s, n', mci, marks);
      }
    }
  }

  // ---------------------------------------------------------------- proposals and sends

  lemma ProposeNode(s: Core.Core, n: Node, ents: seq<Entry>)
    requires Shape(s) && ElectionsOk(s) && NodeOk(s, n) && n.role == Leader
    ensures n.term in s.leaderLog && NodeOk(Extend(s, n.id, ents), n.(log := n.log + ents))
  {
    LeaderHoldsItsLog(s, n);
    assert (n.log + ents)[..n.committed] == n.log[..n.committed];
    SettledStays(s, Extend(s, n.id, ents), n.log[..n.committed], n.term, n.term);
  }

  lemma ExtendIndexed(lls: LeaderLogs, t: Term, n: Node, items: seq<(Kind, seq<Byte>)>)
    requires Indexed(lls) && t in lls && lls[t] == n.log
    ensures Indexed(lls[t := n.log + NewEntries(n, items)])
  {
  }

  lemma ProposeGood(s: Core.Core, n: Node, items: seq<(Kind, seq<Byte>)>, marks: Marks)
    requires Ready(s, n)
    ensures var e := Handle(s.voters, n, Propose(items));
            e.Step? && Good(s, n, Record(s, n.id, n, Propose(items), e), e, marks)
  {
    hide LeaderLogsOk, NodeLogsOk, CampaignsOk, BallotsOk, ElectionsOk, AcksOk, CommitsOk, LeadersKeep, NodesKeep,
      BallotsKeep;
    hide CandidateOk, LeaderOk, Settled, Indexed;
    if n.role == Leader {
      var ents := NewEntries(n, items);
      LeaderHoldsItsLog(s, n);
      hide Evolves;
      ExtendEvolves(s, n.id, ents);
      ProposeNode(s, n, ents);
      ExtendIndexed(s.leaderLog, n.term, n, items);
      assert s.term[n.id] == n.term && s.log[n.id] == n.log;
      hide NodeOk;
    } else {
      StayGood(s, n, marks);
    }
  }

  lemma SelfAckGood(s: Core.Core, n: Node, index: nat, marks: Marks)
    requires Ready(s, n)
    ensures var e := Handle(s.voters, n, SelfAck(index));
            e.Step? && Good(s, n, Record(s, n.id, n, SelfAck(index), e), e, marks)
  {
    hide CoreInv, NodeOk, Evolves, Indexed, MsgOk, Settled;
    if n.role == Leader && index <= |n.log| {
      SelfAckCore(s, n, index);
      var s1 := NoteAck(s, n.id, index);
      AcknowledgeGood(s1, n, n.id, index, marks);
      hide Acknowledge, NoteAck;
      var e := Acknowledge(s.voters, n, n.id, index);
      EvolvesTrans(s, s1, NoteCommit(s1, n, e.node), n.id);
    } else {
      StayGood(s, n, marks);
    }
  }

  lemma SelfAckCore(s: Core.Core, n: Node, index: nat)
    requires Ready(s, n) && n.role == Leader && index <= |n.log|
    ensures n.id in s.term && n.id in s.log && n.id in s.voters
    ensures var s1 := NoteAck(s, n.id, index);
            Ready(s1, n) && Evolves(s, s1, n.id) && s1.commits == s.commits && s1.voters == s.voters
            && n.id in s1.term && n.id in s1.log && index <= Acked(s1.acked, n.id, n.term)
  {
    hide LeaderLogsOk, NodeLogsOk, CampaignsOk, BallotsOk, ElectionsOk, AcksOk, CommitsOk, LeadersKeep, NodesKeep,
      BallotsKeep;
    hide CandidateOk, Settled, Indexed, Evolves;
    LeaderHoldsItsLog(s, n);
    assert s.term[n.id] == n.term && s.log[n.id] == n.log;
    ReplicateEvolves(s, n.id, index);
    assert Merge(n.log, n.log, index) == n.log;
    SelfAckNode(s, n, index);
    hide NodeOk;
  }

  lemma SelfAckNode(s: Core.Core, n: Node, index: nat)
    requires Shape(s) && NodeOk(s, n) && n.role == Leader && n.term in s.leaderLog && s.leaderLog[n.term] == n.log
             && index <= |n.log|
    ensures NodeOk(Replicate(s, n.id, index), n)
  {
    SettledStays(s, Replicate(s, n.id, index), n.log[..n.committed], n.term, n.term);
  }

  lemma SendAppGood(s: Core.Core, n: Node, to: Id, next: nat, count: nat, marks: Marks)
    requires Ready(s, n)
    ensures var e := Handle(s.voters, n, SendApp(to, next, count)); e.Step? && Good(s, n, s, e, marks)
  {
    hide LeaderLogsOk, CampaignsOk, BallotsOk, ElectionsOk, AcksOk, CommitsOk, LeadersKeep, NodesKeep, BallotsKeep;
    hide CandidateOk, Settled, Indexed;
    StayGood(s, n, marks);
    if n.role == Leader && to in s.voters && to != n.id && 0 < next && next - 1 + count <= |n.log| {
      LeaderHoldsItsLog(s, n);
      TermPositive(s, n);
      hide NodeLogsOk, Evolves;
      assert n.log[next - 1..next - 1 + count] == s.leaderLog[n.term][next - 1..next - 1 + count];
    }
  }

  lemma SendSnapGood(s: Core.Core, n: Node, to: Id, index: nat, marks: Marks)
    requires Ready(s, n)
    ensures var e := Handle(s.voters, n, SendSnap(to, index)); e.Step? && Good(s, n, s, e, marks)
  {
    hide LeaderLogsOk, CampaignsOk, BallotsOk, ElectionsOk, AcksOk, CommitsOk, LeadersKeep, NodesKeep, BallotsKeep;
    hide CandidateOk, Settled, Indexed;
    StayGood(s, n, marks);
    if n.role == Leader && to in s.voters && to != n.id && to in n.heard && 0 < index <= n.committed
        && index <= |n.log| {
      LeaderHoldsItsLog(s, n);
      TermPositive(s, n);
      hide NodeLogsOk, Evolves;
      SettledShorter(s, n.log[..n.committed], n.log[..index], n.term);
    }
  }

  /** A heartbeat carries a commit position the receiver acknowledged. */
  lemma HeartbeatOk(s: Core.Core, n: Node, to: Id, ctx: Ctx, marks: Marks)
    requires Ready(s, n) && n.role == Leader && to in s.voters && to != n.id
    requires ctx != [] ==> (n.term, ctx) in marks
    ensures to in n.progress && MsgOk(s, marks, Heartbeat(n.id, to, n.term, Min(n.progress[to], n.committed), ctx))
  {
    hide LeaderLogsOk, CampaignsOk, BallotsOk, ElectionsOk, AcksOk, CommitsOk, LeadersKeep, NodesKeep, BallotsKeep;
    hide CandidateOk, Settled, Indexed;
    LeaderHoldsItsLog(s, n);
    TermPositive(s, n);
    hide NodeLogsOk;
    var commit := Min(n.progress[to], n.committed);
    SettledShorter(s, n.log[..n.committed], n.log[..commit], n.term);
  }

  lemma RestartGood(s: Core.Core, n: Node, marks: Marks)
    requires Ready(s, n)
    ensures Good(s, n, s, Step(BecomeFollower(s.voters, n, n.term, NO_NODE), {}, []), marks)
  {
    StayGood(s, n, marks);
    hide CoreInv, Indexed, Evolves, NodeOk;
    StepDownNode(s, n, NO_NODE);
  }

  /** Nothing but the read queue and its bookkeeping changed. */
  lemma ReadsOnlyGood(s: Core.Core, n: Node, r: ReadOnly, asked: set<Ctx>, out: set<Msg>, rel: seq<Released>,
      marks: Marks)
    requires Ready(s, n) && forall m :: m in out ==> MsgOk(s, marks, m)
    ensures Good(s, n, s, Step(n.(readOnly := r, asked := asked), out, rel), marks)
  {
    StayGood(s, n, marks);
    hide CoreInv, Indexed, Evolves, MsgOk, Settled;
  }
}
