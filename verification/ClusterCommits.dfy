/** A leader has committed of its own term exactly what a majority has acknowledged, at every moment of every run. */
module ClusterCommits {
  import opened RaftTypes
  import opened Quorum
  import opened LogView
  import opened RaftNode
  import opened Core = RaftCore
  import opened Cluster
  import opened ClusterSafety
  import opened NodeAnswers

  /** Of the node's own term, exactly the positions that more than half of the voters have reached, as far as it knows,
      are committed. */
  ghost predicate CaughtUp(voters: set<Id>, n: Node)
    requires voters <= n.progress.Keys
  {
    forall k: nat :: 0 < k <= |n.log| && n.log[k - 1].term == n.term ==>
      (k <= n.committed <==> 2 * |At(voters, n.progress, k)| > |voters|)
  }

  /** What is known of a leader: its terms ascend to its own, and nobody has reached more than it has. */
  ghost predicate Grounded(voters: set<Id>, n: Node) {
    && n.progress.Keys == voters && voters != {} && Ascending(n.log) && n.committed <= |n.log|
    && (forall i :: 0 <= i < |n.log| ==> n.log[i].term <= n.term)
    && (forall v :: v in voters ==> n.progress[v] <= |n.log|)
  }

  lemma LeaderTerms(lls: LeaderLogs, t: Term)
    requires LeaderLogsOk(lls) && t in lls
    ensures Ascending(lls[t]) && forall i :: 0 <= i < |lls[t]| ==> lls[t][i].term <= t
  {
    assert LeaderLogOk(lls, t);
    forall i: nat | i < |lls[t]| ensures lls[t][i].term <= t {
      assert Linked(lls, t, i);
    }
  }

  lemma ProgressBounded(s: Core.Core, n: Node)
    requires Shape(s) && AcksOk(s) && LeaderOk(s, n) && n.progress.Keys == s.voters
    requires n.term in s.leaderLog && n.log == s.leaderLog[n.term]
    ensures forall v :: v in s.voters ==> n.progress[v] <= |n.log|
  {
    forall v | v in s.voters ensures n.progress[v] <= |n.log| {
      assert n.progress[v] <= Acked(s.acked, v, n.term);
    }
  }

  lemma LeaderIsOk(c: Cluster, v: Id)
    requires Inv(c) && Leading(c, v)
    ensures var n := c.nodes[v];
            && NodeOk(c.core, n) && LeaderOk(c.core, n) && n.progress.Keys == c.voters == c.core.voters && v in c.voters
            && Shape(c.core) && LeaderLogsOk(c.core.leaderLog) && AcksOk(c.core)
  {
    hide NodeLogsOk, CampaignsOk, BallotsOk, AcksOk, LeadersKeep, NodesKeep, BallotsKeep, LeaderLogsOk, MsgOk, ReadInv,
      CommitKnown, Indexed, ElectionsOk, CommitsOk;
  }

  lemma LeaderGrounded(c: Cluster, v: Id)
    requires Inv(c) && Leading(c, v)
    ensures Grounded(c.voters, c.nodes[v])
  {
    hide Inv, NodeOk, LeaderOk, Shape, LeaderLogsOk, AcksOk;
    LeadingFacts(c, v);
    LeaderIsOk(c, v);
    LeaderTerms(c.core.leaderLog, c.nodes[v].term);
    ProgressBounded(c.core, c.nodes[v]);
    CommittedSettled(c, v);
  }

  // ---------------------------------------------------------------- one step

  lemma FewerFurther(voters: set<Id>, progress: map<Id, nat>, j: nat, k: nat)
    requires voters <= progress.Keys && j <= k
    ensures |At(voters, progress, k)| <= |At(voters, progress, j)|
  {
    SubsetSize(At(voters, progress, k), At(voters, progress, j));
  }

  lemma OwnTermAt(voters: set<Id>, n: Node, j: nat, k: nat)
    requires Grounded(voters, n) && 0 < j <= k <= |n.log| && n.log[j - 1].term == n.term
    ensures n.log[k - 1].term == n.term
  {
  }

  /** With the new knowledge of one voter, and the commit position where AckAnswer puts it. */
  lemma AckedCaughtUp(voters: set<Id>, n: Node, n': Node, from: Id, index: nat, k: nat)
    requires Grounded(voters, n) && CaughtUp(voters, n) && from in voters && index <= |n.log|
    requires n'.log == n.log && n'.term == n.term && n'.progress == n.progress[from := Max(n.progress[from], index)]
    requires MajorityEnd(voters, n'.progress, k)
    requires n'.committed ==
             if index > n.progress[from] && k > n.committed && TermAt(n.log, k) == n.term then k else n.committed
    ensures CaughtUp(voters, n')
  {
    if index <= n.progress[from] {
      assert n'.progress == n.progress;
    } else {
      assert k <= |n.log| by { SomeoneAt(voters, n'.progress, k, |n.log|); }
      forall j: nat | 0 < j <= |n.log| && n.log[j - 1].term == n.term
        ensures j <= n'.committed <==> 2 * |At(voters, n'.progress, j)| > |voters|
      {
        if j <= k {
          OwnTermAt(voters, n, j, k);
          FewerFurther(voters, n'.progress, j, k);
        } else if j <= n.committed {
          SubsetSize(At(voters, n.progress, j), At(voters, n'.progress, j));
        }
      }
    }
  }

  lemma SomeoneAt(voters: set<Id>, progress: map<Id, nat>, k: nat, bound: nat)
    requires voters <= progress.Keys && 2 * |At(voters, progress, k)| > |voters|
    requires forall v :: v in voters ==> progress[v] <= bound
    ensures k <= bound
  {
    var v :| v in At(voters, progress, k);
  }

  lemma NobodyBeyond(voters: set<Id>, progress: map<Id, nat>, k: nat, bound: nat)
    requires voters <= progress.Keys && bound < k
    requires forall v :: v in voters ==> progress[v] <= bound
    ensures |At(voters, progress, k)| == 0
  {
    assert At(voters, progress, k) == {};
  }

  lemma ProposedCaughtUp(voters: set<Id>, n: Node, n': Node)
    requires Grounded(voters, n) && CaughtUp(voters, n) && n.log <= n'.log
    requires n' == n.(log := n'.log)
    ensures CaughtUp(voters, n')
  {
    forall j: nat | 0 < j <= |n'.log| && n'.log[j - 1].term == n'.term
      ensures j <= n'.committed <==> 2 * |At(voters, n'.progress, j)| > |voters|
    {
      if j > |n.log| { NobodyBeyond(voters, n.progress, j, |n.log|); } else { assert n.log[j - 1] == n'.log[j - 1]; }
    }
  }

  /** A new leader knows only of itself, and not yet of its own entry. */
  lemma ElectedCaughtUp(voters: set<Id>, n: Node, n': Node)
    requires Wins(voters, n, n') && n.id in voters && n.committed <= |n.log|
    requires forall i :: 0 <= i < |n.log| ==> n.log[i].term < n.term
    ensures CaughtUp(voters, n')
  {
    assert forall i :: 0 <= i < |n.log| ==> n'.log[i] == n.log[i];
    forall j: nat | 0 < j <= |n'.log| && n'.log[j - 1].term == n'.term
      ensures j > n'.committed && |At(voters, n'.progress, j)| == 0
    {
      assert j == |n.log| + 1;
      NobodyBeyond(voters, n'.progress, j, |n.log|);
    }
  }

  /** Nothing that matters here changed. */
  ghost predicate SameCommits(n: Node, n': Node) {
    n'.log == n.log && n'.term == n.term && n'.progress == n.progress && n'.committed == n.committed
  }

  /** A leader that stays one: only proposals and acknowledgements matter. */
  lemma LeaderStays(voters: set<Id>, n: Node, ev: Event)
    requires n.role == Leader && Handle(voters, n, ev).Step? && Handle(voters, n, ev).node.role == Leader
    requires !ev.Propose? && !ev.SelfAck? && !(ev.Recv? && ev.m.AppResp?)
    ensures SameCommits(n, Handle(voters, n, ev).node)
  {
    hide MaybeAppend, CommitTo, ConflictByTerm, VoteWon, VoteLost, CommittedIndex, UpToDate, IsQuorum;
    if ev.Recv? && n.term < ev.m.term { StaysDown(voters, n, ev.m); }
  }

  /** A message of a later term ends leadership. */
  lemma StaysDown(voters: set<Id>, n: Node, m: Msg)
    requires n.term < m.term && Handle(voters, n, Recv(m)).Step?
    ensures Handle(voters, n, Recv(m)).node.role == Follower
  {
    hide MaybeAppend, CommitTo, ConflictByTerm, VoteWon, VoteLost, CommittedIndex, UpToDate;
  }

  lemma LeaderStep(voters: set<Id>, n: Node, ev: Event)
    requires n.role == Leader && n.id in voters
    requires Handle(voters, n, ev).Step? && Handle(voters, n, ev).node.role == Leader
    requires Grounded(voters, n) && CaughtUp(voters, n) && Handle(voters, n, ev).node.progress.Keys == voters
    requires ev.Recv? && ev.m.AppResp? && !ev.m.reject && ev.m.term == n.term ==>
               ev.m.from in voters && ev.m.index <= |n.log|
    ensures CaughtUp(voters, Handle(voters, n, ev).node)
  {
    var n' := Handle(voters, n, ev).node;
    if ev.Propose? {
      ProposeAnswer(voters, n, ev.items);
      hide Handle, CaughtUp;
      ProposedCaughtUp(voters, n, n');
    } else if ev.SelfAck? {
      hide CaughtUp;
      if ev.index <= |n.log| {
        var k := MajorityEndExists(voters, n.progress[n.id := Max(n.progress[n.id], ev.index)]);
        SelfAckAnswer(voters, n, ev.index, k);
        AckedCaughtUp(voters, n, n', n.id, ev.index, k);
      }
    } else if ev.Recv? && ev.m.AppResp? {
      AppRespStep(voters, n, ev.m);
    } else {
      LeaderStays(voters, n, ev);
      hide Handle;
    }
  }

  lemma AppRespStep(voters: set<Id>, n: Node, m: Msg)
    requires n.role == Leader && m.AppResp? && Handle(voters, n, Recv(m)).Step?
    requires Handle(voters, n, Recv(m)).node.role == Leader
    requires Grounded(voters, n) && CaughtUp(voters, n)
    requires !m.reject && m.term == n.term ==> m.from in voters && m.index <= |n.log|
    ensures voters <= Handle(voters, n, Recv(m)).node.progress.Keys && CaughtUp(voters, Handle(voters, n, Recv(m)).node)
  {
    hide CaughtUp, Grounded;
    var n' := Handle(voters, n, Recv(m)).node;
    assert n.progress.Keys == voters && voters != {} by { GroundedKeys(voters, n); }
    if m.term < n.term {
      OldTermIsIgnored(voters, n, m);
    } else if m.term > n.term {
      StaysDown(voters, n, m);
    } else if m.reject {
      assert n' == n.(heard := n'.heard);
      SameCaughtUp(voters, n, n');
    } else {
      var k := MajorityEndExists(voters, n.progress[m.from := Max(n.progress[m.from], m.index)]);
      AckAnswer(voters, n, m, k);
      hide Handle;
      AckedCaughtUp(voters, n, n', m.from, m.index, k);
    }
  }

  lemma GroundedKeys(voters: set<Id>, n: Node)
    requires Grounded(voters, n)
    ensures n.progress.Keys == voters && voters != {}
  {
  }

  lemma SameCaughtUp(voters: set<Id>, n: Node, n': Node)
    requires voters <= n.progress.Keys && CaughtUp(voters, n) && SameCommits(n, n')
    ensures CaughtUp(voters, n')
  {
  }

  /** Who wins with this event, and as whom. */
  lemma ElectedStep(voters: set<Id>, n: Node, ev: Event)
    requires n.role != Leader && n.id in voters
    requires Handle(voters, n, ev).Step? && Handle(voters, n, ev).node.role == Leader
    ensures (ev.Hup? && |voters| == 1 && Wins(voters, n.(term := n.term + 1, vote := n.id), Handle(voters, n, ev).node))
            || (ev.Recv? && ev.m.VoteResp? && n.role == Candidate && Wins(voters, n, Handle(voters, n, ev).node))
  {
    if ev.Hup? {
      HupAnswer(voters, n);
    } else if ev.Recv? {
      if n.term < ev.m.term { StaysDown(voters, n, ev.m); }
      if ev.m.VoteResp? && n.term == ev.m.term && n.role == Candidate {
        VoteCount(voters, n, ev.m);
      } else {
        NobodyElse(voters, n, ev.m);
      }
    }
  }

  lemma NobodyElse(voters: set<Id>, n: Node, m: Msg)
    requires n.role != Leader && Handle(voters, n, Recv(m)).Step?
    requires !(m.VoteResp? && n.term == m.term && n.role == Candidate)
    ensures Handle(voters, n, Recv(m)).node.role != Leader
  {
    hide MaybeAppend, CommitTo, ConflictByTerm, CommittedIndex, UpToDate;
  }

  // ---------------------------------------------------------------- runs

  /** Every leader of the cluster has committed what a majority acknowledged. */
  ghost predicate AllCaughtUp(c: Cluster) {
    forall v :: Leading(c, v) ==> c.voters <= c.nodes[v].progress.Keys && CaughtUp(c.voters, c.nodes[v])
  }

  /** The log of a node that calls for an election, or has called for one, ends before the term it is for. */
  lemma OldEntries(c: Cluster, v: Id)
    requires Inv(c) && v in c.nodes
    ensures var n := c.nodes[v];
            && n.committed <= |n.log|
            && forall i :: 0 <= i < |n.log| ==>
                 n.log[i].term <= n.term && (n.role == Candidate ==> n.log[i].term < n.term)
  {
    hide BallotsOk, AcksOk, LeadersKeep, NodesKeep, BallotsKeep, LeaderLogsOk, MsgOk, ReadInv, CommitKnown, Indexed,
      ElectionsOk, CommitsOk, Traced, Settled;
    NodeLogTraced(c, v);
    assert NodeOk(c.core, c.nodes[v]);
    TracedAscending(c.core.leaderLog, c.nodes[v].log);
  }

  /** An acknowledgement of the leader's term is from a voter and for entries the leader has. */
  lemma AckWithinLog(c: Cluster, v: Id, m: Msg)
    requires Inv(c) && Leading(c, v) && m in c.msgs && m.AppResp? && !m.reject && m.term == c.nodes[v].term
    ensures m.from in c.voters && m.index <= |c.nodes[v].log|
  {
    hide NodeOk, LeaderOk, LeaderLogsOk, Shape, AcksOk, ReadInv, CommitKnown, Indexed, CoreInv;
    LeadingFacts(c, v);
    LeaderIsOk(c, v);
    assert MsgOk(c.core, c.marks, m);
    AckedBounded(c.core, m.from, m.term);
  }

  lemma AckedBounded(s: Core.Core, v: Id, t: Term)
    requires Shape(s) && AcksOk(s) && v in s.voters && t in s.leaderLog
    ensures Acked(s.acked, v, t) <= |s.leaderLog[t]|
  {
  }

  lemma StepCaughtUp(c: Cluster, v: Id, ev: Event)
    requires Inv(c) && AllCaughtUp(c) && Enabled(c, v, ev)
    requires Handle(c.voters, c.nodes[v], ev).Step? && Handle(c.voters, c.nodes[v], ev).node.role == Leader
    requires Handle(c.voters, c.nodes[v], ev).node.progress.Keys == c.voters
    ensures CaughtUp(c.voters, Handle(c.voters, c.nodes[v], ev).node)
  {
    hide Inv, Handle, CaughtUp, Grounded, Wins;
    var n := c.nodes[v];
    if n.role == Leader {
      LeaderGrounded(c, v);
      assert Leading(c, v);
      if ev.Recv? && ev.m.AppResp? && !ev.m.reject && ev.m.term == n.term { AckWithinLog(c, v, ev.m); }
      LeaderStep(c.voters, n, ev);
    } else {
      OldEntries(c, v);
      ElectedStep(c.voters, n, ev);
      if ev.Hup? {
        ElectedCaughtUp(c.voters, n.(term := n.term + 1, vote := n.id), Handle(c.voters, n, ev).node);
      } else {
        ElectedCaughtUp(c.voters, n, Handle(c.voters, n, ev).node);
      }
    }
  }

  lemma NextCaughtUp(c: Cluster, c': Cluster)
    requires Inv(c) && AllCaughtUp(c) && Next(c, c')
    ensures AllCaughtUp(c')
  {
    hide Inv, Handle, CaughtUp, Record, Mark;
    var v, ev :| Moves(c, c', v, ev);
    NextKeeps(c, v, ev);
    forall u | Leading(c', u) ensures c'.voters <= c'.nodes[u].progress.Keys && CaughtUp(c'.voters, c'.nodes[u]) {
      LeaderIsOk(c', u);
      if u == v { StepCaughtUp(c, v, ev); } else { assert Leading(c, u); }
    }
  }

  lemma FirstCaughtUp(c: Cluster)
    requires Initial(c)
    ensures AllCaughtUp(c)
  {
    hide Core.Init, BootLog;
  }

  lemma {:induction false} RunCaughtUp(run: seq<Cluster>, i: nat)
    requires IsRun(run) && i < |run|
    ensures AllCaughtUp(run[i])
  {
    hide Inv, Next, Initial, AllCaughtUp;
    if i == 0 {
      FirstCaughtUp(run[0]);
    } else {
      RunCaughtUp(run, i - 1);
      RunInv(run, i - 1);
      NextCaughtUp(run[i - 1], run[i]);
    }
  }

  /** In every run, of its own term a leader has committed exactly the positions that more than half of the voters have
      reached according to it. */
  lemma LeaderCommitsMajority(run: seq<Cluster>, i: nat, v: Id, k: nat)
    requires IsRun(run) && i < |run| && Leading(run[i], v)
    ensures run[i].nodes[v].progress.Keys == run[i].voters
    ensures var n := run[i].nodes[v];
            0 < k <= |n.log| && n.log[k - 1].term == n.term ==>
              (k <= n.committed <==> 2 * |set u | u in run[i].voters && n.progress[u] >= k| > |run[i].voters|)
  {
    hide Inv, Next, Initial, NodeOk, LeaderOk, Shape, LeaderLogsOk, AcksOk;
    RunCaughtUp(run, i);
    RunInv(run, i);
    LeaderIsOk(run[i], v);
    var n := run[i].nodes[v];
    assert At(run[i].voters, n.progress, k) == set u | u in run[i].voters && n.progress[u] >= k;
  }
}
