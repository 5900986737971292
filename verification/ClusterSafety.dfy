/** The theorems about whole runs of a cluster. */
module ClusterSafety {
  import opened RaftTypes
  import opened Quorum
  import opened LogView
  import opened RaftNode
  import opened Core = RaftCore
  import opened Cluster
  import opened ClusterFrame
  import opened ClusterSteps
  import opened ClusterReads
  import opened ClusterDispatch
  import opened ReadServing

  // ---------------------------------------------------------------- the invariant holds in every reachable state

  lemma MarkGrows(c: Cluster, n: Node, ev: Event)
    ensures MarksGrow(c.marks, Mark(c, n, ev))
  {
  }

  lemma EvolvesVoters(s: Core.Core, s': Core.Core, v: Id)
    requires Evolves(s, s', v)
    ensures s'.voters == s.voters && s.commits <= s'.commits
    ensures forall t :: t in s.leaderOf ==> t in s'.leaderOf && s'.leaderOf[t] == s.leaderOf[t]
  {
  }

  lemma NodesStay(s: Core.Core, nodes: map<Id, Node>, v: Id, s': Core.Core, nodes': map<Id, Node>)
    requires Evolves(s, s', v) && v in nodes' && NodeOk(s', nodes'[v]) && nodes' == nodes[v := nodes'[v]]
    requires forall u :: u in nodes ==> NodeOk(s, nodes[u]) && nodes[u].id == u
    ensures forall u :: u in nodes' ==> NodeOk(s', nodes'[u])
  {
    hide NodeOk, Evolves;
    forall u | u in nodes' ensures NodeOk(s', nodes'[u]) {
      if u != v {
        NodeStays(s, s', v, nodes[u]);
      }
    }
  }

  lemma MsgsStay(s: Core.Core, marks: Marks, msgs: set<Msg>, v: Id, s': Core.Core, marks': Marks, out: set<Msg>)
    requires Evolves(s, s', v) && MarksGrow(marks, marks')
    requires forall m :: m in msgs ==> MsgOk(s, marks, m)
    requires forall m :: m in out ==> MsgOk(s', marks', m)
    ensures forall m :: m in msgs + out ==> MsgOk(s', marks', m)
  {
    hide MsgOk, Evolves, MarksGrow;
    forall m | m in msgs + out ensures MsgOk(s', marks', m) {
      if m in msgs {
        MsgStays(s, s', v, marks, marks', m);
      }
    }
  }

  lemma CommitsStay(s: Core.Core, nodes: map<Id, Node>, v: Id, s': Core.Core, n': Node)
    requires v in nodes && Evolves(s, s', v) && nodes[v].committed <= n'.committed
    requires forall d :: d in s.commits ==> CommitKnown(s, nodes, d)
    requires forall d :: d in s'.commits && d !in s.commits ==> Declared(s', v, d, n'.committed)
    ensures forall d :: d in s'.commits ==> CommitKnown(s', nodes[v := n'], d)
  {
    EvolvesVoters(s, s', v);
    hide Evolves;
    forall d | d in s'.commits ensures CommitKnown(s', nodes[v := n'], d) {
      if d in s.commits {
        assert CommitKnown(s, nodes, d);
      } else {
        assert Declared(s', v, d, n'.committed);
      }
    }
  }

  lemma NextProtocol(c: Cluster, v: Id, ev: Event)
    requires Inv(c) && Enabled(c, v, ev)
    ensures var e := Handle(c.voters, c.nodes[v], ev);
            && e.Step? && ProtocolInv(After(c, v, ev, e))
            && Evolves(c.core, After(c, v, ev, e).core, v)
            && c.nodes[v].committed <= e.node.committed && c.nodes[v].term <= e.node.term
  {
    hide Handle, Record, Mark, CoreInv, NodeOk, MsgOk, Evolves, Indexed, CommitKnown, ReadInv, Declared, MarksGrow;
    EventGood(c, v, ev);
    var n := c.nodes[v];
    var e := Handle(c.voters, n, ev);
    var s', marks' := Record(c.core, v, n, ev, e), Mark(c, n, ev);
    MarkGrows(c, n, ev);
    EvolvesVoters(c.core, s', v);
    NodesStay(c.core, c.nodes, v, s', c.nodes[v := e.node]);
    MsgsStay(c.core, c.marks, c.msgs, v, s', marks', e.out);
    CommitsStay(c.core, c.nodes, v, s', e.node);
  }

  // ---------------------------------------------------------------- reads

  lemma NextMarks(c: Cluster, v: Id, ev: Event, s': Core.Core)
    requires Inv(c) && Enabled(c, v, ev) && Evolves(c.core, s', v)
    ensures MarksOk(s', Mark(c, c.nodes[v], ev))
  {
    hide Inv, CoreInv, NodeOk, Indexed, Evolves, MarkOk, ReadsOk;
    var n := c.nodes[v];
    EventReady(c, v, ev);
    var marks' := Mark(c, n, ev);
    forall t, x | (t, x) in marks' ensures MarkOk(s', t, marks'[(t, x)]) {
      if (t, x) in c.marks {
        MarkStays(c.core, s', v, t, c.marks[(t, x)]);
      } else {
        NewMarkOk(c.core, n);
        MarkStays(c.core, s', v, t, marks'[(t, x)]);
      }
    }
  }

  /** Did n' lead before, with the same queue, or has it just been elected with an empty one? */
  ghost predicate QueueKept(n: Node, n': Node) {
    n'.role == Leader ==>
      if n.role == Leader then n'.term == n.term && n'.readOnly == n.readOnly && n'.asked == n.asked
      else n'.readOnly == NO_READS && n'.asked == {} && (n'.term > n.term || n.role == Candidate)
  }

  lemma DispatchQueue(voters: set<Id>, n: Node, m: Msg)
    requires !m.HeartbeatResp? && Dispatch(voters, n, m).Step? && n.term == m.term
    ensures QueueKept(n, Dispatch(voters, n, m).node) && Dispatch(voters, n, m).released == []
  {
    hide MaybeAppend, CommitTo, ConflictByTerm, VoteWon, VoteLost, CommittedIndex, UpToDate;
  }

  lemma HandleQueue(voters: set<Id>, n: Node, ev: Event)
    requires !ev.ReadReq? && !(ev.Recv? && ev.m.HeartbeatResp?) && Handle(voters, n, ev).Step?
    ensures QueueKept(n, Handle(voters, n, ev).node) && Handle(voters, n, ev).released == []
  {
    hide MaybeAppend, CommitTo, ConflictByTerm, VoteWon, VoteLost, CommittedIndex, UpToDate, Dispatch;
    match ev {
      case Recv(m) =>
        if n.term <= m.term {
          DispatchQueue(voters, MeetTerm(voters, n, m), m);
          if m.term > n.term {
            FollowerStays(voters, MeetTerm(voters, n, m), m);
          }
        }
      case _ =>
    }
  }

  /** A node that has just been elected leads a term nobody led before. */
  lemma NewTerm(s: Core.Core, n: Node, s': Core.Core, n': Node)
    requires CoreInv(s) && NodeOk(s, n) && NodeOk(s', n') && Evolves(s, s', n.id) && n'.id == n.id
    requires n.role != Leader && n'.role == Leader && n.term <= n'.term && (n'.term > n.term || n.role == Candidate)
    ensures n'.term !in s.leaderLog
  {
    hide LeaderLogsOk, NodeLogsOk, BallotsOk, AcksOk, CommitsOk, LeadersKeep, NodesKeep, BallotsKeep, Settled, IsQuorum;
    assert n'.term in s.leaderLog && n'.term != BOOT_TERM ==> ElectionOk(s, n'.term);
  }

  lemma NewLeaderReads(s: Core.Core, voters: set<Id>, marks: Marks, n': Node)
    requires MarksOk(s, marks) && n'.term !in s.leaderLog && n'.readOnly == NO_READS
    ensures ReadsOk(voters, marks, n') && QueueOk(marks, n')
  {
    assert forall x :: (n'.term, x) in marks ==> MarkOk(s, n'.term, marks[(n'.term, x)]);
  }

  lemma SameMarks(marks: Marks)
    ensures MarksGrow(marks, marks)
  {
  }

  lemma QueueKeptReads(c: Cluster, v: Id, ev: Event)
    requires Inv(c) && Enabled(c, v, ev) && !ev.ReadReq? && !(ev.Recv? && ev.m.HeartbeatResp?)
    ensures var e := Handle(c.voters, c.nodes[v], ev);
            && e.Step? && e.released == []
            && (e.node.role == Leader ==>
                  && QueueOk(c.marks, e.node)
                  && (e.node.term !in c.spoiled ==> ReadsOk(c.voters, c.marks, e.node)))
  {
    hide Inv, CoreInv, NodeOk, Indexed, Evolves, MarksOk, ReadsOk, QueueOk, MarksGrow, Handle, Record, MsgOk;
    EventGood(c, v, ev);
    EventReady(c, v, ev);
    var n := c.nodes[v];
    var e := Handle(c.voters, n, ev);
    HandleQueue(c.voters, n, ev);
    if e.node.role == Leader {
      if n.role == Leader {
        SameMarks(c.marks);
        QueueStays(c.marks, c.marks, n, e.node);
        if n.term !in c.spoiled { ReadsStay(c.voters, c.marks, c.marks, n, e.node); }
      } else {
        NewTerm(c.core, n, Record(c.core, v, n, ev, e), e.node);
        NewLeaderReads(c.core, c.voters, c.marks, e.node);
      }
    }
  }

  // The two events that touch the queue.

  ghost predicate Serves(c: Cluster, v: Id) {
    && v in c.nodes && c.nodes[v].role == Leader && |c.voters| != 1
    && TermAt(c.nodes[v].log, c.nodes[v].committed) == c.nodes[v].term
  }

  lemma FreshQueue(c: Cluster, v: Id, ctx: Ctx)
    requires Inv(c) && Enabled(c, v, ReadReq(ctx)) && Serves(c, v) && ctx !in c.nodes[v].readOnly.pending
    requires c.nodes[v].term !in c.spoiled && ctx !in c.nodes[v].asked
    ensures var n := c.nodes[v];
            ReadsOk(c.voters, Mark(c, n, ReadReq(ctx)),
                    n.(readOnly := AddRequest(n.readOnly, n.committed, ctx), asked := n.asked + {ctx}))
  {
    hide CoreInv, NodeOk, Indexed, Evolves, MarkOk, PendingOk, Earlier, AnswerOk, MsgOk, CommitKnown, MarksOk;
    EventReady(c, v, ReadReq(ctx));
    var n := c.nodes[v];
    assert (n.term, ctx) !in c.marks;
    var mark := ReadMark(c.core.commits, set u | u in c.core.term && c.core.term[u] > n.term);
    forall d | d in mark.before && d.term <= n.term ensures d.index <= n.committed {
      ReadFloor(c.core, c.nodes, n, d);
    }
    forall y | y in n.readOnly.pending ensures (n.term, y) in c.marks && c.marks[(n.term, y)].late <= mark.late {
      QueuedNotLater(c.core, c.voters, c.marks, n, y);
    }
    AddedReads(c.voters, c.marks, n, ctx, mark);
  }

  lemma SameQueue(c: Cluster, v: Id, ctx: Ctx)
    requires Inv(c) && Enabled(c, v, ReadReq(ctx)) && Serves(c, v) && ctx in c.nodes[v].readOnly.pending
    requires c.nodes[v].term !in c.spoiled
    ensures var n := c.nodes[v];
            ReadsOk(c.voters, Mark(c, n, ReadReq(ctx)),
                    n.(readOnly := AddRequest(n.readOnly, n.committed, ctx), asked := n.asked + {ctx}))
  {
    hide CoreInv, NodeOk, Indexed, Evolves, MarkOk, Earlier, AnswerOk, MsgOk, CommitKnown, MarksOk;
    EventReady(c, v, ReadReq(ctx));
    var n := c.nodes[v];
    assert PendingOk(c.voters, c.marks, n, ctx);
    assert n.asked + {ctx} == n.asked;
  }

  lemma ReadReqQueue(c: Cluster, v: Id, ctx: Ctx)
    requires Inv(c) && Enabled(c, v, ReadReq(ctx)) && Serves(c, v)
    requires c.nodes[v].term !in c.spoiled && !Reuses(c.voters, c.nodes[v], ReadReq(ctx))
    ensures var n := c.nodes[v];
            ReadsOk(c.voters, Mark(c, n, ReadReq(ctx)), HandleReadReq(c.voters, n, ctx).node)
  {
    hide Inv, Ready, ReadsOk, MarksOk, Heartbeats;
    EventReady(c, v, ReadReq(ctx));
    var n := c.nodes[v];
    var marks' := Mark(c, n, ReadReq(ctx));
    if ctx in n.readOnly.pending { SameQueue(c, v, ctx); } else { FreshQueue(c, v, ctx); }
    SelfNotLate(c, v, ReadReq(ctx), ctx);
    AckedReads(c.voters, marks', n.(readOnly := AddRequest(n.readOnly, n.committed, ctx), asked := n.asked + {ctx}),
        n.id, ctx);
  }

  /** Whatever the context, the queue stays one. */
  lemma ReadReqStructure(c: Cluster, v: Id, ctx: Ctx)
    requires Inv(c) && Enabled(c, v, ReadReq(ctx)) && Serves(c, v)
    ensures var n := c.nodes[v]; QueueOk(Mark(c, n, ReadReq(ctx)), HandleReadReq(c.voters, n, ctx).node)
  {
    hide Inv, Ready, ReadsOk, QueueOk, MarksOk, Heartbeats, MarksGrow;
    EventReady(c, v, ReadReq(ctx));
    var n, marks' := c.nodes[v], Mark(c, c.nodes[v], ReadReq(ctx));
    MarkGrows(c, n, ReadReq(ctx));
    QueueStays(c.marks, marks', n, n);
    AddedQueue(marks', n, n.committed, ctx, n.asked + {ctx});
    AckedQueue(marks', n.(readOnly := AddRequest(n.readOnly, n.committed, ctx), asked := n.asked + {ctx}), n.id, ctx);
  }

  lemma SelfNotLate(c: Cluster, v: Id, ev: Event, ctx: Ctx)
    requires Inv(c) && Enabled(c, v, ev)
    ensures var marks' := Mark(c, c.nodes[v], ev); var t := c.nodes[v].term;
            (t, ctx) in marks' ==> v !in marks'[(t, ctx)].late
  {
    hide ReadInv, ReadsOk, MarksOk, MarkOk, MsgOk, Indexed, CommitKnown;
    EventReady(c, v, ev);
    EvolvesRefl(c.core, v);
    hide CoreInv, Evolves, NodeOk;
    NextMarks(c, v, ev, c.core);
    var n := c.nodes[v];
    if (n.term, ctx) in Mark(c, n, ev) {
      NotLate(c.core, n, Mark(c, n, ev), n.term, ctx);
    }
  }

  lemma QueuedNotLater(s: Core.Core, voters: set<Id>, marks: Marks, n: Node, x: Ctx)
    requires ReadsOk(voters, marks, n) && MarksOk(s, marks) && x in n.readOnly.pending
    ensures (n.term, x) in marks && marks[(n.term, x)].late <= set u | u in s.term && s.term[u] > n.term
  {
    assert PendingOk(voters, marks, n, x);
    assert MarkOk(s, n.term, marks[(n.term, x)]);
  }

  ghost predicate OwnReadsOk(c: Cluster, v: Id, ev: Event, e: Effect)
    requires v in c.nodes && e.Step?
  {
    var n, marks', spoiled' := c.nodes[v], Mark(c, c.nodes[v], ev), Spoil(c, c.nodes[v], ev);
    && (e.node.role == Leader ==>
          && QueueOk(marks', e.node)
          && (e.node.term !in spoiled' ==> ReadsOk(c.voters, marks', e.node)))
    && (n.term !in spoiled' ==> forall r :: r in e.released ==> AnswerOk(marks', Answer(n.term, r.ctx, r.index)))
  }

  lemma SoleVoterAnswers(c: Cluster, v: Id, ctx: Ctx)
    requires Inv(c) && Enabled(c, v, ReadReq(ctx)) && c.nodes[v].role == Leader && |c.voters| == 1
    ensures var n := c.nodes[v]; AnswerOk(Mark(c, n, ReadReq(ctx)), Answer(n.term, ctx, n.committed))
  {
    hide CoreInv, NodeOk, Indexed, ReadsOk, MsgOk;
    var n := c.nodes[v];
    forall d | d in c.core.commits ensures d.index <= n.committed {
      assert CommitKnown(c.core, c.nodes, d);
      SoleVoter(c, v, d);
    }
    if (n.term, ctx) in c.marks {
      assert MarkOk(c.core, n.term, c.marks[(n.term, ctx)]);
    }
  }

  lemma SoleVoter(c: Cluster, v: Id, d: Commit)
    requires Wired(c) && v in c.voters && |c.voters| == 1
    requires CoreInv(c.core) && d in c.core.commits
    ensures d.term in c.core.leaderOf && (d.term == BOOT_TERM || c.core.leaderOf[d.term] == v)
  {
    hide NodeLogsOk, CampaignsOk, BallotsOk, AcksOk, LeadersKeep, NodesKeep, BallotsKeep, LeaderLogsOk, IsQuorum;
    assert OwnAt(c.core, d.term, d.index);
    assert d.term != BOOT_TERM ==> ElectionOk(c.core, d.term);
    assert c.voters == {v} by {
      SubsetSize(c.voters - {v}, c.voters);
      assert |c.voters - {v}| == 0;
    }
  }

  lemma ReadReqReads(c: Cluster, v: Id, ctx: Ctx)
    requires Inv(c) && Enabled(c, v, ReadReq(ctx))
    ensures var e := HandleReadReq(c.voters, c.nodes[v], ctx); e.Step? && OwnReadsOk(c, v, ReadReq(ctx), e)
  {
    hide Inv, Ready, ReadsOk, QueueOk, MarksOk, AnswerOk, Heartbeats;
    var n, ev := c.nodes[v], ReadReq(ctx);
    EventReady(c, v, ev);
    MarkGrows(c, n, ev);
    hide MarksGrow;
    if n.role == Leader {
      if |c.voters| == 1 {
        QueueStays(c.marks, Mark(c, n, ev), n, n);
        if n.term !in c.spoiled { ReadsStay(c.voters, c.marks, Mark(c, n, ev), n, n); }
        SoleVoterAnswers(c, v, ctx);
      } else if TermAt(n.log, n.committed) == n.term {
        ReadReqStructure(c, v, ctx);
        if n.term !in Spoil(c, n, ev) { ReadReqQueue(c, v, ctx); }
      }
    }
  }

  lemma ConfirmReads(c: Cluster, v: Id, m: Msg)
    requires Inv(c) && Enabled(c, v, Recv(m)) && m.HeartbeatResp?
    ensures var e := HandleMsg(c.voters, c.nodes[v], m); e.Step? && OwnReadsOk(c, v, Recv(m), e)
  {
    hide Inv, Ready, ReadsOk, QueueOk, MarksOk, AnswerOk, HandleHeartbeatResp, MsgOk;
    var n := c.nodes[v];
    EventReady(c, v, Recv(m));
    if m.term == n.term && n.role == Leader {
      var n1 := Hear(n, m.from);
      HearReceivable(c.core, n, m, c.marks);
      ConfirmedQueue(c.core, n1, m, c.marks);
      if n.term !in c.spoiled { ConfirmedReads(c.core, n1, m, c.marks); }
    }
  }

  lemma NextOwnReads(c: Cluster, v: Id, ev: Event)
    requires Inv(c) && Enabled(c, v, ev)
    ensures var e := Handle(c.voters, c.nodes[v], ev); e.Step? && OwnReadsOk(c, v, ev, e)
  {
    hide Inv, ReadsOk, QueueOk, HandleMsg, HandleReadReq;
    if ev.ReadReq? {
      ReadReqReads(c, v, ev.ctx);
    } else if ev.Recv? && ev.m.HeartbeatResp? {
      ConfirmReads(c, v, ev.m);
    } else {
      hide Handle;
      QueueKeptReads(c, v, ev);
    }
  }

  /** Two leaders are leaders of different terms. */
  lemma LeadersApart(s: Core.Core, n: Node, p: Node)
    requires NodeOk(s, n) && NodeOk(s, p) && n.role == Leader && p.role == Leader && n.id != p.id
    ensures n.term != p.term
  {
  }

  lemma OtherReads(c: Cluster, v: Id, ev: Event, u: Id)
    requires Inv(c) && Enabled(c, v, ev) && u in c.nodes && u != v && c.nodes[u].role == Leader
    ensures QueueOk(Mark(c, c.nodes[v], ev), c.nodes[u])
    ensures c.nodes[u].term !in c.spoiled ==> ReadsOk(c.voters, Mark(c, c.nodes[v], ev), c.nodes[u])
  {
    hide CoreInv, NodeOk, Indexed, ReadsOk, QueueOk, MsgOk, CommitKnown, MarkOk, AnswerOk;
    var n, p := c.nodes[v], c.nodes[u];
    if n.role == Leader { LeadersApart(c.core, n, p); }
    MarkGrows(c, n, ev);
    QueueStays(c.marks, Mark(c, n, ev), p, p);
    if p.term !in c.spoiled { ReadsStay(c.voters, c.marks, Mark(c, n, ev), p, p); }
  }

  lemma AnswerStays(marks: Marks, marks': Marks, a: Answer)
    requires AnswerOk(marks, a) && MarksGrow(marks, marks')
    ensures AnswerOk(marks', a)
  {
  }

  lemma NextReads(c: Cluster, v: Id, ev: Event)
    requires Inv(c) && Enabled(c, v, ev)
    requires Handle(c.voters, c.nodes[v], ev).Step?
    requires Evolves(c.core, After(c, v, ev, Handle(c.voters, c.nodes[v], ev)).core, v)
    ensures ReadInv(After(c, v, ev, Handle(c.voters, c.nodes[v], ev)))
  {
    hide ProtocolInv, Handle, Record, Mark, Evolves, ReadsOk, QueueOk, MarksGrow, AnswerOk, MarkOk, Reuses;
    var n := c.nodes[v];
    var e := Handle(c.voters, n, ev);
    var c' := After(c, v, ev, e);
    NextMarks(c, v, ev, c'.core);
    NextOwnReads(c, v, ev);
    MarkGrows(c, n, ev);
    forall u | u in c'.nodes && c'.nodes[u].role == Leader ensures LeaderReadsOk(c', c'.nodes[u]) {
      if u != v { OtherReads(c, v, ev, u); }
    }
    forall a | a in c'.answers && a.term !in c'.spoiled ensures AnswerOk(c'.marks, a) {
      if a in c.answers { AnswerStays(c.marks, c'.marks, a); }
    }
  }

  /** No enabled event panics, and every step keeps the invariant. */
  lemma NextKeeps(c: Cluster, v: Id, ev: Event)
    requires Inv(c) && Enabled(c, v, ev)
    ensures var e := Handle(c.voters, c.nodes[v], ev);
            && e.Step? && Inv(After(c, v, ev, e)) && Evolves(c.core, After(c, v, ev, e).core, v)
            && c.nodes[v].committed <= e.node.committed && c.nodes[v].term <= e.node.term
  {
    hide ProtocolInv, ReadInv, Handle, Record, Mark, Evolves;
    NextProtocol(c, v, ev);
    NextReads(c, v, ev);
  }

  // ---------------------------------------------------------------- runs

  /** A finite run of the cluster from an initial state. */
  ghost predicate IsRun(run: seq<Cluster>) {
    && run != [] && Initial(run[0])
    && forall i :: 0 <= i < |run| - 1 ==> Next(run[i], run[i + 1])
  }

  lemma FirstNodeOk(voters: set<Id>, boot: seq<Entry>, v: Id)
    requires v in voters && NO_NODE !in voters && BootLog(boot)
    ensures NodeOk(Core.Init(voters, boot), FirstNode(voters, v, boot))
  {
    assert boot[..|boot|] == boot;
    assert boot != [] ==> SettledBy(Core.Init(voters, boot), boot, BOOT_TERM, Commit(BOOT_TERM, |boot|));
  }

  lemma FirstFields(voters: set<Id>, boot: seq<Entry>)
    ensures var c := FirstCluster(voters, boot);
            && c.voters == voters && c.core == Core.Init(voters, boot) && c.nodes.Keys == voters
            && (forall v :: v in voters ==> c.nodes[v] == FirstNode(voters, v, boot))
            && c.msgs == {} && c.marks == map[] && c.answers == {}
  {
    hide Core.Init, FirstNode;
  }

  lemma FirstHistory(voters: set<Id>, boot: seq<Entry>)
    requires BootLog(boot)
    ensures var s := Core.Init(voters, boot);
            && s.voters == voters && Indexed(s.leaderLog)
            && BOOT_TERM in s.leaderOf && forall d :: d in s.commits ==> d == Commit(BOOT_TERM, |boot|)
  {
  }

  lemma FirstReads(c: Cluster)
    requires c.marks == map[] && c.answers == {} && forall v :: v in c.nodes ==> c.nodes[v].role == Follower
    ensures ReadInv(c)
  {
    hide MarkOk, ReadsOk, AnswerOk;
  }

  lemma InitialInv(c: Cluster)
    requires Initial(c)
    ensures Inv(c)
  {
    hide FirstCluster, CoreInv, NodeOk, MsgOk, Indexed, ReadInv, BootLog, Core.Init;
    var boot :| BootLog(boot) && c == FirstCluster(c.voters, boot);
    FirstFields(c.voters, boot);
    FirstHistory(c.voters, boot);
    InitOk(c.voters, boot);
    FirstReads(c);
    forall v | v in c.nodes ensures NodeOk(c.core, c.nodes[v]) {
      FirstNodeOk(c.voters, boot, v);
    }
  }

  lemma RunInv(run: seq<Cluster>, i: nat)
    requires IsRun(run) && i < |run|
    ensures Inv(run[i])
  {
    hide Inv, Handle, After, Enabled;
    if i == 0 {
      InitialInv(run[0]);
    } else {
      RunInv(run, i - 1);
      assert Next(run[i - 1], run[i]);
      var v, ev :| Moves(run[i - 1], run[i], v, ev);
      NextKeeps(run[i - 1], v, ev);
    }
  }

  /** What history at an earlier moment still says later. */
  ghost predicate Later(s: Core.Core, s': Core.Core) {
    && s'.voters == s.voters && Extends(s.leaderLog, s'.leaderLog) && s.commits <= s'.commits
    && forall t :: t in s.leaderOf ==> t in s'.leaderOf && s'.leaderOf[t] == s.leaderOf[t]
  }

  /** Terms and commit positions never go back, not even over a restart. */
  ghost predicate Onward(c: Cluster, c': Cluster) {
    && c'.voters == c.voters && c'.nodes.Keys == c.nodes.Keys
    && forall v :: v in c.nodes ==> c.nodes[v].committed <= c'.nodes[v].committed && c.nodes[v].term <= c'.nodes[v].term
  }

  lemma EvolvesLater(s: Core.Core, s': Core.Core, v: Id)
    requires Evolves(s, s', v)
    ensures Later(s, s')
  {
  }

  lemma StepLater(c: Cluster, c': Cluster)
    requires Inv(c) && Next(c, c')
    ensures Later(c.core, c'.core) && MarksGrow(c.marks, c'.marks) && Onward(c, c')
  {
    hide Handle, Record, Mark, Inv, Evolves, Later, MarksGrow;
    var v, ev :| Moves(c, c', v, ev);
    NextKeeps(c, v, ev);
    EvolvesLater(c.core, c'.core, v);
    MarkGrows(c, c.nodes[v], ev);
  }

  lemma LaterTrans(a: Core.Core, b: Core.Core, c: Core.Core)
    requires Later(a, b) && Later(b, c)
    ensures Later(a, c)
  {
  }

  lemma OnwardTrans(a: Cluster, b: Cluster, c: Cluster)
    requires Onward(a, b) && Onward(b, c) && MarksGrow(a.marks, b.marks) && MarksGrow(b.marks, c.marks)
    ensures Onward(a, c) && MarksGrow(a.marks, c.marks)
  {
  }

  lemma SameLater(c: Cluster)
    ensures Later(c.core, c.core) && Onward(c, c) && MarksGrow(c.marks, c.marks)
  {
  }

  lemma RunLater(run: seq<Cluster>, i: nat, j: nat)
    requires IsRun(run) && i <= j < |run|
    ensures Later(run[i].core, run[j].core) && MarksGrow(run[i].marks, run[j].marks) && Onward(run[i], run[j])
    decreases j - i
  {
    hide Inv, Next, Later, Onward, MarksGrow, Initial;
    if i < j {
      RunInv(run, j - 1);
      StepLater(run[j - 1], run[j]);
      RunLater(run, i, j - 1);
      LaterTrans(run[i].core, run[j - 1].core, run[j].core);
      OnwardTrans(run[i], run[j - 1], run[j]);
    } else {
      SameLater(run[i]);
    }
  }

  // ---------------------------------------------------------------- the theorems

  /** No event that can happen in a reachable state makes a handler panic. */
  lemma NoPanic(run: seq<Cluster>, i: nat, v: Id, ev: Event)
    requires IsRun(run) && i < |run| && Enabled(run[i], v, ev)
    ensures Handle(run[i].voters, run[i].nodes[v], ev) != Panic
  {
    hide Inv, Handle, Next, Initial;
    RunInv(run, i);
    NextKeeps(run[i], v, ev);
  }

  ghost predicate Leading(c: Cluster, v: Id) {
    v in c.nodes && c.nodes[v].role == Leader
  }

  lemma LeadingFacts(c: Cluster, v: Id)
    requires Inv(c) && Leading(c, v)
    ensures var n := c.nodes[v];
            && n.id == v && n.term in c.core.leaderOf && c.core.leaderOf[n.term] == v
            && n.term in c.core.leaderLog && n.log == c.core.leaderLog[n.term] && n.term != BOOT_TERM
  {
    hide NodeLogsOk, CampaignsOk, BallotsOk, AcksOk, LeadersKeep, NodesKeep, BallotsKeep, LeaderLogsOk, MsgOk, ReadInv,
      CommitKnown, Indexed;
    LeaderHoldsItsLog(c.core, c.nodes[v]);
  }

  /** Election safety: over a whole run, a term has at most one leader. */
  lemma ElectionSafety(run: seq<Cluster>, i: nat, j: nat, u: Id, v: Id)
    requires IsRun(run) && i <= j < |run| && Leading(run[i], u) && Leading(run[j], v)
    requires run[i].nodes[u].term == run[j].nodes[v].term
    ensures u == v
  {
    hide Inv, Next, Initial;
    RunInv(run, i);
    RunInv(run, j);
    RunLater(run, i, j);
    LeadingFacts(run[i], u);
    LeadingFacts(run[j], v);
  }

  lemma NodeLogTraced(c: Cluster, v: Id)
    requires Inv(c) && v in c.nodes
    ensures LeaderLogsOk(c.core.leaderLog) && Traced(c.core.leaderLog, c.nodes[v].log)
  {
    hide CampaignsOk, BallotsOk, AcksOk, LeadersKeep, NodesKeep, BallotsKeep, LeaderLogsOk, MsgOk, ReadInv, CommitKnown,
      Indexed, Traced;
    NodeTraced(c.core, c.nodes[v]);
  }

  /** Log matching: logs of any two nodes at any two moments that agree on the term at one index agree up to it. */
  lemma LogMatching(run: seq<Cluster>, i: nat, j: nat, u: Id, v: Id, k: nat)
    requires IsRun(run) && i <= j < |run| && u in run[i].nodes && v in run[j].nodes
    requires 0 < k <= |run[i].nodes[u].log| && k <= |run[j].nodes[v].log|
    requires run[i].nodes[u].log[k - 1].term == run[j].nodes[v].log[k - 1].term
    ensures run[i].nodes[u].log[..k] == run[j].nodes[v].log[..k]
  {
    hide Inv, Next, Initial, Traced, LeaderLogsOk;
    RunInv(run, i);
    RunInv(run, j);
    RunLater(run, i, j);
    NodeLogTraced(run[i], u);
    NodeLogTraced(run[j], v);
    TracedKept(run[i].core.leaderLog, run[j].core.leaderLog);
    TracedMatch(run[j].core.leaderLog, run[i].nodes[u].log, run[j].nodes[v].log, k);
  }

  /** Terms never decrease along a log. */
  lemma TermsAscend(run: seq<Cluster>, i: nat, v: Id)
    requires IsRun(run) && i < |run| && v in run[i].nodes
    ensures Ascending(run[i].nodes[v].log)
  {
    hide Inv, Next, Initial, Traced, LeaderLogsOk;
    RunInv(run, i);
    NodeLogTraced(run[i], v);
    TracedAscending(run[i].core.leaderLog, run[i].nodes[v].log);
  }

  ghost function CommittedLog(c: Cluster, v: Id): seq<Entry>
    requires v in c.nodes && c.nodes[v].committed <= |c.nodes[v].log|
  {
    c.nodes[v].log[..c.nodes[v].committed]
  }

  lemma CommittedSettled(c: Cluster, v: Id)
    requires Inv(c) && v in c.nodes
    ensures c.nodes[v].committed <= |c.nodes[v].log|
    ensures CoreInv(c.core) && Settled(c.core, CommittedLog(c, v), c.nodes[v].term)
  {
    hide CoreInv, MsgOk, ReadInv, CommitKnown, Indexed;
  }

  lemma SettledComparable(s: Core.Core, p: seq<Entry>, t: Term, q: seq<Entry>, u: Term)
    requires CoreInv(s) && Settled(s, p, t) && Settled(s, q, u)
    ensures p <= q || q <= p
  {
    if p != [] && q != [] {
      var c :| SettledBy(s, p, t, c);
      var d :| SettledBy(s, q, u, d);
      hide CoreInv;
      CommitsAgree(s, c, d);
      var x, y := s.leaderLog[c.term][..c.index], s.leaderLog[d.term][..d.index];
      assert p <= x && q <= y;
      hide *;
      if x <= y { assert p <= y; } else { assert q <= x; }
    }
  }

  /** State machine safety: whatever two nodes commit at any two moments, one extends the other. */
  lemma StateMachineSafety(run: seq<Cluster>, i: nat, j: nat, u: Id, v: Id)
    requires IsRun(run) && i <= j < |run| && u in run[i].nodes && v in run[j].nodes
    ensures run[i].nodes[u].committed <= |run[i].nodes[u].log| && run[j].nodes[v].committed <= |run[j].nodes[v].log|
    ensures CommittedLog(run[i], u) <= CommittedLog(run[j], v) || CommittedLog(run[j], v) <= CommittedLog(run[i], u)
  {
    hide Inv, Next, Initial, CoreInv, Settled;
    RunInv(run, i);
    RunInv(run, j);
    RunLater(run, i, j);
    CommittedSettled(run[i], u);
    CommittedSettled(run[j], v);
    SettledStays(run[i].core, run[j].core, CommittedLog(run[i], u), run[i].nodes[u].term, run[i].nodes[u].term);
    SettledComparable(run[j].core, CommittedLog(run[i], u), run[i].nodes[u].term, CommittedLog(run[j], v),
        run[j].nodes[v].term);
  }

  /** Leader completeness: what any node had committed in a term up to t is in the log of every leader of term t from
      then on. */
  lemma LeadersHoldCommitted(run: seq<Cluster>, i: nat, j: nat, u: Id, v: Id)
    requires IsRun(run) && i <= j < |run| && u in run[i].nodes && Leading(run[j], v)
    requires run[i].nodes[u].term <= run[j].nodes[v].term
    ensures run[i].nodes[u].committed <= |run[i].nodes[u].log|
    ensures CommittedLog(run[i], u) <= run[j].nodes[v].log
  {
    hide Inv, Next, Initial, Settled;
    RunInv(run, i);
    RunInv(run, j);
    RunLater(run, i, j);
    CommittedSettled(run[i], u);
    CommittedSettled(run[j], v);
    LeadingFacts(run[j], v);
    hide Shape, LeaderLogsOk, NodeLogsOk, CampaignsOk, BallotsOk, ElectionsOk, AcksOk, CommitsOk, LeadersKeep,
      NodesKeep, BallotsKeep;
    SettledStays(run[i].core, run[j].core, CommittedLog(run[i], u), run[i].nodes[u].term, run[j].nodes[v].term);
    SettledInLeader(run[j].core, CommittedLog(run[i], u), run[j].nodes[v].term, run[j].nodes[v].term);
  }

  /** The last entry of a leader's log is its own, whenever one looks. */
  lemma LeaderLogEndsOwn(s: Core.Core, t: Term)
    requires CoreInv(s) && t in s.leaderLog && t != BOOT_TERM
    ensures s.leaderLog[t] != [] && LastTerm(s.leaderLog[t]) == t
  {
    hide NodeLogsOk, CampaignsOk, BallotsOk, AcksOk, LeadersKeep, NodesKeep, BallotsKeep, LeaderLogsOk, CommitsOk;
    assert ElectionOk(s, t);
  }

  lemma HeldAfter(s: Core.Core, d: Commit, t: Term)
    requires CoreInv(s) && d in s.commits && d.term < t && t in s.leaderLog
    ensures d.term in s.leaderLog && d.index <= |s.leaderLog[d.term]|
    ensures s.leaderLog[d.term][..d.index] <= s.leaderLog[t]
  {
    hide NodeLogsOk, CampaignsOk, BallotsOk, ElectionsOk, AcksOk, NodesKeep, BallotsKeep, LeaderLogsOk;
    LeaderCompleteness(s, d, t);
  }

  lemma CoreAt(run: seq<Cluster>, i: nat)
    requires IsRun(run) && i < |run|
    ensures CoreInv(run[i].core) && run[i].core.voters == run[i].voters
  {
    hide Next, Initial, NodeOk, MsgOk, ReadInv, CommitKnown, Indexed, LeaderLogsOk, NodeLogsOk, CampaignsOk, BallotsOk,
      ElectionsOk, AcksOk, CommitsOk, LeadersKeep, NodesKeep, BallotsKeep;
    RunInv(run, i);
  }

  /** A leader of a later term held what was committed even before it was committed. */
  lemma HeldBefore(s: Core.Core, s': Core.Core, d: Commit, t: Term)
    requires CoreInv(s) && CoreInv(s') && Extends(s.leaderLog, s'.leaderLog)
    requires d in s'.commits && d.term < t && t in s.leaderLog && t != BOOT_TERM
    ensures d.term in s'.leaderLog && d.index <= |s'.leaderLog[d.term]|
    ensures s'.leaderLog[d.term][..d.index] <= s.leaderLog[t]
  {
    hide NodeLogsOk, CampaignsOk, BallotsOk, ElectionsOk, AcksOk, NodesKeep, BallotsKeep;
    LeaderCompleteness(s', d, t);
    LeaderLogEndsOwn(s, t);
    var ll := s'.leaderLog[t];
    assert OwnAt(s', d.term, d.index);
    assert ll[d.index - 1] == s'.leaderLog[d.term][d.index - 1];
    assert LeaderLogOk(s'.leaderLog, t);
    assert ll[|s.leaderLog[t]| - 1].term == t;
  }

  /** In this step w, leading, moves its commit position. */
  ghost predicate DeclaresCommit(c: Cluster, c': Cluster, w: Id) {
    && (exists ev :: Moves(c, c', w, ev)) && Leading(c, w) && Leading(c', w)
    && c.nodes[w].committed < c'.nodes[w].committed <= |c'.nodes[w].log|
  }

  lemma DispatchCommit(voters: set<Id>, n: Node, m: Msg)
    requires n.role == Leader && Dispatch(voters, n, m).Step?
    ensures Dispatch(voters, n, m).node.term == n.term
    ensures !m.AppResp? ==> Dispatch(voters, n, m).node.committed == n.committed
  {
    hide IsQuorum, CommittedIndex;
  }

  /** Only acknowledgements move a leader's commit position. */
  lemma CommitsByAck(voters: set<Id>, n: Node, ev: Event)
    requires n.role == Leader && Handle(voters, n, ev).Step?
    requires Handle(voters, n, ev).node.role == Leader && n.committed < Handle(voters, n, ev).node.committed
    ensures (ev.SelfAck? && ev.index <= |n.log|) || (ev.Recv? && ev.m.AppResp? && n.term <= ev.m.term)
    ensures Handle(voters, n, ev).node.term == n.term
  {
    hide Dispatch, MaybeAppend, CommitTo, VoteWon, VoteLost, CommittedIndex;
    if ev.Recv? && n.term <= ev.m.term {
      if ev.m.term > n.term {
        FollowerStays(voters, MeetTerm(voters, n, ev.m), ev.m);
      } else {
        DispatchCommit(voters, n, ev.m);
      }
    }
  }

  lemma AckRecorded(s: Core.Core, n: Node, ev: Event, e: Effect)
    requires e.Step? && n.id in s.term && n.id in s.log && n.role == Leader
    requires e.node.role == Leader && n.committed < e.node.committed
    requires (ev.SelfAck? && ev.index <= |n.log|) || (ev.Recv? && ev.m.AppResp? && n.term <= ev.m.term)
    ensures Commit(n.term, e.node.committed) in Record(s, n.id, n, ev, e).commits
  {
  }

  /** The step in which a leader moves its commit position is in the history as a commit of its term. */
  lemma LeaderCommitRecorded(c: Cluster, c': Cluster, w: Id)
    requires Inv(c) && DeclaresCommit(c, c', w)
    ensures Commit(c.nodes[w].term, c'.nodes[w].committed) in c'.core.commits && c'.nodes[w].term == c.nodes[w].term
  {
    hide CoreInv, MsgOk, ReadInv, CommitKnown, Indexed, Handle, Mark, Record, Settled, CandidateOk, LeaderOk;
    var ev :| Moves(c, c', w, ev);
    CommitsByAck(c.voters, c.nodes[w], ev);
    assert NodeOk(c.core, c.nodes[w]);
    AckRecorded(c.core, c.nodes[w], ev, Handle(c.voters, c.nodes[w], ev));
  }

  /** Leader completeness, at any two moments: what the leader of one term commits is, entry for entry, in the log of
      every leader of a later term, even of one elected before the commit. */
  lemma LeadersAreComplete(run: seq<Cluster>, i: nat, j: nat, w: Id, v: Id)
    requires IsRun(run) && i < |run| - 1 && j < |run| && DeclaresCommit(run[i], run[i + 1], w)
    requires Leading(run[j], v) && run[i].nodes[w].term < run[j].nodes[v].term
    ensures CommittedLog(run[i + 1], w) <= run[j].nodes[v].log
  {
    hide Inv, Next, Initial, Moves, CoreInv, Onward, MarksGrow;
    var d := Commit(run[i].nodes[w].term, run[i + 1].nodes[w].committed);
    RunInv(run, i);
    RunInv(run, i + 1);
    RunInv(run, j);
    LeaderCommitRecorded(run[i], run[i + 1], w);
    LeadingFacts(run[i + 1], w);
    LeadingFacts(run[j], v);
    CoreAt(run, i + 1);
    CoreAt(run, j);
    if i + 1 <= j {
      RunLater(run, i + 1, j);
      HeldAfter(run[j].core, d, run[j].nodes[v].term);
    } else {
      RunLater(run, j, i + 1);
      HeldBefore(run[j].core, run[i + 1].core, d, run[j].nodes[v].term);
    }
  }

  /** What a node committed stays committed there, entry for entry. */
  lemma CommittedIsKept(run: seq<Cluster>, i: nat, j: nat, v: Id)
    requires IsRun(run) && i <= j < |run| && v in run[i].nodes
    ensures v in run[j].nodes
    ensures run[i].nodes[v].committed <= |run[i].nodes[v].log| && run[j].nodes[v].committed <= |run[j].nodes[v].log|
    ensures CommittedLog(run[i], v) <= CommittedLog(run[j], v)
  {
    hide Inv, Next, Initial;
    RunLater(run, i, j);
    StateMachineSafety(run, i, j, v, v);
  }

  // ---------------------------------------------------------------- linearizable reads

  /** Leader v takes the read request ctx, not taken in its term before, into its queue, or answers at once if it is
      alone. */
  ghost predicate AcceptsRead(c: Cluster, c': Cluster, v: Id, ctx: Ctx) {
    && Moves(c, c', v, ReadReq(ctx)) && c.nodes[v].role == Leader
    && (|c.voters| == 1 || (TermAt(c.nodes[v].log, c.nodes[v].committed) == c.nodes[v].term
         && ctx !in c.nodes[v].asked))
  }

  /** In this step v answers ctx with a read index. */
  ghost predicate AnswersRead(c: Cluster, c': Cluster, v: Id, ctx: Ctx, index: nat) {
    exists ev :: Moves(c, c', v, ev) && Released(ctx, index) in Handle(c.voters, c.nodes[v], ev).released
  }

  /** Whatever any node has committed is below some recorded commit. */
  lemma CommittedBelow(c: Cluster, u: Id, bound: nat)
    requires Inv(c) && u in c.nodes && forall d :: d in c.core.commits ==> d.index <= bound
    ensures c.nodes[u].committed <= bound
  {
    hide CoreInv, MsgOk, ReadInv, CommitKnown, Indexed;
    assert NodeOk(c.core, c.nodes[u]);
  }

  /** Up to step j no leader of term t uses a context again that it has answered. */
  ghost predicate NoReuse(run: seq<Cluster>, t: Term, j: nat)
    requires j < |run|
  {
    forall k: nat, v, ev ::
      k < j && v in run[k].nodes && run[k].nodes[v].term == t && Moves(run[k], run[k + 1], v, ev) ==>
        !Reuses(run[k].voters, run[k].nodes[v], ev)
  }

  lemma {:induction false} NotSpoiled(run: seq<Cluster>, t: Term, j: nat)
    requires IsRun(run) && j < |run| && NoReuse(run, t, j)
    ensures t !in run[j].spoiled
  {
    if j == 0 {
      FirstNotSpoiled(run[0]);
    } else {
      hide Handle, Enabled, Record, Mark, Reuses, Initial;
      NotSpoiled(run, t, j - 1);
      assert Next(run[j - 1], run[j]);
      var v, ev :| Moves(run[j - 1], run[j], v, ev);
    }
  }

  lemma FirstNotSpoiled(c: Cluster)
    requires Initial(c)
    ensures c.spoiled == {}
  {
    hide Core.Init, FirstNode, BootLog;
  }

  lemma AcceptedIsMarked(c: Cluster, c': Cluster, v: Id, ctx: Ctx)
    requires Inv(c) && AcceptsRead(c, c', v, ctx) && |c.voters| != 1 && c.nodes[v].term !in c.spoiled
    ensures (c.nodes[v].term, ctx) in c'.marks && c'.marks[(c.nodes[v].term, ctx)].before == c.core.commits
  {
    hide ProtocolInv, MarkOk, AnswerOk, Handle, Record;
    assert ReadsOk(c.voters, c.marks, c.nodes[v]);
  }

  lemma AnsweredIsRecorded(c: Cluster, c': Cluster, v: Id, ctx: Ctx, index: nat)
    requires AnswersRead(c, c', v, ctx, index)
    ensures Answer(c.nodes[v].term, ctx, index) in c'.answers
  {
    hide Handle, Record, Mark;
    var ev :| Moves(c, c', v, ev) && Released(ctx, index) in Handle(c.voters, c.nodes[v], ev).released;
  }

  /** A lone voter has nobody to hear from, so it answers a read itself, with its own commit position. */
  lemma LoneAnswer(c: Cluster, c': Cluster, v: Id, ctx: Ctx, index: nat)
    requires Inv(c) && AnswersRead(c, c', v, ctx, index) && |c.voters| == 1
    ensures index == c.nodes[v].committed
  {
    hide CoreInv, NodeOk, CommitKnown, Indexed, ReadInv, Record, Mark, HandleHup, HandleMsg, Acknowledge, After;
    var ev :| Moves(c, c', v, ev) && Released(ctx, index) in Handle(c.voters, c.nodes[v], ev).released;
    if ev.Recv? {
      var m := ev.m;
      assert MsgOk(c.core, c.marks, m);
      SubsetSize({m.from, m.to}, c.voters);
      assert false;
    }
    assert ev != Hup by { HupReleasesNothing(c.voters, c.nodes[v]); }
    assert !ev.SelfAck? by { AckReleasesNothing(c.voters, c.nodes[v]); }
  }

  lemma HupReleasesNothing(voters: set<Id>, n: Node)
    ensures HandleHup(voters, n).Step? && HandleHup(voters, n).released == []
  {
  }

  lemma AckReleasesNothing(voters: set<Id>, n: Node)
    ensures forall index :: Acknowledge(voters, n, n.id, index).Step? ==>
            Acknowledge(voters, n, n.id, index).released == []
  {
  }

  lemma LoneRead(run: seq<Cluster>, i: nat, j: nat, v: Id, ctx: Ctx, index: nat, u: Id)
    requires IsRun(run) && i <= j < |run| - 1 && |run[i].voters| == 1
    requires v in run[i].nodes && u in run[i].nodes && AnswersRead(run[j], run[j + 1], v, ctx, index)
    ensures run[i].nodes[u].committed <= index
  {
    hide ProtocolInv, ReadInv, Next, Initial, AnswersRead, Later, MarksGrow;
    RunLater(run, i, j);
    RunInv(run, i);
    RunInv(run, j);
    LoneAnswer(run[j], run[j + 1], v, ctx, index);
    assert u == v by { LoneVoter(run[i], u, v); }
  }

  lemma LoneVoter(c: Cluster, u: Id, v: Id)
    requires Inv(c) && |c.voters| == 1 && u in c.nodes && v in c.nodes
    ensures u == v
  {
    hide CoreInv, NodeOk, MsgOk, CommitKnown, Indexed, ReadInv;
    SubsetSize({u, v}, c.voters);
  }

  /** A leader whose term is not spoiled has accepted every read it has pending. */
  lemma PendingWasAsked(c: Cluster, v: Id)
    requires Inv(c) && Leading(c, v) && c.nodes[v].term !in c.spoiled
    ensures c.nodes[v].readOnly.pending.Keys <= c.nodes[v].asked
  {
    hide ProtocolInv, MarkOk, AnswerOk, QueueOk, PendingOk, Earlier;
    assert LeaderReadsOk(c, c.nodes[v]);
  }

  lemma AcceptedServing(c: Cluster, c': Cluster, v: Id, ctx: Ctx)
    requires Inv(c) && AcceptsRead(c, c', v, ctx) && |c.voters| != 1 && c.nodes[v].term !in c.spoiled
    ensures v in c'.nodes && Serving(c'.nodes[v], c.nodes[v].term, ctx, c.nodes[v].committed)
    ensures ctx !in c.nodes[v].readOnly.pending
  {
    hide Inv, HandleReadReq, Record, Mark, Serving;
    PendingWasAsked(c, v);
    AcceptedIsServed(c.voters, c.nodes[v], ctx);
  }

  lemma StepServing(c: Cluster, c': Cluster, v: Id, t: Term, ctx: Ctx, p: nat)
    requires Inv(c) && Next(c, c') && v in c.nodes && (Serving(c.nodes[v], t, ctx, p) || Past(c.nodes[v], t))
    requires forall ev :: Moves(c, c', v, ev) && c.nodes[v].term == t ==> !Reuses(c.voters, c.nodes[v], ev)
    ensures v in c'.nodes && (Serving(c'.nodes[v], t, ctx, p) || Past(c'.nodes[v], t))
  {
    hide Inv, Handle, Record, Mark, Reuses;
    var u, ev :| Moves(c, c', u, ev);
    if u == v {
      if Past(c.nodes[v], t) {
        StaysPast(c.voters, c.nodes[v], ev, t);
      } else {
        StaysServing(c.voters, c.nodes[v], ev, t, ctx, p);
      }
    }
  }

  /** From when it was accepted on, a read has the index it was accepted with for as long as the node leads the term. */
  lemma {:induction false} ServedUntil(run: seq<Cluster>, i: nat, j: nat, v: Id, ctx: Ctx)
    requires IsRun(run) && i < j < |run| && |run[i].voters| != 1 && AcceptsRead(run[i], run[i + 1], v, ctx)
    requires NoReuse(run, run[i].nodes[v].term, j)
    ensures v in run[j].nodes
    ensures var t := run[i].nodes[v].term;
            Serving(run[j].nodes[v], t, ctx, run[i].nodes[v].committed) || Past(run[j].nodes[v], t)
    decreases j
  {
    hide Inv, Next, Initial, Serving, Past, Reuses, Handle, After;
    var t := run[i].nodes[v].term;
    LessReuse(run, t, j - 1, j);
    RunInv(run, j - 1);
    if j == i + 1 {
      NotSpoiled(run, t, i);
      AcceptedServing(run[i], run[j], v, ctx);
    } else {
      ServedUntil(run, i, j - 1, v, ctx);
      assert Next(run[j - 1], run[j]);
      assert v in run[j - 1].nodes;
      StepServing(run[j - 1], run[j], v, t, ctx, run[i].nodes[v].committed);
    }
  }

  /** A leader of more than one that answers a read has it pending. */
  lemma AnswerPending(c: Cluster, c': Cluster, v: Id, ctx: Ctx, index: nat)
    requires AnswersRead(c, c', v, ctx, index) && |c.voters| != 1
    ensures v in c.nodes && c.nodes[v].role == Leader
    ensures ctx in c.nodes[v].readOnly.pending && index == c.nodes[v].readOnly.pending[ctx].index
  {
    hide Handle, After;
    var ev :| Moves(c, c', v, ev) && Released(ctx, index) in Handle(c.voters, c.nodes[v], ev).released;
    AnswerFrom(c.voters, c.nodes[v], ev, ctx, index);
  }

  /** A read that had to wait for a majority is answered with the commit position at which it was accepted. */
  lemma QueuedIndex(run: seq<Cluster>, i: nat, j: nat, v: Id, ctx: Ctx, index: nat)
    requires IsRun(run) && i <= j < |run| - 1 && |run[i].voters| != 1
    requires AcceptsRead(run[i], run[i + 1], v, ctx) && AnswersRead(run[j], run[j + 1], v, ctx, index)
    requires v in run[j].nodes && run[j].nodes[v].term == run[i].nodes[v].term
    requires NoReuse(run, run[i].nodes[v].term, j + 1)
    ensures index == run[i].nodes[v].committed && index <= run[j].nodes[v].committed
  {
    hide Inv, Next, Initial, AnswersRead, Later, MarksGrow, Reuses;
    var t := run[i].nodes[v].term;
    RunLater(run, i, j);
    AnswerPending(run[j], run[j + 1], v, ctx, index);
    LessReuse(run, t, j, j + 1);
    if i < j {
      ServedUntil(run, i, j, v, ctx);
    } else {
      RunInv(run, i);
      NotSpoiled(run, t, i);
      AcceptedServing(run[i], run[i + 1], v, ctx);
    }
  }

  /**
   ReadIndex is linearizable: when a leader accepts a read, every position any node of the cluster
   has committed by then is at or below the index the read is answered with, no matter when, and no
   matter whether its own context or a later one gathered the quorum, as long as the leader's
   contexts are not used again once answered. The index is never ahead of what the leader has
   committed when it answers, and unless the leader is the only voter it is the leader's commit
   position at the moment the read was accepted.
   */
  lemma ReadIndexLinearizable(run: seq<Cluster>, i: nat, j: nat, v: Id, ctx: Ctx, index: nat, u: Id)
    requires IsRun(run) && i <= j < |run| - 1 && u in run[i].nodes
    requires AcceptsRead(run[i], run[i + 1], v, ctx) && AnswersRead(run[j], run[j + 1], v, ctx, index)
    requires v in run[j].nodes && run[j].nodes[v].term == run[i].nodes[v].term
    requires NoReuse(run, run[i].nodes[v].term, j + 1)
    ensures run[i].nodes[u].committed <= index <= run[j].nodes[v].committed
    ensures |run[i].voters| > 1 ==> index == run[i].nodes[v].committed
  {
    hide IsRun, AnswersRead, Reuses, Inv;
    if |run[i].voters| == 1 {
      LoneRead(run, i, j, v, ctx, index, u);
      RunLater(run, i, j);
      RunInv(run, j);
      LoneAnswer(run[j], run[j + 1], v, ctx, index);
    } else {
      QueuedRead(run, i, j, v, ctx, index, u);
      QueuedIndex(run, i, j, v, ctx, index);
    }
  }

  lemma QueuedRead(run: seq<Cluster>, i: nat, j: nat, v: Id, ctx: Ctx, index: nat, u: Id)
    requires IsRun(run) && i <= j < |run| - 1 && u in run[i].nodes && |run[i].voters| != 1
    requires AcceptsRead(run[i], run[i + 1], v, ctx) && AnswersRead(run[j], run[j + 1], v, ctx, index)
    requires v in run[j].nodes && run[j].nodes[v].term == run[i].nodes[v].term
    requires NoReuse(run, run[i].nodes[v].term, j + 1)
    ensures run[i].nodes[u].committed <= index
  {
    hide Inv, Next, Initial, AnswersRead, Later, Onward, Reuses;
    var t := run[i].nodes[v].term;
    NotSpoiled(run, t, j + 1);
    LessReuse(run, t, i, j + 1);
    NotSpoiled(run, t, i);
    RunInv(run, i);
    RunInv(run, j + 1);
    RunLater(run, i + 1, j + 1);
    AcceptedIsMarked(run[i], run[i + 1], v, ctx);
    AnsweredIsRecorded(run[j], run[j + 1], v, ctx, index);
    RecordedAnswer(run[j + 1], Answer(run[i].nodes[v].term, ctx, index));
    CommittedBelow(run[i], u, index);
  }

  lemma LessReuse(run: seq<Cluster>, t: Term, i: nat, j: nat)
    requires i <= j < |run| && NoReuse(run, t, j)
    ensures NoReuse(run, t, i)
  {
    hide Moves, Reuses;
  }

  lemma RecordedAnswer(c: Cluster, a: Answer)
    requires Inv(c) && a in c.answers && a.term !in c.spoiled
    ensures AnswerOk(c.marks, a)
  {
    hide ProtocolInv, MarkOk, ReadsOk, AnswerOk;
  }
}
