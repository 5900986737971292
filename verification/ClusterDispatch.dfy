/** Every enabled event of every node is a good step: no handler panics. */
module ClusterDispatch {
  import opened RaftTypes
  import opened Quorum
  import opened LogView
  import opened RaftNode
  import opened Core = RaftCore
  import opened Cluster
  import opened ClusterFrame
  import opened ClusterSteps
  import opened ClusterLogs
  import opened ClusterReads

  lemma NodeInMaps(s: Core.Core, n: Node)
    requires NodeOk(s, n)
    ensures n.id in s.term && n.id in s.log && n.id in s.voters && n.progress.Keys == s.voters
  {
  }

  lemma AsFollowerReady(s: Core.Core, n: Node, m: Msg)
    requires Ready(s, n) && n.role != Leader && m.term == n.term
    ensures Ready(s, AsFollower(s.voters, n, m))
  {
    hide LeaderLogsOk, NodeLogsOk, CampaignsOk, BallotsOk, ElectionsOk, AcksOk, CommitsOk, LeadersKeep, NodesKeep,
      BallotsKeep, NodeOk;
    AsFollowerNode(s, n, m);
  }

  lemma AsFollowerGood(s: Core.Core, n: Node, m: Msg, s': Core.Core, e: Effect, marks: Marks)
    requires n.role != Leader && m.term == n.term && Good(s, AsFollower(s.voters, n, m), s', e, marks)
    ensures Good(s, n, s', e, marks)
  {
    hide CoreInv, Evolves, NodeOk, MsgOk, Indexed;
  }

  ghost predicate Receivable(s: Core.Core, n: Node, m: Msg, marks: Marks) {
    && Ready(s, n) && MsgOk(s, marks, m) && m.to == n.id && MarksOk(s, marks)
    && (n.role == Leader ==> QueueOk(marks, n))
  }

  lemma NoAcks(s: Core.Core, v: Id)
    requires v in s.term && v in s.log
    ensures NoteAcks(s, v, {}) == s
  {
  }

  lemma SameApp(s: Core.Core, n: Node, m: Msg, marks: Marks)
    requires Receivable(s, n, m, marks) && m.term == n.term && (m.App? || m.Snap?)
    ensures n.id in s.term && n.id in s.log
    ensures var e := Dispatch(s.voters, n, m); e.Step? && Good(s, n, RecordMsg(s, n.id, n, m, e), e, marks)
  {
    hide CoreInv, NodeOk, MsgOk, Indexed, Good, MarksOk, QueueOk;
    NodeInMaps(s, n);
    if n.role == Leader {
      StayGood(s, n, marks);
      NoAcks(s, n.id);
    } else {
      AsFollowerReady(s, n, m);
      var f := AsFollower(s.voters, n, m);
      if m.App? { AppGood(s, f, m, marks); } else { SnapGood(s, f, m, marks); }
      var e := Dispatch(s.voters, n, m);
      AsFollowerGood(s, n, m, NoteAcks(s, n.id, e.out), e, marks);
    }
  }

  lemma NotLate(s: Core.Core, n: Node, marks: Marks, t: Term, x: Ctx)
    requires MarksOk(s, marks) && NodeOk(s, n) && n.term <= t && (t, x) in marks
    ensures n.id !in marks[(t, x)].late
  {
    assert MarkOk(s, t, marks[(t, x)]);
  }

  lemma HeartbeatMarked(s: Core.Core, m: Msg, marks: Marks)
    requires m.Heartbeat? && MsgOk(s, marks, m)
    ensures m.ctx != [] ==> (m.term, m.ctx) in marks
  {
  }

  lemma SameHeartbeat(s: Core.Core, n: Node, m: Msg, marks: Marks)
    requires Receivable(s, n, m, marks) && m.term == n.term && m.Heartbeat?
    ensures n.id in s.term && n.id in s.log
    ensures var e := Dispatch(s.voters, n, m); e.Step? && Good(s, n, RecordMsg(s, n.id, n, m, e), e, marks)
  {
    hide CoreInv, NodeOk, MsgOk, Indexed, Good, MarksOk, QueueOk;
    NodeInMaps(s, n);
    if n.role == Leader {
      StayGood(s, n, marks);
    } else {
      AsFollowerReady(s, n, m);
      HeartbeatMarked(s, m, marks);
      if m.ctx != [] { NotLate(s, n, marks, m.term, m.ctx); }
      HeartbeatGood(s, AsFollower(s.voters, n, m), m, marks);
      AsFollowerGood(s, n, m, s, Dispatch(s.voters, n, m), marks);
    }
  }

  lemma AckMsg(s: Core.Core, m: Msg, marks: Marks)
    requires m.AppResp? && !m.reject && MsgOk(s, marks, m)
    ensures m.index <= Acked(s.acked, m.from, m.term) && m.from in s.voters
  {
  }

  lemma NoCommitNoted(s: Core.Core, n: Node)
    ensures NoteCommit(s, n, n) == s
  {
  }

  /** An answer of the leader's term comes from a node that has reached it. */
  lemma HearReady(s: Core.Core, n: Node, m: Msg, marks: Marks)
    requires Ready(s, n) && n.role == Leader && MsgOk(s, marks, m) && m.term == n.term
    ensures Ready(s, Hear(n, m.from))
  {
    hide CoreInv, Indexed, Settled;
  }

  lemma HearGood(s: Core.Core, n: Node, from: Id, s': Core.Core, e: Effect, marks: Marks)
    requires Good(s, Hear(n, from), s', e, marks)
    ensures Good(s, n, s', e, marks)
  {
    hide CoreInv, Evolves, NodeOk, MsgOk, Indexed;
  }

  lemma SameAppResp(s: Core.Core, n: Node, m: Msg, marks: Marks)
    requires Receivable(s, n, m, marks) && m.term == n.term && m.AppResp?
    ensures n.id in s.term && n.id in s.log
    ensures var e := Dispatch(s.voters, n, m); e.Step? && Good(s, n, RecordMsg(s, n.id, n, m, e), e, marks)
  {
    hide CoreInv, NodeOk, MsgOk, Indexed, Good, MarksOk, QueueOk, Acknowledge;
    NodeInMaps(s, n);
    if n.role == Leader {
      var n1 := Hear(n, m.from);
      HearReady(s, n, m, marks);
      if m.reject {
        StayGood(s, n1, marks);
        NoCommitNoted(s, n1);
        HearGood(s, n, m.from, s, Step(n1, {}, []), marks);
      } else {
        AckMsg(s, m, marks);
        AcknowledgeGood(s, n1, m.from, m.index, marks);
        var e := Acknowledge(s.voters, n1, m.from, m.index);
        HearGood(s, n, m.from, NoteCommit(s, n1, e.node), e, marks);
      }
    } else {
      StayGood(s, n, marks);
      NoCommitNoted(s, n);
    }
  }

  lemma HeartbeatRespMsg(s: Core.Core, m: Msg, marks: Marks)
    requires m.HeartbeatResp? && m.ctx != [] && MsgOk(s, marks, m)
    ensures (m.term, m.ctx) in marks && m.from !in marks[(m.term, m.ctx)].late
  {
  }

  /** The leader's bookkeeping after a confirmation: no panic, and a queue that is still one. */
  lemma ConfirmedQueue(s: Core.Core, n: Node, m: Msg, marks: Marks)
    requires Receivable(s, n, m, marks) && m.term == n.term && m.HeartbeatResp? && n.role == Leader
    ensures var e := HandleHeartbeatResp(s.voters, n, m);
            e.Step? && e.out == {} && e.node == n.(readOnly := e.node.readOnly) && QueueOk(marks, e.node)
  {
    hide CoreInv, NodeOk, MsgOk, Indexed, MarksOk, IsQuorum;
    if m.from in n.progress && m.ctx != [] && m.ctx in n.readOnly.pending {
      AckedQueue(marks, n, m.from, m.ctx);
      var r := RecvAck(n.readOnly, m.from, m.ctx);
      var k := ReleaseCount(r.queue, m.ctx);
      assert AllPending(r, k);
      ReleasedQueue(marks, n.(readOnly := r), k);
    }
  }

  /** And, unless contexts were used again, a queue in order and answers that hold. */
  lemma ConfirmedReads(s: Core.Core, n: Node, m: Msg, marks: Marks)
    requires Receivable(s, n, m, marks) && m.term == n.term && m.HeartbeatResp? && n.role == Leader
             && ReadsOk(s.voters, marks, n)
    ensures var e := HandleHeartbeatResp(s.voters, n, m);
            && e.Step? && e.out == {} && e.node == n.(readOnly := e.node.readOnly) && ReadsOk(s.voters, marks, e.node)
            && forall a :: a in e.released ==> AnswerOk(marks, Answer(n.term, a.ctx, a.index))
  {
    hide CoreInv, NodeOk, MsgOk, Indexed, MarksOk, AnswerOk, PendingOk, Earlier, IsQuorum;
    if m.from in n.progress && m.ctx != [] && m.ctx in n.readOnly.pending {
      HeartbeatRespMsg(s, m, marks);
      AckedReads(s.voters, marks, n, m.from, m.ctx);
      var r := RecvAck(n.readOnly, m.from, m.ctx);
      var n1 := n.(readOnly := r);
      if IsQuorum(r.pending[m.ctx].acks * s.voters, s.voters) {
        ReleaseCountSpec(r.queue, m.ctx);
        var k := ReleaseCount(r.queue, m.ctx);
        assert AllPending(r, k);
        AnswersGood(s, marks, n1, m.ctx, k);
        ReleasedReads(s.voters, marks, n1, k);
      }
    }
  }

  lemma HearReceivable(s: Core.Core, n: Node, m: Msg, marks: Marks)
    requires Receivable(s, n, m, marks) && m.term == n.term && n.role == Leader
    ensures Receivable(s, Hear(n, m.from), m, marks)
    ensures ReadsOk(s.voters, marks, n) ==> ReadsOk(s.voters, marks, Hear(n, m.from))
  {
    hide Ready, MsgOk, MarksOk, QueueOk, ReadsOk, MarksGrow;
    HearReady(s, n, m, marks);
    HearKeeps(s.voters, marks, n, m.from);
  }

  lemma HearKeeps(voters: set<Id>, marks: Marks, n: Node, from: Id)
    ensures QueueOk(marks, n) ==> QueueOk(marks, Hear(n, from))
    ensures ReadsOk(voters, marks, n) ==> ReadsOk(voters, marks, Hear(n, from))
  {
    if QueueOk(marks, n) { QueueStays(marks, marks, n, Hear(n, from)); }
    if ReadsOk(voters, marks, n) { ReadsStay(voters, marks, marks, n, Hear(n, from)); }
  }

  lemma SameHeartbeatResp(s: Core.Core, n: Node, m: Msg, marks: Marks)
    requires Receivable(s, n, m, marks) && m.term == n.term && m.HeartbeatResp?
    ensures n.id in s.term && n.id in s.log
    ensures var e := Dispatch(s.voters, n, m); e.Step? && Good(s, n, RecordMsg(s, n.id, n, m, e), e, marks)
  {
    hide CoreInv, NodeOk, MsgOk, Indexed, Good, MarksOk, QueueOk, HandleHeartbeatResp;
    NodeInMaps(s, n);
    if n.role == Leader {
      var n1 := Hear(n, m.from);
      HearReceivable(s, n, m, marks);
      ConfirmedQueue(s, n1, m, marks);
      var e := HandleHeartbeatResp(s.voters, n1, m);
      ReadsOnlyGood(s, n1, e.node.readOnly, n.asked, {}, e.released, marks);
      HearGood(s, n, m.from, s, e, marks);
    } else {
      StayGood(s, n, marks);
    }
  }

  lemma SameGood(s: Core.Core, n: Node, m: Msg, marks: Marks)
    requires Receivable(s, n, m, marks) && m.term == n.term
    ensures n.id in s.term && n.id in s.log
    ensures var e := Dispatch(s.voters, n, m); e.Step? && Good(s, n, RecordMsg(s, n.id, n, m, e), e, marks)
  {
    hide CoreInv, NodeOk, MsgOk, Indexed, Good, MarksOk, QueueOk;
    NodeInMaps(s, n);
    match m {
      case VoteReq(_, _, _, _, _) => VoteReqGood(s, n, m, marks);
      case VoteResp(_, _, _, _) => VoteRespGood(s, n, m, marks);
      case App(_, _, _, _, _, _, _) => SameApp(s, n, m, marks);
      case Snap(_, _, _, _) => SameApp(s, n, m, marks);
      case Heartbeat(_, _, _, _, _) => SameHeartbeat(s, n, m, marks);
      case AppResp(_, _, _, _, _, _, _) => SameAppResp(s, n, m, marks);
      case HeartbeatResp(_, _, _, _) => SameHeartbeatResp(s, n, m, marks);
    }
  }

  lemma MarksStay(s: Core.Core, s': Core.Core, v: Id, marks: Marks)
    requires Evolves(s, s', v) && MarksOk(s, marks)
    ensures MarksOk(s', marks)
  {
    hide Evolves, MarkOk;
    forall t, x | (t, x) in marks ensures MarkOk(s', t, marks[(t, x)]) {
      MarkStays(s, s', v, t, marks[(t, x)]);
    }
  }

  lemma MetReceivable(s: Core.Core, n: Node, m: Msg, marks: Marks)
    requires Receivable(s, n, m, marks) && n.term <= m.term
    ensures n.id in s.term && Receivable(BumpTerm(s, n.id, m.term), MeetTerm(s.voters, n, m), m, marks)
    ensures MeetTerm(s.voters, n, m).term == m.term
  {
    hide CoreInv, NodeOk, MsgOk, Indexed, MarksOk, QueueOk, Evolves;
    ReadyAfterMeet(s, n, m);
    MsgAfterMeet(s, n, m, marks);
    MarksStay(s, BumpTerm(s, n.id, m.term), n.id, marks);
  }

  /** Whether the election is noted does not depend on the role before stepping down. */
  lemma RecordAfterMeet(s: Core.Core, v: Id, n: Node, n1: Node, m: Msg, e: Effect)
    requires e.Step? && v in s.term && v in s.log
    requires n1 == n || (n1.role == Follower && n1.committed == n.committed && e.node.role != Leader)
    requires !m.VoteReq?
    ensures RecordMsg(s, v, n1, m, e) == RecordMsg(s, v, n, m, e)
  {
  }

  lemma FollowerStays(voters: set<Id>, n: Node, m: Msg)
    requires n.role == Follower && Dispatch(voters, n, m).Step?
    ensures Dispatch(voters, n, m).node.role == Follower
  {
    hide MaybeAppend, CommitTo, ConflictByTerm;
  }

  lemma RecvGood(s: Core.Core, n: Node, m: Msg, marks: Marks)
    requires Receivable(s, n, m, marks)
    ensures var e := HandleMsg(s.voters, n, m); e.Step? && Good(s, n, Record(s, n.id, n, Recv(m), e), e, marks)
  {
    hide CoreInv, NodeOk, MsgOk, Indexed, Good, MarksOk, QueueOk, Dispatch;
    NodeInMaps(s, n);
    if m.term < n.term {
      StayGood(s, n, marks);
    } else {
      var s1, n1 := BumpTerm(s, n.id, m.term), MeetTerm(s.voters, n, m);
      MetReceivable(s, n, m, marks);
      SameGood(s1, n1, m, marks);
      var e := Dispatch(s.voters, n1, m);
      if !m.VoteReq? {
        if n1 != n { FollowerStays(s.voters, n1, m); }
        RecordAfterMeet(s1, n.id, n, n1, m, e);
      }
      GoodAfterMeet(s, n, m, RecordMsg(s1, n.id, n, m, e), e, marks);
    }
  }

  // ---------------------------------------------------------------- read requests

  lemma HeartbeatsOk(s: Core.Core, n: Node, ctx: Ctx, marks: Marks)
    requires Ready(s, n) && n.role == Leader && (n.term, ctx) in marks
    ensures forall m :: m in Heartbeats(s.voters, n, ctx) ==> MsgOk(s, marks, m)
  {
    hide CoreInv, NodeOk, MsgOk, Indexed;
    forall m | m in Heartbeats(s.voters, n, ctx) ensures MsgOk(s, marks, m) {
      HeartbeatOk(s, n, m.to, ctx, marks);
    }
  }

  lemma ReadReqGood(s: Core.Core, n: Node, ctx: Ctx, marks': Marks)
    requires Ready(s, n)
    requires n.role == Leader && TermAt(n.log, n.committed) == n.term ==> (n.term, ctx) in marks'
    ensures var e := HandleReadReq(s.voters, n, ctx); e.Step? && Good(s, n, s, e, marks')
  {
    hide CoreInv, NodeOk, MsgOk, Indexed, Good, Heartbeats;
    if n.role != Leader {
      StayGood(s, n, marks');
    } else if |s.voters| == 1 || TermAt(n.log, n.committed) != n.term {
      var e := HandleReadReq(s.voters, n, ctx);
      ReadsOnlyGood(s, n, n.readOnly, n.asked, {}, e.released, marks');
      assert n.(readOnly := n.readOnly, asked := n.asked) == n;
    } else {
      HeartbeatsOk(s, n, ctx, marks');
      var r := RecvAck(AddRequest(n.readOnly, n.committed, ctx), n.id, ctx);
      ReadsOnlyGood(s, n, r, n.asked + {ctx}, Heartbeats(s.voters, n, ctx), [], marks');
    }
  }

  lemma BeatGood(s: Core.Core, n: Node, to: Id, marks: Marks)
    requires Ready(s, n) && (n.role == Leader ==> QueueOk(marks, n))
    ensures var e := Handle(s.voters, n, Beat(to)); e.Step? && Good(s, n, s, e, marks)
  {
    hide CoreInv, NodeOk, MsgOk, Indexed;
    StayGood(s, n, marks);
    if n.role == Leader && to in s.voters && to != n.id && to in n.progress {
      var x := LastPendingCtx(n.readOnly);
      assert n.readOnly.queue != [] ==> x in n.readOnly.pending;
      HeartbeatOk(s, n, to, x, marks);
    }
  }

  // ---------------------------------------------------------------- every event

  /** What the invariant says about one node and one event. */
  lemma EventReady(c: Cluster, v: Id, ev: Event)
    requires Inv(c) && Enabled(c, v, ev)
    ensures var n, s := c.nodes[v], c.core;
            && Ready(s, n) && n.id == v && s.voters == c.voters && MarksOk(s, c.marks)
            && (n.role == Leader ==> QueueOk(c.marks, n) && (n.term !in c.spoiled ==> ReadsOk(s.voters, c.marks, n)))
            && (ev.Recv? ==> Receivable(s, n, ev.m, c.marks))
  {
    hide CoreInv, NodeOk, MsgOk, Indexed, MarkOk, ReadsOk, QueueOk, CommitKnown, AnswerOk;
  }

  lemma QuietGood(c: Cluster, v: Id, ev: Event)
    requires Inv(c) && Enabled(c, v, ev) && (ev.SendApp? || ev.SendSnap? || ev.Beat? || ev.ReadReq? || ev.Restart?)
    ensures var n := c.nodes[v]; var e := Handle(c.voters, n, ev);
            e.Step? && Good(c.core, n, c.core, e, Mark(c, n, ev))
  {
    hide Inv, Ready, ReadsOk, QueueOk, MarksOk, Good, HandleReadReq, BecomeFollower, Heartbeats;
    EventReady(c, v, ev);
    var n, s, marks := c.nodes[v], c.core, c.marks;
    match ev {
      case SendApp(to, next, count) => SendAppGood(s, n, to, next, count, marks);
      case SendSnap(to, index) => SendSnapGood(s, n, to, index, marks);
      case Beat(to) => BeatGood(s, n, to, marks);
      case ReadReq(ctx) => ReadReqGood(s, n, ctx, Mark(c, n, ev));
      case Restart => RestartGood(s, n, marks);
    }
  }

  /** No enabled event panics, and each keeps the protocol invariant. */
  lemma EventGood(c: Cluster, v: Id, ev: Event)
    requires Inv(c) && Enabled(c, v, ev)
    ensures var n := c.nodes[v]; var e := Handle(c.voters, n, ev);
            e.Step? && Good(c.core, n, Record(c.core, v, n, ev, e), e, Mark(c, n, ev))
  {
    hide Inv, Ready, ReadsOk, QueueOk, MarksOk, Good, HandleReadReq, HandleMsg, HandleHup, Acknowledge, RecordMsg,
      NoteElection, Campaign;
    EventReady(c, v, ev);
    var n, s, marks := c.nodes[v], c.core, c.marks;
    match ev {
      case Hup => HupGood(s, n, marks);
      case Recv(m) => RecvGood(s, n, m, marks);
      case Propose(items) => ProposeGood(s, n, items, marks);
      case SelfAck(index) => SelfAckGood(s, n, index, marks);
      case _ => QuietGood(c, v, ev);
    }
  }
}
