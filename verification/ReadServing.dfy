/** What becomes of one read request at the node that accepted it. */
module ReadServing {
  import opened RaftTypes
  import opened Quorum
  import opened LogView
  import opened RaftNode
  import opened Cluster

  /** The node leads term t and accepted ctx in it, at commit position c: if it has not answered yet, it will with c. */
  ghost predicate Serving(n: Node, t: Term, ctx: Ctx, c: nat) {
    && n.term == t && n.role == Leader && ctx in n.asked && c <= n.committed
    && (ctx in n.readOnly.pending ==> n.readOnly.pending[ctx].index == c)
  }

  /** The node does not lead term t and never will again. */
  ghost predicate Past(n: Node, t: Term) {
    n.term > t || (n.term == t && n.role == Follower)
  }

  // ---------------------------------------------------------------- the answer

  /** Only a leader of more than one answers a read later than it came, and with the index it was noted with. */
  lemma AnswerFrom(voters: set<Id>, n: Node, ev: Event, ctx: Ctx, index: nat)
    requires |voters| != 1 && Handle(voters, n, ev).Step? && Released(ctx, index) in Handle(voters, n, ev).released
    ensures n.role == Leader && ctx in n.readOnly.pending && index == n.readOnly.pending[ctx].index
  {
    hide MaybeAppend, CommitTo, ConflictByTerm, VoteWon, VoteLost, CommittedIndex, UpToDate, IsQuorum, ReleaseCount;
  }

  // ---------------------------------------------------------------- what every event keeps

  lemma ReadReqServing(voters: set<Id>, n: Node, x: Ctx, t: Term, ctx: Ctx, c: nat)
    requires Serving(n, t, ctx, c) && !Reuses(voters, n, ReadReq(x))
    ensures HandleReadReq(voters, n, x).Step? && Serving(HandleReadReq(voters, n, x).node, t, ctx, c)
  {
    hide Heartbeats;
  }

  /** A read is noted with the commit position of the moment. */
  lemma AcceptedIsServed(voters: set<Id>, n: Node, ctx: Ctx)
    requires n.role == Leader && |voters| != 1 && TermAt(n.log, n.committed) == n.term && ctx !in n.readOnly.pending
    ensures HandleReadReq(voters, n, ctx).Step?
            && Serving(HandleReadReq(voters, n, ctx).node, n.term, ctx, n.committed)
  {
    hide Heartbeats;
  }

  lemma ConfirmServing(voters: set<Id>, n: Node, m: Msg, t: Term, ctx: Ctx, c: nat)
    requires Serving(n, t, ctx, c) && m.HeartbeatResp? && HandleHeartbeatResp(voters, n, m).Step?
    ensures Serving(HandleHeartbeatResp(voters, n, m).node, t, ctx, c)
  {
    hide IsQuorum, ReleaseCount, Answers;
  }

  lemma AckServing(voters: set<Id>, n: Node, from: Id, index: nat, t: Term, ctx: Ctx, c: nat)
    requires Serving(n, t, ctx, c) && Acknowledge(voters, n, from, index).Step?
    ensures Serving(Acknowledge(voters, n, from, index).node, t, ctx, c)
  {
    hide CommittedIndex;
  }

  lemma DispatchServing(voters: set<Id>, n: Node, m: Msg, t: Term, ctx: Ctx, c: nat)
    requires Serving(n, t, ctx, c) && Dispatch(voters, n, m).Step?
    ensures Serving(Dispatch(voters, n, m).node, t, ctx, c)
  {
    hide HandleHeartbeatResp, Acknowledge, UpToDate;
    if m.HeartbeatResp? {
      ConfirmServing(voters, Hear(n, m.from), m, t, ctx, c);
    } else if m.AppResp? && !m.reject {
      AckServing(voters, Hear(n, m.from), m.from, m.index, t, ctx, c);
    }
  }

  lemma HigherTermPast(voters: set<Id>, n: Node, m: Msg, t: Term)
    requires Past(n, t) && n.term == m.term && Dispatch(voters, n, m).Step?
    ensures Past(Dispatch(voters, n, m).node, t)
  {
    hide MaybeAppend, CommitTo, ConflictByTerm, VoteWon, VoteLost, CommittedIndex, UpToDate, IsQuorum, ReleaseCount;
  }

  /** A node that will not lead term t again stays so. */
  lemma StaysPast(voters: set<Id>, n: Node, ev: Event, t: Term)
    requires Past(n, t) && Handle(voters, n, ev).Step?
    ensures Past(Handle(voters, n, ev).node, t)
  {
    hide Dispatch, VoteWon, CommittedIndex, CommitTo, Heartbeats;
    if ev.Recv? && n.term <= ev.m.term { HigherTermPast(voters, MeetTerm(voters, n, ev.m), ev.m, t); }
  }

  /** A read stays with its index until it is answered or the node stops leading for good, unless its context is used
      again. */
  lemma StaysServing(voters: set<Id>, n: Node, ev: Event, t: Term, ctx: Ctx, c: nat)
    requires Serving(n, t, ctx, c) && Handle(voters, n, ev).Step? && !Reuses(voters, n, ev)
    ensures var n' := Handle(voters, n, ev).node; Serving(n', t, ctx, c) || Past(n', t)
  {
    hide Dispatch, VoteWon, Acknowledge, HandleReadReq, Reuses;
    match ev {
      case Recv(m) =>
        if n.term == m.term {
          DispatchServing(voters, n, m, t, ctx, c);
        } else if n.term < m.term {
          HigherTermPast(voters, MeetTerm(voters, n, m), m, t);
        }
      case SelfAck(index) => if index <= |n.log| { AckServing(voters, n, n.id, index, t, ctx, c); }
      case ReadReq(x) => ReadReqServing(voters, n, x, t, ctx, c);
      case _ =>
    }
  }
}
