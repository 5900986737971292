/** Read-only requests: what the queue of a leader promises, and what its answers are worth. */
module ClusterReads {
  import opened RaftTypes
  import opened Quorum
  import opened RaftNode
  import opened Core = RaftCore
  import opened Cluster
  import opened ClusterFrame
  import opened ClusterSteps

  ghost predicate MarksOk(s: Core.Core, marks: Marks) {
    forall t, x :: (t, x) in marks ==> MarkOk(s, t, marks[(t, x)])
  }

  lemma MarkStays(s: Core.Core, s': Core.Core, v: Id, t: Term, r: ReadMark)
    requires Evolves(s, s', v) && MarkOk(s, t, r)
    ensures MarkOk(s', t, r)
  {
    forall u | u in r.late ensures s'.term[u] > t {
      assert s.term[u] <= s'.term[u];
    }
  }

  /** If something of a later term was committed when the read was accepted, a majority had moved on. */
  lemma NewMarkOk(s: Core.Core, n: Node)
    requires CoreInv(s) && NodeOk(s, n) && n.role == Leader
    ensures MarkOk(s, n.term, ReadMark(s.commits, set u | u in s.term && s.term[u] > n.term))
  {
    hide LeaderLogsOk, NodeLogsOk, CampaignsOk, BallotsOk, LeadersKeep, NodesKeep, BallotsKeep, Settled, IsQuorum,
      CandidateOk;
    LeaderHoldsItsLog(s, n);
    var late := set u | u in s.term && s.term[u] > n.term;
    forall d | d in s.commits && d.term > n.term ensures IsQuorum(late, s.voters) {
      assert AckedSet(s, d.term, d.index) <= late;
      QuorumGrows(AckedSet(s, d.term, d.index), late, s.voters);
    }
  }

  /** Everything committed so far in terms up to the leader's is at or below its commit position. */
  lemma ReadFloor(s: Core.Core, nodes: map<Id, Node>, n: Node, d: Commit)
    requires CoreInv(s) && NodeOk(s, n) && n.role == Leader && n.id in nodes && nodes[n.id] == n
    requires TermAt(n.log, n.committed) == n.term
    requires d in s.commits && CommitKnown(s, nodes, d) && d.term <= n.term
    ensures d.index <= n.committed
  {
    hide NodeLogsOk, CampaignsOk, BallotsOk, AcksOk, NodesKeep, BallotsKeep, Settled, CandidateOk, Choosable;
    LeaderHoldsItsLog(s, n);
    if d.term < n.term {
      LeaderCompleteness(s, d, n.term);
      assert OwnAt(s, d.term, d.index);
      assert LeaderLogOk(s.leaderLog, n.term);
      assert n.log[d.index - 1] == s.leaderLog[d.term][..d.index][d.index - 1];
      assert n.log[d.index - 1].term < n.log[n.committed - 1].term;
    }
  }

  lemma ReleaseCountSpec(queue: seq<Ctx>, x: Ctx)
    ensures var k := ReleaseCount(queue, x);
            && (k > 0 ==> queue[k - 1] == x)
            && (x in queue ==> k > 0)
  {
  }

  // ---------------------------------------------------------------- queue updates

  lemma ReadsStay(voters: set<Id>, marks: Marks, marks': Marks, n: Node, n': Node)
    requires ReadsOk(voters, marks, n) && MarksGrow(marks, marks')
    requires n'.term == n.term && n'.readOnly == n.readOnly && n'.asked == n.asked
    requires |voters| != 1 ==> forall x :: (n.term, x) in marks' ==> (n.term, x) in marks
    ensures ReadsOk(voters, marks', n')
  {
  }

  lemma QueueStays(marks: Marks, marks': Marks, n: Node, n': Node)
    requires QueueOk(marks, n) && MarksGrow(marks, marks') && n'.term == n.term && n'.readOnly == n.readOnly
    ensures QueueOk(marks', n')
  {
  }

  lemma AckedQueue(marks: Marks, n: Node, id: Id, x: Ctx)
    requires QueueOk(marks, n)
    ensures QueueOk(marks, n.(readOnly := RecvAck(n.readOnly, id, x)))
  {
  }

  lemma ReleasedQueue(marks: Marks, n: Node, k: nat)
    requires QueueOk(marks, n) && k <= |n.readOnly.queue|
    ensures QueueOk(marks, n.(readOnly := AfterRelease(n.readOnly, k)))
  {
    var r, n' := n.readOnly, n.(readOnly := AfterRelease(n.readOnly, k));
    var q' := r.queue[k..];
    assert forall i :: 0 <= i < |q'| ==> q'[i] == r.queue[k + i];
    forall i | 0 <= i < |q'| ensures q'[i] in n'.readOnly.pending {
      assert forall j :: 0 <= j < k ==> r.queue[..k][j] == r.queue[j] != r.queue[k + i];
    }
    assert r.queue == r.queue[..k] + q';
  }

  lemma AddedQueue(marks: Marks, n: Node, index: nat, x: Ctx, asked: set<Ctx>)
    requires QueueOk(marks, n) && (n.term, x) in marks
    ensures QueueOk(marks, n.(readOnly := AddRequest(n.readOnly, index, x), asked := asked))
  {
    var n' := n.(readOnly := AddRequest(n.readOnly, index, x), asked := asked);
    assert x !in n.readOnly.pending ==> x !in n.readOnly.queue;
  }

  lemma AckedReads(voters: set<Id>, marks: Marks, n: Node, id: Id, x: Ctx)
    requires ReadsOk(voters, marks, n) && x in n.readOnly.pending && id !in marks[(n.term, x)].late
    ensures ReadsOk(voters, marks, n.(readOnly := RecvAck(n.readOnly, id, x)))
  {
    var n' := n.(readOnly := RecvAck(n.readOnly, id, x));
    forall y | y in n'.readOnly.pending ensures PendingOk(voters, marks, n', y) {
      assert PendingOk(voters, marks, n, y);
    }
  }

  lemma ReleasedReads(voters: set<Id>, marks: Marks, n: Node, k: nat)
    requires ReadsOk(voters, marks, n) && k <= |n.readOnly.queue|
    ensures ReadsOk(voters, marks, n.(readOnly := AfterRelease(n.readOnly, k)))
  {
    var r, n' := n.readOnly, n.(readOnly := AfterRelease(n.readOnly, k));
    var q' := r.queue[k..];
    assert forall i :: 0 <= i < |q'| ==> q'[i] == r.queue[k + i];
    hide PendingOk, Earlier;
    forall i | 0 <= i < |q'| ensures q'[i] in n'.readOnly.pending {
      assert forall j :: 0 <= j < k ==> r.queue[..k][j] == r.queue[j] != r.queue[k + i];
    }
    forall y | y in n'.readOnly.pending ensures y in q' && y in n.asked && PendingOk(voters, marks, n', y) {
      ReleasedPending(voters, marks, n, k, y);
    }
    forall i, j | 0 <= i < j < |q'| ensures Earlier(marks, n.term, q'[i], q'[j]) {
      assert Earlier(marks, n.term, r.queue[k + i], r.queue[k + j]);
    }
  }

  lemma ReleasedPending(voters: set<Id>, marks: Marks, n: Node, k: nat, y: Ctx)
    requires ReadsOk(voters, marks, n) && k <= |n.readOnly.queue|
    requires y in AfterRelease(n.readOnly, k).pending
    ensures y in n.readOnly.queue[k..] && y in n.asked
    ensures PendingOk(voters, marks, n.(readOnly := AfterRelease(n.readOnly, k)), y)
  {
    assert n.readOnly.queue == n.readOnly.queue[..k] + n.readOnly.queue[k..];
    assert PendingOk(voters, marks, n, y);
  }

  lemma AddedPending(voters: set<Id>, marks: Marks, n: Node, x: Ctx, mark: ReadMark, y: Ctx)
    requires x !in n.readOnly.pending && (y != x ==> y in n.readOnly.pending && PendingOk(voters, marks, n, y))
    requires forall d :: d in mark.before && d.term <= n.term ==> d.index <= n.committed
    ensures y in AddRequest(n.readOnly, n.committed, x).pending
    ensures PendingOk(voters, marks[(n.term, x) := mark],
                      n.(readOnly := AddRequest(n.readOnly, n.committed, x), asked := n.asked + {x}), y)
  {
  }

  lemma AddedOrder(marks: Marks, t: Term, queue: seq<Ctx>, x: Ctx, mark: ReadMark, i: nat, j: nat)
    requires i < j <= |queue| && x !in queue
    requires j < |queue| ==> Earlier(marks, t, queue[i], queue[j])
    requires (t, queue[i]) in marks && marks[(t, queue[i])].late <= mark.late
    ensures Earlier(marks[(t, x) := mark], t, (queue + [x])[i], (queue + [x])[j])
  {
  }

  /** A fresh context joins the end of the queue. */
  lemma AddedReads(voters: set<Id>, marks: Marks, n: Node, x: Ctx, mark: ReadMark)
    requires ReadsOk(voters, marks, n) && x !in n.readOnly.pending && (n.term, x) !in marks
    requires forall y :: y in n.readOnly.pending ==> (n.term, y) in marks && marks[(n.term, y)].late <= mark.late
    requires forall d :: d in mark.before && d.term <= n.term ==> d.index <= n.committed
    ensures ReadsOk(voters, marks[(n.term, x) := mark],
                    n.(readOnly := AddRequest(n.readOnly, n.committed, x), asked := n.asked + {x}))
  {
    hide PendingOk, Earlier;
    var marks' := marks[(n.term, x) := mark];
    var n' := n.(readOnly := AddRequest(n.readOnly, n.committed, x), asked := n.asked + {x});
    assert x !in n.readOnly.queue;
    forall y | y in n'.readOnly.pending ensures y in n'.readOnly.queue && PendingOk(voters, marks', n', y) {
      AddedPending(voters, marks, n, x, mark, y);
    }
    forall i, j | 0 <= i < j < |n'.readOnly.queue|
      ensures Earlier(marks', n'.term, n'.readOnly.queue[i], n'.readOnly.queue[j]) {
      assert n.readOnly.queue[i] in n.readOnly.pending;
      AddedOrder(marks, n.term, n.readOnly.queue, x, mark, i, j);
    }
  }

  /** A confirmed context vouches for itself and for every request queued before it. */
  lemma AnswersGood(s: Core.Core, marks: Marks, n: Node, x: Ctx, k: nat)
    requires ReadsOk(s.voters, marks, n) && MarksOk(s, marks)
    requires 0 < k <= |n.readOnly.queue| && n.readOnly.queue[k - 1] == x && x in n.readOnly.pending
    requires IsQuorum(n.readOnly.pending[x].acks * s.voters, s.voters)
    requires AllPending(n.readOnly, k)
    ensures forall a :: a in Answers(n.readOnly, k) ==> AnswerOk(marks, Answer(n.term, a.ctx, a.index))
  {
    assert PendingOk(s.voters, marks, n, x);
    var r := n.readOnly;
    forall i | 0 <= i < k ensures AnswerOk(marks, Answer(n.term, r.queue[i], r.pending[r.queue[i]].index)) {
      var y := r.queue[i];
      assert PendingOk(s.voters, marks, n, y);
      assert marks[(n.term, y)].late <= marks[(n.term, x)].late by {
        if i < k - 1 { assert Earlier(marks, n.term, y, x); }
      }
      assert (r.pending[x].acks * s.voters) * marks[(n.term, y)].late <= r.pending[x].acks * marks[(n.term, x)].late;
      DisjointFromQuorum(r.pending[x].acks * s.voters, marks[(n.term, y)].late, s.voters);
      assert MarkOk(s, n.term, marks[(n.term, y)]);
    }
  }
}
