/** The leader's queue of read requests, updated in place (etcd/raft/read_only.go). */
module ReadQueue {
  import opened RaftTypes
  import opened RaftNode

  /** What goes out is everything in the queue up to position p, each read with the index it was noted with; the rest of
      the queue stays. */
  ghost predicate Goes(r: ReadOnly, p: nat, r': ReadOnly, released: seq<Released>) {
    && p < |r.queue| && r'.queue == r.queue[p + 1..]
    && (forall x :: x in r'.pending <==> x in r.pending && x !in r.queue[..p + 1])
    && (forall x :: x in r'.pending ==> r'.pending[x] == r.pending[x])
    && |released| == p + 1
    && forall i :: 0 <= i <= p ==>
         r.queue[i] in r.pending && released[i].ctx == r.queue[i] && released[i].index == r.pending[r.queue[i]].index
  }

  lemma {:induction false} CountIsFirst(queue: seq<Ctx>, ctx: Ctx)
    ensures var k := ReleaseCount(queue, ctx);
            (k == 0 <==> ctx !in queue) && (k > 0 ==> queue[k - 1] == ctx && ctx !in queue[..k - 1])
  {
    if queue != [] && queue[0] != ctx {
      CountIsFirst(queue[1..], ctx);
      var k := ReleaseCount(queue[1..], ctx);
      assert queue == [queue[0]] + queue[1..];
      if k > 0 { assert queue[..k] == [queue[0]] + queue[1..][..k - 1]; }
    }
  }

  lemma ReleaseGoes(r: ReadOnly, ctx: Ctx)
    requires ReleaseCount(r.queue, ctx) > 0 && AllPending(r, ReleaseCount(r.queue, ctx))
    ensures var k := ReleaseCount(r.queue, ctx); Goes(r, k - 1, AfterRelease(r, k), Answers(r, k))
  {
  }

  lemma OnlyFirst(queue: seq<Ctx>, ctx: Ctx, p: nat, k: nat)
    requires p < |queue| && queue[p] == ctx && ctx !in queue[..p]
    requires k > 0 ==> k <= |queue| && queue[k - 1] == ctx && ctx !in queue[..k - 1]
    requires k == 0 <==> ctx !in queue
    ensures k == p + 1
  {
    assert queue[p] in queue;
    assert forall i :: 0 <= i < p ==> queue[..p][i] == queue[i];
    assert k > 0 ==> forall i :: 0 <= i < k - 1 ==> queue[..k - 1][i] == queue[i];
  }

  /** The first n contexts of the queue are pending. */
  ghost predicate KnownUpTo(r: ReadOnly, n: nat) {
    n <= |r.queue| && forall i :: 0 <= i < n ==> r.queue[i] in r.pending
  }

  lemma FirstIsReleased(r: ReadOnly, ctx: Ctx, p: nat)
    requires p < |r.queue| && r.queue[p] == ctx && ctx !in r.queue[..p]
    ensures var k := ReleaseCount(r.queue, ctx);
            && k == p + 1 && (AllPending(r, k) <==> KnownUpTo(r, p + 1))
            && (AllPending(r, k) ==> Goes(r, p, AfterRelease(r, k), Answers(r, k)))
  {
    hide Goes, AfterRelease, Answers;
    CountIsFirst(r.queue, ctx);
    OnlyFirst(r.queue, ctx, p, ReleaseCount(r.queue, ctx));
    if AllPending(r, p + 1) { ReleaseGoes(r, ctx); }
  }

  /** The whole outcome: if ctx is queued, first at position p, everything up to it goes, provided all of that is
      pending; if it is not queued nothing happens, provided all of the queue is pending. */
  ghost predicate Releases(r: ReadOnly, ctx: Ctx, panicked: bool, r': ReadOnly, released: seq<Released>) {
    && (forall p: nat :: p < |r.queue| && r.queue[p] == ctx && ctx !in r.queue[..p] ==>
          panicked == !KnownUpTo(r, p + 1) && (!panicked ==> Goes(r, p, r', released)))
    && (ctx !in r.queue ==> panicked == !KnownUpTo(r, |r.queue|) && (!panicked ==> r' == r && released == []))
    && (panicked ==> r' == r)
  }

  lemma ReleasesIs(r: ReadOnly, ctx: Ctx, panicked: bool, r': ReadOnly, released: seq<Released>)
    requires var k := ReleaseCount(r.queue, ctx);
             && panicked == !AllPending(r, if k == 0 then |r.queue| else k)
             && (!panicked ==> r' == (if k == 0 then r else AfterRelease(r, k)))
             && (!panicked ==> released == (if k == 0 then [] else Answers(r, k)))
             && (panicked ==> r' == r)
    ensures Releases(r, ctx, panicked, r', released)
  {
    CountIsFirst(r.queue, ctx);
    forall p: nat | p < |r.queue| && r.queue[p] == ctx && ctx !in r.queue[..p]
      ensures panicked == !KnownUpTo(r, p + 1) && (!panicked ==> Goes(r, p, r', released))
    {
      FirstIsReleased(r, ctx, p);
    }
  }

  class ReadRequests {
    var queue: seq<Ctx>
    var pending: map<Ctx, ReadStatus>

    function Value(): ReadOnly
      reads this
    {
      ReadOnly(queue, pending)
    }

    constructor ()
      ensures Value() == NO_READS
    {
      queue, pending := [], map[];
    }

    /** A request whose context is pending already is not queued again. */
    method Add(index: nat, ctx: Ctx)
      modifies this
      ensures Value() == AddRequest(old(Value()), index, ctx)
      ensures ctx in old(pending) ==> queue == old(queue) && pending == old(pending)
      ensures ctx !in old(pending) ==>
                queue == old(queue) + [ctx] && pending == old(pending)[ctx := ReadStatus(index, {})]
    {
      if ctx in pending { return; }
      pending := pending[ctx := ReadStatus(index, {})];
      queue := queue + [ctx];
    }

    /** Who has confirmed the request so far; nobody if it is not pending. */
    method Ack(id: Id, ctx: Ctx) returns (acks: set<Id>)
      modifies this`pending
      ensures Value() == RecvAck(old(Value()), id, ctx)
      ensures pending.Keys == old(pending.Keys)
      ensures forall x :: x in pending && x != ctx ==> pending[x] == old(pending)[x]
      ensures ctx in pending ==>
                && pending[ctx].index == old(pending)[ctx].index
                && acks == pending[ctx].acks == old(pending)[ctx].acks + {id}
      ensures ctx !in pending ==> acks == {}
    {
      if ctx !in pending { return {}; }
      var rs := pending[ctx].(acks := pending[ctx].acks + {id});
      pending := pending[ctx := rs];
      acks := rs.acks;
    }

    /** Releases every request up to and including ctx, oldest first; nothing if ctx is not queued. */
    method Advance(ctx: Ctx) returns (released: seq<Released>, panicked: bool)
      modifies this
      ensures var k := ReleaseCount(old(queue), ctx);
              && panicked == !AllPending(old(Value()), if k == 0 then |old(queue)| else k)
              && (!panicked ==> Value() == (if k == 0 then old(Value()) else AfterRelease(old(Value()), k)))
              && (!panicked ==> released == (if k == 0 then [] else Answers(old(Value()), k)))
      ensures panicked ==> Value() == old(Value())
      ensures Releases(old(Value()), ctx, panicked, Value(), released)
    {
      hide Releases;
      ghost var was := Value();
      var i, found := 0, false;
      released := [];
      while i < |queue| && !found
        invariant 0 <= i <= |queue| && Value() == old(Value()) && AllPending(Value(), i)
        invariant released == Answers(Value(), i)
        invariant found ==> i > 0 && queue[i - 1] == ctx && ReleaseCount(queue, ctx) == i
        invariant !found ==> ctx !in queue[..i]
        decreases |queue| - i, !found
      {
        var okctx := queue[i];
        if okctx !in pending {
          NotReleasedBefore(queue, ctx, i);
          ReleasesIs(was, ctx, true, was, []);
          return [], true;
        }
        released := released + [Released(okctx, pending[okctx].index)];
        i := i + 1;
        if okctx == ctx {
          found := true;
          ReleasedAt(queue, ctx, i);
        }
      }
      if !found {
        NotReleasedBefore(queue, ctx, |queue|);
        ReleasesIs(was, ctx, false, was, []);
        return [], false;
      }
      var gone := queue[..i];
      queue := queue[i..];
      pending := map c | c in pending && c !in gone :: pending[c];
      panicked := false;
      ReleasesIs(was, ctx, false, Value(), released);
    }
  }

  lemma {:induction false} ReleasedAt(queue: seq<Ctx>, ctx: Ctx, i: nat)
    requires 0 < i <= |queue| && queue[i - 1] == ctx && ctx !in queue[..i - 1]
    ensures ReleaseCount(queue, ctx) == i
    decreases i
  {
    if i > 1 {
      assert queue[0] in queue[..i - 1];
      assert queue[1..][..i - 2] == queue[..i - 1][1..];
      ReleasedAt(queue[1..], ctx, i - 1);
    }
  }

  lemma {:induction false} NotReleasedBefore(queue: seq<Ctx>, ctx: Ctx, i: nat)
    requires i <= |queue| && ctx !in queue[..i]
    ensures ReleaseCount(queue, ctx) == 0 || ReleaseCount(queue, ctx) > i
    ensures i == |queue| ==> ReleaseCount(queue, ctx) == 0
    decreases i
  {
    if i > 0 {
      assert queue[0] in queue[..i];
      assert queue[1..][..i - 1] == queue[..i][1..];
      NotReleasedBefore(queue[1..], ctx, i - 1);
    }
  }
}
