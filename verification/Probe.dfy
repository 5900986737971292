/**
 How a leader finds where a follower's log parts from its own: both sides skip positions at which
 the probe could not succeed (etcd/raft/raft.go, etcd/raft/tracker/progress.go).
 */
module Probe {
  import opened RaftTypes
  import opened LogView

  /** Terms do not decrease from the base position on, and only position 0 has term 0. */
  ghost predicate AscendingView(v: View) {
    && (forall i: nat, j: nat :: v.base <= i <= j <= Last(v) ==> TermOf(v, i) <= TermOf(v, j))
    && (forall i: nat :: v.base <= i <= Last(v) ==> (TermOf(v, i) == 0 <==> i == 0))
  }

  /** The follower's hint when it rejects a probe at p of term t. */
  function Hint(f: View, p: nat, t: Term): nat {
    ConflictByTerm(f, Min(p, Last(f)), t)
  }

  /** Where the leader looks next after its probe at p was rejected with that hint. */
  function NextIndex(l: View, p: nat, hint: nat, hintTerm: Term): nat {
    var probe := if hintTerm > 0 then ConflictByTerm(l, hint, hintTerm) else hint;
    Max(Min(p, probe + 1), 1)
  }

  function NextProbe(l: View, f: View, p: nat): nat {
    var hint := Hint(f, p, TermOf(l, p));
    NextIndex(l, p, hint, TermOf(f, hint)) - 1
  }

  /** Does the follower accept a probe at p? */
  predicate Accepts(l: View, f: View, p: nat) {
    MatchTerm(f, p, TermOf(l, p))
  }

  /** findConflictByTerm walks down over larger terms only, and not below zero; past the end it does not walk. */
  lemma {:induction false} ConflictByTermSkips(v: View, index: nat, t: Term)
    ensures var r := ConflictByTerm(v, index, t);
            && r <= index && (r == 0 || TermOf(v, r) <= t)
            && (forall j :: r < j <= index ==> TermOf(v, j) > t)
            && (index > Last(v) ==> r == index)
    decreases index
  {
    if TermOf(v, index) > t && index > 0 {
      ConflictByTermSkips(v, index - 1, t);
    }
  }

  // ---------------------------------------------------------------- what findConflictByTerm is documented to return

  /** Some entry at or below i, and not the dummy entry, has a term of at most t. */
  ghost predicate SomeFits(v: View, i: nat, t: Term) {
    exists k :: v.base < k <= i && TermOf(v, k) <= t
  }

  /** The largest position of an entry that fits, or the first index if none does. */
  ghost predicate Documented(v: View, i: nat, t: Term, r: nat) {
    if SomeFits(v, i, t)
    then v.base < r <= i && TermOf(v, r) <= t && forall j :: r < j <= i ==> TermOf(v, j) > t
    else r == v.base + 1
  }

  /** The result is the documented one exactly when some entry fits; otherwise it is the dummy entry's position or, if
      even that term is too large, the one below, and never the first index. */
  lemma DocumentedExactly(v: View, i: nat, t: Term)
    requires v.base <= i <= Last(v)
    ensures Documented(v, i, t, ConflictByTerm(v, i, t)) <==> SomeFits(v, i, t)
    ensures !SomeFits(v, i, t) ==>
              ConflictByTerm(v, i, t) == if v.base == 0 || v.baseTerm <= t then v.base else v.base - 1
  {
    hide SomeFits;
    ConflictByTermSkips(v, i, t);
    var r := ConflictByTerm(v, i, t);
    if v.base < r { FitsAt(v, i, t, r); }
    if SomeFits(v, i, t) { FittingIsSkippedBy(v, i, t, r); }
    if !SomeFits(v, i, t) && 0 < v.base && t < v.baseTerm {
      StopsBelow(v, i, t);
    }
  }

  lemma FitsAt(v: View, i: nat, t: Term, r: nat)
    requires v.base < r <= i && TermOf(v, r) <= t
    ensures SomeFits(v, i, t)
  {
  }

  lemma FittingIsSkippedBy(v: View, i: nat, t: Term, r: nat)
    requires SomeFits(v, i, t) && forall j :: r < j <= i ==> TermOf(v, j) > t
    ensures v.base < r
  {
  }

  /** A walk that does not stop at the dummy entry stops right below it, where the term reads as 0. */
  lemma {:induction false} StopsBelow(v: View, i: nat, t: Term)
    requires 0 < v.base <= i <= Last(v) && t < v.baseTerm && !SomeFits(v, i, t)
    ensures ConflictByTerm(v, i, t) == v.base - 1
    decreases i
  {
    if v.base < i {
      assert TermOf(v, i) > t;
      assert !SomeFits(v, i - 1, t);
      StopsBelow(v, i - 1, t);
    }
  }

  /** In a log whose terms do not decrease, one entry decides it: the first. */
  lemma FirstDecides(v: View, i: nat, t: Term)
    requires AscendingView(v) && v.base <= i <= Last(v)
    ensures SomeFits(v, i, t) <==> v.base < i && v.ents[0].term <= t
  {
    if v.base < i {
      assert TermOf(v, v.base + 1) == v.ents[0].term;
    }
  }

  /** A log compacted up to 5 with one entry of term 4: asked for term 2 from 6, the answer is 4 and not 6. */
  lemma NotTheFirstIndex(e: Entry)
    requires e.term == 4
    ensures ConflictByTerm(View(5, 3, [e]), 6, 2) == 4 && !Documented(View(5, 3, [e]), 6, 2, 4)
  {
    var v := View(5, 3, [e]);
    assert TermOf(v, 6) == 4 && TermOf(v, 5) == 3 && TermOf(v, 4) == 0;
    assert ConflictByTerm(v, 6, 2) == ConflictByTerm(v, 5, 2) == ConflictByTerm(v, 4, 2) == 4;
  }

  // ---------------------------------------------------------------- probing

  /** Every position between two probes is absent from the follower or holds another term there: no probe at it could
      succeed. */
  lemma SkippedCannotMatch(l: View, f: View, p: nat, j: nat)
    requires AscendingView(l) && AscendingView(f) && p <= Last(l) && !Accepts(l, f, p)
    requires NextProbe(l, f, p) < j <= p
    ensures j > Last(f) || !Accepts(l, f, j)
  {
    var t := TermOf(l, p);
    var start := Min(p, Last(f));
    ConflictByTermSkips(f, start, t);
    var hint := Hint(f, p, t);
    var hintTerm := TermOf(f, hint);
    if j <= Last(f) && j < p {
      if j > hint {
        assert TermOf(f, j) > t;
      } else {
        ConflictByTermSkips(l, hint, hintTerm);
        assert hintTerm > 0 && TermOf(l, j) > hintTerm;
      }
    }
  }

  /** Both logs still reach back to position b, and agree there: it was committed. */
  ghost predicate Share(l: View, f: View, b: nat) {
    AscendingView(l) && AscendingView(f) && l.base <= b <= Last(l) && f.base <= b <= Last(f) && Accepts(l, f, b)
  }

  lemma WholeLogsShare(l: seq<Entry>, f: seq<Entry>)
    requires AscendingView(FullView(l)) && AscendingView(FullView(f))
    ensures Share(FullView(l), FullView(f), 0)
  {
  }

  /** A rejection moves the probe down, and not below a position at which the logs agree. */
  lemma MatchIsKept(l: View, f: View, p: nat, b: nat)
    requires Share(l, f, b) && b <= p <= Last(l) && !Accepts(l, f, p)
    ensures b <= NextProbe(l, f, p) < p
  {
    if NextProbe(l, f, p) < b {
      SkippedCannotMatch(l, f, p, b);
    }
  }

  /** The first probe a follower accepts, starting at p. */
  function FindMatch(l: View, f: View, p: nat): nat {
    if p == 0 || Accepts(l, f, p) then p else FindMatch(l, f, NextProbe(l, f, p))
  }

  /** Skipping finds what probing position by position would: the largest position at which the logs agree. */
  lemma {:induction false} FindMatchIsLargest(l: View, f: View, p: nat, b: nat)
    requires Share(l, f, b) && b <= p <= Last(l)
    ensures var r := FindMatch(l, f, p);
            b <= r <= p && Accepts(l, f, r) && forall j :: r < j <= p ==> j > Last(f) || !Accepts(l, f, j)
    decreases p
  {
    if p > 0 && !Accepts(l, f, p) {
      MatchIsKept(l, f, p, b);
      var q := NextProbe(l, f, p);
      FindMatchIsLargest(l, f, q, b);
      forall j | q < j <= p ensures j > Last(f) || !Accepts(l, f, j) {
        SkippedCannotMatch(l, f, p, j);
      }
    }
  }

  /** At most one rejected probe per term of the leader's log: after two rejections in a row the leader's term has
      dropped. */
  lemma OneProbePerTerm(l: View, f: View, p: nat, b: nat)
    requires Share(l, f, b) && b <= p <= Last(l) && !Accepts(l, f, p) && !Accepts(l, f, NextProbe(l, f, p))
    ensures TermOf(l, NextProbe(l, f, p)) < TermOf(l, p)
  {
    MatchIsKept(l, f, p, b);
    var t := TermOf(l, p);
    ConflictByTermSkips(f, Min(p, Last(f)), t);
    var hint := Hint(f, p, t);
    ConflictByTermSkips(l, hint, TermOf(f, hint));
  }

  /** Logs that were never compacted share position 0, so for them no further condition is needed. */
  lemma WholeLogsMatch(l: seq<Entry>, f: seq<Entry>, p: nat)
    requires AscendingView(FullView(l)) && AscendingView(FullView(f)) && p <= |l|
    ensures var r := FindMatch(FullView(l), FullView(f), p);
            && r <= p && Accepts(FullView(l), FullView(f), r)
            && forall j :: r < j <= p ==> j > |f| || !Accepts(FullView(l), FullView(f), j)
  {
    WholeLogsShare(l, f);
    FindMatchIsLargest(FullView(l), FullView(f), p, 0);
  }

  // ---------------------------------------------------------------- the leader's bookkeeping

  datatype Pace = Probing | Replicating | Snapshotting

  /** What a leader knows of one follower. */
  datatype Peer = Peer(matched: nat, next: nat, state: Pace, pendingSnapshot: nat, probeSent: bool)

  function BecameProbe(p: Peer): Peer {
    var next := if p.state == Snapshotting then Max(p.matched + 1, p.pendingSnapshot + 1) else p.matched + 1;
    Peer(p.matched, next, Probing, 0, false)
  }

  function BecameReplicate(p: Peer): Peer {
    Peer(p.matched, p.matched + 1, Replicating, 0, false)
  }

  /** After an acknowledgement of n. */
  function Updated(p: Peer, n: nat): Peer {
    p.(matched := Max(p.matched, n), next := Max(p.next, n + 1), probeSent := p.probeSent && n <= p.matched)
  }

  /** After a rejection, or None if it is taken for stale. */
  function Decremented(p: Peer, rejected: nat, matchHint: nat): Option<Peer> {
    if p.state == Replicating then
      if rejected <= p.matched then None else Some(p.(next := p.matched + 1))
    else if p.next - 1 != rejected then None
    else Some(p.(next := Max(Min(rejected, matchHint + 1), 1), probeSent := false))
  }

  /** What a leader hears of a follower. */
  datatype News = Rejection(rejected: nat, matchHint: nat) | Ack(index: nat) | Unreachable | SentUpTo(last: nat)

  /** How the leader's handlers answer it. */
  function Heard(p: Peer, ev: News): Peer {
    match ev
    case Rejection(rejected, matchHint) =>
      (match Decremented(p, rejected, matchHint)
       case None => p
       case Some(q) => if q.state == Replicating then BecameProbe(q) else q)
    case Ack(index) =>
      var q := Updated(p, index);
      if index <= p.matched then q
      else if q.state == Probing then BecameReplicate(q)
      else if q.state == Snapshotting && q.matched >= q.pendingSnapshot then BecameReplicate(BecameProbe(q))
      else q
    case Unreachable => if p.state == Replicating then BecameProbe(p) else p
    case SentUpTo(last) =>
      match p.state
      case Replicating => p.(next := last + 1)
      case Probing => p.(probeSent := true)
      case Snapshotting => p
  }

  function HeardAll(p: Peer, evs: seq<News>): Peer {
    if evs == [] then p else Heard(HeardAll(p, evs[..|evs| - 1]), evs[|evs| - 1])
  }

  /** A rejection of something already acknowledged is ignored, as documented, exactly unless it is of the very position
      acknowledged last and the follower is being probed right behind it. */
  lemma StaleExactly(p: Peer, rejected: nat, matchHint: nat)
    requires rejected <= p.matched < p.next
    ensures Decremented(p, rejected, matchHint) == None <==>
            !(p.state != Replicating && rejected == p.matched == p.next - 1)
  {
  }

  /** The rejection is one that was overtaken by an acknowledgement. */
  predicate Overtaken(p: Peer, ev: News) {
    && ev.Rejection? && p.state != Replicating && ev.rejected == p.next - 1
    && 0 < p.matched && (ev.rejected == p.matched || ev.matchHint < p.matched)
  }

  /** Whatever the leader hears, Next stays above Match, exactly unless it is such a rejection. */
  lemma NextAboveMatchExactly(p: Peer, ev: News)
    requires p.matched < p.next && (ev.SentUpTo? && p.state == Replicating ==> p.next <= ev.last + 1)
    ensures Heard(p, ev).matched < Heard(p, ev).next <==> !Overtaken(p, ev)
    ensures p.matched <= Heard(p, ev).matched
  {
  }

  const STORY: seq<News> := [SentUpTo(6), Rejection(5, 3), SentUpTo(5), Ack(5), SentUpTo(6), Unreachable]

  /** A leader elected with five entries adds its own and probes at 5; it is told to go back to 3; the follower takes
      the next two entries and acknowledges 5; the rest is sent; the follower becomes unreachable. If the rejection is
      then delivered once more, it is not ignored, and Next falls below Match. */
  lemma DelayedRejection()
    ensures var p := HeardAll(Peer(0, 6, Probing, 0, false), STORY);
            && p == Peer(5, 6, Probing, 0, false)
            && Decremented(p, 5, 3) == Some(p.(next := 4)) && Overtaken(p, Rejection(5, 3))
  {
    var p := Peer(0, 6, Probing, 0, false);
    HeardNext(p, 0);
    HeardNext(p, 1);
    HeardNext(p, 2);
    HeardNext(p, 3);
    HeardNext(p, 4);
    HeardNext(p, 5);
    assert STORY[..6] == STORY && STORY[..0] == [];
  }

  lemma HeardNext(p: Peer, k: nat)
    requires k < |STORY|
    ensures HeardAll(p, STORY[..k + 1]) == Heard(HeardAll(p, STORY[..k]), STORY[k])
  {
    assert STORY[..k + 1][..k] == STORY[..k];
  }

  function HintFor(l: View, f: View, p: nat): nat {
    var hint := Hint(f, p, TermOf(l, p));
    var hintTerm := TermOf(f, hint);
    if hintTerm > 0 then ConflictByTerm(l, hint, hintTerm) else hint
  }

  /** A rejection by a follower that holds what it acknowledged is none of those: Next falls to where the leader looks
      next and stays above Match. */
  lemma GenuineRejection(l: View, f: View, p: Peer)
    requires p.state != Replicating && Share(l, f, p.matched) && p.matched < p.next <= Last(l) + 1
    requires !Accepts(l, f, p.next - 1)
    ensures var ev := Rejection(p.next - 1, HintFor(l, f, p.next - 1));
            !Overtaken(p, ev) && Heard(p, ev) == p.(next := NextProbe(l, f, p.next - 1) + 1, probeSent := false)
  {
    MatchIsKept(l, f, p.next - 1, p.matched);
  }

  /** tracker.Progress, whose methods change it in place. */
  class Progress {
    var matched: nat
    var next: nat
    var state: Pace
    var pendingSnapshot: nat
    var probeSent: bool

    function Value(): Peer
      reads this
    {
      Peer(matched, next, state, pendingSnapshot, probeSent)
    }

    constructor (next: nat)
      ensures Value() == Peer(0, next, Probing, 0, false)
    {
      this.matched, this.next, this.state, this.pendingSnapshot, this.probeSent := 0, next, Probing, 0, false;
    }

    method ResetState(state: Pace)
      modifies this
      ensures Value() == old(Value()).(state := state, pendingSnapshot := 0, probeSent := false)
    {
      this.probeSent, this.pendingSnapshot, this.state := false, 0, state;
    }

    method BecomeProbe()
      modifies this
      ensures Value() == BecameProbe(old(Value()))
    {
      if state == Snapshotting {
        var pending := pendingSnapshot;
        ResetState(Probing);
        next := Max(matched + 1, pending + 1);
      } else {
        ResetState(Probing);
        next := matched + 1;
      }
    }

    method BecomeReplicate()
      modifies this
      ensures Value() == BecameReplicate(old(Value()))
    {
      ResetState(Replicating);
      next := matched + 1;
    }

    method MaybeUpdate(n: nat) returns (updated: bool)
      modifies this
      ensures Value() == Updated(old(Value()), n) && updated == (old(matched) < n)
    {
      updated := false;
      if matched < n {
        matched := n;
        updated := true;
        probeSent := false;
      }
      next := Max(next, n + 1);
    }

    /** Is the rejection news? A replicating follower is then sent everything it has not acknowledged, any other is
        probed at the hint. */
    method MaybeDecrTo(rejected: nat, matchHint: nat) returns (moved: bool)
      modifies this
      ensures match Decremented(old(Value()), rejected, matchHint)
              case None => !moved && Value() == old(Value())
              case Some(q) => moved && Value() == q
    {
      if state == Replicating {
        if rejected <= matched { return false; }
        next := matched + 1;
        return true;
      }
      if next - 1 != rejected { return false; }
      next := Max(Min(rejected, matchHint + 1), 1);
      probeSent := false;
      moved := true;
    }
  }
}
