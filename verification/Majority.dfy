/** How a majority's commit index is computed (etcd/raft/quorum/majority.go). */
module Majority {
  import opened RaftTypes
  import opened Quorum
  import opened RaftNode

  /** How many elements are at least x. */
  function CountFrom(s: seq<nat>, x: nat): nat {
    if s == [] then 0 else (if s[0] >= x then 1 else 0) + CountFrom(s[1..], x)
  }

  ghost predicate SameCounts(s: seq<nat>, t: seq<nat>) {
    |s| == |t| && forall x :: CountFrom(s, x) == CountFrom(t, x)
  }

  predicate Sorted(s: seq<nat>) {
    forall i, j :: 0 <= i <= j < |s| ==> s[i] <= s[j]
  }

  lemma {:induction false} CountSplits(a: seq<nat>, b: seq<nat>, x: nat)
    ensures CountFrom(a + b, x) == CountFrom(a, x) + CountFrom(b, x)
  {
    if a == [] {
      assert a + b == b;
    } else {
      assert (a + b)[1..] == a[1..] + b;
      CountSplits(a[1..], b, x);
    }
  }

  /** Exchanging neighbours changes no count. */
  lemma SwapCounts(s: seq<nat>, j: nat)
    requires 0 < j < |s|
    ensures SameCounts(s, s[j := s[j - 1]][j - 1 := s[j]])
  {
    var t := s[j := s[j - 1]][j - 1 := s[j]];
    var a, b := s[..j - 1], s[j + 1..];
    assert s == a + [s[j - 1], s[j]] + b && t == a + [s[j], s[j - 1]] + b;
    forall x ensures CountFrom(s, x) == CountFrom(t, x) {
      CountSplits(a + [s[j - 1], s[j]], b, x);
      CountSplits(a + [s[j], s[j - 1]], b, x);
      CountSplits(a, [s[j - 1], s[j]], x);
      CountSplits(a, [s[j], s[j - 1]], x);
      assert CountFrom([s[j - 1], s[j]], x) == CountFrom([s[j], s[j - 1]], x);
    }
  }

  method InsertionSort(a: array<nat>)
    modifies a
    ensures Sorted(a[..]) && SameCounts(a[..], old(a[..]))
  {
    var i := 1;
    while i < a.Length
      invariant 1 <= i && (a.Length > 0 ==> i <= a.Length)
      invariant Sorted(a[..Min(i, a.Length)]) && SameCounts(a[..], old(a[..]))
    {
      SiftDown(a, i);
      i := i + 1;
    }
    assert a[..Min(i, a.Length)] == a[..];
  }

  method SiftDown(a: array<nat>, i: nat)
    requires 1 <= i < a.Length && Sorted(a[..i])
    modifies a
    ensures Sorted(a[..i + 1]) && SameCounts(a[..], old(a[..]))
  {
    var j := i;
    while j > 0 && a[j] < a[j - 1]
      invariant 0 <= j <= i && SameCounts(a[..], old(a[..]))
      invariant forall p, q :: 0 <= p <= q <= i && p != j && q != j ==> a[p] <= a[q]
      invariant forall q :: j < q <= i ==> a[j] <= a[q]
    {
      ghost var s := a[..];
      SwapCounts(s, j);
      a[j], a[j - 1] := a[j - 1], a[j];
      assert a[..] == s[j := s[j - 1]][j - 1 := s[j]];
      j := j - 1;
    }
  }

  lemma {:induction false} CountAll(s: seq<nat>, x: nat)
    ensures CountFrom(s, x) <= |s|
    ensures (forall i :: 0 <= i < |s| ==> s[i] >= x) ==> CountFrom(s, x) == |s|
    ensures (forall i :: 0 <= i < |s| ==> s[i] < x) ==> CountFrom(s, x) == 0
  {
    if s != [] {
      assert forall i :: 0 <= i < |s[1..]| ==> s[1..][i] == s[i + 1];
      CountAll(s[1..], x);
    }
  }

  lemma SortedCounts(s: seq<nat>, pos: nat, x: nat)
    requires Sorted(s) && pos < |s|
    ensures CountFrom(s, s[pos]) >= |s| - pos
    ensures x > s[pos] ==> CountFrom(s, x) < |s| - pos
  {
    hide CountFrom, Sorted;
    CountUp(s, pos);
    if x > s[pos] { CountDown(s, pos, x); }
  }

  lemma CountUp(s: seq<nat>, pos: nat)
    requires Sorted(s) && pos < |s|
    ensures CountFrom(s, s[pos]) >= |s| - pos
  {
    var a, b := s[..pos], s[pos..];
    assert s == a + b && forall i :: 0 <= i < |b| ==> b[i] >= s[pos];
    hide CountFrom;
    CountSplits(a, b, s[pos]);
    CountAll(b, s[pos]);
  }

  lemma CountDown(s: seq<nat>, pos: nat, x: nat)
    requires Sorted(s) && pos < |s| && x > s[pos]
    ensures CountFrom(s, x) < |s| - pos
  {
    var a, b := s[..pos + 1], s[pos + 1..];
    assert s == a + b && forall i :: 0 <= i < |a| ==> a[i] < x;
    hide CountFrom;
    CountSplits(a, b, x);
    CountAll(a, x);
    CountAll(b, x);
  }

  lemma CountOneMore(seen: set<Id>, v: Id, progress: map<Id, nat>, had: seq<nat>, x: nat)
    requires seen + {v} <= progress.Keys && v !in seen && CountFrom(had, x) == |Reached(seen, progress, x)|
    ensures CountFrom([progress[v]] + had, x) == |Reached(seen + {v}, progress, x)|
  {
    assert ([progress[v]] + had)[1..] == had;
    var before := Reached(seen, progress, x);
    assert Reached(seen + {v}, progress, x) == if progress[v] >= x then before + {v} else before;
  }

  lemma {:induction false} CountZeros(s: seq<nat>, x: nat)
    requires forall i :: 0 <= i < |s| ==> s[i] == 0
    ensures CountFrom(s, x) == if x == 0 then |s| else 0
  {
    CountAll(s, x);
  }

  /** What a voter has acknowledged; one that has not reported counts as 0. */
  ghost function Reported(voters: set<Id>, acked: map<Id, nat>): map<Id, nat> {
    map v | v in voters :: if v in acked then acked[v] else 0
  }

  ghost function Heard(voters: set<Id>, acked: map<Id, nat>): set<Id> {
    set v | v in voters && v in acked
  }

  /** The values are what these voters have acknowledged, each once. */
  ghost predicate Gathered(voters: set<Id>, acked: map<Id, nat>, s: seq<nat>) {
    |s| == |Heard(voters, acked)| && forall x :: CountFrom(s, x) == |Reached(Heard(voters, acked), acked, x)|
  }

  lemma GatherOne(seen: set<Id>, v: Id, acked: map<Id, nat>, had: seq<nat>)
    requires v !in seen && v in acked && Gathered(seen, acked, had)
    ensures Gathered(seen + {v}, acked, [acked[v]] + had)
  {
    assert Heard(seen + {v}, acked) == Heard(seen, acked) + {v};
    forall x ensures CountFrom([acked[v]] + had, x) == |Reached(Heard(seen + {v}, acked), acked, x)| {
      CountOneMore(Heard(seen, acked), v, acked, had, x);
    }
  }

  lemma GatherNone(seen: set<Id>, v: Id, acked: map<Id, nat>, had: seq<nat>)
    requires v !in acked && Gathered(seen, acked, had)
    ensures Gathered(seen + {v}, acked, had)
  {
    assert Heard(seen + {v}, acked) == Heard(seen, acked);
  }

  /** With zeros for the voters that have not reported, every voter is counted. */
  lemma ReportedCounts(voters: set<Id>, acked: map<Id, nat>, zeros: seq<nat>, filled: seq<nat>, x: nat)
    requires |zeros| + |filled| == |voters| && (forall i :: 0 <= i < |zeros| ==> zeros[i] == 0)
    requires Gathered(voters, acked, filled)
    ensures CountFrom(zeros + filled, x) == |Reached(voters, Reported(voters, acked), x)|
  {
    CountSplits(zeros, filled, x);
    CountZeros(zeros, x);
    var heard, all := Heard(voters, acked), Reached(voters, Reported(voters, acked), x);
    if x == 0 {
      assert all == voters && Reached(heard, acked, x) == heard;
    } else {
      assert all == Reached(heard, acked, x);
    }
  }

  lemma AllReported(voters: set<Id>, acked: map<Id, nat>, zeros: seq<nat>, found: seq<nat>)
    requires Gathered(voters, acked, found) && |zeros| + |found| == |voters|
    requires forall k :: 0 <= k < |zeros| ==> zeros[k] == 0
    ensures forall x :: CountFrom(zeros + found, x) == |Reached(voters, Reported(voters, acked), x)|
  {
    hide CountFrom, Reached, Gathered;
    forall x ensures CountFrom(zeros + found, x) == |Reached(voters, Reported(voters, acked), x)| {
      ReportedCounts(voters, acked, zeros, found, x);
    }
  }

  /** The positions voters have acknowledged, filled in from the right; the rest stays zero. */
  method Collect(voters: set<Id>, acked: map<Id, nat>) returns (a: array<nat>)
    ensures fresh(a) && a.Length == |voters|
    ensures forall x :: CountFrom(a[..], x) == |Reached(voters, Reported(voters, acked), x)|
  {
    hide CountFrom, Reached, Gathered;
    a := new nat[|voters|](_ => 0);
    var i, rest := |voters|, voters;
    GatheredNothing(acked);
    assert voters - rest == {} && a[i..] == [];
    while rest != {}
      invariant rest <= voters && |rest| <= i <= a.Length == |voters|
      invariant forall k :: 0 <= k < i ==> a[k] == 0
      invariant Gathered(voters - rest, acked, a[i..])
      decreases rest
    {
      var v :| v in rest;
      ghost var had, seen := a[i..], voters - rest;
      rest := rest - {v};
      assert voters - rest == seen + {v};
      if v in acked {
        GatherOne(seen, v, acked, had);
        i := i - 1;
        a[i] := acked[v];
        assert a[i..] == [acked[v]] + had;
      } else {
        GatherNone(seen, v, acked, had);
      }
    }
    assert voters - rest == voters && a[..] == a[..i] + a[i..];
    AllReported(voters, acked, a[..i], a[i..]);
  }

  lemma GatheredNothing(acked: map<Id, nat>)
    ensures Gathered({}, acked, [])
  {
    assert Heard({}, acked) == {};
    assert forall x :: Reached({}, acked, x) == {};
  }

  const MAX_INDEX: nat := 0xffff_ffff_ffff_ffff

  /** The sorted middle is the largest index a majority has reached; an empty configuration agrees to everything. */
  method Committed(voters: set<Id>, acked: map<Id, nat>) returns (ci: nat)
    ensures ci == if voters == {} then MAX_INDEX else CommittedIndex(voters, Reported(voters, acked))
  {
    var n := |voters|;
    if n == 0 { return MAX_INDEX; }
    var srt := Collect(voters, acked);
    ghost var was := srt[..];
    InsertionSort(srt);
    var pos := n - (n / 2 + 1);
    ci := srt[pos];
    IsLargest(voters, Reported(voters, acked), was, srt[..], pos);
  }

  lemma IsLargest(voters: set<Id>, progress: map<Id, nat>, was: seq<nat>, srt: seq<nat>, pos: nat)
    requires voters <= progress.Keys && |srt| == |voters| > 0 && pos == |voters| - (|voters| / 2 + 1)
    requires Sorted(srt) && SameCounts(srt, was) && forall x :: CountFrom(was, x) == |Reached(voters, progress, x)|
    ensures srt[pos] == CommittedIndex(voters, progress)
  {
    var ci, bound := srt[pos], MaxProgress(voters, progress);
    var r := CommittedIndex(voters, progress);
    SortedCounts(srt, pos, ci);
    assert CountFrom(srt, ci) == CountFrom(was, ci);
    assert IsQuorum(Reached(voters, progress, ci), voters);
    if r > ci {
      SortedCounts(srt, pos, r);
      assert false;
    }
    var v :| v in Reached(voters, progress, ci);
    assert ci <= progress[v] <= bound;
  }
}
