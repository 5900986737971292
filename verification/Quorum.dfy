/** Majority quorums over a fixed voter set. */
module Quorum {
  import opened RaftTypes

  ghost predicate IsQuorum(q: set<Id>, voters: set<Id>) {
    q <= voters && 2 * |q| > |voters|
  }

  lemma SubsetSize<T>(a: set<T>, b: set<T>)
    requires a <= b
    ensures |a| <= |b|
  {
    assert b == a + (b - a);
  }

  lemma QuorumGrows(a: set<Id>, b: set<Id>, voters: set<Id>)
    requires IsQuorum(a, voters) && a <= b <= voters
    ensures IsQuorum(b, voters)
  {
    SubsetSize(a, b);
  }

  lemma QuorumsOverlap(a: set<Id>, b: set<Id>, voters: set<Id>)
    requires IsQuorum(a, voters) && IsQuorum(b, voters)
    ensures a * b != {}
  {
    if a * b == {} {
      assert |a + b| == |a| + |b|;
      SubsetSize(a + b, voters);
      assert false;
    }
  }

  /** Any two majorities share a voter. */
  lemma QuorumsMeet(a: set<Id>, b: set<Id>, voters: set<Id>) returns (v: Id)
    requires IsQuorum(a, voters) && IsQuorum(b, voters)
    ensures v in a && v in b && v in voters
  {
    QuorumsOverlap(a, b, voters);
    v :| v in a * b;
  }

  /** A set no majority member belongs to is not a majority. */
  lemma DisjointFromQuorum(a: set<Id>, b: set<Id>, voters: set<Id>)
    requires IsQuorum(a, voters) && a * b == {}
    ensures !IsQuorum(b, voters)
  {
    if IsQuorum(b, voters) {
      QuorumsOverlap(a, b, voters);
      assert false;
    }
  }
}
