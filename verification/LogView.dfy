/**
 A Raft log as its users see it: a base position whose term is remembered, then entries.
 These are the queries and updates of etcd/raft/log.go, stated on that one sequence.
 */
module LogView {
  import opened RaftTypes

  datatype View = View(base: nat, baseTerm: Term, ents: seq<Entry>)

  /** A log nothing of which was compacted. */
  function FullView(log: seq<Entry>): View {
    View(0, 0, log)
  }

  ghost predicate ValidView(v: View) {
    IndexedFrom(v.ents, v.base) && (v.base == 0 ==> v.baseTerm == 0)
  }

  function Last(v: View): nat {
    v.base + |v.ents|
  }

  /** The term at a position; 0 outside the range from the base to the last position. */
  function TermOf(v: View, i: nat): Term {
    if i < v.base || i > Last(v) then 0
    else if i == v.base then v.baseTerm
    else v.ents[i - v.base - 1].term
  }

  predicate MatchTerm(v: View, i: nat, t: Term) {
    TermOf(v, i) == t
  }

  /** The index of the first given entry the log does not hold, 0 if it holds them all. */
  function FindConflict(v: View, ents: seq<Entry>): nat {
    if ents == [] then 0
    else if !MatchTerm(v, ents[0].index, ents[0].term) then ents[0].index
    else FindConflict(v, ents[1..])
  }

  /** The log cut before the first given entry, then the given entries. */
  function Overwrite(v: View, ents: seq<Entry>): View
    requires ents != [] && v.base < ents[0].index <= Last(v) + 1
  {
    v.(ents := v.ents[..ents[0].index - v.base - 1] + ents)
  }

  /** The commit position after commitTo; None is the out-of-range panic. */
  function CommitTo(v: View, committed: nat, tocommit: nat): Option<nat> {
    if committed < tocommit then
      if Last(v) < tocommit then None else Some(tocommit)
    else Some(committed)
  }

  datatype AppendResult = Panicked | Rejected | Appended(view: View, committed: nat, last: nat)

  function MaybeAppend(v: View, committed: nat, index: nat, logTerm: Term, commit: nat,
      ents: seq<Entry>): AppendResult {
    if !MatchTerm(v, index, logTerm) then Rejected
    else
      var last := index + |ents|;
      var ci := FindConflict(v, ents);
      if ci == 0 then Committing(v, committed, commit, last)
      else if ci <= committed then Panicked
      else if ci < index + 1 || ci - (index + 1) > |ents| then Panicked
      else
        var rest := ents[ci - (index + 1)..];
        if rest == [] then Committing(v, committed, commit, last)
        else if rest[0].index < committed + 1 || rest[0].index <= v.base || rest[0].index > Last(v) + 1 then Panicked
        else Committing(Overwrite(v, rest), committed, commit, last)
  }

  function Committing(v: View, committed: nat, commit: nat, last: nat): AppendResult {
    match CommitTo(v, committed, Min(commit, last))
    case None => Panicked
    case Some(c) => Appended(v, c, last)
  }

  /** The position findConflictByTerm stops at: walk down from `index` while the term is too large. */
  function ConflictByTerm(v: View, index: nat, term: Term): nat {
    if index > Last(v) || TermOf(v, index) <= term || index == 0 then index
    else ConflictByTerm(v, index - 1, term)
  }

  // ---------------------------------------------------------------- appending any entries

  /** The log holds the given entries, which follow index, as far as their terms go. */
  ghost predicate HoldsAll(v: View, index: nat, ents: seq<Entry>) {
    forall i :: 0 <= i < |ents| ==> TermOf(v, index + 1 + i) == ents[i].term
  }

  /** Entry c of those that follow index is the first the log does not hold with that term. */
  ghost predicate FirstConflict(v: View, index: nat, ents: seq<Entry>, c: nat) {
    c < |ents| && TermOf(v, index + 1 + c) != ents[c].term && HoldsAll(v, index, ents[..c])
  }

  lemma {:induction false} FindConflictExactly(v: View, index: nat, ents: seq<Entry>)
    requires IndexedFrom(ents, index)
    ensures FindConflict(v, ents) == 0 <==> HoldsAll(v, index, ents)
    ensures forall c: nat :: FirstConflict(v, index, ents, c) ==> FindConflict(v, ents) == index + 1 + c
    ensures FindConflict(v, ents) != 0 ==>
              index < FindConflict(v, ents) <= index + |ents|
              && FirstConflict(v, index, ents, FindConflict(v, ents) - index - 1)
    decreases |ents|
  {
    if ents != [] && TermOf(v, index + 1) == ents[0].term {
      var rest := ents[1..];
      assert forall i :: 0 <= i < |rest| ==> rest[i] == ents[i + 1];
      FindConflictExactly(v, index + 1, rest);
      ConflictShift(v, index, ents);
    } else if ents != [] {
      assert ents[..0] == [];
    }
  }

  lemma ConflictShift(v: View, index: nat, ents: seq<Entry>)
    requires ents != [] && TermOf(v, index + 1) == ents[0].term
    ensures HoldsAll(v, index, ents) <==> HoldsAll(v, index + 1, ents[1..])
    ensures forall c: nat ::
              FirstConflict(v, index, ents, c) <==> c > 0 && FirstConflict(v, index + 1, ents[1..], c - 1)
  {
    HoldsShift(v, index, ents);
    forall c: nat ensures FirstConflict(v, index, ents, c) <==> c > 0 && FirstConflict(v, index + 1, ents[1..], c - 1) {
      if 0 < c < |ents| {
        assert ents[..c][1..] == ents[1..][..c - 1];
        HoldsShift(v, index, ents[..c]);
      }
    }
  }

  lemma HoldsShift(v: View, index: nat, ents: seq<Entry>)
    requires ents != [] && TermOf(v, index + 1) == ents[0].term
    ensures HoldsAll(v, index, ents) <==> HoldsAll(v, index + 1, ents[1..])
  {
    var rest := ents[1..];
    if HoldsAll(v, index + 1, rest) {
      forall i | 0 <= i < |ents| ensures TermOf(v, index + 1 + i) == ents[i].term {
        if i > 0 { assert TermOf(v, index + 2 + (i - 1)) == rest[i - 1].term; }
      }
    }
    if HoldsAll(v, index, ents) {
      forall i | 0 <= i < |rest| ensures TermOf(v, index + 2 + i) == rest[i].term {
        assert TermOf(v, index + 1 + (i + 1)) == ents[i + 1].term;
      }
    }
  }

  /** The commit position moves to what the leader has committed of what was sent, forward only; beyond the end is a
      panic. */
  function CommitUpTo(v: View, committed: nat, target: nat): Option<nat> {
    if target <= committed then Some(committed) else if target <= Last(v) then Some(target) else None
  }

  /** What maybeAppend answers, for any log and any entries: refused exactly when the term at index differs; nothing to
      write when the log holds all entries; written from the first conflict on otherwise, which must lie above the
      commit position and not leave a gap. */
  lemma MaybeAppendExactly(v: View, committed: nat, index: nat, logTerm: Term, commit: nat, ents: seq<Entry>)
    requires IndexedFrom(ents, index)
    ensures var r := MaybeAppend(v, committed, index, logTerm, commit, ents);
            var last := index + |ents|;
            var target := Min(commit, last);
            && (r == Rejected <==> TermOf(v, index) != logTerm)
            && (TermOf(v, index) == logTerm && HoldsAll(v, index, ents) ==>
                  r == match CommitUpTo(v, committed, target)
                       case None => Panicked
                       case Some(c) => Appended(v, c, last))
            && forall c: nat :: TermOf(v, index) == logTerm && FirstConflict(v, index, ents, c) ==>
                 var at := index + 1 + c;
                 if at <= committed || at <= v.base || at > Last(v) + 1 then r == Panicked
                 else r == Appended(View(v.base, v.baseTerm, v.ents[..at - v.base - 1] + ents[c..]),
                                    Max(committed, target), last)
  {
    FindConflictExactly(v, index, ents);
    hide FindConflict, HoldsAll;
    if TermOf(v, index) == logTerm {
      forall c: nat | FirstConflict(v, index, ents, c)
        ensures var at := index + 1 + c;
                var r := MaybeAppend(v, committed, index, logTerm, commit, ents);
                var last := index + |ents|;
                if at <= committed || at <= v.base || at > Last(v) + 1 then r == Panicked
                else r == Appended(View(v.base, v.baseTerm, v.ents[..at - v.base - 1] + ents[c..]),
                                   Max(committed, Min(commit, last)), last)
      {
        WriteConflict(v, committed, index, logTerm, commit, ents, c);
      }
    }
  }

  lemma WriteConflict(v: View, committed: nat, index: nat, logTerm: Term, commit: nat, ents: seq<Entry>, c: nat)
    requires IndexedFrom(ents, index) && TermOf(v, index) == logTerm && c < |ents|
    requires FindConflict(v, ents) == index + 1 + c
    ensures var at := index + 1 + c;
            var r := MaybeAppend(v, committed, index, logTerm, commit, ents);
            var last := index + |ents|;
            if at <= committed || at <= v.base || at > Last(v) + 1 then r == Panicked
            else r == Appended(View(v.base, v.baseTerm, v.ents[..at - v.base - 1] + ents[c..]),
                               Max(committed, Min(commit, last)), last)
  {
    hide FindConflict;
    assert ents[c..][0].index == index + 1 + c;
  }

  // ---------------------------------------------------------------- appending a leader's entries

  /** Log matching between two logs. */
  ghost predicate Matching(a: seq<Entry>, b: seq<Entry>) {
    forall i: nat {:trigger a[..i]} :: 0 < i <= |a| && i <= |b| && a[i - 1].term == b[i - 1].term ==> a[..i] == b[..i]
  }

  lemma FindConflictNone(log: seq<Entry>, ll: seq<Entry>, index: nat, n: nat)
    requires index + n <= |ll| && IndexedFrom(ll, 0)
    requires FindConflict(FullView(log), ll[index..index + n]) == 0
    requires forall i :: 0 <= i < |ll| ==> ll[i].term > 0
    ensures forall i :: index < i <= index + n ==> TermAt(log, i) == ll[i - 1].term
    decreases n
  {
    var ents := ll[index..index + n];
    if n > 0 {
      assert ents[0] == ll[index] && ents[1..] == ll[index + 1..index + 1 + (n - 1)];
      FindConflictNone(log, ll, index + 1, n - 1);
    }
  }

  lemma FindConflictSome(log: seq<Entry>, ll: seq<Entry>, index: nat, n: nat)
    requires index + n <= |ll| && IndexedFrom(ll, 0)
    requires FindConflict(FullView(log), ll[index..index + n]) != 0
    ensures var ci := FindConflict(FullView(log), ll[index..index + n]);
            && index < ci <= index + n
            && TermAt(log, ci) != ll[ci - 1].term
            && forall i :: index < i < ci ==> TermAt(log, i) == ll[i - 1].term
    decreases n
  {
    var ents := ll[index..index + n];
    if n > 0 {
      assert ents[0] == ll[index] && ents[1..] == ll[index + 1..index + 1 + (n - 1)];
      if MatchTerm(FullView(log), ents[0].index, ents[0].term) {
        FindConflictSome(log, ll, index + 1, n - 1);
      }
    }
  }

  lemma AgreeUpTo(log: seq<Entry>, ll: seq<Entry>, i: nat)
    requires Matching(log, ll) && i <= |ll| && forall j :: 0 <= j < |ll| ==> ll[j].term > 0
    requires TermAt(log, i) == TermAt(ll, i)
    ensures i <= |log| && log[..i] == ll[..i]
  {
  }

  lemma OverwriteEnts(log: seq<Entry>, ll: seq<Entry>, ci: nat, m: nat)
    requires 0 < ci <= m <= |ll| && ci <= |log| + 1 && log[..ci - 1] == ll[..ci - 1] && IndexedFrom(ll, 0)
    ensures ll[ci - 1..m][0].index == ci && Overwrite(FullView(log), ll[ci - 1..m]) == FullView(ll[..m])
  {
    assert ll[..ci - 1] + ll[ci - 1..m] == ll[..m];
  }

  lemma MergeDiffers(log: seq<Entry>, ll: seq<Entry>, ci: nat, m: nat)
    requires 0 < ci <= m <= |ll| && TermAt(log, ci) != ll[ci - 1].term
    ensures Merge(log, ll, m) == ll[..m]
  {
    assert ci <= |log| ==> log[ci - 1] != ll[..m][ci - 1];
  }

  lemma SliceOfSlice(ll: seq<Entry>, index: nat, ci: nat, m: nat)
    requires index < ci <= m <= |ll|
    ensures ll[index..m][ci - (index + 1)..] == ll[ci - 1..m]
  {
  }

  /** The part of the given entries from the first conflict on, written over the log. */
  lemma OverwriteMerges(log: seq<Entry>, ll: seq<Entry>, index: nat, n: nat)
    requires Matching(log, ll) && IndexedFrom(ll, 0) && forall j :: 0 <= j < |ll| ==> ll[j].term > 0
    requires index + n <= |ll| && TermAt(log, index) == TermAt(ll, index)
    requires FindConflict(FullView(log), ll[index..index + n]) != 0
    ensures var ci := FindConflict(FullView(log), ll[index..index + n]);
            && index < ci <= index + n && ci <= |log| + 1
            && ll[index..index + n][ci - (index + 1)..] == ll[ci - 1..index + n] && ll[ci - 1..index + n][0].index == ci
            && Overwrite(FullView(log), ll[ci - 1..index + n]) == FullView(Merge(log, ll, index + n))
  {
    hide FindConflict, Matching, Overwrite, Merge, IndexedFrom;
    AgreeUpTo(log, ll, index);
    FindConflictSome(log, ll, index, n);
    var ci := FindConflict(FullView(log), ll[index..index + n]);
    AgreeUpTo(log, ll, ci - 1);
    OverwriteEnts(log, ll, ci, index + n);
    MergeDiffers(log, ll, ci, index + n);
    SliceOfSlice(ll, index, ci, index + n);
  }

  lemma MergeSame(log: seq<Entry>, ll: seq<Entry>, m: nat)
    requires m <= |ll| && m <= |log| && log[..m] == ll[..m]
    ensures Merge(log, ll, m) == log
  {
  }

  lemma CommittingMerged(log: seq<Entry>, ll: seq<Entry>, committed: nat, commit: nat, m: nat)
    requires m <= |ll| && committed <= m && |Merge(log, ll, m)| >= m
    ensures Committing(FullView(Merge(log, ll, m)), committed, commit, m)
         == Appended(FullView(Merge(log, ll, m)), Max(committed, Min(commit, m)), m)
  {
  }

  /** Appending entries index+1..index+n of a leader's log makes the log agree with it up to there. */
  lemma MaybeAppendMerges(log: seq<Entry>, ll: seq<Entry>, committed: nat, index: nat, n: nat, commit: nat)
    requires Matching(log, ll) && IndexedFrom(ll, 0) && forall j :: 0 <= j < |ll| ==> ll[j].term > 0
    requires index + n <= |ll| && committed <= index
    requires TermAt(log, index) == TermAt(ll, index)
    ensures MaybeAppend(FullView(log), committed, index, TermAt(ll, index), commit, ll[index..index + n])
         == Appended(FullView(Merge(log, ll, index + n)), Max(committed, Min(commit, index + n)), index + n)
  {
    hide FindConflict, Matching, Overwrite, Merge, IndexedFrom, Committing;
    AgreeUpTo(log, ll, index);
    MergeLength(log, ll, index + n);
    CommittingMerged(log, ll, committed, commit, index + n);
    if FindConflict(FullView(log), ll[index..index + n]) == 0 {
      FindConflictNone(log, ll, index, n);
      AgreeUpTo(log, ll, index + n);
      MergeSame(log, ll, index + n);
    } else {
      OverwriteMerges(log, ll, index, n);
    }
  }

  lemma MergeLength(log: seq<Entry>, ll: seq<Entry>, m: nat)
    requires m <= |ll|
    ensures |Merge(log, ll, m)| >= m
  {
  }

  /** A refused append leaves everything alone: the log differs from the leader's at the probed index. */
  lemma MaybeAppendRefuses(log: seq<Entry>, committed: nat, index: nat, logTerm: Term, commit: nat, ents: seq<Entry>)
    requires TermAt(log, index) != logTerm
    ensures MaybeAppend(FullView(log), committed, index, logTerm, commit, ents) == Rejected
  {
  }

  // ---------------------------------------------------------------- compacted logs

  /** v is what is left of a log after its beginning was compacted. */
  ghost predicate SuffixOf(v: View, log: seq<Entry>) {
    v.base <= |log| && v.baseTerm == TermAt(log, v.base) && v.ents == log[v.base..]
  }

  lemma SuffixTerm(v: View, log: seq<Entry>, i: nat)
    requires SuffixOf(v, log) && v.base <= i
    ensures TermOf(v, i) == TermAt(log, i) == TermOf(FullView(log), i) && Last(v) == |log|
  {
  }

  lemma {:induction false} SuffixConflict(v: View, log: seq<Entry>, ents: seq<Entry>, index: nat)
    requires SuffixOf(v, log) && v.base <= index && IndexedFrom(ents, index)
    ensures FindConflict(v, ents) == FindConflict(FullView(log), ents)
    decreases |ents|
  {
    if ents != [] {
      SuffixTerm(v, log, ents[0].index);
      SuffixConflict(v, log, ents[1..], index + 1);
    }
  }

  lemma SuffixOverwrite(v: View, log: seq<Entry>, ents: seq<Entry>)
    requires SuffixOf(v, log) && ents != [] && v.base < ents[0].index <= |log| + 1
    ensures SuffixOf(Overwrite(v, ents), Overwrite(FullView(log), ents).ents)
    ensures Overwrite(FullView(log), ents) == FullView(Overwrite(FullView(log), ents).ents)
  {
    var a := ents[0].index;
    assert log[v.base..][..a - v.base - 1] == log[..a - 1][v.base..];
  }

  /** The same answer, on a log and on what is left of it. */
  ghost predicate SameAnswer(a: AppendResult, b: AppendResult) {
    match (a, b)
    case (Appended(v, c, last), Appended(w, c', last')) =>
        SuffixOf(v, w.ents) && w == FullView(w.ents) && c == c' && last == last'
    case (Rejected, Rejected) => true
    case (Panicked, Panicked) => true
    case _ => false
  }

  lemma SuffixCommitting(v: View, log: seq<Entry>, committed: nat, commit: nat, last: nat)
    requires SuffixOf(v, log)
    ensures SameAnswer(Committing(v, committed, commit, last), Committing(FullView(log), committed, commit, last))
  {
  }

  /** Compaction does not show: a follower that compacted its log answers a leader as one that kept all of it. */
  lemma SuffixAppend(v: View, log: seq<Entry>, committed: nat, index: nat, logTerm: Term, commit: nat, ents: seq<Entry>)
    requires SuffixOf(v, log) && v.base <= committed <= index && IndexedFrom(ents, index)
    ensures SameAnswer(MaybeAppend(v, committed, index, logTerm, commit, ents),
                       MaybeAppend(FullView(log), committed, index, logTerm, commit, ents))
  {
    hide FindConflict, SameAnswer, Committing, Overwrite;
    SuffixTerm(v, log, index);
    SuffixConflict(v, log, ents, index);
    SuffixCommitting(v, log, committed, commit, index + |ents|);
    PanicsAlike();
    var ci := FindConflict(v, ents);
    if MatchTerm(v, index, logTerm) && ci > index && ci - (index + 1) < |ents| {
      var rest := ents[ci - (index + 1)..];
      if v.base < rest[0].index <= |log| + 1 {
        SuffixOverwrite(v, log, rest);
        SuffixCommitting(Overwrite(v, rest), Overwrite(FullView(log), rest).ents, committed, commit, index + |ents|);
      }
    }
  }

  lemma PanicsAlike()
    ensures SameAnswer(Panicked, Panicked) && SameAnswer(Rejected, Rejected)
  {
  }
}
