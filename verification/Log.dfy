/** The log a node works with: storage and the unstable part behind one set of queries (etcd/raft/log.go). */
module Log {
  import opened RaftTypes
  import opened LogView
  import opened LogStore
  import opened Limits
  import opened Storage
  import opened LogUnstable

  datatype SliceResult = SliceOf(ents: seq<Entry>) | SliceCompacted | SlicePanic

  class RaftLog {
    const storage: MemoryStorage
    const unstable: UnstableLog
    var committed: nat
    var applied: nat
    var maxNextEntsSize: nat

    ghost predicate Valid()
      reads this, storage, unstable
    {
      && storage.Valid() && Coherent(storage.Stored(), unstable.Value())
      && applied <= committed && Contents().base <= committed <= Last(Contents())
    }

    /** The one sequence the two parts stand for. */
    ghost function Contents(): View
      reads storage, unstable
      requires storage.Valid() && Coherent(storage.Stored(), unstable.Value())
    {
      LogOf(storage.Stored(), unstable.Value())
    }

    constructor (storage: MemoryStorage, maxNextEntsSize: nat)
      requires storage.Valid()
      ensures Valid() && this.storage == storage && fresh(unstable) && Contents() == storage.Stored()
      ensures committed == applied == storage.Stored().base
    {
      var last := storage.LastIndex();
      var first := storage.FirstIndex();
      this.storage := storage;
      this.unstable := new UnstableLog(last + 1);
      this.committed, this.applied, this.maxNextEntsSize := first - 1, first - 1, maxNextEntsSize;
      new;
      WholeStore(storage.Stored());
    }

    method FirstIndex() returns (i: nat)
      requires Valid()
      ensures i == Contents().base + 1
    {
      var first := unstable.MaybeFirstIndex();
      if first.Some? { return first.value; }
      i := storage.FirstIndex();
    }

    method LastIndex() returns (i: nat)
      requires Valid()
      ensures i == Last(Contents())
    {
      var last := unstable.MaybeLastIndex();
      if last.Some? { return last.value; }
      i := storage.LastIndex();
    }

    /** The term at a position: the unstable part's, else storage's, and 0 outside the log. */
    method Term(i: nat) returns (t: Term)
      requires Valid()
      ensures t == TermOf(Contents(), i)
    {
      var first := FirstIndex();
      var last := LastIndex();
      if i < first - 1 || i > last { return 0; }
      var unstableTerm := unstable.MaybeTerm(i);
      if unstableTerm.Some? {
        return unstableTerm.value;
      }
      var stored := storage.Term(i);
      t := stored.term;
    }

    method MatchTerm(i: nat, t: Term) returns (b: bool)
      requires Valid()
      ensures b == LogView.MatchTerm(Contents(), i, t)
    {
      var own := Term(i);
      b := own == t;
    }

    /** Is a log ending at (lasti, t) at least as up to date as this one? */
    method IsUpToDate(lasti: nat, t: Term) returns (b: bool)
      requires Valid()
      ensures b == (t > TermOf(Contents(), Last(Contents()))
              || (t == TermOf(Contents(), Last(Contents())) && lasti >= Last(Contents())))
    {
      var last := LastIndex();
      var lastTerm := Term(last);
      b := t > lastTerm || (t == lastTerm && lasti >= last);
    }

    method FindConflict(ents: seq<Entry>) returns (ci: nat)
      requires Valid()
      ensures ci == LogView.FindConflict(Contents(), ents)
    {
      for i := 0 to |ents|
        invariant LogView.FindConflict(Contents(), ents) == LogView.FindConflict(Contents(), ents[i..])
      {
        var found := MatchTerm(ents[i].index, ents[i].term);
        if !found {
          return ents[i].index;
        }
        assert ents[i..][1..] == ents[i + 1..];
      }
      ci := 0;
    }

    method FindConflictByTerm(index: nat, t: Term) returns (r: nat)
      requires Valid()
      ensures r == ConflictByTerm(Contents(), index, t)
    {
      hide LogOf, Overlaid, Coherent;
      var last := LastIndex();
      if index > last { return index; }
      r := index;
      while true
        invariant r <= index && ConflictByTerm(Contents(), index, t) == ConflictByTerm(Contents(), r, t)
        decreases r
      {
        var own := Term(r);
        if own <= t { break; }
        r := r - 1;
      }
    }

    method CommitTo(tocommit: nat) returns (ok: bool)
      requires Valid()
      modifies this`committed
      ensures ok ==> Valid()
      ensures LogView.CommitTo(Contents(), old(committed), tocommit) == if ok then Some(committed) else None
      ensures !ok ==> committed == old(committed)
    {
      if committed < tocommit {
        var last := LastIndex();
        if last < tocommit { return false; }
        committed := tocommit;
      }
      ok := true;
    }

    method AppliedTo(i: nat) returns (ok: bool)
      requires Valid()
      modifies this`applied
      ensures Valid()
      ensures ok <==> i == 0 || old(applied) <= i <= committed
      ensures applied == if ok && i != 0 then i else old(applied)
    {
      if i == 0 { return true; }
      if committed < i || i < applied { return false; }
      applied := i;
      ok := true;
    }

    /** Writes entries over the log from their first position on; anything committed must stay. */
    method Append(ents: seq<Entry>) returns (ok: bool, last: nat)
      requires Valid() && (ents != [] ==> 0 < ents[0].index && IndexedFrom(ents, ents[0].index - 1))
      modifies unstable
      ensures ok <==> ents == [] || old(committed) < ents[0].index <= Last(old(Contents())) + 1
      ensures ok ==> Valid() && last == Last(Contents())
      ensures ok ==> Contents() == if ents == [] then old(Contents()) else Overwrite(old(Contents()), ents)
    {
      ok, last := true, 0;
      if ents == [] {
        last := LastIndex();
        return;
      }
      if ents[0].index - 1 < committed { return false, 0; }
      ghost var u := unstable.Value();
      ok := unstable.Write(ents);
      if ok {
        AppendOverwrites(storage.Stored(), u, ents);
        assert Coherent(storage.Stored(), unstable.Value());
        last := LastIndex();
      }
    }

    /** A leader's entries after (index, logTerm): what becomes of the log and the commit position. */
    method MaybeAppend(index: nat, logTerm: Term, leaderCommit: nat, ents: seq<Entry>)
      returns (lastNew: nat, ok: bool, panicked: bool)
      requires Valid() && IndexedFrom(ents, index)
      modifies this`committed, unstable
      ensures match LogView.MaybeAppend(old(Contents()), old(committed), index, logTerm, leaderCommit, ents)
              case Panicked => panicked
              case Rejected =>
                && !panicked && !ok && lastNew == 0
                && Valid() && Contents() == old(Contents()) && committed == old(committed)
              case Appended(v, c, last) =>
                !panicked && ok && lastNew == last && Valid() && Contents() == v && committed == c
    {
      hide LogView.FindConflict, LogOf, Coherent;
      var found := MatchTerm(index, logTerm);
      if !found { return 0, false, false; }
      lastNew := index + |ents|;
      var ci := FindConflict(ents);
      if ci != 0 {
        if ci <= committed || ci < index + 1 || ci - (index + 1) > |ents| { return 0, false, true; }
        var done, _ := Append(ents[ci - (index + 1)..]);
        if !done { return 0, false, true; }
      }
      var done := CommitTo(Min(leaderCommit, lastNew));
      return lastNew, true, !done;
    }

    /** The longest run of entries from lo, before hi, that fits into maxSize; never empty when lo < hi. */
    method Slice(lo: nat, hi: nat, maxSize: nat) returns (r: SliceResult)
      requires Valid()
      ensures r == SliceCompacted <==> lo <= hi && lo <= Contents().base
      ensures r == SlicePanic <==> lo > hi || (Contents().base < lo && hi > Last(Contents()) + 1)
      ensures r.SliceOf? ==> LimitedTo(ViewSlice(Contents(), lo, hi), maxSize, r.ents)
    {
      hide LimitedTo;
      if lo > hi { return SlicePanic; }
      var first := FirstIndex();
      if lo < first { return SliceCompacted; }
      var last := LastIndex();
      if hi > last + 1 { return SlicePanic; }
      if lo == hi {
        EmptyLimit(maxSize);
        assert ViewSlice(Contents(), lo, hi) == [];
        return SliceOf([]);
      }
      var ents := SliceParts(lo, hi, maxSize);
      r := SliceOf(ents);
    }

    method SliceParts(lo: nat, hi: nat, maxSize: nat) returns (ents: seq<Entry>)
      requires Valid() && Contents().base < lo < hi <= Last(Contents()) + 1
      ensures LimitedTo(ViewSlice(Contents(), lo, hi), maxSize, ents)
    {
      hide LimitedTo, LogOf, ViewSlice, Part;
      ghost var store, u := storage.Stored(), unstable.Value();
      ghost var all := ViewSlice(Contents(), lo, hi);
      ents := [];
      if lo < unstable.offset {
        var mid := Min(hi, unstable.offset);
        SliceFromStore(store, u, lo, mid);
        var stored := storage.GetEntries(lo, mid, maxSize);
        SliceJoins(Contents(), lo, mid, hi);
        LimitedWhole(ViewSlice(Contents(), lo, mid), maxSize, stored.ents);
        if |stored.ents| < mid - lo {
          LimitedEarly(ViewSlice(Contents(), lo, mid), ViewSlice(Contents(), mid, hi), maxSize, stored.ents);
          return stored.ents;
        }
        ents := stored.ents;
      }
      if hi > unstable.offset {
        var from := Max(lo, unstable.offset);
        SliceFromUnstable(store, u, from, hi);
        ents := ents + unstable.Slice(from, hi).value;
      }
      assert ents == all;
      ents := LimitSize(ents, maxSize);
    }

    /** The committed entries not handed out yet, as many as fit; in order, from the first one on. */
    method NextEnts() returns (ents: seq<Entry>)
      requires Valid()
      ensures var lo := Max(applied + 1, Contents().base + 1);
              if lo <= committed then LimitedTo(ViewSlice(Contents(), lo, committed + 1), maxNextEntsSize, ents)
              else ents == []
    {
      hide LimitedTo;
      var first := FirstIndex();
      var off := Max(applied + 1, first);
      if committed + 1 > off {
        var r := Slice(off, committed + 1, maxNextEntsSize);
        return r.ents;
      }
      ents := [];
    }

    /** Moves the commit position to maxIndex if the entry there is of term t. */
    method MaybeCommit(maxIndex: nat, t: Term) returns (moved: bool, panicked: bool)
      requires Valid()
      modifies this`committed
      ensures moved || panicked <==> old(committed) < maxIndex && TermOf(Contents(), maxIndex) == t
      ensures panicked <==> Last(Contents()) < maxIndex && t == 0
      ensures Valid() && committed == if moved then maxIndex else old(committed)
    {
      moved, panicked := false, false;
      if maxIndex > committed {
        var own := Term(maxIndex);
        if own == t {
          moved := CommitTo(maxIndex);
          panicked := !moved;
        }
      }
    }

    /** The log is then the snapshot alone, all of it committed. */
    method Restore(s: SnapMeta)
      requires Valid() && 0 < s.index && applied <= s.index
      modifies this`committed, unstable
      ensures Valid() && Contents() == View(s.index, s.term, []) && committed == s.index
    {
      committed := s.index;
      unstable.Restore(s);
    }

    /** What Advance does to the log once a Ready's last entry (i, t), if it had one, and its snapshot were stored:
        nothing that can be seen. */
    method Stabilise(last: Option<(nat, Term)>, snapIndex: nat)
      requires Valid()
      modifies unstable
      ensures unstable.Value() == Stabilised(old(unstable.Value()), last, snapIndex)
      ensures var u := old(unstable.Value());
              last.Some? && u.offset <= last.value.0 < u.offset + |u.ents|
                && u.ents[last.value.0 - u.offset].term == last.value.1 ==>
                unstable.offset == last.value.0 + 1
      ensures var u := old(unstable.Value());
              snapIndex != 0 && u.snap.Some? && u.snap.value.index == snapIndex ==> unstable.snapshot == None
      ensures ReadyStored(storage.Stored(), old(unstable.Value()), last, snapIndex) ==>
              Valid() && Contents() == old(Contents())
    {
      hide LogOf, ReadyStored;
      if ReadyStored(storage.Stored(), unstable.Value(), last, snapIndex) {
        StabilisedKeeps(storage.Stored(), unstable.Value(), last, snapIndex);
      }
      if last.Some? {
        unstable.MarkStable(last.value.0, last.value.1);
      }
      if snapIndex != 0 {
        unstable.MarkSnapStable(snapIndex);
      }
    }
  }
}
