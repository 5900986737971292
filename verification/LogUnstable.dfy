/** The entries and the snapshot that have not reached storage yet (etcd/raft/log_unstable.go). */
module LogUnstable {
  import opened RaftTypes
  import opened LogStore

  class UnstableLog {
    var snapshot: Option<SnapMeta>
    var entries: seq<Entry>
    var offset: nat

    function Value(): Unstable
      reads this
    {
      Unstable(offset, entries, snapshot)
    }

    constructor (offset: nat)
      ensures Value() == Unstable(offset, [], None)
    {
      this.snapshot, this.entries, this.offset := None, [], offset;
    }

    function MaybeFirstIndex(): (r: Option<nat>)
      reads this
      ensures r.Some? <==> snapshot.Some?
      ensures r.Some? ==> r.value > 0
    {
      if snapshot.Some? then Some(snapshot.value.index + 1) else None
    }

    function MaybeLastIndex(): Option<nat>
      reads this
      requires 0 < offset
    {
      if |entries| != 0 then Some(offset + |entries| - 1)
      else if snapshot.Some? then Some(snapshot.value.index)
      else None
    }

    function MaybeTerm(i: nat): Option<Term>
      reads this
      requires 0 < offset && (entries == [] && snapshot.Some? ==> snapshot.value.index < offset)
    {
      if i < offset then
        if snapshot.Some? && snapshot.value.index == i then Some(snapshot.value.term) else None
      else
        match MaybeLastIndex()
        case None => None
        case Some(last) => if i > last then None else Some(entries[i - offset].term)
    }

    method MarkStable(i: nat, t: Term)
      requires 0 < offset && (entries == [] && snapshot.Some? ==> snapshot.value.index < offset)
      modifies this
      ensures Value() == StableTo(old(Value()), i, t) && snapshot == old(snapshot)
      ensures old(offset) <= i < old(offset + |entries|) && old(entries)[i - old(offset)].term == t ==>
                offset == i + 1 && entries == old(entries)[i + 1 - old(offset)..]
      ensures !(old(offset) <= i < old(offset + |entries|) && old(entries)[i - old(offset)].term == t) ==>
                offset == old(offset) && entries == old(entries)
    {
      var gt := MaybeTerm(i);
      if gt.None? { return; }
      if gt.value == t && i >= offset {
        entries := entries[i + 1 - offset..];
        offset := i + 1;
      }
    }

    method MarkSnapStable(i: nat)
      modifies this
      ensures Value() == StableSnapTo(old(Value()), i) && offset == old(offset) && entries == old(entries)
      ensures snapshot.None? <==> old(snapshot).None? || old(snapshot).value.index == i
      ensures snapshot.Some? ==> snapshot == old(snapshot)
    {
      if snapshot.Some? && snapshot.value.index == i {
        snapshot := None;
      }
    }

    method Restore(s: SnapMeta)
      modifies this
      ensures Value() == Restored(s)
      ensures snapshot == Some(s) && entries == [] && offset == s.index + 1
    {
      offset, entries, snapshot := s.index + 1, [], Some(s);
    }

    /** The three ways of writing entries are one: cut at the first position and append; past the end is a panic. */
    method Write(ents: seq<Entry>) returns (ok: bool)
      requires ents != []
      modifies this
      ensures ok <==> ents[0].index <= old(offset + |entries|)
      ensures Value() == if ok then TruncateAndAppend(old(Value()), ents) else old(Value())
      ensures var first := ents[0].index;
              ok ==>
                && snapshot == old(snapshot) && offset == Min(old(offset), first)
                && |entries| == first - offset + |ents|
                && entries[first - offset..] == ents
                && entries[..first - offset] == old(entries)[..Max(first - old(offset), 0)]
    {
      var after := ents[0].index;
      if after == offset + |entries| {
        assert entries[..after - offset] == entries;
        entries := entries + ents;
        if old(entries) == [] {
          assert entries == ents;
        }
      } else if after <= offset {
        offset := after;
        entries := ents;
      } else {
        var kept := Slice(offset, after);
        if kept.None? { return false; }
        entries := kept.value + ents;
      }
      ok := true;
    }

    /** The unstable entries from lo up to but not including hi; None is the out-of-bound panic. */
    function Slice(lo: nat, hi: nat): (r: Option<seq<Entry>>)
      reads this
      ensures r.Some? <==> offset <= lo <= hi <= offset + |entries|
    {
      if lo > hi || lo < offset || hi > offset + |entries| then None
      else Some(entries[lo - offset..hi - offset])
    }
  }
}
