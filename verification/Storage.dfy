/** The in-memory storage a node persists to (etcd/raft/storage.go). */
module Storage {
  import opened RaftTypes
  import opened LogView
  import opened LogStore
  import opened Limits

  datatype EntriesResult = Entries(ents: seq<Entry>) | EntriesCompacted | EntriesUnavailable | EntriesPanic
  datatype TermResult = TermIs(term: Term) | TermCompacted | TermUnavailable
  datatype StorageError = NoError | ErrCompacted | ErrSnapOutOfDate | StoragePanic

  lemma AfterDummy(ents: seq<Entry>, a: nat, b: nat)
    requires 1 <= a <= b <= |ents|
    ensures ents[1..][a - 1..b - 1] == ents[a..b]
  {
  }

  lemma CutAfterDummy(ents: seq<Entry>, n: nat, rest: seq<Entry>)
    requires 1 <= n <= |ents|
    ensures (ents[..n] + rest)[1..] == ents[1..][..n - 1] + rest && (ents[..n] + rest)[0] == ents[0]
  {
  }

  class MemoryStorage {
    var ents: seq<Entry> // a dummy entry, then the entries after it
    var snapshot: SnapMeta

    ghost predicate Valid()
      reads this
    {
      ents != [] && ValidView(Stored())
    }

    function Stored(): (v: View)
      reads this
      requires ents != []
    {
      View(ents[0].index, ents[0].term, ents[1..])
    }

    constructor ()
      ensures Valid() && Stored() == View(0, 0, []) && snapshot == SnapMeta(0, 0)
    {
      ents := [Entry(0, 0, Normal, [])];
      snapshot := SnapMeta(0, 0);
    }

    method LastIndex() returns (i: nat)
      requires Valid()
      ensures i == Last(Stored())
    {
      i := ents[0].index + |ents| - 1;
    }

    method FirstIndex() returns (i: nat)
      requires Valid()
      ensures i == Stored().base + 1
    {
      i := ents[0].index + 1;
    }

    /** The term of any position from the dummy entry to the last; outside, why there is none. */
    method Term(i: nat) returns (r: TermResult)
      requires Valid()
      ensures r == if i < Stored().base then TermCompacted
                   else if i > Last(Stored()) then TermUnavailable
                   else TermIs(TermOf(Stored(), i))
    {
      var offset := ents[0].index;
      if i < offset { return TermCompacted; }
      if i - offset >= |ents| { return TermUnavailable; }
      r := TermIs(ents[i - offset].term);
    }

    /** The longest run of entries from lo, before hi, that fits into maxSize. */
    method GetEntries(lo: nat, hi: nat, maxSize: nat) returns (r: EntriesResult)
      requires Valid()
      ensures lo <= Stored().base <==> r == EntriesCompacted
      ensures Stored().base < lo && (hi > Last(Stored()) + 1 || (lo > hi && Stored().ents != [])) <==> r == EntriesPanic
      ensures r.EntriesUnavailable? <==> Stored().base < lo && hi <= Last(Stored()) + 1 && Stored().ents == []
      ensures r.Entries? ==> LimitedTo(Part(Stored(), lo - 1, hi - 1), maxSize, r.ents)
    {
      hide LimitedTo;
      var offset := ents[0].index;
      if lo <= offset { return EntriesCompacted; }
      if hi > offset + |ents| { return EntriesPanic; }
      if |ents| == 1 { return EntriesUnavailable; }
      if lo > hi { return EntriesPanic; } // a slice expression with its bounds swapped
      AfterDummy(ents, lo - offset, hi - offset);
      var found := LimitSize(ents[lo - offset..hi - offset], maxSize);
      r := Entries(found);
    }

    /** Storage then begins at the snapshot and holds nothing after it. */
    method ApplySnapshot(s: SnapMeta) returns (err: StorageError)
      requires Valid()
      modifies this
      ensures Valid()
      ensures err == if old(snapshot.index) >= s.index then ErrSnapOutOfDate else NoError
      ensures err == NoError ==> Stored() == View(s.index, s.term, []) && snapshot == s
      ensures err != NoError ==> Stored() == old(Stored()) && snapshot == old(snapshot)
    {
      if snapshot.index >= s.index { return ErrSnapOutOfDate; }
      snapshot := s;
      ents := [Entry(s.index, s.term, Normal, [])];
      err := NoError;
    }

    /** Remembers the snapshot's position and term; the entries stay. */
    method CreateSnapshot(i: nat) returns (err: StorageError)
      requires Valid()
      modifies this`snapshot
      ensures err == if i <= old(snapshot.index) then ErrSnapOutOfDate
                     else if Stored().base <= i <= Last(Stored()) then NoError else StoragePanic
      ensures snapshot == if err == NoError then SnapMeta(i, TermOf(Stored(), i)) else old(snapshot)
    {
      if i <= snapshot.index { return ErrSnapOutOfDate; }
      var offset := ents[0].index;
      if i > offset + |ents| - 1 || i < offset { return StoragePanic; } // below the dummy entry the index wraps
      snapshot := SnapMeta(i, ents[i - offset].term);
      err := NoError;
    }

    method Compact(k: nat) returns (err: StorageError)
      requires Valid()
      modifies this`ents
      ensures Valid()
      ensures err == if k <= old(Stored()).base then ErrCompacted else if k > Last(old(Stored())) then StoragePanic
              else NoError
      ensures Stored() == if err == NoError then StoreCompact(old(Stored()), k) else old(Stored())
    {
      var offset := ents[0].index;
      if k <= offset { return ErrCompacted; }
      if k > offset + |ents| - 1 { return StoragePanic; }
      var i := k - offset;
      ents := [Entry(ents[i].index, ents[i].term, Normal, [])] + ents[i + 1..];
      err := NoError;
    }

    /** Writes entries over what storage holds from their first position on; a gap panics. */
    method Append(entries: seq<Entry>) returns (err: StorageError)
      requires Valid() && (entries != [] ==> 0 < entries[0].index && IndexedFrom(entries, entries[0].index - 1))
      modifies this`ents
      ensures Valid()
      ensures StoreAppend(old(Stored()), entries) == if err == NoError then Some(Stored()) else None
      ensures err == NoError || (err == StoragePanic && Stored() == old(Stored()))
    {
      if entries == [] { return NoError; }
      var first := ents[0].index + 1;
      var last := entries[0].index + |entries| - 1;
      if last < first { return NoError; }
      var rest := entries;
      if first > rest[0].index {
        rest := rest[first - rest[0].index..];
      }
      var offset := rest[0].index - ents[0].index;
      if |ents| > offset {
        CutAfterDummy(ents, offset, rest);
        ents := ents[..offset] + rest;
      } else if |ents| == offset {
        CutAfterDummy(ents, offset, rest);
        assert ents[..offset] == ents;
        ents := ents + rest;
      } else {
        return StoragePanic;
      }
      err := NoError;
    }
  }
}
