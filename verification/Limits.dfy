/** Batches of entries cut to a byte size (etcd/raft/util.go). */
module Limits {
  import opened RaftTypes
  import opened Varint

  function KindCode(k: Kind): nat {
    match k
    case Normal => 0
    case ConfChange => 1
    case ConfChangeV2 => 2
  }

  /** The encoded size of an entry; absent data takes no field. */
  function EntrySize(e: Entry): (n: nat)
    ensures n > 0
  {
    3 + Sov(KindCode(e.kind)) + Sov(e.term) + Sov(e.index) + if e.data == [] then 0 else 1 + |e.data| + Sov(|e.data|)
  }

  /** An entry as it is written: kind, term and position always, data if there is any. */
  function EncodeEntry(e: Entry): seq<Byte> {
    [0x08] + EncodeVarint(KindCode(e.kind)) + [0x10] + EncodeVarint(e.term) + [0x18] + EncodeVarint(e.index)
    + if e.data == [] then [] else [0x22] + EncodeVarint(|e.data|) + e.data
  }

  /** The size by which batches are cut is the number of bytes the entry is written with. */
  lemma EntrySizeIsLength(e: Entry)
    ensures EntrySize(e) == |EncodeEntry(e)|
  {
    hide Sov, EncodeVarint;
    SovIsLength(KindCode(e.kind));
    SovIsLength(e.term);
    SovIsLength(e.index);
    SovIsLength(|e.data|);
  }

  function TotalSize(ents: seq<Entry>): nat {
    if ents == [] then 0 else TotalSize(ents[..|ents| - 1]) + EntrySize(ents[|ents| - 1])
  }

  /** r is the longest prefix of ents that fits into maxSize, but at least one entry. */
  ghost predicate LimitedTo(ents: seq<Entry>, maxSize: nat, r: seq<Entry>) {
    && r <= ents && (ents != [] ==> r != [])
    && (|r| <= 1 || TotalSize(r) <= maxSize)
    && (|r| < |ents| ==> TotalSize(ents[..|r| + 1]) > maxSize)
  }

  lemma {:induction false} SizeGrows(ents: seq<Entry>, i: nat, j: nat)
    requires i <= j <= |ents|
    ensures TotalSize(ents[..i]) <= TotalSize(ents[..j])
    decreases j
  {
    hide EntrySize;
    if i < j {
      assert ents[..j][..j - 1] == ents[..j - 1];
      SizeGrows(ents, i, j - 1);
    }
  }

  /** There is only one such prefix. */
  lemma LimitedOnce(ents: seq<Entry>, maxSize: nat, r: seq<Entry>, r': seq<Entry>)
    requires LimitedTo(ents, maxSize, r) && LimitedTo(ents, maxSize, r')
    ensures r == r'
  {
    hide TotalSize;
    assert r == ents[..|r|] && r' == ents[..|r'|];
    if |r| < |r'| {
      SizeGrows(ents, |r| + 1, |r'|);
    } else if |r'| < |r| {
      SizeGrows(ents, |r'| + 1, |r|);
    }
  }

  /** A batch that was cut short is not changed by what follows. */
  lemma LimitedEarly(a: seq<Entry>, b: seq<Entry>, maxSize: nat, r: seq<Entry>)
    requires LimitedTo(a, maxSize, r) && |r| < |a|
    ensures LimitedTo(a + b, maxSize, r)
  {
    assert (a + b)[..|r| + 1] == a[..|r| + 1];
  }

  lemma EmptyLimit(maxSize: nat)
    ensures LimitedTo([], maxSize, [])
  {
  }

  lemma SizeOfNext(ents: seq<Entry>, k: nat)
    requires k < |ents|
    ensures TotalSize(ents[..k + 1]) == TotalSize(ents[..k]) + EntrySize(ents[k])
  {
    assert ents[..k + 1][..k] == ents[..k];
  }

  lemma EmptySize(ents: seq<Entry>)
    ensures TotalSize(ents[..0]) == 0
  {
  }

  lemma LimitedWhole(a: seq<Entry>, maxSize: nat, r: seq<Entry>)
    requires LimitedTo(a, maxSize, r)
    ensures |r| <= |a| && (|r| == |a| ==> r == a)
  {
  }

  /** If everything fits, everything is taken. */
  lemma LimitedFits(ents: seq<Entry>, maxSize: nat, r: seq<Entry>)
    requires LimitedTo(ents, maxSize, r)
    ensures r <= ents && (ents != [] ==> r != []) && (TotalSize(ents) <= maxSize ==> r == ents)
  {
    hide TotalSize;
    if |r| < |ents| {
      SizeGrows(ents, |r| + 1, |ents|);
      assert ents[..|ents|] == ents;
    }
  }

  lemma LimitedAt(ents: seq<Entry>, maxSize: nat, limit: nat)
    requires 1 <= limit <= |ents| && (limit == 1 || TotalSize(ents[..limit]) <= maxSize)
    requires limit < |ents| ==> TotalSize(ents[..limit + 1]) > maxSize
    ensures LimitedTo(ents, maxSize, ents[..limit])
  {
    hide TotalSize;
  }

  method LimitSize(ents: seq<Entry>, maxSize: nat) returns (r: seq<Entry>)
    ensures LimitedTo(ents, maxSize, r)
  {
    if ents == [] { return ents; }
    hide EntrySize, TotalSize, LimitedTo;
    SizeOfNext(ents, 0);
    EmptySize(ents);
    var size := EntrySize(ents[0]);
    var limit := 1;
    while limit < |ents|
      invariant 1 <= limit <= |ents| && size == TotalSize(ents[..limit]) && (limit == 1 || size <= maxSize)
    {
      SizeOfNext(ents, limit);
      size := size + EntrySize(ents[limit]);
      if size > maxSize { break; }
      limit := limit + 1;
    }
    LimitedAt(ents, maxSize, limit);
    return ents[..limit];
  }
}
