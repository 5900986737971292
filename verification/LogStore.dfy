/**
 The two parts a Raft log is kept in, as values: what storage holds and what is not yet there.
 A pending snapshot or the storage's dummy position is where the log begins; the unstable part
 overlays storage from its offset on.
 */
module LogStore {
  import opened RaftTypes
  import opened LogView

  datatype SnapMeta = SnapMeta(index: nat, term: Term)
  datatype Unstable = Unstable(offset: nat, ents: seq<Entry>, snap: Option<SnapMeta>)

  function EntryAt(v: View, k: nat): Entry
    requires v.base < k <= Last(v)
  {
    v.ents[k - v.base - 1]
  }

  // ---------------------------------------------------------------- storage

  /** Storage after Append; None is the "missing log entry" panic. */
  function StoreAppend(store: View, ents: seq<Entry>): Option<View> {
    if ents == [] || ents[0].index + |ents| - 1 < store.base + 1 then Some(store)
    else if ents[0].index > Last(store) + 1 then None
    else
      var rest := if store.base + 1 > ents[0].index then ents[store.base + 1 - ents[0].index..] else ents;
      var at := Max(ents[0].index, store.base + 1);
      Some(store.(ents := store.ents[..at - store.base - 1] + rest))
  }

  /** What Append does, position by position: it panics exactly when the entries leave a gap; what they reach above the
      dummy position is theirs, what lies before them stays, and nothing is left after them. */
  lemma StoreAppendExactly(store: View, ents: seq<Entry>)
    requires ents != [] && ents[0].index > 0 && IndexedFrom(ents, ents[0].index - 1)
    ensures var r, first := StoreAppend(store, ents), ents[0].index;
            var last := first + |ents| - 1;
            && (r == None <==> store.base < last && first > Last(store) + 1)
            && (last <= store.base ==> r == Some(store))
            && (r.Some? && store.base < last ==>
                  && r.value.base == store.base && r.value.baseTerm == store.baseTerm && Last(r.value) == last
                  && (forall k :: store.base < k <= last && first <= k ==> EntryAt(r.value, k) == ents[k - first])
                  && (forall k :: store.base < k < first ==> EntryAt(r.value, k) == EntryAt(store, k)))
  {
  }

  /** Storage after it dropped everything up to k, which stays behind as the dummy position. */
  function StoreCompact(store: View, k: nat): View
    requires store.base < k <= Last(store)
  {
    View(k, TermOf(store, k), store.ents[k - store.base..])
  }

  /** Compaction forgets what is at or below k but the term at k, and keeps everything above. */
  lemma StoreCompactExactly(store: View, k: nat)
    requires store.base < k <= Last(store)
    ensures var v := StoreCompact(store, k);
            && v.base == k && Last(v) == Last(store) && TermOf(v, k) == EntryAt(store, k).term
            && forall j :: k < j <= Last(store) ==> EntryAt(v, j) == EntryAt(store, j)
  {
  }

  // ---------------------------------------------------------------- the unstable part

  function TruncateAndAppend(u: Unstable, ents: seq<Entry>): Unstable
    requires ents != [] && ents[0].index <= u.offset + |u.ents|
  {
    var after := ents[0].index;
    if after <= u.offset then u.(offset := after, ents := ents)
    else u.(ents := u.ents[..after - u.offset] + ents)
  }

  predicate Drops(u: Unstable, i: nat, t: Term) {
    u.offset <= i < u.offset + |u.ents| && u.ents[i - u.offset].term == t
  }

  function StableTo(u: Unstable, i: nat, t: Term): Unstable {
    if Drops(u, i, t) then u.(offset := i + 1, ents := u.ents[i + 1 - u.offset..]) else u
  }

  function StableSnapTo(u: Unstable, i: nat): Unstable {
    if u.snap.Some? && u.snap.value.index == i then u.(snap := None) else u
  }

  /** What Advance leaves of the unstable part after the entries up to `last` and the snapshot were stored. */
  function Stabilised(u: Unstable, last: Option<(nat, Term)>, snapIndex: nat): Unstable {
    var u' := if last.Some? then StableTo(u, last.value.0, last.value.1) else u;
    if snapIndex != 0 then StableSnapTo(u', snapIndex) else u'
  }

  function Restored(s: SnapMeta): Unstable {
    Unstable(s.index + 1, [], Some(s))
  }

  // ---------------------------------------------------------------- the overlay

  function BaseOf(store: View, u: Unstable): nat {
    if u.snap.Some? then u.snap.value.index else store.base
  }

  function BaseTermOf(store: View, u: Unstable): Term {
    if u.snap.Some? then u.snap.value.term else store.baseTerm
  }

  /** Storage reaches up to the unstable part, unless a pending snapshot does. */
  predicate Reaches(store: View, u: Unstable) {
    && BaseOf(store, u) < u.offset
    && (u.offset == BaseOf(store, u) + 1 || (u.offset - 1 <= Last(store) && store.base <= BaseOf(store, u)))
  }

  /** Storage was compacted to an entry that is still in the unstable part. */
  predicate Inside(store: View, u: Unstable) {
    && u.snap.None? && u.offset <= store.base < u.offset + |u.ents|
         && store.baseTerm == u.ents[store.base - u.offset].term
  }

  ghost predicate Overlaid(store: View, u: Unstable) {
    && ValidView(store) && 0 < u.offset && IndexedFrom(u.ents, u.offset - 1)
         && (u.snap.Some? ==> 0 < u.snap.value.index)
    && (Reaches(store, u) || Inside(store, u))
  }

  /** What storage holds after position lo, up to hi. */
  function Part(store: View, lo: nat, hi: nat): seq<Entry>
    requires store.base <= lo <= hi <= Last(store)
  {
    store.ents[lo - store.base..hi - store.base]
  }

  /** The part of the log that is read from storage. */
  function StoredPart(store: View, u: Unstable): (p: seq<Entry>)
    requires Reaches(store, u)
    ensures |p| == u.offset - 1 - BaseOf(store, u)
  {
    var b := BaseOf(store, u);
    if u.offset == b + 1 then [] else Part(store, b, u.offset - 1)
  }

  /** The log the two parts stand for. */
  function LogOf(store: View, u: Unstable): (v: View)
    requires Overlaid(store, u)
    ensures ValidView(v) && Last(v) == u.offset - 1 + |u.ents| && v.base == BaseOf(store, u)
  {
    if Reaches(store, u) then View(BaseOf(store, u), BaseTermOf(store, u), StoredPart(store, u) + u.ents)
    else View(store.base, store.baseTerm, u.ents[store.base + 1 - u.offset..])
  }

  /** A pending snapshot is where the unstable part begins; with nothing unstable, storage ends where it begins. */
  ghost predicate Coherent(store: View, u: Unstable) {
    && Overlaid(store, u)
    && (u.snap.Some? ==> u.offset == u.snap.value.index + 1)
    && (u.snap.None? && u.ents == [] ==> u.offset == Last(store) + 1)
  }

  /** Entries lo up to but not including hi of a log. */
  function ViewSlice(v: View, lo: nat, hi: nat): (r: seq<Entry>)
    requires v.base < lo <= hi <= Last(v) + 1
    ensures |r| == hi - lo
  {
    v.ents[lo - v.base - 1..hi - v.base - 1]
  }

  lemma SliceFromStore(store: View, u: Unstable, lo: nat, hi: nat)
    requires Overlaid(store, u) && BaseOf(store, u) < lo <= hi <= u.offset && lo < u.offset
    ensures store.base <= BaseOf(store, u) && u.offset - 1 <= Last(store)
    ensures Part(store, lo - 1, hi - 1) == ViewSlice(LogOf(store, u), lo, hi)
  {
    var b := BaseOf(store, u);
    assert StoredPart(store, u)[lo - b - 1..hi - b - 1] == Part(store, lo - 1, hi - 1);
  }

  lemma SliceFromUnstable(store: View, u: Unstable, lo: nat, hi: nat)
    requires Overlaid(store, u) && u.offset <= lo <= hi <= u.offset + |u.ents| && BaseOf(store, u) < lo
    ensures u.ents[lo - u.offset..hi - u.offset] == ViewSlice(LogOf(store, u), lo, hi)
  {
  }

  lemma SliceJoins(v: View, lo: nat, mid: nat, hi: nat)
    requires v.base < lo <= mid <= hi <= Last(v) + 1
    ensures ViewSlice(v, lo, mid) + ViewSlice(v, mid, hi) == ViewSlice(v, lo, hi)
  {
  }

  /** A log just opened is what storage holds. */
  lemma WholeStore(store: View)
    requires ValidView(store)
    ensures var u := Unstable(Last(store) + 1, [], None); Coherent(store, u) && LogOf(store, u) == store
  {
  }

  lemma CutFirst(a: seq<Entry>, b: seq<Entry>, n: nat)
    requires n <= |a|
    ensures (a + b)[..n] == a[..n]
  {
  }

  lemma CutSecond(a: seq<Entry>, b: seq<Entry>, n: nat)
    requires |a| <= n <= |a| + |b|
    ensures (a + b)[..n] == a + b[..n - |a|]
  {
  }

  lemma AppendStaysOverlaid(store: View, u: Unstable, ents: seq<Entry>)
    requires Overlaid(store, u) && ents != [] && 0 < ents[0].index && IndexedFrom(ents, ents[0].index - 1)
    requires BaseOf(store, u) < ents[0].index <= u.offset + |u.ents|
    ensures Overlaid(store, TruncateAndAppend(u, ents))
            && (Reaches(store, TruncateAndAppend(u, ents)) <==> Reaches(store, u))
  {
  }

  lemma InsideOverwrites(store: View, u: Unstable, ents: seq<Entry>)
    requires Inside(store, u) && ents != [] && store.base < ents[0].index <= u.offset + |u.ents|
    ensures var d, u' := store.base + 1 - u.offset, TruncateAndAppend(u, ents);
            u'.ents[d..] == u.ents[d..][..ents[0].index - store.base - 1] + ents
  {
    var d := store.base + 1 - u.offset;
    assert (u.ents[..ents[0].index - u.offset] + ents)[d..] == u.ents[d..][..ents[0].index - store.base - 1] + ents;
  }

  lemma ReachingOverwrites(store: View, u: Unstable, ents: seq<Entry>)
    requires Reaches(store, u) && ents != [] && BaseOf(store, u) < ents[0].index <= u.offset + |u.ents|
    requires Reaches(store, TruncateAndAppend(u, ents))
    ensures var n, u' := ents[0].index - BaseOf(store, u) - 1, TruncateAndAppend(u, ents);
            StoredPart(store, u') + u'.ents == (StoredPart(store, u) + u.ents)[..n] + ents
  {
    hide StoredPart;
    var n := ents[0].index - BaseOf(store, u) - 1;
    StoredCut(store, u, TruncateAndAppend(u, ents));
    var stored := StoredPart(store, u);
    if ents[0].index <= u.offset {
      CutFirst(stored, u.ents, n);
    } else {
      CutSecond(stored, u.ents, n);
      var kept := u.ents[..ents[0].index - u.offset];
      assert stored[..|stored|] == stored;
      assert stored + (kept + ents) == (stored + kept) + ents;
    }
  }

  /** Writing entries to the unstable part overwrites the log. */
  lemma AppendOverwrites(store: View, u: Unstable, ents: seq<Entry>)
    requires Overlaid(store, u) && ents != [] && 0 < ents[0].index && IndexedFrom(ents, ents[0].index - 1)
    requires BaseOf(store, u) < ents[0].index <= Last(LogOf(store, u)) + 1
    ensures Overlaid(store, TruncateAndAppend(u, ents))
    ensures LogOf(store, TruncateAndAppend(u, ents)) == Overwrite(LogOf(store, u), ents)
  {
    hide Overlaid, IndexedFrom, ValidView, StoredPart, Reaches;
    AppendStaysOverlaid(store, u, ents);
    if Reaches(store, u) {
      ReachingOverwrites(store, u, ents);
    } else {
      InsideOrReaches(store, u);
      InsideOverwrites(store, u, ents);
    }
  }

  lemma InsideOrReaches(store: View, u: Unstable)
    requires Overlaid(store, u)
    ensures Reaches(store, u) || Inside(store, u)
  {
  }

  /** With an earlier offset, less is read from storage. */
  lemma StoredCut(store: View, u: Unstable, u': Unstable)
    requires Reaches(store, u) && Reaches(store, u') && u'.snap == u.snap && u'.offset <= u.offset
    ensures StoredPart(store, u') == StoredPart(store, u)[..u'.offset - 1 - BaseOf(store, u)]
  {
    hide Part;
    var b := BaseOf(store, u);
    if u'.offset != b + 1 {
      PartCut(store, b, u'.offset - 1, u.offset - 1);
    }
  }

  lemma PartCut(store: View, lo: nat, mid: nat, hi: nat)
    requires store.base <= lo <= mid <= hi <= Last(store)
    ensures Part(store, lo, mid) == Part(store, lo, hi)[..mid - lo]
  {
  }

  lemma PartMore(store: View, lo: nat, mid: nat, hi: nat)
    requires store.base <= lo <= mid <= hi <= Last(store)
    ensures Part(store, lo, hi) == Part(store, lo, mid) + Part(store, mid, hi)
  {
  }

  /** Of the entries from the offset to i, storage holds those it was not compacted behind, just as the unstable part
      does. */
  ghost predicate Holds(store: View, u: Unstable, i: nat) {
    && store.base <= BaseOf(store, u) && i < u.offset + |u.ents|
    && (i <= store.base || i <= Last(store))
    && forall k :: u.offset <= k <= i && store.base < k ==> EntryAt(store, k) == u.ents[k - u.offset]
  }

  lemma HeldPart(store: View, u: Unstable, lo: nat, i: nat)
    requires Holds(store, u, i) && u.offset <= lo + 1 && store.base <= lo <= i
    ensures i <= Last(store) && Part(store, lo, i) == u.ents[lo + 1 - u.offset..i + 1 - u.offset]
  {
    var p := Part(store, lo, i);
    forall k | 0 <= k < |p| ensures p[k] == u.ents[lo + 1 - u.offset + k] {
      assert EntryAt(store, lo + 1 + k) == u.ents[lo + 1 + k - u.offset];
    }
  }

  lemma DropOverlaid(store: View, u: Unstable, i: nat, t: Term)
    requires Overlaid(store, u) && Drops(u, i, t) && Holds(store, u, i)
    ensures Overlaid(store, StableTo(u, i, t)) && (Reaches(store, StableTo(u, i, t)) <==> BaseOf(store, u) <= i)
    ensures Reaches(store, u) ==> store.base <= BaseOf(store, u) <= u.offset - 1 <= i <= Last(store)
  {
  }

  lemma DropOfHeld(store: View, u: Unstable, i: nat, t: Term)
    requires Overlaid(store, u) && Drops(u, i, t) && Holds(store, u, i)
    ensures Overlaid(store, StableTo(u, i, t)) && LogOf(store, StableTo(u, i, t)) == LogOf(store, u)
  {
    hide Overlaid, Reaches, Inside, Holds, LogOf, Part;
    DropOverlaid(store, u, i, t);
    InsideOrReaches(store, u);
    if Reaches(store, u) {
      DropReaching(store, u, i, t);
    } else {
      DropInside(store, u, i, t);
    }
  }

  lemma DropReaching(store: View, u: Unstable, i: nat, t: Term)
    requires Overlaid(store, u) && Reaches(store, u) && Drops(u, i, t) && Holds(store, u, i)
    requires Overlaid(store, StableTo(u, i, t))
    ensures LogOf(store, StableTo(u, i, t)) == LogOf(store, u)
  {
    hide Overlaid, Holds, StoredPart, Part, Reaches;
    var u' := StableTo(u, i, t);
    DropOverlaid(store, u, i, t);
    HeldPart(store, u, u.offset - 1, i);
    StoredMore(store, u, u');
    Regroup(StoredPart(store, u), u.ents, i + 1 - u.offset);
  }

  lemma Regroup(a: seq<Entry>, b: seq<Entry>, n: nat)
    requires n <= |b|
    ensures a + b == (a + b[..n]) + b[n..]
  {
  }

  lemma DropInside(store: View, u: Unstable, i: nat, t: Term)
    requires Overlaid(store, u) && Inside(store, u) && Drops(u, i, t) && Holds(store, u, i)
             && Overlaid(store, StableTo(u, i, t))
    ensures LogOf(store, StableTo(u, i, t)) == LogOf(store, u)
  {
    var b, u' := store.base, StableTo(u, i, t);
    if b <= i {
      HeldPart(store, u, b, i);
      assert StoredPart(store, u') == Part(store, b, i);
      assert u.ents[b + 1 - u.offset..] == u.ents[b + 1 - u.offset..i + 1 - u.offset] + u'.ents;
    } else {
      assert u'.ents[b + 1 - u'.offset..] == u.ents[b + 1 - u.offset..];
    }
  }

  /** With a later offset, more is read from storage. */
  lemma StoredMore(store: View, u: Unstable, u': Unstable)
    requires Reaches(store, u) && Reaches(store, u') && u'.snap == u.snap && u.offset < u'.offset
    requires store.base <= u.offset - 1 <= u'.offset - 1 <= Last(store)
    ensures StoredPart(store, u') == StoredPart(store, u) + Part(store, u.offset - 1, u'.offset - 1)
  {
    hide Part;
    var b := BaseOf(store, u);
    if u.offset == b + 1 {
      assert [] + Part(store, b, u'.offset - 1) == Part(store, b, u'.offset - 1);
    } else {
      PartMore(store, b, u.offset - 1, u'.offset - 1);
    }
  }

  lemma DropNeedsHeld(store: View, u: Unstable, i: nat, t: Term, k: nat)
    requires Overlaid(store, u) && Drops(u, i, t) && u.offset <= k <= i && BaseOf(store, u) < k
    requires Overlaid(store, StableTo(u, i, t)) && LogOf(store, StableTo(u, i, t)) == LogOf(store, u)
    ensures store.base <= BaseOf(store, u) && i <= Last(store) && EntryAt(store, k) == u.ents[k - u.offset]
  {
    hide ValidView, IndexedFrom;
    var b, u' := BaseOf(store, u), StableTo(u, i, t);
    assert Reaches(store, u');
    assert LogOf(store, u').ents[k - b - 1] == StoredPart(store, u')[k - b - 1] == EntryAt(store, k);
    UnstableEntry(store, u, k);
  }

  lemma UnstableEntry(store: View, u: Unstable, k: nat)
    requires Overlaid(store, u) && u.offset <= k < u.offset + |u.ents| && BaseOf(store, u) < k
    ensures EntryAt(LogOf(store, u), k) == u.ents[k - u.offset]
  {
  }

  /** Dropping entries from the unstable part loses nothing exactly when storage already holds them. */
  lemma StableToKeeps(store: View, u: Unstable, i: nat, t: Term)
    requires Overlaid(store, u) && Drops(u, i, t)
    ensures (Overlaid(store, StableTo(u, i, t)) && LogOf(store, StableTo(u, i, t)) == LogOf(store, u)) <==>
            Holds(store, u, i)
  {
    hide LogOf;
    if Holds(store, u, i) {
      DropOfHeld(store, u, i, t);
    } else if Overlaid(store, StableTo(u, i, t)) && LogOf(store, StableTo(u, i, t)) == LogOf(store, u) {
      if BaseOf(store, u) < i { DropNeedsHeld(store, u, i, t, i); }
      forall k | u.offset <= k <= i && BaseOf(store, u) < k ensures EntryAt(store, k) == u.ents[k - u.offset] {
        DropNeedsHeld(store, u, i, t, k);
      }
      assert false;
    }
  }

  /** Appending to storage at or after the offset does not show. */
  lemma StoreAppendHidden(store: View, u: Unstable, ents: seq<Entry>)
    requires Overlaid(store, u) && (ents != [] ==>
             u.offset <= ents[0].index <= Last(store) + 1 && IndexedFrom(ents, ents[0].index - 1))
    requires store.base <= BaseOf(store, u)
    ensures StoreAppend(store, ents).Some?
    ensures Overlaid(StoreAppend(store, ents).value, u) && LogOf(StoreAppend(store, ents).value, u) == LogOf(store, u)
  {
    StoreAppendKeeps(store, u.offset, ents);
    var store' := StoreAppend(store, ents).value;
    hide StoreAppend, IndexedFrom;
    assert LogOf(store', u).ents == LogOf(store, u).ents;
  }

  /** What is before the appended entries stays. */
  lemma StoreAppendKeeps(store: View, offset: nat, ents: seq<Entry>)
    requires ValidView(store) && 0 < offset
    requires ents != [] ==> offset <= ents[0].index <= Last(store) + 1 && IndexedFrom(ents, ents[0].index - 1)
    ensures StoreAppend(store, ents).Some?
    ensures var v := StoreAppend(store, ents).value;
            && ValidView(v) && v.base == store.base && v.baseTerm == store.baseTerm
            && (offset - 1 <= Last(store) && ents != [] ==> offset - 1 <= Last(v)) && (ents == [] ==> v == store)
            && (store.base < offset <= Last(store) + 1 ==>
                  offset <= Last(v) + 1 && v.ents[..offset - 1 - store.base] == store.ents[..offset - 1 - store.base])
  {
  }

  /** Compacting storage moves the beginning of the log and nothing else. */
  lemma CompactMovesBase(store: View, u: Unstable, k: nat)
    requires Overlaid(store, u) && u.snap == None && store.base < k <= Last(store) && k < u.offset + |u.ents|
    requires TermOf(store, k) == TermOf(LogOf(store, u), k)
    ensures Overlaid(StoreCompact(store, k), u)
    ensures LogOf(StoreCompact(store, k), u) ==
            View(k, TermOf(LogOf(store, u), k), LogOf(store, u).ents[k - store.base..])
  {
    var store' := StoreCompact(store, k);
    assert ValidView(store');
    assert LogOf(store', u).ents == LogOf(store, u).ents[k - store.base..];
  }

  // ---------------------------------------------------------------- Advance

  /** Storage ends with a Ready's last entry and begins with its snapshot, and what Advance drops is there. */
  ghost predicate ReadyStored(store: View, u: Unstable, last: Option<(nat, Term)>, snapIndex: nat) {
    && (last.Some? ==> Last(store) == last.value.0 && DropIsStored(store, u, last.value.0, last.value.1, snapIndex))
    && (snapIndex != 0 ==> store.base == snapIndex && (last.None? ==> Last(store) == snapIndex))
    && (snapIndex != 0 && u.snap.Some? && u.snap.value.index == snapIndex ==>
          store.baseTerm == u.snap.value.term && (u.ents == [] ==> last.None?))
  }

  /** No other snapshot than the Ready's own is pending while entries are dropped. */
  ghost predicate DropIsStored(store: View, u: Unstable, i: nat, t: Term, snapIndex: nat) {
    Drops(u, i, t) ==> Holds(store, u, i) && (u.snap.Some? ==> u.snap.value.index == snapIndex)
  }

  /** Storage has applied the pending snapshot. */
  lemma SnapStableKeeps(store: View, u: Unstable, i: nat)
    requires Overlaid(store, u) && u.snap.Some? && u.snap.value.index == i == store.base
             && u.snap.value.term == store.baseTerm
    ensures Overlaid(store, StableSnapTo(u, i)) && LogOf(store, StableSnapTo(u, i)) == LogOf(store, u)
  {
  }

  lemma DropEnds(store: View, u: Unstable, i: nat, t: Term)
    requires Coherent(store, u) && Drops(u, i, t) && Last(store) == i
    ensures var u' := StableTo(u, i, t); (u'.ents == [] ==> u'.offset == Last(store) + 1)
  {
  }

  /** Advance leaves the log as it was once the Ready is stored. */
  lemma StabilisedKeeps(store: View, u: Unstable, last: Option<(nat, Term)>, snapIndex: nat)
    requires Coherent(store, u) && ReadyStored(store, u, last, snapIndex)
    ensures var u' := Stabilised(u, last, snapIndex); Coherent(store, u') && LogOf(store, u') == LogOf(store, u)
  {
    assert u.snap.Some? ==> 0 < u.snap.value.index;
    hide Overlaid, Reaches, Inside, Holds, LogOf;
    var u1 := if last.Some? then StableTo(u, last.value.0, last.value.1) else u;
    if last.Some? && Drops(u, last.value.0, last.value.1) {
      DropOfHeld(store, u, last.value.0, last.value.1);
      DropEnds(store, u, last.value.0, last.value.1);
    }
    if snapIndex != 0 && u1.snap.Some? && u1.snap.value.index == snapIndex {
      SnapStableKeeps(store, u1, snapIndex);
    }
  }
}
