/** How the application consumes committed entries and snapshots the state they led to (raftexample/raft.go). */
module Publishing {
  import opened RaftTypes
  import opened LogView
  import opened LogStore
  import opened Storage
  import opened Varint

  const SNAP_COUNT: nat := 10000
  const CATCH_UP: nat := 10000

  function Sub64(a: nat, b: nat): nat {
    (a - b) % TWO_64
  }

  function Add64(a: nat, b: nat): nat {
    (a + b) % TWO_64
  }

  /** The entries of a batch that were not applied yet; None is the fatal gap. */
  function EntriesToApply(applied: nat, ents: seq<Entry>): Option<seq<Entry>> {
    if ents == [] then Some([])
    else if ents[0].index > Add64(applied, 1) then None
    else
      var off := Add64(Sub64(applied, ents[0].index), 1);
      Some(if off < |ents| then ents[off..] else [])
  }

  /** The subtraction wraps exactly when the batch starts at the next position, and the addition undoes it. */
  lemma OffsetIsRight(applied: nat, first: nat)
    requires first <= applied + 1 < TWO_64
    ensures Add64(Sub64(applied, first), 1) == applied + 1 - first && Add64(applied, 1) == applied + 1
  {
    assert Sub64(applied, first) == if first == applied + 1 then TWO_64 - 1 else applied - first;
  }

  /** What is still to apply of any batch without gaps: exactly the entries above what was applied; a batch that starts
      beyond the next position is fatal. */
  lemma EntriesToApplyExactly(applied: nat, ents: seq<Entry>)
    requires ents != [] ==> ents[0].index > 0 && IndexedFrom(ents, ents[0].index - 1)
    requires applied < TWO_64 - 1
    ensures var r := EntriesToApply(applied, ents);
            && (r == None <==> ents != [] && ents[0].index > applied + 1)
            && (r.Some? ==>
                  && |r.value| <= |ents| && r.value == ents[|ents| - |r.value|..]
                  && (forall e :: e in r.value ==> e.index > applied)
                  && (forall e :: e in ents[..|ents| - |r.value|] ==> e.index <= applied))
  {
    if ents != [] && ents[0].index <= applied + 1 {
      OffsetIsRight(applied, ents[0].index);
      hide Add64, Sub64;
      var off := applied + 1 - ents[0].index;
      if off >= |ents| { assert ents[..|ents|] == ents; }
    }
  }

  lemma Sub64Exact(a: nat, b: nat)
    requires b <= a < TWO_64
    ensures Sub64(a, b) == a - b
  {
  }

  // ---------------------------------------------------------------- what the state machine sees

  datatype Seen = Applied(e: Entry) | Jumped(index: nat)

  function PositionOf(m: Seen): nat {
    match m
    case Applied(e) => e.index
    case Jumped(index) => index
  }

  /** Entries one by one in order of position, without gap or repeat, except for jumps forward to a snapshot. */
  ghost predicate Contiguous(trail: seq<Seen>) {
    && trail != []
    && forall i {:trigger trail[i]} :: 0 < i < |trail| ==>
         if trail[i].Applied? then PositionOf(trail[i]) == PositionOf(trail[i - 1]) + 1
         else PositionOf(trail[i - 1]) < PositionOf(trail[i])
  }

  function AllApplied(ents: seq<Entry>): seq<Seen> {
    seq(|ents|, i requires 0 <= i < |ents| => Applied(ents[i]))
  }

  datatype Published = Fatal | Done(applied: nat, seen: seq<Seen>)

  /** One Ready's snapshot, then its committed entries. */
  function Publish(applied: nat, snap: Option<nat>, batch: seq<Entry>): Published {
    if snap.Some? && snap.value <= applied then Fatal
    else
      var applied' := if snap.Some? then snap.value else applied;
      var jump := if snap.Some? then [Jumped(snap.value)] else [];
      match EntriesToApply(applied', batch)
      case None => Fatal
      case Some(ents) => Done(if ents == [] then applied' else ents[|ents| - 1].index, jump + AllApplied(ents))
  }

  /** When publishing is fatal, and what is seen otherwise: a snapshot that is ahead, and then exactly the entries of
      the batch above it or above what was applied. */
  lemma PublishExactly(applied: nat, snap: Option<nat>, batch: seq<Entry>)
    requires batch != [] ==> batch[0].index > 0 && IndexedFrom(batch, batch[0].index - 1)
    requires applied < TWO_64 - 1 && (snap.Some? ==> snap.value < TWO_64 - 1)
    ensures var p, from := Publish(applied, snap, batch), if snap.Some? then snap.value else applied;
            && (p == Fatal <==> (snap.Some? && snap.value <= applied) || (batch != [] && batch[0].index > from + 1))
            && (p.Done? ==> exists rest: seq<Entry> ::
                 && |rest| <= |batch| && rest == batch[|batch| - |rest|..]
                 && (forall e :: e in rest ==> e.index > from)
                 && (forall e :: e in batch[..|batch| - |rest|] ==> e.index <= from)
                 && p.seen == (if snap.Some? then [Jumped(from)] else []) + AllApplied(rest)
                 && p.applied == if rest == [] then from else rest[|rest| - 1].index)
  {
    var from := if snap.Some? then snap.value else applied;
    EntriesToApplyExactly(from, batch);
    hide EntriesToApply, AllApplied;
    if EntriesToApply(from, batch).Some? {
      var rest := EntriesToApply(from, batch).value;
      assert |rest| <= |batch| && rest == batch[|batch| - |rest|..];
    }
  }

  /** A batch that follows what was applied, or the snapshot, is published whole. */
  lemma PublishesAll(applied: nat, snap: Option<nat>, batch: seq<Entry>)
    requires snap.Some? ==> applied < snap.value
    requires var lo := if snap.Some? then snap.value else applied; IndexedFrom(batch, lo) && lo + |batch| < TWO_64 - 1
    ensures var lo := if snap.Some? then snap.value else applied;
            Publish(applied, snap, batch) ==
                Done(lo + |batch|, (if snap.Some? then [Jumped(lo)] else []) + AllApplied(batch))
  {
    var lo := if snap.Some? then snap.value else applied;
    if batch != [] {
      OffsetIsRight(lo, lo + 1);
      assert batch[0..] == batch;
    }
  }

  /** Publishing such a batch keeps the trail contiguous. */
  lemma PublishContiguous(trail: seq<Seen>, applied: nat, snap: Option<nat>, batch: seq<Entry>)
    requires Contiguous(trail) && PositionOf(trail[|trail| - 1]) == applied && (snap.Some? ==> applied < snap.value)
    requires IndexedFrom(batch, if snap.Some? then snap.value else applied)
    ensures var lo := if snap.Some? then snap.value else applied;
            var trail' := trail + ((if snap.Some? then [Jumped(lo)] else []) + AllApplied(batch));
            Contiguous(trail') && PositionOf(trail'[|trail'| - 1]) == lo + |batch|
  {
  }

  // ---------------------------------------------------------------- the node's own bookkeeping

  class Applier {
    const storage: MemoryStorage
    var appliedIndex: nat
    var snapshotIndex: nat

    ghost predicate Valid()
      reads this, storage
    {
      && storage.Valid() && snapshotIndex == storage.snapshot.index
      && storage.Stored().base <= snapshotIndex <= appliedIndex <= Last(storage.Stored()) && appliedIndex < TWO_64 - 1
    }

    constructor (storage: MemoryStorage)
      requires storage.Valid() && storage.Stored().base <= storage.snapshot.index <= Last(storage.Stored()) < TWO_64 - 1
      ensures Valid() && this.storage == storage && appliedIndex == snapshotIndex == storage.snapshot.index
    {
      this.storage := storage;
      appliedIndex, snapshotIndex := storage.snapshot.index, storage.snapshot.index;
    }

    /** A snapshot moves both positions; one that is not ahead of what was applied is fatal. */
    method PublishSnapshot(s: SnapMeta) returns (ok: bool)
      modifies this
      ensures ok <==> s.index == 0 || s.index > old(appliedIndex)
      ensures (appliedIndex, snapshotIndex) == if ok && s.index != 0 then (s.index, s.index)
              else (old(appliedIndex), old(snapshotIndex))
    {
      if s.index == 0 { return true; }
      if s.index <= appliedIndex { return false; }
      snapshotIndex, appliedIndex := s.index, s.index;
      ok := true;
    }

    method PublishEntries(ents: seq<Entry>) returns (ok: bool, published: seq<Seen>)
      modifies this`appliedIndex
      ensures match Publish(old(appliedIndex), None, ents)
              case Fatal => !ok && appliedIndex == old(appliedIndex)
              case Done(applied, seen) => ok && appliedIndex == applied && published == seen
    {
      published := [];
      var todo := EntriesToApply(appliedIndex, ents);
      if todo.None? { return false, []; }
      for i := 0 to |todo.value|
        invariant published == AllApplied(todo.value[..i]) && appliedIndex == old(appliedIndex)
      {
        published := published + [Applied(todo.value[i])];
      }
      assert todo.value[..|todo.value|] == todo.value;
      if todo.value != [] {
        appliedIndex := todo.value[|todo.value| - 1].index;
      }
      ok := true;
    }

    /** Taking a snapshot and compacting never fails, and neither does the subtraction wrap. */
    method MaybeTriggerSnapshot() returns (failed: bool)
      requires Valid()
      modifies this`snapshotIndex, storage
      ensures !failed && Valid()
      ensures if appliedIndex - old(snapshotIndex) > SNAP_COUNT
              then
                && snapshotIndex == appliedIndex
                && storage.Stored() == StoreCompact(old(storage.Stored()), appliedIndex - CATCH_UP)
                && storage.snapshot == SnapMeta(appliedIndex, TermOf(old(storage.Stored()), appliedIndex))
              else
                && snapshotIndex == old(snapshotIndex) && storage.Stored() == old(storage.Stored())
                && storage.snapshot == old(storage.snapshot)
    {
      hide Sub64;
      Sub64Exact(appliedIndex, snapshotIndex);
      if Sub64(appliedIndex, snapshotIndex) <= SNAP_COUNT { return false; }
      var err := storage.CreateSnapshot(appliedIndex);
      if err != NoError { return true; }
      var compactIndex := 1;
      if appliedIndex > CATCH_UP {
        Sub64Exact(appliedIndex, CATCH_UP);
        compactIndex := Sub64(appliedIndex, CATCH_UP);
      }
      err := storage.Compact(compactIndex);
      if err != NoError { return true; }
      snapshotIndex := appliedIndex;
      failed := false;
    }
  }
}
