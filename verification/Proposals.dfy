/**
 What a leader lets into its log: at most one configuration change on its way, and a bounded
 amount of uncommitted payload (etcd/raft/raft.go).
 */
module Proposals {
  import opened RaftTypes

  /** A proposed entry; `leaves` says that a configuration change decodes to one without changes. */
  datatype Item = Item(kind: Kind, data: seq<Byte>, leaves: bool)

  const EMPTY := Item(Normal, [], false)

  function Stamp(items: seq<Item>, last: nat, term: Term): seq<Entry> {
    seq(|items|, i requires 0 <= i < |items| => Entry(last + 1 + i, term, items[i].kind, items[i].data))
  }

  function Payload(ents: seq<Entry>): nat {
    if ents == [] then 0 else Payload(ents[..|ents| - 1]) + |ents[|ents| - 1].data|
  }

  lemma {:induction false} PayloadSplits(a: seq<Entry>, b: seq<Entry>)
    ensures Payload(a + b) == Payload(a) + Payload(b)
    decreases |b|
  {
    if b == [] {
      assert a + b == a;
    } else {
      assert (a + b)[..|a + b| - 1] == a + b[..|b| - 1];
      PayloadSplits(a, b[..|b| - 1]);
    }
  }

  lemma OnePayload(e: Entry)
    ensures Payload([e]) == |e.data|
  {
    assert [e][..0] == [];
  }

  // ---------------------------------------------------------------- screening configuration changes

  predicate Refused(it: Item, pending: bool, joint: bool) {
    pending || (joint && !it.leaves) || (!joint && it.leaves)
  }

  datatype Screening = Screening(items: seq<Item>, pendingConf: nat)

  /** The first n items of a proposal, refused changes replaced, and the new position of the pending change. */
  function Screen(items: seq<Item>, n: nat, last: nat, applied: nat, pendingConf: nat, joint: bool): (s: Screening)
    requires n <= |items|
    ensures |s.items| == n
  {
    if n == 0 then Screening([], pendingConf)
    else
      var s := Screen(items, n - 1, last, applied, pendingConf, joint);
      var it := items[n - 1];
      if it.kind == Normal then s.(items := s.items + [it])
      else if Refused(it, s.pendingConf > applied, joint) then s.(items := s.items + [EMPTY])
      else Screening(s.items + [it], last + n)
  }

  /** A batch lets at most one change through, only when none can be pending, and remembers where it will be. */
  lemma {:induction false} ScreenedOnce(items: seq<Item>, n: nat, last: nat, applied: nat, pendingConf: nat,
      joint: bool)
    requires n <= |items| && applied <= last
    ensures var s := Screen(items, n, last, applied, pendingConf, joint);
            && (s.pendingConf != pendingConf ==> pendingConf <= applied && last < s.pendingConf <= last + n)
            && (forall k :: 0 <= k < n && s.items[k].kind != Normal ==>
                 s.pendingConf == last + k + 1 && pendingConf <= applied)
            && (forall k :: 0 <= k < n ==> s.items[k] == items[k] || (s.items[k] == EMPTY && items[k].kind != Normal))
    decreases n
  {
    if n > 0 {
      ScreenedOnce(items, n - 1, last, applied, pendingConf, joint);
    }
  }

  /** None of the first n items is a change of the kind the configuration allows. */
  predicate NoneBefore(items: seq<Item>, n: nat, joint: bool)
    requires n <= |items|
  {
    forall j :: 0 <= j < n && items[j].kind != Normal ==> items[j].leaves != joint
  }

  /** A change goes in if none is pending, it leaves a joint configuration exactly when there is one to leave, and no
      change before it in the same proposal goes in. */
  predicate Admitted(items: seq<Item>, k: nat, mayChange: bool, joint: bool)
    requires k < |items|
  {
    items[k].kind == Normal || (mayChange && items[k].leaves == joint && NoneBefore(items, k, joint))
  }

  /** Screening, item by item: what is admitted stays as it is, the rest becomes an empty entry. */
  lemma {:induction false} ScreenedExactly(items: seq<Item>, n: nat, last: nat, applied: nat, pendingConf: nat,
      joint: bool)
    requires n <= |items| && applied <= last
    ensures var s := Screen(items, n, last, applied, pendingConf, joint);
            && (forall k :: 0 <= k < n ==>
                 s.items[k] == if Admitted(items, k, pendingConf <= applied, joint) then items[k] else EMPTY)
            && (s.pendingConf > applied <==> pendingConf > applied || !NoneBefore(items, n, joint))
    decreases n
  {
    if n > 0 {
      ScreenedExactly(items, n - 1, last, applied, pendingConf, joint);
      var it := items[n - 1];
      assert NoneBefore(items, n, joint) <==>
             NoneBefore(items, n - 1, joint) && (it.kind == Normal || it.leaves != joint);
      hide NoneBefore;
    }
  }

  /** A change that is admitted is the first of its kind, and the pending position goes there; without one it stays. */
  lemma {:induction false} PendingExactly(items: seq<Item>, n: nat, last: nat, applied: nat, pendingConf: nat,
      joint: bool)
    requires n <= |items| && applied <= last
    ensures var p, may := Screen(items, n, last, applied, pendingConf, joint).pendingConf, pendingConf <= applied;
            && (forall k :: 0 <= k < n && items[k].kind != Normal && Admitted(items, k, may, joint) ==>
                 p == last + k + 1)
            && (!may || NoneBefore(items, n, joint) ==> p == pendingConf)
    decreases n
  {
    if n > 0 {
      var it, may := items[n - 1], pendingConf <= applied;
      ScreenedExactly(items, n - 1, last, applied, pendingConf, joint);
      PendingExactly(items, n - 1, last, applied, pendingConf, joint);
      var p0 := Screen(items, n - 1, last, applied, pendingConf, joint).pendingConf;
      var p := Screen(items, n, last, applied, pendingConf, joint).pendingConf;
      assert p == if it.kind != Normal && it.leaves == joint && p0 <= applied then last + n else p0;
      hide Screen;
      assert NoneBefore(items, n, joint) ==> NoneBefore(items, n - 1, joint);
      assert forall k :: 0 <= k < n - 1 && items[k].kind != Normal && Admitted(items, k, may, joint) ==>
               !NoneBefore(items, n - 1, joint);
    }
  }

  /** Every entry a proposal becomes: its position, the leader's term, and the kind and data proposed, or nothing. */
  ghost predicate BecomesLog(log: seq<Entry>, base: nat, term: Term, items: seq<Item>, mayChange: bool, joint: bool) {
    && |log| == base + |items|
    && forall k :: 0 <= k < |items| ==>
         var x := log[base + k];
         && x.index == base + k + 1 && x.term == term
         && (if Admitted(items, k, mayChange, joint) then x.kind == items[k].kind && x.data == items[k].data
             else x.kind == Normal && x.data == [])
  }

  lemma StampedExactly(items: seq<Item>, log: seq<Entry>, term: Term, applied: nat, pendingConf: nat, joint: bool)
    requires applied <= |log|
    ensures var s := Screen(items, |items|, |log|, applied, pendingConf, joint);
            BecomesLog(log + Stamp(s.items, |log|, term), |log|, term, items, pendingConf <= applied, joint)
  {
    hide Admitted, Screen;
    ScreenedExactly(items, |items|, |log|, applied, pendingConf, joint);
  }

  // ---------------------------------------------------------------- the leader

  predicate IsConf(log: seq<Entry>, i: nat) {
    0 < i <= |log| && log[i - 1].kind != Normal
  }

  /** Unapplied changes lie at or below the pending position; once the leader let one in, only there. */
  ghost predicate ConfOk(log: seq<Entry>, applied: nat, pendingConf: nat, own: bool) {
    forall i: nat :: applied < i && IsConf(log, i) ==> i <= pendingConf && (own ==> i == pendingConf)
  }

  ghost predicate NoPendingConf(log: seq<Entry>, applied: nat) {
    forall i: nat :: applied < i ==> !IsConf(log, i)
  }

  /** What may be appended: changes only if none is pending, and only where the pending position says. */
  ghost predicate Admissible(items: seq<Item>, log: seq<Entry>, applied: nat, pendingConf: nat, own: bool) {
    forall k :: 0 <= k < |items| && items[k].kind != Normal ==>
        own && pendingConf == |log| + k + 1 && NoPendingConf(log, applied)
  }

  lemma AppendConf(items: seq<Item>, log: seq<Entry>, term: Term, applied: nat, pendingConf: nat, own: bool)
    requires ConfOk(log, applied, pendingConf, own) && Admissible(items, log, applied, pendingConf, own)
    requires IndexedFrom(log, 0)
    ensures ConfOk(log + Stamp(items, |log|, term), applied, pendingConf, own)
    ensures IndexedFrom(log + Stamp(items, |log|, term), 0)
  {
    var log' := log + Stamp(items, |log|, term);
    forall i: nat | applied < i && IsConf(log', i) ensures i <= pendingConf && (own ==> i == pendingConf) {
      if i > |log| {
        assert items[i - |log| - 1].kind != Normal;
      } else {
        assert IsConf(log, i);
      }
    }
  }

  /** Screening keeps the pending position right, whether or not the proposal is then dropped. */
  lemma ScreenedAdmissible(items: seq<Item>, log: seq<Entry>, applied: nat, pendingConf: nat, joint: bool, own: bool)
    requires ConfOk(log, applied, pendingConf, own) && applied <= |log|
    ensures var s := Screen(items, |items|, |log|, applied, pendingConf, joint);
            var own' := own || s.pendingConf != pendingConf;
            ConfOk(log, applied, s.pendingConf, own') && Admissible(s.items, log, applied, s.pendingConf, own')
  {
    hide Screen;
    ScreenedOnce(items, |items|, |log|, applied, pendingConf, joint);
  }

  lemma AppliedConf(log: seq<Entry>, applied: nat, newApplied: nat, pendingConf: nat, own: bool)
    requires ConfOk(log, applied, pendingConf, own) && applied <= newApplied
    ensures ConfOk(log, newApplied, pendingConf, own)
    ensures pendingConf <= newApplied ==> NoPendingConf(log, newApplied) && ConfOk(log, newApplied, |log| + 1, true)
  {
  }

  class Leader {
    const term: Term
    const maxUncommittedSize: nat
    var log: seq<Entry>
    var applied: nat
    var pendingConfIndex: nat
    var uncommittedSize: nat
    var joint: bool // the configuration is a joint one
    var autoLeave: bool // and to be left as soon as it is applied
    ghost var own: bool // this leader has let a change in
    ghost var opening: nat // the size of the proposal last admitted when nothing was uncommitted

    ghost predicate Valid()
      reads this
    {
      && applied <= |log| && IndexedFrom(log, 0)
      && ConfOk(log, applied, pendingConfIndex, own)
      && uncommittedSize <= Payload(log[applied..])
      && (uncommittedSize <= maxUncommittedSize || uncommittedSize <= opening)
    }

    /** A new leader cannot know what its log still holds: it waits for all of it. Its first entry is empty and not
        counted. */
    constructor (term: Term, maxUncommittedSize: nat, log: seq<Entry>, applied: nat, joint: bool, autoLeave: bool)
      requires applied <= |log| && IndexedFrom(log, 0)
      ensures Valid() && this.log == log + [Entry(|log| + 1, term, Normal, [])] && this.applied == applied
      ensures pendingConfIndex == |log| && uncommittedSize == 0 && !own
    {
      this.term, this.maxUncommittedSize := term, maxUncommittedSize;
      this.log := log + [Entry(|log| + 1, term, Normal, [])];
      this.applied, this.pendingConfIndex, this.uncommittedSize := applied, |log|, 0;
      this.joint, this.autoLeave, this.own, this.opening := joint, autoLeave, false, 0;
    }

    /** Does the payload fit? One proposal of any size fits when nothing is counted, an empty one always. */
    method IncreaseUncommittedSize(ents: seq<Entry>) returns (ok: bool)
      modifies this`uncommittedSize, this`opening
      ensures ok <==>
              || old(uncommittedSize) == 0 || Payload(ents) == 0
              || old(uncommittedSize) + Payload(ents) <= maxUncommittedSize
      ensures uncommittedSize == old(uncommittedSize) + if ok then Payload(ents) else 0
      ensures opening == if old(uncommittedSize) == 0 then Payload(ents) else old(opening)
    {
      var s := SizeOf(ents);
      if uncommittedSize > 0 && s > 0 && uncommittedSize + s > maxUncommittedSize { return false; }
      if uncommittedSize == 0 { opening := s; }
      uncommittedSize := uncommittedSize + s;
      ok := true;
    }

    method ReduceUncommittedSize(ents: seq<Entry>)
      modifies this`uncommittedSize
      ensures uncommittedSize == Max(old(uncommittedSize) - Payload(ents), 0)
    {
      if uncommittedSize == 0 { return; }
      var s := SizeOf(ents);
      uncommittedSize := if s > uncommittedSize then 0 else uncommittedSize - s;
    }

    method SizeOf(ents: seq<Entry>) returns (s: nat)
      ensures s == Payload(ents)
    {
      s := 0;
      for i := 0 to |ents|
        invariant s == Payload(ents[..i])
      {
        assert ents[..i + 1][..i] == ents[..i];
        s := s + |ents[i].data|;
      }
      assert ents[..|ents|] == ents;
    }

    /** The whole proposal goes in, screened, or none of it. A change it carried counts as pending even when it was
        dropped. */
    method Propose(items: seq<Item>) returns (ok: bool)
      requires Valid() && items != []
      modifies this
      ensures Valid() && applied == old(applied) && joint == old(joint) && autoLeave == old(autoLeave)
      ensures var s := Screen(items, |items|, |old(log)|, applied, old(pendingConfIndex), joint);
              && pendingConfIndex == s.pendingConf
              && log == (if ok then old(log) + Stamp(s.items, |old(log)|, term) else old(log))
              && uncommittedSize == old(uncommittedSize) + (if ok then Payload(Stamp(s.items, |old(log)|, term)) else 0)
              && ok == (old(uncommittedSize) == 0 || Payload(Stamp(s.items, |old(log)|, term)) == 0
                        || old(uncommittedSize) + Payload(Stamp(s.items, |old(log)|, term)) <= maxUncommittedSize)
      ensures ok ==>
                && old(log) <= log
                && BecomesLog(log, |old(log)|, term, items, old(pendingConfIndex) <= applied, joint)
    {
      hide ConfOk, Admissible, IndexedFrom, Payload, Stamp, BecomesLog;
      var screened: seq<Item> := [];
      ghost var pending := pendingConfIndex;
      for i := 0 to |items|
        invariant applied == old(applied) && joint == old(joint) && autoLeave == old(autoLeave) && log == old(log)
        invariant uncommittedSize == old(uncommittedSize) && own == old(own) && opening == old(opening)
        invariant Screening(screened, pendingConfIndex) == Screen(items, i, |log|, applied, pending, joint)
      {
        var it := items[i];
        if it.kind != Normal {
          if Refused(it, pendingConfIndex > applied, joint) {
            it := EMPTY;
          } else {
            pendingConfIndex := |log| + i + 1;
          }
        }
        screened := screened + [it];
      }
      ScreenedAdmissible(items, log, applied, pending, joint, own);
      StampedExactly(items, log, term, applied, pending, joint);
      own := own || pendingConfIndex != pending;
      ok := AppendEntry(screened);
    }

    method AppendEntry(items: seq<Item>) returns (ok: bool)
      requires Valid()
      requires Admissible(items, log, applied, pendingConfIndex, own)
      modifies this`log, this`uncommittedSize, this`opening
      ensures Valid()
      ensures var ents := Stamp(items, |old(log)|, term);
              && log == (if ok then old(log) + ents else old(log))
              && uncommittedSize == (if ok then old(uncommittedSize) + Payload(ents) else old(uncommittedSize))
              && (ok <==>
                    || old(uncommittedSize) == 0 || Payload(ents) == 0
                    || old(uncommittedSize) + Payload(ents) <= maxUncommittedSize)
    {
      hide ConfOk, Admissible, IndexedFrom;
      var ents := Stamp(items, |log|, term);
      AppendConf(items, log, term, applied, pendingConfIndex, own);
      PayloadSplits(log[applied..], ents);
      assert (log + ents)[applied..] == log[applied..] + ents;
      ok := IncreaseUncommittedSize(ents);
      if ok {
        log := log + ents;
      }
    }

    /** The entries up to newApplied have been applied: they no longer count, and a joint configuration that is now
        applied is left. A Ready that applied nothing has newApplied 0. */
    method Advance(newApplied: nat, nowJoint: bool, nowAutoLeave: bool) returns (left: bool)
      requires Valid() && (newApplied == 0 || applied <= newApplied <= |log|) // the batch starts after what was applied
      modifies this
      ensures Valid() && joint == nowJoint && autoLeave == nowAutoLeave
      ensures applied == if newApplied == 0 then old(applied) else newApplied
      ensures left == (newApplied > 0 && nowAutoLeave && old(applied) <= old(pendingConfIndex) <= newApplied)
      ensures log == (if left then old(log) + [Entry(|old(log)| + 1, term, ConfChangeV2, [])] else old(log))
      ensures pendingConfIndex == if left then |log| else old(pendingConfIndex)
      ensures uncommittedSize == Max(old(uncommittedSize) - Payload(old(log)[old(applied)..applied]), 0)
    {
      hide ConfOk, IndexedFrom, Payload;
      joint, autoLeave := nowJoint, nowAutoLeave;
      var upTo := if newApplied == 0 then applied else newApplied;
      AppliedConf(log, applied, upTo, pendingConfIndex, own);
      PayloadSplits(log[applied..upTo], log[upTo..]);
      assert log[applied..] == log[applied..upTo] + log[upTo..];
      ReduceUncommittedSize(log[applied..upTo]);
      left := false;
      if newApplied > 0 {
        var oldApplied := applied;
        applied := newApplied;
        if autoLeave && oldApplied <= pendingConfIndex && newApplied >= pendingConfIndex {
          left := true;
          own, pendingConfIndex := true, |log| + 1;
          var leave := [Item(ConfChangeV2, [], true)];
          assert Stamp(leave, |log|, term) == [Entry(|log| + 1, term, ConfChangeV2, [])];
          OnePayload(Entry(|log| + 1, term, ConfChangeV2, []));
          var ok := AppendEntry(leave);
        }
      }
    }
  }
}
