/** The doubly linked list with two sentinels that Redis lists are kept in (memdb/list_struct.go), without
    subscriptions. */
module LinkedList {
  import opened RaftTypes

  // ---------------------------------------------------------------- positions

  /** A negative position counts from the end. */
  function FromEnd(n: nat, i: int): int {
    if i < 0 then n + i else i
  }

  predicate EmptyRange(n: nat, start: int, end: int) {
    FromEnd(n, start) > FromEnd(n, end) || FromEnd(n, start) >= n || FromEnd(n, end) < 0
  }

  function Low(n: nat, start: int): nat {
    Max(FromEnd(n, start), 0)
  }

  function High(n: nat, end: int): int {
    Min(FromEnd(n, end), n - 1)
  }

  lemma RangeBounds(n: nat, start: int, end: int)
    requires !EmptyRange(n, start, end)
    ensures Low(n, start) <= High(n, end) + 1 && High(n, end) < n && (n > 0 ==> Low(n, start) <= High(n, end))
  {
  }

  /** What LRANGE returns. */
  function RangeOf(s: seq<Bytes>, start: int, end: int): seq<Bytes> {
    if EmptyRange(|s|, start, end) then [] else s[Low(|s|, start)..High(|s|, end) + 1]
  }

  /** Position i is in the range exactly when it lies between the two ends, both counted from the front, and it keeps
      its place. */
  lemma RangeMeans(s: seq<Bytes>, start: int, end: int, i: nat)
    requires i < |s|
    ensures FromEnd(|s|, start) <= i <= FromEnd(|s|, end) <==>
            !EmptyRange(|s|, start, end) && Low(|s|, start) <= i <= High(|s|, end)
    ensures FromEnd(|s|, start) <= i <= FromEnd(|s|, end) ==>
            i - Low(|s|, start) < |RangeOf(s, start, end)| && RangeOf(s, start, end)[i - Low(|s|, start)] == s[i]
  {
  }

  // ---------------------------------------------------------------- a position as a machine word

  const MIN_INT: Int64 := -0x8000_0000_0000_0000

  /** Negation in 64 bits: the smallest number is its own. */
  function Negated(x: Int64): Int64 {
    if x == MIN_INT then x else 0 - x
  }

  /** Is there an element at this position? */
  predicate Exists(n: nat, index: int) {
    0 <= FromEnd(n, index) < n
  }

  /** The test with which Index and Set refuse a position. */
  predicate Refused(n: nat, index: Int64) {
    if index < 0 then Negated(index) > n else index >= n
  }

  /** It refuses just the positions that do not exist, except for the smallest number, which it lets through. */
  lemma RefusedExactly(n: nat, index: Int64)
    requires n < TWO_63
    ensures (Refused(n, index) <==> !Exists(n, index)) <==> index != MIN_INT
  {
  }

  datatype Lookup = At(node: ListNode) | Missing | Crashed

  /** Where Index ends up: a position that got past the test is walked to, over the first sentinel if need be, and
      behind that there is nothing to follow. */
  ghost function LookedUp(nodes: seq<ListNode>, index: Int64): Lookup
    requires |nodes| >= 2
  {
    var p := FromEnd(|nodes| - 2, index) + 1;
    if Refused(|nodes| - 2, index) || p == -1 then Missing
    else if 0 <= p < |nodes| then At(nodes[p])
    else Crashed
  }

  /** Index finds the element that exists and nothing otherwise, for every position but the smallest number. */
  lemma IndexExactly(nodes: seq<ListNode>, index: Int64)
    requires 2 <= |nodes| < TWO_63
    ensures var n := |nodes| - 2;
            LookedUp(nodes, index) == (if Exists(n, index) then At(nodes[FromEnd(n, index) + 1]) else Missing)
            <==> index != MIN_INT
  {
  }

  /** The smallest number as a position of a list that fits into memory: the walk leaves the list and crashes. */
  lemma SmallestCrashes(nodes: seq<ListNode>)
    requires 2 <= |nodes| < TWO_63
    ensures LookedUp(nodes, MIN_INT) == Crashed && !Exists(|nodes| - 2, MIN_INT)
  {
  }

  // ---------------------------------------------------------------- nodes and links

  class ListNode {
    var prev: ListNode?
    var next: ListNode?
    var val: Bytes

    constructor (prev: ListNode?, next: ListNode?, val: Bytes)
      ensures this.prev == prev && this.next == next && this.val == val
    {
      this.prev, this.next, this.val := prev, next, val;
    }
  }

  ghost predicate Distinct(nodes: seq<ListNode>) {
    forall i, j :: 0 <= i < j < |nodes| ==> nodes[i] != nodes[j]
  }

  /** Node i knows the next one and is known by it. */
  ghost predicate Joint(nodes: seq<ListNode>, i: nat)
    reads nodes
    requires i + 1 < |nodes|
  {
    nodes[i].next == nodes[i + 1] && nodes[i + 1].prev == nodes[i]
  }

  ghost predicate Linked(nodes: seq<ListNode>)
    reads nodes
  {
    forall i {:trigger Joint(nodes, i)} :: 0 <= i < |nodes| - 1 ==> Joint(nodes, i)
  }

  function Values(nodes: seq<ListNode>): seq<Bytes>
    reads nodes
  {
    seq(|nodes|, i requires 0 <= i < |nodes| reads nodes => nodes[i].val)
  }

  lemma ValuesAt(nodes: seq<ListNode>)
    ensures |Values(nodes)| == |nodes| && forall i :: 0 <= i < |nodes| ==> Values(nodes)[i] == nodes[i].val
  {
  }

  lemma ValuesAre(nodes: seq<ListNode>, vals: seq<Bytes>)
    requires |vals| == |nodes| && forall i :: 0 <= i < |nodes| ==> nodes[i].val == vals[i]
    ensures Values(nodes) == vals
  {
  }

  // ---------------------------------------------------------------- what relinking does

  ghost function With(nodes: seq<ListNode>, k: nat, node: ListNode): seq<ListNode>
    requires k < |nodes|
  {
    nodes[..k + 1] + [node] + nodes[k + 1..]
  }

  ghost function Without(nodes: seq<ListNode>, k: nat): seq<ListNode>
    requires k < |nodes|
  {
    nodes[..k] + nodes[k + 1..]
  }

  lemma WithShape(nodes: seq<ListNode>, k: nat, node: ListNode)
    requires k < |nodes|
    ensures With(nodes, k, node)[0] == nodes[0] && |With(nodes, k, node)| == |nodes| + 1
    ensures k + 1 < |nodes| ==> With(nodes, k, node)[|nodes|] == nodes[|nodes| - 1]
    ensures forall n :: n in With(nodes, k, node) <==> n in nodes || n == node
  {
  }

  lemma WithoutShape(nodes: seq<ListNode>, k: nat)
    requires 0 < k < |nodes| - 1
    ensures Without(nodes, k)[0] == nodes[0] && |Without(nodes, k)| == |nodes| - 1
            && Without(nodes, k)[|nodes| - 2] == nodes[|nodes| - 1]
    ensures forall n :: n in Without(nodes, k) ==> n in nodes
    ensures Distinct(nodes) ==> nodes[k] !in Without(nodes, k)
  {
  }

  function Between(nodes: seq<ListNode>): seq<Bytes>
    reads nodes
    requires |nodes| >= 2
  {
    Values(nodes)[1..|nodes| - 1]
  }

  lemma BetweenAt(nodes: seq<ListNode>, i: nat)
    requires i + 2 < |nodes|
    ensures |Between(nodes)| == |nodes| - 2 && Between(nodes)[i] == nodes[i + 1].val
  {
  }

  lemma OneFurther(s: seq<Bytes>, from: nat, i: nat)
    requires from <= i < |s|
    ensures s[from..i + 1] == s[from..i] + [s[i]]
  {
  }

  lemma BetweenKept(nodes: seq<ListNode>, vals: seq<Bytes>)
    requires |nodes| >= 2 && Values(nodes) == vals && |vals| == |nodes|
    ensures Between(nodes) == vals[1..|vals| - 1]
  {
  }

  lemma PushedFront(nodes: seq<ListNode>, node: ListNode)
    requires |nodes| >= 2
    ensures |With(nodes, 0, node)| >= 2 && Between(With(nodes, 0, node)) == [node.val] + Between(nodes)
  {
  }

  lemma PushedBack(nodes: seq<ListNode>, node: ListNode)
    requires |nodes| >= 2
    ensures |With(nodes, |nodes| - 2, node)| >= 2
            && Between(With(nodes, |nodes| - 2, node)) == Between(nodes) + [node.val]
  {
  }

  lemma PoppedFront(nodes: seq<ListNode>)
    requires |nodes| >= 3
    ensures |Without(nodes, 1)| >= 2 && Between(nodes) == [nodes[1].val] + Between(Without(nodes, 1))
  {
  }

  lemma PoppedBack(nodes: seq<ListNode>)
    requires |nodes| >= 3
    ensures |Without(nodes, |nodes| - 2)| >= 2
            && Between(nodes) == Between(Without(nodes, |nodes| - 2)) + [nodes[|nodes| - 2].val]
  {
  }

  lemma WithDistinct(nodes: seq<ListNode>, k: nat, node: ListNode)
    requires Distinct(nodes) && node !in nodes && k < |nodes|
    ensures Distinct(With(nodes, k, node))
  {
  }

  lemma WithoutDistinct(nodes: seq<ListNode>, k: nat)
    requires Distinct(nodes) && k < |nodes|
    ensures Distinct(Without(nodes, k))
  {
  }

  /** All links are right but those across the gap lo..hi. */
  ghost predicate LinkedExcept(nodes: seq<ListNode>, lo: nat, hi: nat)
    reads nodes
  {
    forall i {:trigger Joint(nodes, i)} :: 0 <= i < |nodes| - 1 && !(lo <= i < hi) ==> Joint(nodes, i)
  }

  /** A new node between two neighbours. */
  lemma InsertLinks(nodes: seq<ListNode>, k: nat, node: ListNode)
    requires k + 1 < |nodes| && LinkedExcept(nodes, k, k + 1)
    requires nodes[k].next == node && node.prev == nodes[k] && node.next == nodes[k + 1] && nodes[k + 1].prev == node
    ensures Linked(With(nodes, k, node))
  {
    var all := With(nodes, k, node);
    forall i: nat | i < |all| - 1 ensures Joint(all, i) {
      if i < k {
        assert Joint(nodes, i) && all[i] == nodes[i] && all[i + 1] == nodes[i + 1];
      } else if i > k + 1 {
        assert Joint(nodes, i - 1) && all[i] == nodes[i - 1] && all[i + 1] == nodes[i];
      }
    }
  }

  /** A node taken out, its neighbours joined. */
  lemma RemoveLinks(nodes: seq<ListNode>, k: nat)
    requires 0 < k < |nodes| - 1 && LinkedExcept(nodes, k - 1, k + 1)
    requires nodes[k - 1].next == nodes[k + 1] && nodes[k + 1].prev == nodes[k - 1]
    ensures Linked(Without(nodes, k))
  {
    var all := Without(nodes, k);
    forall i: nat | i < |all| - 1 ensures Joint(all, i) {
      if i < k - 1 {
        assert Joint(nodes, i) && all[i] == nodes[i] && all[i + 1] == nodes[i + 1];
      } else if i >= k {
        assert Joint(nodes, i + 1) && all[i] == nodes[i + 1] && all[i + 1] == nodes[i + 2];
      }
    }
  }

  lemma EmptyWhole(start: int, end: int)
    ensures RangeOf([], start, end) == []
  {
  }

  /** The bounds of a range within a list of n elements. */
  method Bounds(n: nat, start: int, end: int) returns (empty: bool, from: int, to: int)
    ensures empty == EmptyRange(n, start, end)
    ensures !empty ==> from == Low(n, start) && to == High(n, end)
  {
    from, to := start, end;
    if from < 0 { from := n + from; }
    if to < 0 { to := n + to; }
    if from > to || from >= n || to < 0 { return true, 0, 0; }
    if from < 0 { from := 0; }
    if to >= n { to := n - 1; }
    empty := false;
  }

  class List {
    var head: ListNode
    var tail: ListNode
    var len: int
    ghost var nodes: seq<ListNode> // both sentinels and what lies between them

    ghost predicate Valid()
      reads this, nodes
    {
      && |nodes| >= 2 && nodes[0] == head && nodes[|nodes| - 1] == tail && len == |nodes| - 2
      && Distinct(nodes) && Linked(nodes) && head.prev == null
    }

    ghost function Contents(): seq<Bytes>
      reads this, nodes
      requires |nodes| >= 2
    {
      Between(nodes)
    }

    constructor ()
      ensures Valid() && Contents() == [] && fresh(nodes)
    {
      var h := new ListNode(null, null, []);
      var t := new ListNode(h, null, []);
      h.next := t;
      head, tail, len := h, t, 0;
      nodes := [h, t];
    }

    method LPush(val: Bytes)
      requires Valid()
      modifies this, nodes
      ensures Valid() && forall n :: n in nodes ==> n in old(nodes) || fresh(n)
      ensures Contents() == [val] + old(Contents())
    {
      hide With, Values, Between;
      ghost var vals := Values(nodes);
      ValuesAt(nodes);
      BetweenKept(nodes, vals);
      assert Joint(nodes, 0);
      var node := new ListNode(head, head.next, val);
      head.next := node;
      node.next.prev := node;
      len := len + 1;
      assert forall i {:trigger Joint(nodes, i)} :: 0 < i < |nodes| - 1 ==> old(Joint(nodes, i));
      assert LinkedExcept(nodes, 0, 1);
      InsertLinks(nodes, 0, node);
      WithDistinct(nodes, 0, node);
      WithShape(nodes, 0, node);
      ValuesAre(nodes, vals);
      BetweenKept(nodes, vals);
      PushedFront(nodes, node);
      nodes := With(nodes, 0, node);
    }

    method RPush(val: Bytes)
      requires Valid()
      modifies this, nodes
      ensures Valid() && forall n :: n in nodes ==> n in old(nodes) || fresh(n)
      ensures Contents() == old(Contents()) + [val]
    {
      hide With, Values, Between;
      ghost var vals, k := Values(nodes), |nodes| - 2;
      ValuesAt(nodes);
      BetweenKept(nodes, vals);
      assert Joint(nodes, k);
      var node := new ListNode(tail.prev, tail, val);
      tail.prev := node;
      node.prev.next := node;
      len := len + 1;
      assert forall i {:trigger Joint(nodes, i)} :: 0 <= i < k ==> old(Joint(nodes, i));
      assert LinkedExcept(nodes, k, k + 1);
      InsertLinks(nodes, k, node);
      WithDistinct(nodes, k, node);
      WithShape(nodes, k, node);
      ValuesAre(nodes, vals);
      BetweenKept(nodes, vals);
      PushedBack(nodes, node);
      nodes := With(nodes, k, node);
    }

    method LPop() returns (node: ListNode?)
      requires Valid()
      modifies this, nodes
      ensures Valid() && forall n :: n in nodes ==> n in old(nodes)
      ensures node == null <==> old(Contents()) == []
      ensures node == null ==> Contents() == []
      ensures node != null ==>
                old(Contents()) == [node.val] + Contents() && node !in nodes && node.prev == node.next == null
    {
      hide Without, Values, Between;
      ghost var vals := Values(nodes);
      ValuesAt(nodes);
      BetweenKept(nodes, vals);
      if len == 0 { return null; }
      assert Joint(nodes, 0) && Joint(nodes, 1);
      node := head.next;
      head.next := node.next;
      node.next.prev := head;
      node.prev, node.next := null, null;
      len := len - 1;
      assert forall i {:trigger Joint(nodes, i)} :: 2 <= i < |nodes| - 1 ==> old(Joint(nodes, i));
      assert LinkedExcept(nodes, 0, 2);
      RemoveLinks(nodes, 1);
      WithoutDistinct(nodes, 1);
      WithoutShape(nodes, 1);
      ValuesAre(nodes, vals);
      BetweenKept(nodes, vals);
      PoppedFront(nodes);
      nodes := Without(nodes, 1);
    }

    method RPop() returns (node: ListNode?)
      requires Valid()
      modifies this, nodes
      ensures Valid() && forall n :: n in nodes ==> n in old(nodes)
      ensures node == null <==> old(Contents()) == []
      ensures node == null ==> Contents() == []
      ensures node != null ==>
                old(Contents()) == Contents() + [node.val] && node !in nodes && node.prev == node.next == null
    {
      hide Without, Values, Between;
      ghost var vals, k := Values(nodes), |nodes| - 2;
      ValuesAt(nodes);
      BetweenKept(nodes, vals);
      if len == 0 { return null; }
      assert Joint(nodes, k) && Joint(nodes, k - 1);
      node := tail.prev;
      tail.prev := node.prev;
      node.prev.next := tail;
      node.prev, node.next := null, null;
      len := len - 1;
      assert forall i {:trigger Joint(nodes, i)} :: 0 <= i < k - 1 ==> old(Joint(nodes, i));
      assert LinkedExcept(nodes, k - 1, k + 1);
      RemoveLinks(nodes, k);
      WithoutDistinct(nodes, k);
      WithoutShape(nodes, k);
      ValuesAre(nodes, vals);
      BetweenKept(nodes, vals);
      PoppedBack(nodes);
      nodes := Without(nodes, k);
    }

    /** The node at a position, counted from the front or, if negative, from the end. */
    method Index(index: Int64) returns (r: Lookup)
      requires Valid()
      ensures r == LookedUp(nodes, index)
      ensures index != MIN_INT ==> (r.At? <==> Exists(len, index)) && !r.Crashed?
      ensures r.At? && Exists(len, index) ==> r.node.val == Contents()[FromEnd(len, index)]
    {
      ValuesAt(nodes);
      hide Values;
      if index < 0 {
        if Negated(index) > len { return Missing; }
        assert Joint(nodes, |nodes| - 2);
        var node: ListNode? := tail.prev;
        var i := -1;
        while i > index
          invariant index <= i <= -1 && len + i + 1 >= -1
          invariant if len + i + 1 == -1 then node == null else node == nodes[len + i + 1]
        {
          if node == null { return Crashed; }
          if len + i + 1 > 0 { assert Joint(nodes, len + i); }
          node := node.prev;
          i := i - 1;
        }
        return if node == null then Missing else At(node);
      } else {
        if index >= len { return Missing; }
        assert Joint(nodes, 0);
        var node := head.next;
        for i := 0 to index
          invariant node == nodes[i + 1]
        {
          assert Joint(nodes, i + 1);
          node := node.next;
        }
        return At(node);
      }
    }

    /** The node that Set writes to: the one at a position that exists, or else the first sentinel. */
    method Walk(index: Int64) returns (node: ListNode)
      requires Valid() && !Refused(len, index)
      ensures node == nodes[Max(FromEnd(len, index) + 1, 0)]
    {
      var i: int := index;
      if index < 0 {
        node := tail;
        while node != head && i < 0
          invariant index <= i <= 0 && 0 <= |nodes| - 1 + index - i && node == nodes[|nodes| - 1 + index - i]
        {
          assert Joint(nodes, |nodes| - 2 + index - i);
          node := node.prev;
          i := i + 1;
        }
      } else {
        node := head;
        while node != tail && i >= 0
          invariant -1 <= i <= index && node == nodes[index - i]
        {
          assert Joint(nodes, index - i);
          node := node.next;
          i := i - 1;
        }
      }
    }

    /** One element changes, if it exists; with the smallest number it is the sentinel, and the answer is yes all the
        same. */
    method Set(index: Int64, val: Bytes) returns (ok: bool)
      requires Valid()
      modifies nodes
      ensures Valid() && nodes == old(nodes) && len == old(len)
      ensures ok <==> Exists(len, index) || index == MIN_INT
      ensures Contents() == if Exists(len, index) then old(Contents())[FromEnd(len, index) := val] else old(Contents())
      ensures head.val == if ok && !Exists(len, index) then val else old(head.val)
    {
      hide Values;
      ghost var vals := Values(nodes);
      ValuesAt(nodes);
      if index < 0 {
        if Negated(index) > len { return false; }
      } else {
        if index >= len { return false; }
      }
      ghost var at := Max(FromEnd(len, index) + 1, 0);
      var node := Walk(index);
      node.val := val;
      assert forall i {:trigger Joint(nodes, i)} :: 0 <= i < |nodes| - 1 ==> old(Joint(nodes, i));
      ValuesAre(nodes, vals[at := val]);
      ok := true;
    }

    method Range(start: int, end: int) returns (res: seq<Bytes>)
      requires Valid()
      ensures res == RangeOf(Contents(), start, end)
    {
      hide Values, Linked, Distinct, EmptyRange, Low, High;
      ValuesAt(nodes);
      var empty, from, to := Bounds(len, start, end);
      if empty { return []; }
      RangeBounds(len, start, end);
      res := Collect(from, to);
    }

    method Collect(from: int, to: int) returns (res: seq<Bytes>)
      requires Valid() && 0 <= from <= to + 1 <= len && |Contents()| == len
      ensures res == Contents()[from..to + 1]
    {
      hide Between, Distinct;
      res := [];
      var node := head;
      ghost var all := Contents();
      for i := 0 to to + 1
        invariant node == nodes[i] && res == all[from..Max(from, i)]
      {
        assert Joint(nodes, i);
        node := node.next;
        if i >= from {
          BetweenAt(nodes, i);
          OneFurther(all, from, i);
          res := res + [node.val];
        }
      }
    }

    method Clear()
      requires Valid()
      modifies this, nodes
      ensures Valid() && Contents() == [] && forall n :: n in nodes ==> n in old(nodes)
    {
      if len == 0 { return; }
      assert Joint(nodes, 0) && Joint(nodes, |nodes| - 2);
      var first := head.next;
      var last := tail.prev;
      head.next := tail;
      tail.prev := head;
      len := 0;
      first.prev := null;
      last.next := null;
      nodes := [head, tail];
      assert Joint(nodes, 0);
    }

    /** The nodes at two positions, found in one pass. */
    method Ends(from: int, to: int) returns (first: ListNode, last: ListNode)
      requires Valid() && 0 <= from <= to < len
      ensures first == nodes[from + 1] && last == nodes[to + 1]
    {
      assert Joint(nodes, 0);
      var now := head.next;
      first, last := now, now;
      var pos := 0;
      while now != tail
        invariant 0 <= pos <= to && now == nodes[pos + 1]
        invariant pos > from ==> first == nodes[from + 1]
        decreases len - pos
      {
        if pos == from { first := now; }
        if pos == to {
          last := now;
          break;
        }
        assert Joint(nodes, pos + 1);
        now := now.next;
        pos := pos + 1;
      }
    }

    /** Trim leaves what Range would have returned. */
    method Trim(start: int, end: int)
      requires Valid()
      modifies this, nodes
      ensures Valid() && forall n :: n in nodes ==> n in old(nodes)
      ensures Contents() == RangeOf(old(Contents()), start, end)
    {
      hide Values, Linked, Distinct, EmptyRange, Low, High;
      ValuesAt(nodes);
      if len == 0 {
        EmptyWhole(start, end);
        return;
      }
      var empty, from, to := Bounds(len, start, end);
      if empty {
        Clear();
        return;
      }
      RangeBounds(len, start, end);
      Cut(from, to);
    }

    /** Cuts the links from discarded nodes, for the garbage collector. */
    method Unhook(first: ListNode, last: ListNode, ghost from: nat, ghost to: nat)
      requires Valid() && from <= to < len && first == nodes[from + 1] && last == nodes[to + 1]
      modifies nodes
      ensures forall i {:trigger Joint(nodes, i)} :: from < i <= to ==> Joint(nodes, i)
      ensures head.prev == old(head.prev) && forall i :: 0 <= i < |nodes| ==> nodes[i].val == old(nodes[i].val)
    {
      assert Joint(nodes, 0) && Joint(nodes, from) && Joint(nodes, to + 1) && Joint(nodes, |nodes| - 2);
      head.next.prev := null;
      tail.prev.next := null;
      if first.prev != null { first.prev.next := null; }
      if last.next != null { last.next.prev := null; }
      assert forall i {:trigger Joint(nodes, i)} :: from < i <= to ==> old(Joint(nodes, i));
    }

    method Cut(from: int, to: int)
      requires Valid() && 0 <= from <= to < len
      modifies this, nodes
      ensures Valid() && forall n :: n in nodes ==> n in old(nodes)
      ensures Contents() == old(Contents())[from..to + 1]
    {
      hide Values, Linked, Distinct, Between, Joint;
      ghost var vals := Values(nodes);
      ValuesAt(nodes);
      BetweenKept(nodes, vals);
      var first, last := Ends(from, to);
      Unhook(first, last, from, to);
      Hook(first, last, from, to);
      len := to - from + 1;
      ValuesAre(nodes, vals);
      BetweenKept(nodes, vals);
      CutLinks(nodes, from, to, head, tail);
      CutValues(nodes, from, to, head, tail);
      nodes := [head] + nodes[from + 1..to + 2] + [tail];
    }

    method Hook(first: ListNode, last: ListNode, ghost from: nat, ghost to: nat)
      requires from <= to && to + 2 < |nodes| && Distinct(nodes) && nodes[0] == head && nodes[|nodes| - 1] == tail
      requires first == nodes[from + 1] && last == nodes[to + 1]
      requires forall i {:trigger Joint(nodes, i)} :: from < i <= to ==> Joint(nodes, i)
      modifies nodes
      ensures head.next == first && first.prev == head && tail.prev == last && last.next == tail
      ensures forall i {:trigger Joint(nodes, i)} :: from < i <= to ==> Joint(nodes, i)
      ensures head.prev == old(head.prev) && forall i :: 0 <= i < |nodes| ==> nodes[i].val == old(nodes[i].val)
    {
      head.next := first;
      first.prev := head;
      tail.prev := last;
      last.next := tail;
      assert forall i {:trigger Joint(nodes, i)} :: from < i <= to ==> old(Joint(nodes, i));
    }
  }

  lemma CutValues(nodes: seq<ListNode>, from: nat, to: nat, head: ListNode, tail: ListNode)
    requires from <= to && to + 2 < |nodes| && |Values(nodes)| == |nodes|
    ensures var kept := [head] + nodes[from + 1..to + 2] + [tail];
            Between(kept) == Between(nodes)[from..to + 1]
  {
    var kept := [head] + nodes[from + 1..to + 2] + [tail];
    ValuesAt(kept);
    ValuesAt(nodes);
    hide Values;
    var a, b := Between(kept), Between(nodes)[from..to + 1];
    assert |a| == |b|;
    forall i | 0 <= i < |a| ensures a[i] == b[i] {
      assert a[i] == Values(kept)[i + 1] && b[i] == Values(nodes)[from + 1 + i];
      assert kept[i + 1] == nodes[from + 1 + i];
    }
  }

  lemma CutLinks(nodes: seq<ListNode>, from: nat, to: nat, head: ListNode, tail: ListNode)
    requires from <= to && to + 2 < |nodes| && Distinct(nodes) && nodes[0] == head && nodes[|nodes| - 1] == tail
    requires head.next == nodes[from + 1] && nodes[from + 1].prev == head && tail.prev == nodes[to + 1]
             && nodes[to + 1].next == tail
    requires forall i {:trigger Joint(nodes, i)} :: from < i <= to ==> Joint(nodes, i)
    ensures var kept := [head] + nodes[from + 1..to + 2] + [tail];
            && Linked(kept) && Distinct(kept)
            && (forall n :: n in kept ==> n in nodes) && |kept| == to - from + 3 && kept[0] == head
                 && kept[|kept| - 1] == tail
  {
    var kept := [head] + nodes[from + 1..to + 2] + [tail];
    forall i: nat | i < |kept| - 1 ensures Joint(kept, i) {
      if 0 < i < |kept| - 2 {
        assert Joint(nodes, from + i) && kept[i] == nodes[from + i] && kept[i + 1] == nodes[from + i + 1];
      }
    }
  }
}
