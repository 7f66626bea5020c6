/**
  The circular doubly linked list without a sentinel. The links live in the items, so an item
  is known by its link.
 */
module IntrusiveList {
  import opened Common

  class Link {
    var prev: Link?
    var next: Link?

    constructor ()
      ensures prev == null && next == null
    {
      prev, next := null, null;
    }
  }

  function After(k: nat, n: nat): (j: nat)
    requires k < n
    ensures j < n
  {
    if k + 1 == n then 0 else k + 1
  }

  function Before(k: nat, n: nat): (j: nat)
    requires k < n
    ensures j < n
  {
    if k == 0 then n - 1 else k - 1
  }

  /** The items form a circle in this order. */
  ghost predicate Circle(items: seq<Link>)
    reads items
  {
    forall k :: 0 <= k < |items| ==>
      items[k].next == items[After(k, |items|)] && items[k].prev == items[Before(k, |items|)]
  }

  function Without(items: seq<Link>, k: nat): seq<Link>
    requires k < |items|
  {
    items[..k] + items[k + 1..]
  }

  /** The items whose answer is false, in order. */
  function Kept(items: seq<Link>, answers: seq<bool>): seq<Link>
    requires |items| == |answers|
  {
    if items == [] then []
    else if answers[0] then Kept(items[1..], answers[1..]) else [items[0]] + Kept(items[1..], answers[1..])
  }

  lemma {:induction false} KeptJoins(a: seq<Link>, x: seq<bool>, b: seq<Link>, y: seq<bool>)
    requires |a| == |x| && |b| == |y|
    ensures Kept(a + b, x + y) == Kept(a, x) + Kept(b, y)
  {
    if a == [] {
      assert a + b == b && x + y == y;
    } else {
      KeptJoins(a[1..], x[1..], b, y);
      assert (a + b)[1..] == a[1..] + b && (x + y)[1..] == x[1..] + y;
    }
  }

  lemma WithoutDistinct(items: seq<Link>, k: nat)
    requires k < |items| && Distinct(items)
    ensures Distinct(Without(items, k))
  {
  }

  /** After `m` visits: the kept ones of those, then the unvisited ones. */
  ghost predicate Midway(all: seq<Link>, m: nat, items: seq<Link>, visited: seq<Link>, answers: seq<bool>) {
    m <= |all| == |answers| && visited == all[..m] && items == Kept(visited, answers[..m]) + all[m..]
  }

  /** Where the next visit finds its item, and what it leaves behind. */
  lemma VisitFacts(all: seq<Link>, m: nat, items: seq<Link>, visited: seq<Link>, answers: seq<bool>)
    requires Midway(all, m, items, visited, answers) && m < |all|
    ensures var at := |Kept(all[..m], answers[..m])|;
            && at < |items| && items[at] == all[m]
            && (m + 1 < |all| ==> items[After(at, |items|)] == all[m + 1])
            && Midway(all, m + 1, if answers[m] then Without(items, at) else items, visited + [all[m]], answers)
  {
    var kept := Kept(all[..m], answers[..m]);
    assert all[..m + 1] == all[..m] + [all[m]] && answers[..m + 1] == answers[..m] + [answers[m]];
    KeptJoins(all[..m], answers[..m], [all[m]], [answers[m]]);
    assert all[m..] == [all[m]] + all[m + 1..];
    assert Without(items, |kept|) == kept + all[m + 1..];
  }

  ghost predicate Within(items: seq<Link>, region: set<Link>) {
    forall k :: 0 <= k < |items| ==> items[k] in region
  }

  lemma WithoutWithin(items: seq<Link>, k: nat, region: set<Link>)
    requires k < |items| && Within(items, region)
    ensures Within(Without(items, k), region)
  {
  }

  /** `insert_link_before`, in front of the first item: the circle grows at its end. */
  method InsertLinkBefore(ghost items: seq<Link>, link: Link, before: Link)
    requires items != [] && items[0] == before && Distinct(items) && Circle(items)
    requires link !in items && link.prev == null && link.next == null
    modifies link, items
    ensures Circle(items + [link])
  {
    ghost var n := |items|;
    var left := before.prev;
    assert left == items[n - 1];
    link.prev := left;
    left.next := link;
    var right := before;
    link.next := right;
    right.prev := link;
    ghost var all := items + [link];
    forall k | 0 <= k < |all|
      ensures all[k].next == all[After(k, |all|)] && all[k].prev == all[Before(k, |all|)]
    {
      if 0 < k < n { assert items[0] != items[k]; }
      if k < n - 1 { assert items[k] != items[n - 1]; }
    }
  }

  lemma AfterBefore(m: nat, k: nat, n: nat)
    requires m < n && k < n
    ensures After(m, n) == k <==> m == Before(k, n)
    ensures Before(m, n) == k <==> m == After(k, n)
  {
  }

  /** The neighbour of `m` once `k` is skipped. */
  function SkipAfter(m: nat, k: nat, n: nat): (j: nat)
    requires m < n && k < n
    ensures j < n
  {
    if After(m, n) == k then After(k, n) else After(m, n)
  }

  function SkipBefore(m: nat, k: nat, n: nat): (j: nat)
    requires m < n && k < n
    ensures j < n
  {
    if Before(m, n) == k then Before(k, n) else Before(m, n)
  }

  /** Every link but `k` skips it. */
  ghost predicate Skips(items: seq<Link>, k: nat)
    requires k < |items|
    reads items
  {
    forall m :: 0 <= m < |items| && m != k ==>
      items[m].next == items[SkipAfter(m, k, |items|)] && items[m].prev == items[SkipBefore(m, k, |items|)]
  }

  lemma SkippingCloses(items: seq<Link>, k: nat)
    requires k < |items| && Skips(items, k)
    ensures Circle(Without(items, k))
  {
    var rest := Without(items, k);
    forall j | 0 <= j < |rest|
      ensures rest[j].next == rest[After(j, |rest|)] && rest[j].prev == rest[Before(j, |rest|)]
    {
      var m := if j < k then j else j + 1;
      assert rest[j] == items[m];
      CloseGap(items, k, j);
    }
  }

  /** `remove_link`: the neighbours close the gap, the link is blank. */
  method RemoveLink(ghost items: seq<Link>, ghost k: nat, link: Link)
    requires k < |items| && items[k] == link && Distinct(items) && Circle(items)
    modifies items
    ensures link.prev == null && link.next == null
    ensures Circle(Without(items, k))
  {
    ghost var n := |items|;
    var left, right := link.prev, link.next;
    assert left == items[Before(k, n)] && right == items[After(k, n)];
    left.next := right;
    right.prev := left;
    link.prev := null;
    link.next := null;
    forall m | 0 <= m < n && m != k
      ensures items[m].next == items[SkipAfter(m, k, n)] && items[m].prev == items[SkipBefore(m, k, n)]
    {
      AfterBefore(m, k, n);
      assert items[m] != items[k];
      hide After, Before;
    }
    hide Circle, Distinct;
    SkippingCloses(items, k);
  }

  /** Neighbours in the shorter circle, in terms of the longer one. */
  lemma CloseGap(items: seq<Link>, k: nat, j: nat)
    requires k < |items| && j < |items| - 1
    ensures var n, rest := |items|, Without(items, k);
            var m := if j < k then j else j + 1;
            && rest[After(j, n - 1)] == items[SkipAfter(m, k, n)]
            && rest[Before(j, n - 1)] == items[SkipBefore(m, k, n)]
  {
  }

  /** `NeverEnds` stands for a loop that goes round the circle for ever. */
  datatype RemoveOutcome = Removed | Absent | NeverEnds

  class List {
    var head: Link?
    var len: nat
    ghost var items: seq<Link>

    ghost predicate Valid()
      reads this, items
    {
      && len == |items|
      && Distinct(items)
      && Circle(items)
      && (items != [] ==> head == items[0])
    }

    constructor ()
      ensures Valid() && items == []
    {
      head, len, items := null, 0, [];
    }

    /** The item joins at the back. */
    method PushBack(link: Link)
      requires Valid() && link !in items
      requires link.prev == null && link.next == null
      modifies this, link, items
      ensures Valid() && items == old(items) + [link]
    {
      if len == 0 {
        link.prev := link;
        link.next := link;
        head := link;
      } else {
        InsertLinkBefore(items, link, head);
      }
      len := len + 1;
      items := items + [link];
    }

    /** The front leaves, blank; an empty list gives nothing. */
    method PopFront() returns (front: Link?)
      requires Valid()
      modifies this, items
      ensures Valid()
      ensures old(items) == [] ==> front == null && items == []
      ensures old(items) != [] ==> front == old(items)[0] && items == old(items)[1..]
      ensures front != null ==> front.prev == null && front.next == null
    {
      if len == 0 { return null; }
      WithoutDistinct(items, 0);
      len := len - 1;
      var oldHead := head;
      head := oldHead.next;
      assert Without(items, 0) == items[1..];
      assert |items| > 1 ==> head == items[1..][0];
      hide Without, Distinct;
      RemoveLink(items, 0, oldHead);
      hide Circle;
      items := items[1..];
      return oldHead;
    }

    /** `remove_internal`: takes out the item at `k`; a link that was alone is not blanked. */
    method RemoveInternal(ghost k: nat, link: Link)
      requires Valid() && k < |items| && items[k] == link
      modifies this, items
      ensures Valid() && items == Without(old(items), k)
      ensures if old(len) == 1 then link.prev == link && link.next == link else link.prev == null && link.next == null
    {
      WithoutDistinct(items, k);
      if link == head {
        assert k == 0;
        if len == 1 {
          head := null;
        } else {
          head := link.next;
          RemoveLink(items, k, link);
        }
      } else {
        RemoveLink(items, k, link);
      }
      len := len - 1;
      items := Without(items, k);
    }

    /**
      Takes out exactly that item and tells whether it was there. The link of the only item
      stays linked to itself; any other is blank afterwards. A search that has gone all the way
      round without a match goes round for ever.
     */
    method Remove(link: Link) returns (outcome: RemoveOutcome)
      requires Valid()
      modifies this, items
      ensures Valid() && (outcome == Removed <==> link in old(items))
      ensures outcome == NeverEnds <==> link !in old(items) && old(len) >= 2
      ensures outcome != Removed ==> items == old(items)
      ensures outcome == Removed ==>
                exists k :: 0 <= k < |old(items)| && old(items)[k] == link && items == Without(old(items), k)
      ensures outcome == Removed ==> (link.next == null <==> old(len) > 1)
    {
      if len == 0 { return Absent; }
      if len == 1 {
        if link == head {
          head, len := null, 0;
          assert items[0] == link && Without(items, 0) == [];
          items := [];
          return Removed;
        }
        assert forall k :: 0 <= k < |items| ==> items[k] != link;
        return Absent;
      }
      var k := 0;
      var curr := head;
      while curr != link && k < len
        invariant 0 <= k <= len && curr == items[if k == len then 0 else k]
        invariant forall j :: 0 <= j < k ==> items[j] != link
      {
        curr := curr.next;
        k := k + 1;
      }
      if curr != link { return NeverEnds; }
      RemoveInternal(k, curr);
      return Removed;
    }

    /**
      Visits every item once, in order, and takes out those for which the closure, whatever
      state it keeps, answers true; the rest stay in order. `answers` are its answers, call by call.
     */
    method RemoveIf(answers: seq<bool>) returns (visited: seq<Link>)
      requires Valid() && |answers| == len
      modifies this, items
      ensures Valid()
      ensures visited == old(items)
      ensures items == Kept(old(items), answers)
    {
      if len == 0 { return []; }
      FirstRound(answers);
      ghost var region := set x | x in items;
      visited := Rounds(items, region, answers);
      LastRound(old(items), visited, answers);
    }

    /** The loop of `RemoveIf`. */
    method Rounds(ghost all: seq<Link>, ghost region: set<Link>, answers: seq<bool>) returns (visited: seq<Link>)
      requires InRound(all, 0, [], answers) && Valid() && items == all != [] && Within(items, region)
      modifies this, region
      ensures InRound(all, |all|, visited, answers)
    {
      visited := [];
      var curr := head;
      var left := len;
      hide List.InRound, Kept, Circle, Distinct, Within;
      while left > 0
        invariant 0 <= left <= |all| && InRound(all, |all| - left, visited, answers) && Within(items, region)
        invariant left > 0 ==> curr == all[|all| - left]
      {
        curr, visited := Round(all, |all| - left, region, curr, visited, answers);
        left := left - 1;
      }
    }

    lemma FirstRound(answers: seq<bool>)
      requires Valid() && |answers| == len
      ensures InRound(items, 0, [], answers)
    {
    }

    lemma LastRound(all: seq<Link>, visited: seq<Link>, answers: seq<bool>)
      requires InRound(all, |all|, visited, answers)
      ensures Valid() && visited == all && |answers| == |all| && items == Kept(all, answers)
    {
      assert answers[..|all|] == answers;
      hide Kept;
    }

    /** The state between two rounds of `RemoveIf`. */
    ghost predicate InRound(all: seq<Link>, m: nat, visited: seq<Link>, answers: seq<bool>)
      reads this, items
    {
      Valid() && Midway(all, m, items, visited, answers)
    }

    method Round(ghost all: seq<Link>, ghost m: nat, ghost region: set<Link>, link: Link, visited: seq<Link>, answers: seq<bool>)
      returns (next: Link?, visited': seq<Link>)
      requires InRound(all, m, visited, answers) && m < |all| && link == all[m] && Within(items, region)
      modifies this, region
      ensures InRound(all, m + 1, visited', answers) && Within(items, region)
      ensures m + 1 < |all| ==> next == all[m + 1]
    {
      ghost var at := |Kept(all[..m], answers[..m])|;
      VisitFacts(all, m, items, visited, answers);
      WithoutWithin(items, at, region);
      assert |visited| == m < |answers|;
      hide Kept, Midway, List.Valid, Without;
      visited' := visited + [link];
      next := Visit(link, answers[|visited|], at);
      hide Within;
    }

    /** One round of the loop: the successor is read first, then the item goes or stays. */
    method Visit(link: Link, goes: bool, ghost at: nat) returns (next: Link?)
      requires Valid() && at < |items| && items[at] == link
      modifies this, items
      ensures Valid()
      ensures next == old(items)[After(at, |old(items)|)]
      ensures items == if goes then Without(old(items), at) else old(items)
    {
      next := link.next;
      if goes { RemoveInternal(at, link); }
    }

    // -------------------------------------------------------------- a search for an absent item

    /** The link the search looks at after `n` steps. */
    ghost function Walk(n: nat): (link: Link?)
      requires Valid() && items != []
      reads this, items
      ensures link == items[WalkAt(n, |items|)]
    {
      if n == 0 then head else Walk(n - 1).next
    }
  }

  function WalkAt(n: nat, size: nat): (k: nat)
    requires size > 0
    ensures k < size && (n < size ==> k == n)
  {
    if n == 0 then 0 else After(WalkAt(n - 1, size), size)
  }

  /** The search loop of `remove` on a list of two or more comes to an end exactly if the item is there. */
  lemma SearchEndsIff(list: List, link: Link)
    requires list.Valid() && list.len >= 2
    ensures (exists n: nat :: list.Walk(n) == null || list.Walk(n) == link) <==> link in list.items
  {
    if link in list.items {
      var k :| 0 <= k < |list.items| && list.items[k] == link;
      assert list.Walk(k) == link;
    }
  }
}
