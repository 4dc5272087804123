// The allocator of poll groups: sockets share device handles, 32 to a group.
module PollGroups {
  import opened Common

  const MAX_GROUP_SIZE: nat := 32

  type GroupId = nat
  type Sizes = map<GroupId, nat>

  ghost predicate Listed(queue: seq<GroupId>, sizes: Sizes)
  {
    && (forall i | 0 <= i < |queue| :: queue[i] in sizes && sizes[queue[i]] <= MAX_GROUP_SIZE)
    && (forall i, j | 0 <= i < j < |queue| :: queue[i] != queue[j])
  }

  ghost predicate Full(sizes: Sizes, g: GroupId) { g in sizes && sizes[g] == MAX_GROUP_SIZE }

  ghost predicate FullFirst(queue: seq<GroupId>, sizes: Sizes)
  {
    forall i, j | 0 <= i < j < |queue| && Full(sizes, queue[j]) :: Full(sizes, queue[i])
  }

  ghost predicate AllFull(queue: seq<GroupId>, sizes: Sizes)
  {
    forall i | 0 <= i < |queue| :: Full(sizes, queue[i])
  }

  // The slots in use.
  ghost function Sum(queue: seq<GroupId>, sizes: Sizes): nat
    requires Listed(queue, sizes)
  {
    if queue == [] then 0 else sizes[queue[0]] + Sum(queue[1..], sizes)
  }

  lemma {:induction false} SumSplit(a: seq<GroupId>, b: seq<GroupId>, sizes: Sizes)
    requires Listed(a + b, sizes)
    ensures Listed(a, sizes) && Listed(b, sizes) && Sum(a + b, sizes) == Sum(a, sizes) + Sum(b, sizes)
  {
    ListedParts(a, b, sizes);
    if a == [] {
      assert a + b == b;
    } else {
      assert (a + b)[1..] == a[1..] + b;
      ListedParts([a[0]], a[1..] + b, sizes);
      assert [a[0]] + (a[1..] + b) == a + b;
      SumSplit(a[1..], b, sizes);
    }
  }

  lemma ListedParts(a: seq<GroupId>, b: seq<GroupId>, sizes: Sizes)
    ensures Listed(a + b, sizes) ==> Listed(a, sizes) && Listed(b, sizes)
  {
    if Listed(a + b, sizes) {
      forall i | 0 <= i < |a| ensures a[i] == (a + b)[i] {}
      forall i | 0 <= i < |b| ensures b[i] == (a + b)[|a| + i] {}
    }
  }

  lemma {:induction false} SumBounds(queue: seq<GroupId>, sizes: Sizes)
    requires Listed(queue, sizes)
    ensures Sum(queue, sizes) <= MAX_GROUP_SIZE * |queue|
    ensures AllFull(queue, sizes) ==> Sum(queue, sizes) == MAX_GROUP_SIZE * |queue|
  {
    if queue != [] { SumBounds(queue[1..], sizes); }
  }

  lemma {:induction false} SumSame(queue: seq<GroupId>, sizes: Sizes, sizes': Sizes)
    requires Listed(queue, sizes) && Listed(queue, sizes')
    requires forall i | 0 <= i < |queue| :: sizes[queue[i]] == sizes'[queue[i]]
    ensures Sum(queue, sizes) == Sum(queue, sizes')
  {
    if queue != [] { SumSame(queue[1..], sizes, sizes'); }
  }

  // `g` moves from the middle to an end and changes its size.
  lemma SumMoved(a: seq<GroupId>, g: GroupId, b: seq<GroupId>, sizes: Sizes, n: nat)
    requires Listed(a + [g] + b, sizes) && g in sizes && n <= MAX_GROUP_SIZE
    ensures var sizes' := sizes[g := n];
      && Listed([g] + (a + b), sizes') && Listed((a + b) + [g], sizes')
      && Sum([g] + (a + b), sizes') == Sum((a + b) + [g], sizes') == Sum(a + [g] + b, sizes) - sizes[g] + n
  {
    var sizes' := sizes[g := n];
    var l := a + [g] + b;
    assert l == a + ([g] + b);
    MovedListed(a, g, b, sizes, n);
    SumSplit(a, [g] + b, sizes);
    SumSplit([g], b, sizes);
    ListedParts(a + b, [g], sizes');
    ListedParts(a, b, sizes');
    SumSplit(a, b, sizes');
    SumSplit([g], a + b, sizes');
    SumSplit(a + b, [g], sizes');
    SumSame(a, sizes, sizes');
    SumSame(b, sizes, sizes');
    assert [g][1..] == [];
  }

  lemma MovedListed(a: seq<GroupId>, g: GroupId, b: seq<GroupId>, sizes: Sizes, n: nat)
    requires Listed(a + [g] + b, sizes) && n <= MAX_GROUP_SIZE
    ensures var sizes' := sizes[g := n];
      && Listed([g] + (a + b), sizes') && Listed((a + b) + [g], sizes')
      && g !in a && g !in b
  {
    var l := a + [g] + b;
    var na := |a|;
    assert l[na] == g;
    forall i | 0 <= i < |a| ensures a[i] == l[i] && a[i] != g {}
    forall i | 0 <= i < |b| ensures b[i] == l[na + 1 + i] && b[i] != g {}
    var ab := a + b;
    forall i | 0 <= i < |ab| ensures ab[i] == l[if i < na then i else i + 1] {}
  }

  lemma MovedMembers(a: seq<GroupId>, g: GroupId, b: seq<GroupId>)
    ensures forall x | x in a + [g] + b :: x in [g] + (a + b) && x in (a + b) + [g]
  {
  }

  // Where the groups stand after `g` moved; they keep their order.
  lemma MovedFullFirst(a: seq<GroupId>, g: GroupId, b: seq<GroupId>, sizes: Sizes, n: nat)
    requires Listed(a + [g] + b, sizes) && FullFirst(a + [g] + b, sizes)
    ensures n == MAX_GROUP_SIZE ==> FullFirst([g] + (a + b), sizes[g := n])
    ensures n < MAX_GROUP_SIZE ==> FullFirst((a + b) + [g], sizes[g := n])
  {
    var l, ab := a + [g] + b, a + b;
    var sizes' := sizes[g := n];
    var na := |a|;
    assert l[na] == g;
    forall i | 0 <= i < |ab| ensures ab[i] == l[if i < na then i else i + 1] && ab[i] != g {}
    forall i, j | 0 <= i < j < |ab| && Full(sizes', ab[j]) ensures Full(sizes', ab[i]) {
      var i', j' := if i < na then i else i + 1, if j < na then j else j + 1;
      assert Full(sizes, l[j']);
    }
  }

  // Taking a slot in the last group.
  lemma SlotTaken(queue: seq<GroupId>, sizes: Sizes, queue': seq<GroupId>, size: nat)
    requires Listed(queue, sizes) && FullFirst(queue, sizes) && queue != [] && queue[|queue| - 1] in sizes
    requires size == sizes[queue[|queue| - 1]] + 1 <= MAX_GROUP_SIZE
    requires var g := queue[|queue| - 1]; var a := queue[..|queue| - 1];
      queue' == if size == MAX_GROUP_SIZE then [g] + a else queue
    ensures var sizes' := sizes[queue[|queue| - 1] := size];
      && Listed(queue', sizes') && FullFirst(queue', sizes') && |queue'| == |queue|
      && Sum(queue', sizes') == Sum(queue, sizes) + 1 <= MAX_GROUP_SIZE * |queue|
    ensures forall x | x in queue :: x in queue'
  {
    var g, a := queue[|queue| - 1], queue[..|queue| - 1];
    assert queue == a + [g] + [] && a + [] == a;
    hide Listed, FullFirst, Sum;
    SumMoved(a, g, [], sizes, size);
    MovedFullFirst(a, g, [], sizes, size);
    MovedMembers(a, g, []);
    assert queue' == if size == MAX_GROUP_SIZE then [g] + (a + []) else (a + []) + [g];
    SumBounds(queue', sizes[g := size]);
  }

  // Giving back a slot of group number `i`.
  lemma SlotGiven(queue: seq<GroupId>, sizes: Sizes, i: nat, queue': seq<GroupId>, size: nat)
    requires Listed(queue, sizes) && FullFirst(queue, sizes) && i < |queue| && queue[i] in sizes
    requires size + 1 == sizes[queue[i]] && queue' == queue[..i] + queue[i + 1..] + [queue[i]]
    ensures var sizes' := sizes[queue[i] := size];
      && Listed(queue', sizes') && FullFirst(queue', sizes') && |queue'| == |queue|
      && Sum(queue', sizes') + 1 == Sum(queue, sizes)
    ensures forall x | x in queue :: x in queue'
  {
    var g, a, b := queue[i], queue[..i], queue[i + 1..];
    assert queue == a + [g] + b && sizes[g] <= MAX_GROUP_SIZE;
    hide Listed, FullFirst, Sum;
    SumMoved(a, g, b, sizes, size);
    MovedFullFirst(a, g, b, sizes, size);
    MovedMembers(a, g, b);
  }

  // Starting a group when all are full.
  lemma GroupAdded(queue: seq<GroupId>, sizes: Sizes, g: GroupId)
    requires Listed(queue, sizes) && AllFull(queue, sizes) && g !in sizes
    ensures var sizes' := sizes[g := 1];
      && Listed(queue + [g], sizes') && FullFirst(queue + [g], sizes')
      && Sum(queue + [g], sizes') == Sum(queue, sizes) + 1 == MAX_GROUP_SIZE * |queue| + 1
  {
    var sizes' := sizes[g := 1];
    SumBounds(queue, sizes);
    assert Listed(queue + [g], sizes') && Listed(queue, sizes');
    SumSplit(queue, [g], sizes');
    SumSame(queue, sizes, sizes');
    assert [g][1..] == [];
  }

  class Groups {
    var queue: seq<GroupId>
    var sizes: Sizes
    var nextId: GroupId
    ghost var peak: nat      // the most slots ever in use at the same time

    constructor ()
      ensures Valid() && queue == [] && sizes == map[] && peak == 0
    {
      queue, sizes, nextId, peak := [], map[], 0, 0;
    }

    ghost predicate Valid()
      reads this
    {
      && Listed(queue, sizes) && FullFirst(queue, sizes)
      && (forall g | g in sizes :: g < nextId && g in queue)
      && Sum(queue, sizes) <= peak <= MAX_GROUP_SIZE * |queue|
      && (queue != [] ==> peak > MAX_GROUP_SIZE * (|queue| - 1))
    }

    // Takes a slot in the last group, or in a new one when that is full; a group that becomes full goes to the front.
    method Acquire(granted: bool) returns (r: Option<GroupId>)
      requires Valid()
      modifies this
      ensures Valid() && nextId >= old(nextId)
      ensures r.None? <==> AllFull(old(queue), old(sizes)) && !granted
      ensures r.None? ==> unchanged(this)
      ensures r.Some? ==> sizes == old(sizes)[r.value := 1 + if r.value in old(sizes) then old(sizes)[r.value] else 0]
      ensures r.Some? ==> (r.value in old(sizes) <==> !AllFull(old(queue), old(sizes)))
      ensures r.Some? ==> Sum(queue, sizes) == Sum(old(queue), old(sizes)) + 1
      ensures peak == if r.Some? && Sum(queue, sizes) > old(peak) then Sum(queue, sizes) else old(peak)
    {
      SumBounds(queue, sizes);
      if queue == [] || sizes[queue[|queue| - 1]] >= MAX_GROUP_SIZE {
        assert AllFull(queue, sizes);
        if !granted { return None; }
        r := Some(nextId);
        AddGroup();
      } else {
        assert !Full(sizes, queue[|queue| - 1]);
        r := Some(queue[|queue| - 1]);
        TakeSlot();
      }
    }

    // Starts a group for a first slot.
    method AddGroup()
      requires Valid() && AllFull(queue, sizes)
      modifies this
      ensures Valid() && nextId == old(nextId) + 1 && sizes == old(sizes)[old(nextId) := 1]
      ensures queue == old(queue) + [old(nextId)] && Sum(queue, sizes) == Sum(old(queue), old(sizes)) + 1
      ensures peak == if Sum(queue, sizes) > old(peak) then Sum(queue, sizes) else old(peak)
    {
      GroupAdded(queue, sizes, nextId);
      hide Listed, FullFirst, Sum, AllFull;
      queue, sizes, nextId := queue + [nextId], sizes[nextId := 1], nextId + 1;
      peak := if Sum(queue, sizes) > peak then Sum(queue, sizes) else peak;
    }

    method TakeSlot()
      requires Valid() && queue != [] && queue[|queue| - 1] in sizes && sizes[queue[|queue| - 1]] < MAX_GROUP_SIZE
      modifies this
      ensures Valid() && nextId == old(nextId) && |queue| == |old(queue)|
      ensures Sum(queue, sizes) == Sum(old(queue), old(sizes)) + 1
      ensures var g := old(queue)[|old(queue)| - 1]; sizes == old(sizes)[g := old(sizes)[g] + 1]
      ensures peak == if Sum(queue, sizes) > old(peak) then Sum(queue, sizes) else old(peak)
    {
      hide Listed, FullFirst, Sum;
      var n := |queue| - 1;
      var g := queue[n];
      var size := sizes[g] + 1;
      var queue' := if size == MAX_GROUP_SIZE then [g] + queue[..n] else queue;
      SlotTaken(queue, sizes, queue', size);
      queue, sizes := queue', sizes[g := size];
      peak := if Sum(queue, sizes) > peak then Sum(queue, sizes) else peak;
    }

    // Gives a slot back; the group, no longer full, goes to the end.
    method Release(g: GroupId)
      requires Valid() && g in sizes && sizes[g] > 0
      modifies this
      ensures Valid() && peak == old(peak) && nextId == old(nextId) && |queue| == |old(queue)|
      ensures sizes == old(sizes)[g := old(sizes)[g] - 1]
    {
      hide Listed, FullFirst, Sum;
      var i :| 0 <= i < |queue| && queue[i] == g;
      var queue' := queue[..i] + queue[i + 1..] + [g];
      SlotGiven(queue, sizes, i, queue', sizes[g] - 1);
      queue, sizes := queue', sizes[g := sizes[g] - 1];
    }

    // The number of groups ever made is the peak use divided by 32, rounded up.
    lemma TightPacking()
      requires Valid()
      ensures |queue| == (peak + MAX_GROUP_SIZE - 1) / MAX_GROUP_SIZE
    {
    }
  }
}
