// The lock-free queue with many producers and one consumer, as atomic steps on a heap of nodes.
module Mpsc {
  import opened Common

  type Loc = nat
  type Tid = nat
  type Item = nat

  // `data` is None when the item was never there or has been deleted.
  datatype Cell = Cell(data: Option<Item>, next: Option<Loc>)

  datatype Producer =
    | Made(node: Loc)                  // node allocated, exchange still to come
    | Swapped(node: Loc, prev: Loc, at: nat)   // exchanged as number `at`, link still to come

  datatype Consumer =
    | Ready
    | HasTail(tail: Loc)
    | HasNext(tail: Loc, next: Loc)
    | Took(tail: Loc, next: Loc)           // item moved out
    | Deleted(tail: Loc, next: Loc)        // item deleted
    | Stored(tail: Loc)                    // tail_ advanced, old node still to be deleted

  datatype State = State(
    heap: map<Loc, Cell>,
    alloc: Loc,                     // nodes from here on were never allocated
    head: Loc,
    tail: Loc,
    producers: map<Tid, Producer>,
    consumer: Consumer,
    order: seq<Loc>,                // every node in the order of the exchanges, the first dummy included
    items: seq<Item>,               // items[k] was enqueued with order[k + 1]
    done: nat,                      // advances of tail_
    delivered: seq<Item>)

  function Init(): State
  {
    State(map[0 := Cell(None, None)], 1, 0, 0, map[], Ready, [0], [], 0, [])
  }

  datatype Step =
    | Make(t: Tid, item: Item)
    | Exchange(t: Tid)
    | Link(t: Tid)
    | LoadTail
    | LoadNext
    | Move
    | DeleteData
    | StoreTail
    | DeleteNode

  predicate Enabled(s: State, step: Step)
  {
    match step
    case Make(t, _) => t !in s.producers
    case Exchange(t) => t in s.producers && s.producers[t].Made?
    case Link(t) => t in s.producers && s.producers[t].Swapped?
    case LoadTail => s.consumer.Ready?
    case LoadNext => s.consumer.HasTail?
    case Move => s.consumer.HasNext?
    case DeleteData => s.consumer.Took?
    case StoreTail => s.consumer.Deleted?
    case DeleteNode => s.consumer.Stored?
  }

  // Every access is to a live node, and only a live item is moved out or deleted.
  predicate Safe(s: State, step: Step)
    requires Enabled(s, step)
  {
    match step
    case Link(t) => s.producers[t].prev in s.heap
    case LoadNext => s.consumer.tail in s.heap
    case Move => s.consumer.next in s.heap && s.heap[s.consumer.next].data.Some?
    case DeleteData => s.consumer.next in s.heap && s.heap[s.consumer.next].data.Some?
    case DeleteNode => s.consumer.tail in s.heap
    case _ => true
  }

  function Do(s: State, step: Step): State
    requires Enabled(s, step) && Safe(s, step)
  {
    match step
    case Make(t, item) =>
      s.(heap := s.heap[s.alloc := Cell(Some(item), None)], alloc := s.alloc + 1,
         producers := s.producers[t := Made(s.alloc)])
    case Exchange(t) =>
      var node := s.producers[t].node;
      s.(head := node, producers := s.producers[t := Swapped(node, s.head, |s.order|)], order := s.order + [node],
         items := s.items + [ItemOf(s, node)])
    case Link(t) =>
      var p := s.producers[t];
      s.(heap := s.heap[p.prev := s.heap[p.prev].(next := Some(p.node))], producers := s.producers - {t})
    case LoadTail => s.(consumer := HasTail(s.tail))
    case LoadNext =>
      var tail := s.consumer.tail;
      match s.heap[tail].next {
        case None => s.(consumer := Ready)                   // dequeue returns false
        case Some(next) => s.(consumer := HasNext(tail, next))
      }
    case Move =>
      var c := s.consumer;
      s.(consumer := Took(c.tail, c.next), delivered := s.delivered + [s.heap[c.next].data.value])
    case DeleteData =>
      var c := s.consumer;
      s.(consumer := Deleted(c.tail, c.next), heap := s.heap[c.next := s.heap[c.next].(data := None)])
    case StoreTail =>
      var c := s.consumer;
      s.(consumer := Stored(c.tail), tail := c.next, done := s.done + 1)
    case DeleteNode => s.(consumer := Ready, heap := s.heap - {s.consumer.tail})
  }

  function ItemOf(s: State, node: Loc): Item
  {
    if node in s.heap && s.heap[node].data.Some? then s.heap[node].data.value else 0
  }

  // ---- the invariant ----

  // The first node not yet given back to the allocator.
  ghost function Oldest(s: State): int { if s.consumer.Stored? then s.done - 1 else s.done }

  ghost predicate OrderOk(s: State)
  {
    && |s.order| == |s.items| + 1 && s.done < |s.order|
    && s.tail == s.order[s.done] && s.head == s.order[|s.order| - 1]
    && (s.consumer.Stored? ==> s.done >= 1)
    && (forall k | 0 <= k < |s.order| :: s.order[k] < s.alloc)
    && (forall j, k | 0 <= j < k < |s.order| :: s.order[j] != s.order[k])
  }

  // Exactly the nodes from the oldest on, and those being enqueued, are allocated.
  ghost predicate HeapOk(s: State)
    requires OrderOk(s)
  {
    && (forall k | Oldest(s) <= k < |s.order| :: s.order[k] in s.heap)
    && (forall k | 0 <= k < Oldest(s) :: s.order[k] !in s.heap)
    && (forall l | l in s.heap :: l < s.alloc)
  }

  ghost predicate MadeOk(s: State)
  {
    && (forall t | t in s.producers && s.producers[t].Made? ::
          && s.producers[t].node in s.heap && s.producers[t].node !in s.order
          && s.heap[s.producers[t].node].next == None && s.heap[s.producers[t].node].data.Some?)
    && (forall t, u | t in s.producers && u in s.producers && t != u :: s.producers[t].node != s.producers[u].node)
  }

  // A producer between exchange and link holds two neighbours that are not linked yet.
  ghost predicate SwappedOk(s: State)
    requires OrderOk(s)
  {
    forall t | t in s.producers && s.producers[t].Swapped? :: HoldsGap(s, s.producers[t])
  }

  ghost predicate HoldsGap(s: State, p: Producer)
    requires p.Swapped?
  {
    && s.done < p.at < |s.order| && s.order[p.at - 1] == p.prev && s.order[p.at] == p.node
    && p.prev in s.heap && s.heap[p.prev].next == None
  }

  // Some producer is about to link node number `k`.
  ghost predicate Pending(s: State, k: nat)
  {
    exists t :: t in s.producers && s.producers[t].Swapped? && s.producers[t].at == k
  }

  // Node number `k` is linked from its predecessor unless a producer is about to do it.
  ghost predicate LinkAt(s: State, k: int)
  {
    && 0 < k < |s.order| && s.order[k - 1] in s.heap
    && (s.heap[s.order[k - 1]].next == Some(s.order[k]) || (s.heap[s.order[k - 1]].next == None && Pending(s, k)))
  }

  ghost predicate LinksOk(s: State)
    requires OrderOk(s) && HeapOk(s)
  {
    && s.heap[s.head].next == None
    && forall k {:trigger LinkAt(s, k)} :: s.done < k < |s.order| ==> LinkAt(s, k)
  }

  // Items are intact beyond the node the consumer is working on.
  ghost predicate DataOk(s: State)
    requires OrderOk(s) && HeapOk(s)
  {
    && (forall k | s.done < k < |s.order| && !(k == s.done + 1 && s.consumer.Deleted?) ::
          s.heap[s.order[k]].data == Some(s.items[k - 1]))
    && s.heap[s.tail].data == None
    && (s.consumer.Deleted? && s.done + 1 < |s.order| ==> s.heap[s.order[s.done + 1]].data == None)
  }

  ghost predicate AtNext(s: State, tail: Loc, next: Loc)
  {
    && tail == s.tail && s.done + 1 < |s.order| && next == s.order[s.done + 1]
    && tail in s.heap && s.heap[tail].next == Some(next)
  }

  ghost predicate ConsumerOk(s: State)
    requires OrderOk(s)
  {
    && s.delivered == s.items[..if s.consumer.Took? || s.consumer.Deleted? then Min(s.done + 1, |s.items|) else s.done]
    && match s.consumer
       case Ready => true
       case HasTail(tail) => tail == s.tail
       case HasNext(tail, next) => AtNext(s, tail, next)
       case Took(tail, next) => AtNext(s, tail, next)
       case Deleted(tail, next) => AtNext(s, tail, next)
       case Stored(tail) => s.done >= 1 && tail == s.order[s.done - 1]
  }

  ghost function Min(a: int, b: int): int { if a < b then a else b }

  ghost predicate Inv(s: State)
  {
    OrderOk(s) && HeapOk(s) && MadeOk(s) && SwappedOk(s) && LinksOk(s) && DataOk(s) && ConsumerOk(s)
  }

  lemma InitInv()
    ensures Inv(Init())
  {
  }

  // ---- every step keeps it ----

  lemma MakeInv(s: State, t: Tid, item: Item)
    requires Inv(s) && Enabled(s, Make(t, item))
    ensures Inv(Do(s, Make(t, item)))
  {
    hide Pending, LinkAt, HoldsGap;
    var s' := Do(s, Make(t, item));
    assert OrderOk(s') && HeapOk(s');
    MakeMade(s, t, item);
    KeepSwapped(s, s');
    KeepLinks(s, s');
    KeepData(s, s');
  }

  lemma MakeMade(s: State, t: Tid, item: Item)
    requires OrderOk(s) && HeapOk(s) && MadeOk(s) && SwappedOk(s) && Enabled(s, Make(t, item))
    ensures MadeOk(Do(s, Make(t, item)))
  {
  }

  lemma KeepSwapped(s: State, s': State)
    requires OrderOk(s) && HeapOk(s) && SwappedOk(s) && OrderOk(s')
    requires s.order <= s'.order && s'.done == s.done
    requires forall t | t in s'.producers && s'.producers[t].Swapped? ::
      t in s.producers && s.producers[t] == s'.producers[t]
    requires forall k | s.done <= k < |s.order| ::
      s.order[k] in s'.heap && s'.heap[s.order[k]].next == s.heap[s.order[k]].next
    ensures SwappedOk(s')
  {
  }

  lemma KeepData(s: State, s': State)
    requires OrderOk(s) && HeapOk(s) && DataOk(s) && ConsumerOk(s) && OrderOk(s') && HeapOk(s')
    requires s'.order == s.order && s'.items == s.items && s'.done == s.done && s'.consumer == s.consumer
    requires s'.delivered == s.delivered
    requires forall k | s.done <= k < |s.order| :: s'.heap[s.order[k]].data == s.heap[s.order[k]].data
    requires forall k | s.done <= k < |s.order| && s.heap[s.order[k]].next.Some? ::
      s'.heap[s.order[k]].next == s.heap[s.order[k]].next
    ensures DataOk(s') && ConsumerOk(s')
  {
  }

  // Links are not disturbed by a step that keeps the nodes and the producers about to link.
  lemma KeepLinks(s: State, s': State)
    requires OrderOk(s) && HeapOk(s) && LinksOk(s) && OrderOk(s') && HeapOk(s')
    requires s'.order == s.order && s'.done >= s.done
    requires forall k | s'.done <= k < |s.order| :: s'.heap[s.order[k]].next == s.heap[s.order[k]].next
    requires forall t | t in s.producers && s.producers[t].Swapped? ::
      t in s'.producers && s'.producers[t] == s.producers[t]
    ensures LinksOk(s')
  {
    forall k | s'.done < k < |s'.order| ensures LinkAt(s', k) {
      assert LinkAt(s, k);
      KeepPending(s, s', k);
    }
  }

  lemma KeepPending(s: State, s': State, k: nat)
    requires forall t | t in s.producers && s.producers[t].Swapped? ::
      t in s'.producers && s'.producers[t] == s.producers[t]
    ensures Pending(s, k) ==> Pending(s', k)
  {
  }

  lemma ExchangeInv(s: State, t: Tid)
    requires Inv(s) && Enabled(s, Exchange(t))
    ensures Inv(Do(s, Exchange(t)))
  {
    var s' := Do(s, Exchange(t));
    ExchangeOrder(s, t);
    ExchangeProducers(s, t);
    ExchangeLinks(s, t);
    ExchangeData(s, t);
  }

  lemma ExchangeOrder(s: State, t: Tid)
    requires OrderOk(s) && HeapOk(s) && MadeOk(s) && Enabled(s, Exchange(t))
    ensures OrderOk(Do(s, Exchange(t))) && HeapOk(Do(s, Exchange(t)))
  {
  }

  lemma ExchangeProducers(s: State, t: Tid)
    requires Inv(s) && Enabled(s, Exchange(t)) && OrderOk(Do(s, Exchange(t)))
    ensures MadeOk(Do(s, Exchange(t))) && SwappedOk(Do(s, Exchange(t)))
  {
    hide LinkAt, Pending, DataOk, ConsumerOk;
    var s' := Do(s, Exchange(t));
    var n := |s.order|;
    assert s'.order[n - 1] == s.head && s'.order[n] == s.producers[t].node;
    forall u | u in s'.producers && s'.producers[u].Swapped? ensures HoldsGap(s', s'.producers[u]) {
      if u != t {
        var p := s.producers[u];
        assert HoldsGap(s, p);
        assert s'.order[p.at] == s.order[p.at] && s'.order[p.at - 1] == s.order[p.at - 1];
      }
    }
  }

  lemma ExchangeData(s: State, t: Tid)
    requires OrderOk(s) && HeapOk(s) && MadeOk(s) && DataOk(s) && ConsumerOk(s) && Enabled(s, Exchange(t))
    requires OrderOk(Do(s, Exchange(t))) && HeapOk(Do(s, Exchange(t)))
    ensures DataOk(Do(s, Exchange(t))) && ConsumerOk(Do(s, Exchange(t)))
  {
    var s' := Do(s, Exchange(t));
    var n := |s.order|;
    forall k | s'.done < k < |s'.order| && !(k == s'.done + 1 && s'.consumer.Deleted?)
      ensures s'.heap[s'.order[k]].data == Some(s'.items[k - 1])
    {
      if k < n { assert s'.order[k] == s.order[k] && s'.items[k - 1] == s.items[k - 1]; }
    }
    assert s'.order[s.done] == s.order[s.done];
    if s.done + 1 < n { assert s'.order[s.done + 1] == s.order[s.done + 1]; }
    assert s'.items[..|s.items|] == s.items;
  }

  lemma ExchangeLinks(s: State, t: Tid)
    requires Inv(s) && Enabled(s, Exchange(t))
    requires OrderOk(Do(s, Exchange(t))) && HeapOk(Do(s, Exchange(t)))
    ensures LinksOk(Do(s, Exchange(t)))
  {
    var s' := Do(s, Exchange(t));
    var n := |s.order|;
    forall k | s'.done < k < |s'.order| ensures LinkAt(s', k) {
      if k < n {
        assert LinkAt(s, k);
        KeepPending(s, s', k);
        assert s'.order[k] == s.order[k] && s'.order[k - 1] == s.order[k - 1];
      } else {
        assert t in s'.producers && s'.producers[t].at == n;
      }
    }
  }

  lemma LinkInv(s: State, t: Tid)
    requires Inv(s) && Enabled(s, Link(t)) && Safe(s, Link(t))
    ensures Inv(Do(s, Link(t)))
  {
    hide Pending, LinkAt, DataOk, ConsumerOk;
    var s' := Do(s, Link(t));
    assert HoldsGap(s, s.producers[t]);
    assert OrderOk(s') && HeapOk(s');
    LinkMade(s, t);
    LinkSwapped(s, t);
    LinkLinks(s, t);
    KeepData(s, s');
  }

  lemma LinkMade(s: State, t: Tid)
    requires OrderOk(s) && MadeOk(s) && SwappedOk(s) && Enabled(s, Link(t)) && Safe(s, Link(t))
    ensures MadeOk(Do(s, Link(t)))
  {
  }

  lemma LinkSwapped(s: State, t: Tid)
    requires OrderOk(s) && MadeOk(s) && SwappedOk(s) && Enabled(s, Link(t)) && Safe(s, Link(t))
    requires OrderOk(Do(s, Link(t)))
    ensures SwappedOk(Do(s, Link(t)))
  {
    var s' := Do(s, Link(t));
    var p := s.producers[t];
    forall u | u in s'.producers && s'.producers[u].Swapped? ensures HoldsGap(s', s'.producers[u]) {
      assert HoldsGap(s, p) && HoldsGap(s, s.producers[u]);
      assert s.producers[u].node != p.node;
    }
  }

  lemma LinkLinks(s: State, t: Tid)
    requires OrderOk(s) && HeapOk(s) && SwappedOk(s) && LinksOk(s) && Enabled(s, Link(t)) && Safe(s, Link(t))
    requires OrderOk(Do(s, Link(t))) && HeapOk(Do(s, Link(t)))
    ensures LinksOk(Do(s, Link(t)))
  {
    var s' := Do(s, Link(t));
    var p := s.producers[t];
    assert HoldsGap(s, p);
    forall k | s'.done < k < |s'.order| ensures LinkAt(s', k) {
      assert LinkAt(s, k);
      if k != p.at && s.heap[s.order[k - 1]].next == None {
        var u :| u in s.producers && s.producers[u].Swapped? && s.producers[u].at == k;
        assert u in s'.producers && s'.producers[u].at == k;
      }
    }
  }

  // Loading tail_ and its successor.
  lemma LoadInv(s: State, step: Step)
    requires Inv(s) && Enabled(s, step) && Safe(s, step) && (step.LoadTail? || step.LoadNext?)
    ensures Inv(Do(s, step))
  {
    hide Pending, LinkAt, HoldsGap;
    var s' := Do(s, step);
    Loaded(s, s');
    KeepSwapped(s, s');
    KeepLinks(s, s');
    LoadConsumer(s, step);
  }

  // The consumer moves on without touching the list.
  lemma Loaded(s: State, s': State)
    requires OrderOk(s) && HeapOk(s) && MadeOk(s) && DataOk(s) && s' == s.(consumer := s'.consumer)
    requires !s.consumer.Stored? && !s'.consumer.Stored? && !s.consumer.Deleted? && !s'.consumer.Deleted?
    ensures OrderOk(s') && HeapOk(s') && MadeOk(s') && DataOk(s')
  {
  }

  lemma LoadConsumer(s: State, step: Step)
    requires OrderOk(s) && HeapOk(s) && LinksOk(s) && ConsumerOk(s)
    requires Enabled(s, step) && Safe(s, step) && (step.LoadTail? || step.LoadNext?)
    requires OrderOk(Do(s, step))
    ensures ConsumerOk(Do(s, step))
  {
    if step.LoadNext? && s.done + 1 < |s.order| { assert LinkAt(s, s.done + 1); }
  }

  // Taking the item out of the next node.
  lemma TakeInv(s: State, step: Step)
    requires Inv(s) && Enabled(s, step) && Safe(s, step) && (step.Move? || step.DeleteData?)
    ensures Inv(Do(s, step))
  {
    hide Pending, LinkAt;
    var s' := Do(s, step);
    assert OrderOk(s') && HeapOk(s');
    KeepSwapped(s, s');
    KeepLinks(s, s');
    TakeRest(s, step);
  }

  lemma TakeRest(s: State, step: Step)
    requires OrderOk(s) && HeapOk(s) && MadeOk(s) && DataOk(s) && ConsumerOk(s)
    requires Enabled(s, step) && Safe(s, step) && (step.Move? || step.DeleteData?)
    requires OrderOk(Do(s, step)) && HeapOk(Do(s, step))
    ensures MadeOk(Do(s, step)) && DataOk(Do(s, step)) && ConsumerOk(Do(s, step))
  {
    var s' := Do(s, step);
    assert s.consumer.next == s.order[s.done + 1];
    if step.Move? { assert s.items[..s.done + 1] == s.items[..s.done] + [s.items[s.done]]; }
  }

  lemma StoreTailInv(s: State)
    requires Inv(s) && Enabled(s, StoreTail)
    ensures Inv(Do(s, StoreTail))
  {
    hide Pending;
    var s' := Do(s, StoreTail);
    assert OrderOk(s') && HeapOk(s') && MadeOk(s');
    StoreSwapped(s);
    KeepLinks(s, s');
    assert DataOk(s') && ConsumerOk(s');
  }

  lemma StoreSwapped(s: State)
    requires OrderOk(s) && SwappedOk(s) && ConsumerOk(s) && Enabled(s, StoreTail)
    requires OrderOk(Do(s, StoreTail))
    ensures SwappedOk(Do(s, StoreTail))
  {
    var s' := Do(s, StoreTail);
    forall t | t in s'.producers && s'.producers[t].Swapped? ensures HoldsGap(s', s'.producers[t]) {
      assert HoldsGap(s, s.producers[t]);
      assert s.producers[t].at != s.done + 1;
    }
  }

  lemma DeleteNodeInv(s: State)
    requires Inv(s) && Enabled(s, DeleteNode) && Safe(s, DeleteNode)
    ensures Inv(Do(s, DeleteNode))
  {
    hide Pending;
    var s' := Do(s, DeleteNode);
    assert OrderOk(s') && HeapOk(s') && MadeOk(s');
    KeepSwapped(s, s');
    KeepLinks(s, s');
    assert DataOk(s') && ConsumerOk(s');
  }

  // No step of any thread touches a node that was given back or an item that is gone, and the invariant holds on.
  lemma StepInv(s: State, step: Step)
    requires Inv(s) && Enabled(s, step)
    ensures Safe(s, step) && Inv(Do(s, step))
  {
    StepSafe(s, step);
    hide Inv, Do, Safe;
    match step
    case Make(t, item) => MakeInv(s, t, item);
    case Exchange(t) => ExchangeInv(s, t);
    case Link(t) => LinkInv(s, t);
    case LoadTail => LoadInv(s, step);
    case LoadNext => LoadInv(s, step);
    case Move => TakeInv(s, step);
    case DeleteData => TakeInv(s, step);
    case StoreTail => StoreTailInv(s);
    case DeleteNode => DeleteNodeInv(s);
  }

  lemma StepSafe(s: State, step: Step)
    requires Inv(s) && Enabled(s, step)
    ensures Safe(s, step)
  {
  }

  // ---- every run ----

  ghost predicate IsRun(s: State, steps: seq<Step>)
    decreases |steps|
  {
    steps != [] ==> Enabled(s, steps[0]) && Safe(s, steps[0]) && IsRun(Do(s, steps[0]), steps[1..])
  }

  ghost function After(s: State, steps: seq<Step>): State
    requires IsRun(s, steps)
    decreases |steps|
  {
    if steps == [] then s else After(Do(s, steps[0]), steps[1..])
  }

  lemma {:induction false} RunInv(s: State, steps: seq<Step>)
    requires Inv(s) && IsRun(s, steps)
    ensures Inv(After(s, steps))
    decreases |steps|
  {
    hide Inv, Do, Safe, Enabled;
    if steps != [] {
      StepInv(s, steps[0]);
      RunInv(Do(s, steps[0]), steps[1..]);
    }
  }

  // In every interleaving the items of the enqueues come out once each, in the order of their exchanges.
  lemma DeliveredInOrder(steps: seq<Step>)
    requires IsRun(Init(), steps)
    ensures After(Init(), steps).items == Sent(steps) && After(Init(), steps).delivered <= Sent(steps)
  {
    InitInv();
    RunInv(Init(), steps);
    hide IsRun, After;
    ItemsSent(steps);
  }

  // dequeue and empty() see nothing exactly when nothing is left or the next enqueue has not been linked yet.
  lemma SeesNothing(s: State)
    requires Inv(s) && (s.consumer.Ready? || s.consumer.HasTail?)
    ensures s.tail in s.heap
    ensures s.heap[s.tail].next == None <==> s.done + 1 == |s.order| || Pending(s, s.done + 1)
  {
    if s.done + 1 < |s.order| {
      assert LinkAt(s, s.done + 1);
      if Pending(s, s.done + 1) {
        var t :| t in s.producers && s.producers[t].Swapped? && s.producers[t].at == s.done + 1;
        assert HoldsGap(s, s.producers[t]);
      }
    }
  }

  // dequeue() answers that there is nothing exactly then.
  lemma DequeueEmpty(s: State)
    requires Inv(s) && s.consumer.HasTail?
    ensures Enabled(s, LoadNext) && Safe(s, LoadNext)
    ensures Do(s, LoadNext).consumer.Ready? <==> s.done + 1 == |s.order| || Pending(s, s.done + 1)
  {
    SeesNothing(s);
    hide Pending, LinkAt;
  }

  function OneDequeue(): seq<Step> { [LoadTail, LoadNext, Move, DeleteData, StoreTail, DeleteNode] }

  // Otherwise it hands over the next item: the consumer can go through its six steps, which deliver that item, move on
  // by one node and leave the producers alone.
  lemma DequeueDelivers(s: State)
    requires Inv(s) && s.consumer.Ready? && s.done + 1 < |s.order| && !Pending(s, s.done + 1)
    ensures IsRun(s, OneDequeue())
    ensures var s' := After(s, OneDequeue());
      && s'.delivered == s.delivered + [s.items[s.done]] && s'.done == s.done + 1 && s'.consumer.Ready?
      && s'.producers == s.producers && s'.order == s.order && s'.items == s.items && s'.head == s.head
  {
    NextLinked(s);
    hide Inv, Pending, Do, Enabled, Safe;
    SixSteps(s, s.order[s.done + 1], s.items[s.done]);
    RunsSix(s, LoadTail, LoadNext, Move, DeleteData, StoreTail, DeleteNode);
  }

  lemma SixSteps(s: State, next: Loc, item: Item)
    requires s.consumer.Ready? && s.tail in s.heap && s.heap[s.tail].next == Some(next) && next != s.tail
    requires next in s.heap && s.heap[next].data == Some(item)
    ensures Runs(s, LoadTail) && Runs(Do(s, LoadTail), LoadNext)
    ensures var s2 := Do(Do(s, LoadTail), LoadNext);
      && Runs(s2, Move) && Runs(Do(s2, Move), DeleteData)
      && var s4 := Do(Do(s2, Move), DeleteData);
      && Runs(s4, StoreTail) && Runs(Do(s4, StoreTail), DeleteNode)
      && var s6 := Do(Do(s4, StoreTail), DeleteNode);
      && s6.delivered == s.delivered + [item] && s6.done == s.done + 1 && s6.consumer.Ready?
      && s6.producers == s.producers && s6.order == s.order && s6.items == s.items && s6.head == s.head
  {
  }

  lemma NextLinked(s: State)
    requires Inv(s) && s.consumer.Ready? && s.done + 1 < |s.order| && !Pending(s, s.done + 1)
    ensures s.tail in s.heap && s.heap[s.tail].next == Some(s.order[s.done + 1]) && s.order[s.done + 1] in s.heap
    ensures s.heap[s.order[s.done + 1]].data == Some(s.items[s.done]) && s.tail != s.order[s.done + 1]
  {
    assert LinkAt(s, s.done + 1);
  }

  lemma RunsSix(s: State, a: Step, b: Step, c: Step, d: Step, e: Step, f: Step)
    requires Runs(s, a) && Runs(Do(s, a), b) && Runs(Do(Do(s, a), b), c) && Runs(Do(Do(Do(s, a), b), c), d)
    requires Runs(Do(Do(Do(Do(s, a), b), c), d), e) && Runs(Do(Do(Do(Do(Do(s, a), b), c), d), e), f)
    ensures IsRun(s, [a, b, c, d, e, f])
    ensures After(s, [a, b, c, d, e, f]) == Do(Do(Do(Do(Do(Do(s, a), b), c), d), e), f)
  {
    hide Do, Enabled, Safe;
    var s1 := Do(s, a);
    var s2 := Do(s1, b);
    var s3 := Do(s2, c);
    var s4 := Do(s3, d);
    var s5 := Do(s4, e);
    Prepend(s5, f, []);
    Prepend(s4, e, [f]);
    Prepend(s3, d, [e, f]);
    Prepend(s2, c, [d, e, f]);
    Prepend(s1, b, [c, d, e, f]);
    Prepend(s, a, [b, c, d, e, f]);
  }

  predicate Runs(s: State, a: Step) { Enabled(s, a) && Safe(s, a) }

  lemma Prepend(s: State, a: Step, rest: seq<Step>)
    requires Runs(s, a) && IsRun(Do(s, a), rest)
    ensures IsRun(s, [a] + rest) && After(s, [a] + rest) == After(Do(s, a), rest)
  {
    hide Do;
    assert ([a] + rest)[1..] == rest;
  }

  // ---- the items are those enqueued ----

  // Told from the steps alone: what each thread last made a node for, and the items in the order of the exchanges.
  function Given(steps: seq<Step>): map<Tid, Item>
  {
    if steps == [] then map[]
    else
      var last := steps[|steps| - 1];
      if last.Make? then Given(steps[..|steps| - 1])[last.t := last.item] else Given(steps[..|steps| - 1])
  }

  function Sent(steps: seq<Step>): seq<Item>
  {
    if steps == [] then []
    else
      var before, last := steps[..|steps| - 1], steps[|steps| - 1];
      Sent(before) + if last.Exchange? && last.t in Given(before) then [Given(before)[last.t]] else []
  }

  // The nodes being enqueued hold what was given.
  ghost predicate Holds(s: State, given: map<Tid, Item>)
  {
    forall t | t in s.producers && s.producers[t].Made? ::
      t in given && s.producers[t].node in s.heap && s.heap[s.producers[t].node].data == Some(given[t])
  }

  lemma HoldsNext(s: State, step: Step, given: map<Tid, Item>)
    requires Inv(s) && Holds(s, given) && Enabled(s, step) && Safe(s, step)
    ensures Holds(Do(s, step), if step.Make? then given[step.t := step.item] else given)
    ensures Do(s, step).items == s.items + if step.Exchange? then [given[step.t]] else []
  {
    hide LinkAt, Pending, HoldsGap;
    NewNodes(s);
  }

  // Nodes being enqueued are none of those the consumer or another producer touches.
  lemma NewNodes(s: State)
    requires Inv(s)
    ensures forall t | t in s.producers && s.producers[t].Made? ::
      && s.producers[t].node in s.heap && s.producers[t].node < s.alloc
      && (forall k | 0 <= k < |s.order| :: s.order[k] != s.producers[t].node)
      && s.producers[t].node != s.tail
    ensures forall t | t in s.producers && s.producers[t].Swapped? ::
      exists k :: 0 <= k < |s.order| && s.order[k] == s.producers[t].prev
  {
    forall t | t in s.producers && s.producers[t].Swapped?
      ensures exists k :: 0 <= k < |s.order| && s.order[k] == s.producers[t].prev
    {
      assert HoldsGap(s, s.producers[t]);
      assert s.order[s.producers[t].at - 1] == s.producers[t].prev;
    }
  }

  // In every run the queue has taken in the items of the enqueues, in the order of their exchanges.
  lemma {:induction false} ItemsSent(steps: seq<Step>)
    requires IsRun(Init(), steps)
    ensures var s := After(Init(), steps); s.items == Sent(steps) && Inv(s) && Holds(s, Given(steps))
    decreases |steps|
  {
    if steps == [] {
      InitInv();
    } else {
      hide Inv, Do, Enabled, Safe, Holds;
      var n := |steps| - 1;
      var before, last := steps[..n], steps[n];
      assert steps == before + [last];
      SplitLast(Init(), before, last);
      ItemsSent(before);
      HoldsNext(After(Init(), before), last, Given(before));
      StepInv(After(Init(), before), last);
      HoldsGiven(After(Init(), before), last, Given(before));
    }
  }

  lemma HoldsGiven(s: State, step: Step, given: map<Tid, Item>)
    requires Holds(s, given) && Enabled(s, step)
    ensures step.Exchange? ==> step.t in given
  {
  }

  lemma {:induction false} SplitLast(s: State, before: seq<Step>, last: Step)
    requires IsRun(s, before + [last])
    ensures IsRun(s, before) && Enabled(After(s, before), last) && Safe(After(s, before), last)
    ensures After(s, before + [last]) == Do(After(s, before), last)
    decreases |before|
  {
    hide Do, Enabled, Safe;
    if before == [] {
      assert [] + [last] == [last];
      assert [last][1..] == [];
    } else {
      assert (before + [last])[1..] == before[1..] + [last];
      SplitLast(Do(s, before[0]), before[1..], last);
    }
  }

  // ---- no node is lost ----

  // Every allocated node is in the order or in the hands of a producer.
  ghost predicate NoStrays(s: State)
  {
    forall l | l in s.heap :: Owned(s, l)
  }

  ghost predicate Owned(s: State, l: Loc)
  {
    (exists k :: 0 <= k < |s.order| && s.order[k] == l) || (exists t :: t in s.producers && s.producers[t].node == l)
  }

  lemma StepNoStrays(s: State, step: Step)
    requires Inv(s) && NoStrays(s) && Enabled(s, step) && Safe(s, step)
    ensures NoStrays(Do(s, step))
  {
    var s' := Do(s, step);
    forall l | l in s'.heap ensures Owned(s', l) {
      if l in s.heap {
        assert Owned(s, l);
        StillOwned(s, step, l);
      } else {
        assert s'.producers[step.t].node == l;
      }
    }
  }

  lemma StillOwned(s: State, step: Step, l: Loc)
    requires OrderOk(s) && SwappedOk(s) && Enabled(s, step) && Safe(s, step) && Owned(s, l)
    ensures Owned(Do(s, step), l)
  {
    var s' := Do(s, step);
    if k :| 0 <= k < |s.order| && s.order[k] == l {
      assert s'.order[k] == l;
    } else {
      var t :| t in s.producers && s.producers[t].node == l;
      if step == Exchange(t) {
        assert s'.order[|s.order|] == l;
      } else if step != Link(t) {
        assert t in s'.producers && s'.producers[t].node == l;
      }
    }
  }

  // With no enqueue and no dequeue in progress the queue owns exactly the nodes from tail_ on; once drained, one node,
  // which the destructor deletes.
  lemma QuietOwns(s: State)
    requires Inv(s) && NoStrays(s) && s.producers == map[] && s.consumer.Ready?
    ensures forall l :: l in s.heap <==> exists k :: s.done <= k < |s.order| && s.order[k] == l
    ensures s.done + 1 == |s.order| ==> s.heap.Keys == {s.head}
  {
    forall l | l in s.heap ensures exists k :: s.done <= k < |s.order| && s.order[k] == l {
      assert Owned(s, l);
    }
  }

  lemma {:induction false} RunNoStrays(s: State, steps: seq<Step>)
    requires Inv(s) && NoStrays(s) && IsRun(s, steps)
    ensures NoStrays(After(s, steps))
    decreases |steps|
  {
    hide Inv, Do, Safe, Enabled, NoStrays;
    if steps != [] {
      StepInv(s, steps[0]);
      StepNoStrays(s, steps[0]);
      RunNoStrays(Do(s, steps[0]), steps[1..]);
    }
  }

  // So it is at the end of every run.
  lemma NothingLeaks(steps: seq<Step>)
    requires IsRun(Init(), steps)
    ensures var s := After(Init(), steps);
      s.producers == map[] && s.consumer.Ready? ==>
        && (forall l :: l in s.heap <==> exists k :: s.done <= k < |s.order| && s.order[k] == l)
        && (s.done + 1 == |s.order| ==> s.heap.Keys == {s.head})
  {
    InitInv();
    assert NoStrays(Init()) by { assert forall l | l in Init().heap :: Init().order[0] == l; }
    RunInv(Init(), steps);
    RunNoStrays(Init(), steps);
    var s := After(Init(), steps);
    hide Inv, NoStrays, After, IsRun;
    if s.producers == map[] && s.consumer.Ready? { QuietOwns(s); }
  }
}
