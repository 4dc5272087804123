// The wakeup protocol of an event loop: functions queued by any thread, an eventfd counter, a quit flag.
module EventLoop {
  import opened Mpsc

  // Where the loop's own thread is.
  datatype LoopPc =
    | NotStarted
    | AtQuitCheck
    | Polling
    | Handling(readWakeup: bool)     // dispatching the active channels; the wakeup channel may still be to come
    | OuterCheck                     // while (!m_funcs.empty())
    | Draining                       // while (m_funcs.dequeue(func)) func()
    | Exited

  // Where a thread other than the loop's is inside quit().
  datatype Quitter = Loaded | Flagged

  const LOOP: Tid := 0               // the thread of the loop

  datatype Sys = Sys(
    q: State,                        // m_funcs
    wakeups: nat,                    // the eventfd counter
    pc: LoopPc,
    quit: bool,
    linked: map<Tid, nat>,           // enqueue number of threads that linked it and have not called wakeup yet
    quitters: map<Tid, Quitter>)

  function Start(): Sys { Sys(Init(), 0, NotStarted, false, map[], map[]) }

  datatype Action =
    | Enqueue(step: Step)            // a step of enqueue by some thread
    | Wakeup(t: Tid)                 // the end of queueInLoop: write to the eventfd
    | BeginLoop                      // m_looping = true; m_quit = false
    | CheckQuit
    | PollReturns(woken: bool)
    | ReadWakeup
    | HandledAll
    | CheckEmpty                     // the load of empty()
    | Dequeue(step: Step)            // a step of dequeue, or the end of it
    | DequeueFails                   // the load that finds no next node
    | QuitLoad(t: Tid)
    | QuitStore(t: Tid)
    | QuitWakeup(t: Tid)

  predicate IsEnqueue(step: Step) { step.Make? || step.Exchange? || step.Link? }

  // The loop's thread queues functions and calls quit outside loop(), or while it runs handlers or functions or
  // destroys a function it has run, be that inside dequeue or after the inner loop.
  predicate MayCall(s: Sys, t: Tid)
  {
    t !in s.linked && t !in s.quitters && (t == LOOP ==> !s.pc.AtQuitCheck? && !s.pc.Polling?)
  }

  predicate LoopIdle(s: Sys) { LOOP !in s.q.producers && LOOP !in s.linked && LOOP !in s.quitters }

  predicate CanDo(s: Sys, a: Action)
  {
    match a
    case Enqueue(step) => IsEnqueue(step) && Enabled(s.q, step) && Safe(s.q, step) && MayCall(s, step.t)
    case Wakeup(t) => t in s.linked
    case BeginLoop => !Looping(s) && LoopIdle(s)
    case CheckQuit => s.pc.AtQuitCheck?
    case PollReturns(woken) => s.pc.Polling? && (woken ==> s.wakeups > 0)
    case ReadWakeup => s.pc == Handling(true)
    case HandledAll => s.pc == Handling(false) && LoopIdle(s)
    case CheckEmpty => s.pc.OuterCheck? && s.q.consumer.Ready? && s.q.tail in s.q.heap && LoopIdle(s)
    case Dequeue(step) =>
      s.pc.Draining? && !IsEnqueue(step) && Enabled(s.q, step) && Safe(s.q, step) && LoopIdle(s) &&
      (step.LoadNext? ==> s.q.heap[s.q.consumer.tail].next.Some?)
    case DequeueFails =>
      && s.pc.Draining? && s.q.consumer.HasTail? && s.q.consumer.tail in s.q.heap
      && s.q.heap[s.q.consumer.tail].next.None? && LoopIdle(s)
    case QuitLoad(t) => t !in s.q.producers && MayCall(s, t)
    case QuitStore(t) => t in s.quitters && s.quitters[t].Loaded?
    case QuitWakeup(t) => t in s.quitters && s.quitters[t].Flagged?
  }

  // Whether the loop's flag m_looping is set.
  predicate Looping(s: Sys) { !s.pc.NotStarted? && !s.pc.Exited? }

  function Act(s: Sys, a: Action): Sys
    requires CanDo(s, a)
  {
    match a
    case Enqueue(step) =>
      var q := Do(s.q, step);
      if step.Link? && (step.t != LOOP || !Looping(s)) then
        s.(q := q, linked := s.linked[step.t := s.q.producers[step.t].at])
      else s.(q := q)
    case Wakeup(t) => s.(wakeups := s.wakeups + 1, linked := s.linked - {t})
    case BeginLoop => s.(pc := AtQuitCheck, quit := false)
    case CheckQuit => s.(pc := if s.quit then Exited else Polling)
    case PollReturns(woken) => s.(pc := Handling(woken))
    case ReadWakeup => s.(wakeups := 0, pc := Handling(false))
    case HandledAll => s.(pc := OuterCheck)
    case CheckEmpty => s.(pc := if s.q.heap[s.q.tail].next.None? then AtQuitCheck else Draining)
    case Dequeue(step) => s.(q := Do(s.q, step))
    case DequeueFails => s.(q := s.q.(consumer := Ready), pc := OuterCheck)
    case QuitLoad(t) => if s.quit then s else s.(quitters := s.quitters[t := Loaded])
    case QuitStore(t) =>
      if t == LOOP then s.(quit := true, quitters := s.quitters - {t})
      else s.(quit := true, quitters := s.quitters[t := Flagged])
    case QuitWakeup(t) => s.(wakeups := s.wakeups + 1, quitters := s.quitters - {t})
  }

  // ---- no wakeup is lost ----

  // Enqueue number `k` has not reached its call of wakeup.
  ghost predicate Unannounced(s: Sys, k: nat)
  {
    Pending(s.q, k) || exists t :: t in s.linked && s.linked[t] == k
  }

  ghost predicate Undelivered(s: Sys) { s.q.done + 1 < |s.q.order| }

  // On the way to poll, and in it, work that is left has either been announced on the eventfd or is held up behind
  // an enqueue whose thread has yet to do so.
  ghost predicate WorkOk(s: Sys)
  {
    (!Looping(s) || s.pc.AtQuitCheck? || s.pc.Polling?) && Undelivered(s) ==>
      s.wakeups > 0 || Unannounced(s, s.q.done + 1)
  }

  ghost predicate QuitOk(s: Sys)
  {
    s.pc.Polling? && s.quit ==> s.wakeups > 0 || exists t :: t in s.quitters && s.quitters[t].Flagged?
  }

  ghost predicate SysInv(s: Sys)
  {
    && Inv(s.q) && WorkOk(s) && QuitOk(s)
    && (!s.pc.Draining? ==> s.q.consumer.Ready?)
    && (s.pc.AtQuitCheck? || s.pc.Polling? ==> LoopIdle(s))
    && (LOOP in s.quitters ==> s.quitters[LOOP].Loaded?)
    && (s.pc.Exited? ==> s.quit)
  }

  lemma StartInv()
    ensures SysInv(Start())
  {
  }

  lemma EnqueueInv(s: Sys, step: Step)
    requires SysInv(s) && CanDo(s, Enqueue(step))
    ensures SysInv(Act(s, Enqueue(step)))
  {
    StepInv(s.q, step);
    EnqueueWork(s, step);
    QueueFacts(s.q, step);
    hide Inv, WorkOk, Do;
  }

  lemma EnqueueWork(s: Sys, step: Step)
    requires OrderOk(s.q) && WorkOk(s) && CanDo(s, Enqueue(step))
    ensures WorkOk(Act(s, Enqueue(step)))
  {
    var s' := Act(s, Enqueue(step));
    QueueFacts(s.q, step);
    if (!Looping(s') || s'.pc.AtQuitCheck? || s'.pc.Polling?) && Undelivered(s') && s'.wakeups == 0 {
      if Undelivered(s) {
        StillUnannounced(s, step, s.q.done + 1);
      } else {
        assert step.Exchange? && s'.q.producers[step.t].at == s.q.done + 1;
        assert Pending(s'.q, s'.q.done + 1);
      }
    }
  }

  // What a step of enqueue does to the queue as seen from outside.
  lemma QueueFacts(q: State, step: Step)
    requires OrderOk(q) && Enabled(q, step) && Safe(q, step) && IsEnqueue(step)
    ensures var q' := Do(q, step);
      && q'.done == q.done && q'.consumer == q.consumer
      && |q'.order| == |q.order| + (if step.Exchange? then 1 else 0)
      && (step.Exchange? ==> q'.producers[step.t] == Swapped(q.producers[step.t].node, q.head, |q.order|))
      && (forall t | t in q.producers && t != step.t :: t in q'.producers && q'.producers[t] == q.producers[t])
      && (forall t | t in q'.producers && t != step.t :: t in q.producers)
  {
  }

  lemma StillUnannounced(s: Sys, step: Step, k: nat)
    requires OrderOk(s.q) && CanDo(s, Enqueue(step)) && Unannounced(s, k) && (step.t != LOOP || !Looping(s))
    ensures Unannounced(Act(s, Enqueue(step)), k)
  {
    var s' := Act(s, Enqueue(step));
    if t :| t in s.q.producers && s.q.producers[t].Swapped? && s.q.producers[t].at == k {
      if t == step.t {
        assert t in s'.linked && s'.linked[t] == k;
      } else {
        assert t in s'.q.producers && s'.q.producers[t].at == k;
      }
    } else {
      var t :| t in s.linked && s.linked[t] == k;
      assert t in s'.linked && s'.linked[t] == k;
    }
  }

  lemma CheckEmptyInv(s: Sys)
    requires SysInv(s) && CanDo(s, CheckEmpty)
    ensures SysInv(Act(s, CheckEmpty))
  {
    SeesNothing(s.q);
  }

  lemma DequeueInv(s: Sys, a: Action)
    requires SysInv(s) && CanDo(s, a) && (a.Dequeue? || a.DequeueFails?)
    ensures SysInv(Act(s, a))
  {
    var step := if a.Dequeue? then a.step else LoadNext;
    StepInv(s.q, step);
  }

  lemma OtherInv(s: Sys, a: Action)
    requires SysInv(s) && CanDo(s, a) && !a.Enqueue? && !a.CheckEmpty? && !a.Dequeue? && !a.DequeueFails?
    ensures SysInv(Act(s, a))
  {
    hide Inv;
    var s' := Act(s, a);
    assert s'.q == s.q;
    if a.QuitStore? && a.t != LOOP { assert a.t in s'.quitters && s'.quitters[a.t].Flagged?; }
  }

  // Every action of every thread keeps the invariant.
  lemma ActInv(s: Sys, a: Action)
    requires SysInv(s) && CanDo(s, a)
    ensures SysInv(Act(s, a))
  {
    hide SysInv, Act;
    match a
    case Enqueue(step) => EnqueueInv(s, step);
    case CheckEmpty => CheckEmptyInv(s);
    case Dequeue(_) => DequeueInv(s, a);
    case DequeueFails => DequeueInv(s, a);
    case _ => OtherInv(s, a);
  }

  ghost predicate IsTrace(s: Sys, actions: seq<Action>)
    decreases |actions|
  {
    actions != [] ==> CanDo(s, actions[0]) && IsTrace(Act(s, actions[0]), actions[1..])
  }

  ghost function Final(s: Sys, actions: seq<Action>): Sys
    requires IsTrace(s, actions)
    decreases |actions|
  {
    if actions == [] then s else Final(Act(s, actions[0]), actions[1..])
  }

  lemma {:induction false} TraceInv(s: Sys, actions: seq<Action>)
    requires SysInv(s) && IsTrace(s, actions)
    ensures SysInv(Final(s, actions))
    decreases |actions|
  {
    hide SysInv, Act, CanDo;
    if actions != [] {
      ActInv(s, actions[0]);
      TraceInv(Act(s, actions[0]), actions[1..]);
    }
  }

  // The loop sleeps in poll and nothing has been written to the eventfd.
  ghost predicate Blocked(s: Sys) { s.pc.Polling? && s.wakeups == 0 }

  // No lost wakeup: a sleeping loop with work or a quit request left is about to be woken by a thread that is inside
  // queueInLoop (with the first undelivered function) or inside quit.
  lemma NoLostWakeup(actions: seq<Action>)
    requires IsTrace(Start(), actions)
    ensures var s := Final(Start(), actions);
      Blocked(s) ==>
        && (Undelivered(s) ==> Unannounced(s, s.q.done + 1))
        && (s.quit ==> exists t :: t in s.quitters && s.quitters[t].Flagged?)
  {
    StartInv();
    TraceInv(Start(), actions);
  }

  // Once every caller has returned, a sleeping loop has nothing to do.
  lemma QuietMeansDone(actions: seq<Action>)
    requires IsTrace(Start(), actions)
    ensures var s := Final(Start(), actions);
      Blocked(s) && s.q.producers == map[] && s.linked == map[] && s.quitters == map[] ==>
        !s.quit && s.q.delivered == s.q.items
  {
    StartInv();
    TraceInv(Start(), actions);
    NoLostWakeup(actions);
    var s := Final(Start(), actions);
    if Blocked(s) && s.q.producers == map[] && s.linked == map[] && s.quitters == map[] {
      assert !Unannounced(s, s.q.done + 1);
      assert s.q.items[..|s.q.items|] == s.q.items;
    }
  }

  // ---- a loop left alone does its work ----

  // No other thread is inside queueInLoop or quit, and the loop's thread is in neither.
  ghost predicate Alone(s: Sys) { s.q.producers == map[] && s.linked == map[] && s.quitters == map[] }

  lemma {:induction false} Join(s: Sys, a: seq<Action>, b: seq<Action>)
    requires IsTrace(s, a) && IsTrace(Final(s, a), b)
    ensures IsTrace(s, a + b) && Final(s, a + b) == Final(Final(s, a), b)
    decreases |a|
  {
    hide Act, CanDo;
    if a == [] {
      assert a + b == b;
    } else {
      assert (a + b)[1..] == a[1..] + b;
      Join(Act(s, a[0]), a[1..], b);
    }
  }

  // A step of dequeue as an action of the loop.
  lemma Dequeues(s: Sys, step: Step, rest: seq<Action>)
    requires s.pc.Draining? && Alone(s) && !IsEnqueue(step) && Runs(s.q, step)
    requires step.LoadNext? ==> s.q.heap[s.q.consumer.tail].next.Some?
    requires IsTrace(s.(q := Do(s.q, step)), rest)
    ensures IsTrace(s, [Dequeue(step)] + rest)
    ensures Final(s, [Dequeue(step)] + rest) == Final(s.(q := Do(s.q, step)), rest)
  {
    hide Do, Enabled, Safe, IsTrace, Final;
    Prepend(s, Dequeue(step), rest);
  }

  function DequeueActions(): seq<Action>
  {
    [Dequeue(LoadTail), Dequeue(LoadNext), Dequeue(Move), Dequeue(DeleteData), Dequeue(StoreTail), Dequeue(DeleteNode)]
  }

  lemma DrainOne(s: Sys)
    requires Inv(s.q) && Alone(s) && s.pc.Draining? && s.q.consumer.Ready? && Undelivered(s)
    ensures IsTrace(s, DequeueActions())
    ensures var e := Final(s, DequeueActions());
      && e == s.(q := e.q) && Alone(e) && e.q.consumer.Ready? && e.q.done == s.q.done + 1
      && e.q.order == s.q.order && e.q.items == s.q.items
  {
    var q := s.q;
    assert !Pending(q, q.done + 1);
    NextLinked(q);
    hide Inv, Pending;
    SixSteps(q, q.order[q.done + 1], q.items[q.done]);
    var q1 := Do(q, LoadTail);
    assert q1.heap[q1.consumer.tail].next.Some?;
    hide Enabled, Safe;
    var q2 := Do(q1, LoadNext);
    var q3 := Do(q2, Move);
    var q4 := Do(q3, DeleteData);
    var q5 := Do(q4, StoreTail);
    var e := s.(q := Do(q5, DeleteNode));
    SixActions(s, q1, q2, q3, q4, q5, e);
  }

  lemma SixActions(s: Sys, q1: State, q2: State, q3: State, q4: State, q5: State, e: Sys)
    requires Alone(s) && s.pc.Draining? && Runs(s.q, LoadTail) && q1 == Do(s.q, LoadTail)
    requires Runs(q1, LoadNext) && q2 == Do(q1, LoadNext) && q1.heap[q1.consumer.tail].next.Some?
    requires Runs(q2, Move) && q3 == Do(q2, Move) && Runs(q3, DeleteData) && q4 == Do(q3, DeleteData)
    requires Runs(q4, StoreTail) && q5 == Do(q4, StoreTail) && Runs(q5, DeleteNode) && e == s.(q := Do(q5, DeleteNode))
    ensures IsTrace(s, DequeueActions()) && Final(s, DequeueActions()) == e
  {
    var r5 := [Dequeue(DeleteNode)];
    var r4 := [Dequeue(StoreTail)] + r5;
    var r3 := [Dequeue(DeleteData)] + r4;
    var r2 := [Dequeue(Move)] + r3;
    var r1 := [Dequeue(LoadNext)] + r2;
    assert IsTrace(e, []) && Final(e, []) == e;
    assert DequeueActions() == [Dequeue(LoadTail)] + r1;
    assert r5 == [Dequeue(DeleteNode)] + [];
    ProducersKept(s.q, q1, q2, q3, q4, q5);
    hide Do, Enabled, Safe, IsTrace, Final, DequeueActions;
    Dequeues(s.(q := q5), DeleteNode, []);
    Dequeues(s.(q := q4), StoreTail, r5);
    Dequeues(s.(q := q3), DeleteData, r4);
    Dequeues(s.(q := q2), Move, r3);
    Dequeues(s.(q := q1), LoadNext, r2);
    Dequeues(s, LoadTail, r1);
  }

  lemma ProducersKept(q: State, q1: State, q2: State, q3: State, q4: State, q5: State)
    requires Runs(q, LoadTail) && q1 == Do(q, LoadTail) && Runs(q1, LoadNext) && q2 == Do(q1, LoadNext)
    requires Runs(q2, Move) && q3 == Do(q2, Move) && Runs(q3, DeleteData) && q4 == Do(q3, DeleteData)
    requires Runs(q4, StoreTail) && q5 == Do(q4, StoreTail)
    ensures q.producers == q1.producers == q2.producers == q3.producers == q4.producers == q5.producers
  {
  }

  // The inner loop runs function after function.
  lemma {:induction false} DrainAll(s: Sys) returns (actions: seq<Action>)
    requires SysInv(s) && Alone(s) && s.pc.Draining? && s.q.consumer.Ready?
    ensures IsTrace(s, actions)
    ensures var e := Final(s, actions);
      e == s.(q := e.q, pc := OuterCheck) && Alone(e) && !Undelivered(e) && e.q.items == s.q.items
    decreases |s.q.order| - s.q.done
  {
    hide IsTrace, Final, Act, CanDo, DequeueActions, WorkOk, QuitOk;
    if Undelivered(s) {
      DrainOne(s);
      TraceInv(s, DequeueActions());
      hide Inv;
      var rest := DrainAll(Final(s, DequeueActions()));
      Join(s, DequeueActions(), rest);
      return DequeueActions() + rest;
    }
    FindsNothing(s);
    actions := [Dequeue(LoadTail), DequeueFails];
  }

  lemma FindsNothing(s: Sys)
    requires SysInv(s) && Alone(s) && s.pc.Draining? && s.q.consumer.Ready? && !Undelivered(s)
    ensures IsTrace(s, [Dequeue(LoadTail), DequeueFails])
    ensures Final(s, [Dequeue(LoadTail), DequeueFails]) == s.(pc := OuterCheck)
  {
    SeesNothing(s.q);
    var s1 := s.(q := Do(s.q, LoadTail));
    hide Inv;
    var e := Act(s1, DequeueFails);
    assert IsTrace(e, []) && Final(e, []) == e;
    assert e == s.(pc := OuterCheck);
    Prepend(s1, DequeueFails, []);
    assert [DequeueFails] + [] == [DequeueFails];
    Prepend(s, Dequeue(LoadTail), [DequeueFails]);
  }

  // What the loop does next from the outer check, with nothing left to do.
  lemma GoesToPoll(s: Sys)
    requires SysInv(s) && Alone(s) && s.pc.OuterCheck? && !Undelivered(s)
    ensures IsTrace(s, [CheckEmpty, CheckQuit])
    ensures Final(s, [CheckEmpty, CheckQuit]) == s.(pc := if s.quit then Exited else Polling)
  {
    SeesNothing(s.q);
    hide Inv;
    var s1 := Act(s, CheckEmpty);
    var e := Act(s1, CheckQuit);
    assert IsTrace(e, []) && Final(e, []) == e;
    Prepend(s1, CheckQuit, []);
    assert [CheckQuit] + [] == [CheckQuit];
    Prepend(s, CheckEmpty, [CheckQuit]);
  }

  lemma OuterRound(s: Sys) returns (actions: seq<Action>)
    requires SysInv(s) && Alone(s) && s.pc.OuterCheck?
    ensures IsTrace(s, actions)
    ensures var e := Final(s, actions);
      && e == s.(q := e.q, pc := if s.quit then Exited else Polling)
      && Alone(e) && !Undelivered(e) && e.q.items == s.q.items
  {
    if !Undelivered(s) {
      GoesToPoll(s);
      return [CheckEmpty, CheckQuit];
    }
    assert !Pending(s.q, s.q.done + 1);
    SeesNothing(s.q);
    ActInv(s, CheckEmpty);
    var s1 := Act(s, CheckEmpty);
    hide Inv, IsTrace, Final, WorkOk, QuitOk;
    var inner := DrainAll(s1);
    TraceInv(s1, inner);
    GoesToPoll(Final(s1, inner));
    Join(s1, inner, [CheckEmpty, CheckQuit]);
    Prepend(s, CheckEmpty, inner + [CheckEmpty, CheckQuit]);
    actions := [CheckEmpty] + (inner + [CheckEmpty, CheckQuit]);
  }

  // A loop that has been woken, and then left alone, can run every function that was queued and go back to sleep, or
  // return if it was told to quit.
  lemma LeftAlone(s: Sys) returns (actions: seq<Action>)
    requires SysInv(s) && Alone(s) && s.pc.Polling? && s.wakeups > 0
    ensures IsTrace(s, actions)
    ensures var e := Final(s, actions);
      && e.q.delivered == e.q.items == s.q.items && e.wakeups == 0
      && e.pc == (if s.quit then Exited else Polling) && e.quit == s.quit
  {
    hide Inv, IsTrace, Final, WorkOk, QuitOk;
    ActInv(s, PollReturns(true));
    var s1 := Act(s, PollReturns(true));
    ActInv(s1, ReadWakeup);
    var s2 := Act(s1, ReadWakeup);
    ActInv(s2, HandledAll);
    var s3 := Act(s2, HandledAll);
    var rest := OuterRound(s3);
    TraceInv(s3, rest);
    AllDelivered(Final(s3, rest).q);
    Prepend(s2, HandledAll, rest);
    Prepend(s1, ReadWakeup, [HandledAll] + rest);
    Prepend(s, PollReturns(true), [ReadWakeup] + ([HandledAll] + rest));
    actions := [PollReturns(true)] + ([ReadWakeup] + ([HandledAll] + rest));
  }

  lemma AllDelivered(q: State)
    requires Inv(q) && q.consumer.Ready? && q.done + 1 >= |q.order|
    ensures q.delivered == q.items
  {
    assert q.items[..|q.items|] == q.items;
  }

  // loop() returns only on a quit that came after it was entered.
  lemma ExitsOnQuit(actions: seq<Action>)
    requires IsTrace(Start(), actions) && Final(Start(), actions).pc.Exited?
    ensures exists j :: StoredAt(actions, j)
  {
    StartInv();
    TraceInv(Start(), actions);
    QuitRemembered(actions);
  }

  // ---- what quit() promises ----

  lemma {:induction false} Split(s: Sys, a: seq<Action>, b: seq<Action>)
    requires IsTrace(s, a + b)
    ensures IsTrace(s, a) && IsTrace(Final(s, a), b) && Final(s, a + b) == Final(Final(s, a), b)
    decreases |a|
  {
    hide Act, CanDo;
    if a == [] {
      assert a + b == b;
    } else {
      assert (a + b)[1..] == a[1..] + b;
      Split(Act(s, a[0]), a[1..], b);
    }
  }

  // loop() is not entered after action `k`.
  predicate NoBegin(actions: seq<Action>, k: int) { forall i | k < i < |actions| && 0 <= i :: !actions[i].BeginLoop? }

  // The loop will see the quit flag without further help.
  ghost predicate Heard(s: Sys) { s.quit && (s.pc.Polling? ==> s.wakeups > 0) }

  // A call of quit by `t` that found the flag clear is on its way, or the loop will see it.
  ghost predicate Underway(s: Sys, t: Tid)
  {
    || (t in s.quitters && s.quitters[t].Loaded?)
    || (t in s.quitters && s.quitters[t].Flagged? && s.quit)
    || Heard(s)
  }

  lemma UnderwayKept(s: Sys, a: Action, t: Tid)
    requires SysInv(s) && CanDo(s, a) && !a.BeginLoop? && Underway(s, t)
    ensures Underway(Act(s, a), t) && (Heard(s) ==> Heard(Act(s, a)))
  {
    hide Inv, WorkOk, QuitOk, Do, Enabled, Safe;
  }

  lemma {:induction false} UnderwayEnds(s: Sys, actions: seq<Action>, t: Tid)
    requires SysInv(s) && IsTrace(s, actions) && NoBegin(actions, -1) && Underway(s, t)
    ensures Underway(Final(s, actions), t) && (Heard(s) ==> Heard(Final(s, actions)))
    decreases |actions|
  {
    hide SysInv, Act, CanDo, Underway, Heard;
    if actions != [] {
      UnderwayKept(s, actions[0], t);
      ActInv(s, actions[0]);
      UnderwayEnds(Act(s, actions[0]), actions[1..], t);
    }
  }

  // What is true of the state before action `k`.
  lemma At(actions: seq<Action>, k: nat)
    requires IsTrace(Start(), actions) && k < |actions|
    ensures IsTrace(Start(), actions[..k]) && SysInv(Final(Start(), actions[..k]))
    ensures var s := Final(Start(), actions[..k]);
      && CanDo(s, actions[k]) && SysInv(Act(s, actions[k])) && IsTrace(Act(s, actions[k]), actions[k + 1..])
      && Final(Act(s, actions[k]), actions[k + 1..]) == Final(Start(), actions)
  {
    hide SysInv, Act, CanDo;
    assert actions == actions[..k] + actions[k..];
    Split(Start(), actions[..k], actions[k..]);
    StartInv();
    TraceInv(Start(), actions[..k]);
    assert actions[k..][1..] == actions[k + 1..];
    ActInv(Final(Start(), actions[..k]), actions[k]);
  }

  // A quit that begins once loop() has cleared the flag, and finds it clear, cannot leave the loop asleep when its
  // caller has finished, whatever other callers are doing.
  lemma QuitWakes(actions: seq<Action>, k: nat, t: Tid)
    requires IsTrace(Start(), actions) && k < |actions| && actions[k] == QuitLoad(t) && NoBegin(actions, k)
    requires IsTrace(Start(), actions[..k]) && !Final(Start(), actions[..k]).quit
    ensures var s := Final(Start(), actions); t !in s.quitters ==> s.quit && !Blocked(s)
  {
    At(actions, k);
    hide SysInv, IsTrace, Final;
    UnderwayEnds(Act(Final(Start(), actions[..k]), actions[k]), actions[k + 1..], t);
  }

  // The one kind of finished quit that can leave the loop asleep is a call that found the flag set and returned at
  // once; then another caller has set the flag and not yet written to the eventfd.
  lemma EarlyReturn(actions: seq<Action>, k: nat, t: Tid)
    requires IsTrace(Start(), actions) && k < |actions| && actions[k] == QuitLoad(t) && NoBegin(actions, k)
    requires Blocked(Final(Start(), actions)) && t !in Final(Start(), actions).quitters
    ensures IsTrace(Start(), actions[..k]) && Final(Start(), actions[..k]).quit
    ensures exists u :: u in Final(Start(), actions).quitters && Final(Start(), actions).quitters[u].Flagged?
  {
    hide SysInv, CanDo, IsTrace, Final;
    At(actions, k);
    if !Final(Start(), actions[..k]).quit { QuitWakes(actions, k, t); }
    QuitRemembered(actions[..k]);
    var j: nat :| StoredAt(actions[..k], j);
    assert forall i | j < i < k :: actions[..k][i] == actions[i];
    assert StoredAt(actions, j);
    QuitRemembered(actions);
    NoLostWakeup(actions);
  }

  // The same from the store on: the flag stored and the eventfd written, with no loop() begun since, the loop is awake.
  lemma StoredQuitWakes(actions: seq<Action>, j: nat, i: nat, t: Tid)
    requires IsTrace(Start(), actions) && j < i < |actions| && NoBegin(actions, j)
    requires actions[j] == QuitStore(t) && actions[i] == QuitWakeup(t)
    ensures Final(Start(), actions).quit && !Blocked(Final(Start(), actions))
  {
    hide SysInv, IsTrace, Final, Act, CanDo;
    At(actions, i);
    var s := Final(Start(), actions[..i]);
    assert StoredAt(actions[..i], j);
    QuitRemembered(actions[..i]);
    WakeupHeard(s, t);
    UnderwayEnds(Act(s, actions[i]), actions[i + 1..], t);
  }

  lemma WakeupHeard(s: Sys, t: Tid)
    requires CanDo(s, QuitWakeup(t)) && s.quit
    ensures Heard(Act(s, QuitWakeup(t)))
  {
  }

  // The loop's own thread needs no wakeup.
  lemma OwnQuitWakes(actions: seq<Action>, j: nat)
    requires IsTrace(Start(), actions) && j < |actions| && actions[j] == QuitStore(LOOP) && NoBegin(actions, j)
    ensures Final(Start(), actions).quit && !Blocked(Final(Start(), actions))
  {
    At(actions, j);
    var s := Final(Start(), actions[..j]);
    assert Heard(Act(s, actions[j]));
    hide SysInv, IsTrace, Final, Act, CanDo;
    UnderwayEnds(Act(s, actions[j]), actions[j + 1..], LOOP);
  }

  // A store of the flag with no entry into loop() behind it.
  predicate StoredAt(actions: seq<Action>, j: nat) { j < |actions| && actions[j].QuitStore? && NoBegin(actions, j) }

  // The flag is set at the end of a run exactly when some quit stored it and loop() has not been entered since.
  lemma {:induction false} QuitRemembered(actions: seq<Action>)
    requires IsTrace(Start(), actions)
    ensures Final(Start(), actions).quit <==> exists j :: StoredAt(actions, j)
    decreases |actions|
  {
    if actions == [] {
      assert !Start().quit;
    } else {
      hide CanDo, Act, SysInv;
      var n := |actions| - 1;
      At(actions, n);
      var s := Final(Start(), actions[..n]);
      QuitRemembered(actions[..n]);
      StoredBefore(actions);
      QuitEffect(s, actions[n]);
    }
  }

  lemma QuitEffect(s: Sys, a: Action)
    requires CanDo(s, a)
    ensures Act(s, a).quit == (a.QuitStore? || (s.quit && !a.BeginLoop?))
  {
    hide Do, Enabled, Safe;
  }

  lemma StoredBefore(actions: seq<Action>)
    requires actions != []
    ensures var n := |actions| - 1;
      (exists j :: StoredAt(actions, j)) <==>
        actions[n].QuitStore? || (!actions[n].BeginLoop? && exists j :: StoredAt(actions[..n], j))
  {
    var n := |actions| - 1;
    if j: nat :| StoredAt(actions, j) && j < n { assert StoredAt(actions[..n], j); }
    if actions[n].QuitStore? { assert StoredAt(actions, n); }
    if j: nat :| StoredAt(actions[..n], j) && !actions[n].BeginLoop? {
      assert forall i | j < i < n :: actions[..n][i] == actions[i];
      assert StoredAt(actions, j);
    }
  }

  // ---- what quit() does not promise ----

  // A quit that comes before loop() clears the flag is forgotten: the caller has returned and the loop sleeps on.
  lemma QuitBeforeLoop()
    ensures exists actions ::
      && IsTrace(Start(), actions) && QuitStore(1) in actions
      && var s := Final(Start(), actions); Blocked(s) && s.quitters == map[] && !s.quit
  {
    var s0 := Start();
    var s1 := Act(s0, QuitLoad(1));
    var s2 := Act(s1, QuitStore(1));
    var s3 := Act(s2, QuitWakeup(1));
    assert s3 == Sys(Init(), 1, NotStarted, true, map[], map[]);
    SleepsRegardless(s3);
    hide IsTrace, Final;
    Prepend(s2, QuitWakeup(1), ToSleep());
    Prepend(s1, QuitStore(1), [QuitWakeup(1)] + ToSleep());
    Prepend(s0, QuitLoad(1), [QuitStore(1)] + ([QuitWakeup(1)] + ToSleep()));
    var actions := [QuitLoad(1)] + ([QuitStore(1)] + ([QuitWakeup(1)] + ToSleep()));
    assert actions[1] == QuitStore(1);
  }

  function ToSleep(): seq<Action>
  {
    [BeginLoop, CheckQuit, PollReturns(true), ReadWakeup, HandledAll, CheckEmpty, CheckQuit]
  }

  // A loop that starts with the quit flag set clears it and goes to sleep.
  lemma SleepsRegardless(s: Sys)
    requires s == Sys(Init(), 1, NotStarted, true, map[], map[])
    ensures IsTrace(s, ToSleep()) && Final(s, ToSleep()) == Sys(Init(), 0, Polling, false, map[], map[])
  {
    var s1 := Act(s, BeginLoop);
    var s2 := Act(s1, CheckQuit);
    var s3 := Act(s2, PollReturns(true));
    var s4 := Act(s3, ReadWakeup);
    var s5 := Act(s4, HandledAll);
    var s6 := Act(s5, CheckEmpty);
    var s7 := Act(s6, CheckQuit);
    assert IsTrace(s7, []) && Final(s7, []) == s7;
    hide IsTrace, Final;
    Prepend(s6, CheckQuit, []);
    Prepend(s5, CheckEmpty, [CheckQuit]);
    Prepend(s4, HandledAll, [CheckEmpty, CheckQuit]);
    Prepend(s3, ReadWakeup, [HandledAll, CheckEmpty, CheckQuit]);
    Prepend(s2, PollReturns(true), [ReadWakeup, HandledAll, CheckEmpty, CheckQuit]);
    Prepend(s1, CheckQuit, [PollReturns(true), ReadWakeup, HandledAll, CheckEmpty, CheckQuit]);
    Prepend(s, BeginLoop, [CheckQuit, PollReturns(true), ReadWakeup, HandledAll, CheckEmpty, CheckQuit]);
  }

  lemma Prepend(s: Sys, a: Action, rest: seq<Action>)
    requires CanDo(s, a) && IsTrace(Act(s, a), rest)
    ensures IsTrace(s, [a] + rest) && Final(s, [a] + rest) == Final(Act(s, a), rest)
  {
  }

  // A second quit that finds the flag set returns at once, although the first has not woken the loop yet.
  lemma SecondQuitReturnsEarly()
    ensures exists actions ::
      && IsTrace(Start(), actions) && QuitLoad(2) in actions
      && var s := Final(Start(), actions); Blocked(s) && s.quit && 2 !in s.quitters
  {
    var s0 := Start();
    var s1 := Act(s0, BeginLoop);
    var s2 := Act(s1, CheckQuit);
    var s3 := Act(s2, QuitLoad(1));
    var s4 := Act(s3, QuitStore(1));
    var s5 := Act(s4, QuitLoad(2));
    assert IsTrace(s5, []);
    Prepend(s4, QuitLoad(2), []);
    Prepend(s3, QuitStore(1), [QuitLoad(2)]);
    Prepend(s2, QuitLoad(1), [QuitStore(1), QuitLoad(2)]);
    Prepend(s1, CheckQuit, [QuitLoad(1), QuitStore(1), QuitLoad(2)]);
    Prepend(s0, BeginLoop, [CheckQuit, QuitLoad(1), QuitStore(1), QuitLoad(2)]);
  }
}
