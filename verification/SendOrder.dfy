// The order of send() calls on one connection from many threads, kept by the counter m_sendNum.
module SendOrder {
  import opened Common

  type Id = nat      // one call of send

  datatype Phase =
    | Begun(onLoop: bool)     // called; onLoop: on the thread of the connection's loop
    | Direct                  // the loop's thread read m_sendNum == 0
    | Detour                  // the loop's thread read m_sendNum != 0
    | Announced               // m_sendNum incremented
    | Queued                  // handed to queueInLoop; the call has returned
    | Running                 // its queued task is running: sendInLoop was called
    | Finished                // sendInLoop was called and m_sendNum is decremented or was never incremented

  datatype State = State(
    sendNum: int,
    phases: map<Id, Phase>,
    queue: seq<Id>,           // tasks of the loop that will call sendInLoop
    executed: seq<Id>,        // the calls of sendInLoop so far
    before: map<Id, set<Id>>) // for each call, the calls that had returned when it began

  function Init(): State { State(0, map[], [], [], map[]) }

  function Returned(s: State): set<Id>
  {
    set a | a in s.phases && (s.phases[a].Queued? || s.phases[a].Running? || s.phases[a].Finished?)
  }

  // The calls m_sendNum stands for.
  function Counted(s: State): set<Id>
  {
    set a | a in s.phases && (s.phases[a].Announced? || s.phases[a].Queued? || s.phases[a].Running?)
  }

  datatype Step =
    | Begin(a: Id, onLoop: bool)
    | ReadCount(a: Id)
    | SendNow(a: Id)
    | Announce(a: Id)
    | Enqueue(a: Id)
    | RunTask(a: Id)
    | Decrement(a: Id)

  predicate Enabled(s: State, step: Step)
  {
    match step
    case Begin(a, _) => a !in s.phases
    case ReadCount(a) => a in s.phases && s.phases[a] == Begun(true)
    case SendNow(a) => a in s.phases && s.phases[a].Direct?
    case Announce(a) => a in s.phases && (s.phases[a] == Begun(false) || s.phases[a].Detour?)
    case Enqueue(a) => a in s.phases && s.phases[a].Announced?
    case RunTask(a) => s.queue != [] && s.queue[0] == a && a in s.phases
    case Decrement(a) => a in s.phases && s.phases[a].Running?
  }

  function Do(s: State, step: Step): State
    requires Enabled(s, step)
  {
    match step
    case Begin(a, onLoop) => s.(phases := s.phases[a := Begun(onLoop)], before := s.before[a := Returned(s)])
    case ReadCount(a) => s.(phases := s.phases[a := if s.sendNum == 0 then Direct else Detour])
    case SendNow(a) => s.(phases := s.phases[a := Finished], executed := s.executed + [a])
    case Announce(a) => s.(phases := s.phases[a := Announced], sendNum := s.sendNum + 1)
    case Enqueue(a) => s.(phases := s.phases[a := Queued], queue := s.queue + [a])
    case RunTask(a) => s.(phases := s.phases[a := Running], queue := s.queue[1..], executed := s.executed + [a])
    case Decrement(a) => s.(phases := s.phases[a := Finished], sendNum := s.sendNum - 1)
  }

  // ---- the invariant ----

  // The calls in the order in which sendInLoop runs: those that ran, then those in the queue.
  ghost function Line(s: State): seq<Id> { s.executed + s.queue }

  ghost predicate Shape(s: State)
  {
    && s.before.Keys == s.phases.Keys
    && (forall i | 0 <= i < |s.queue| :: s.queue[i] in s.phases && s.phases[s.queue[i]].Queued?)
    && (forall i | 0 <= i < |s.executed| ::
          s.executed[i] in s.phases && (s.phases[s.executed[i]].Running? || s.phases[s.executed[i]].Finished?))
    && (forall a | a in s.phases && s.phases[a].Queued? :: a in s.queue)
    && (forall a | a in s.phases && (s.phases[a].Running? || s.phases[a].Finished?) :: a in s.executed)
    && NoDup(Line(s))
  }

  // `a` is in the line, and not behind `b`.
  ghost predicate Ahead(l: seq<Id>, a: Id, b: Id)
  {
    exists i :: 0 <= i < |l| && l[i] == a && (forall j | 0 <= j < |l| && l[j] == b :: i < j)
  }

  // m_sendNum is the number of calls announced and not yet done.
  ghost predicate CountOk(s: State) { s.sendNum == |Counted(s)| }

  // A call that returned before `b` began stands in front of `b`; all of them have run when `b` may run at once.
  ghost predicate OrderOk(s: State)
  {
    && (forall a, b | b in s.before && a in s.before[b] :: Ahead(Line(s), a, b))
    && (forall a, b | b in s.before && a in s.before[b] && b in s.phases && s.phases[b].Direct? :: a in s.executed)
  }

  ghost predicate Inv(s: State) { Shape(s) && CountOk(s) && OrderOk(s) }

  // ---- every step keeps it ----

  // A change of phase that leaves the line alone.
  lemma SameLine(s: State, s': State)
    requires Shape(s) && OrderOk(s) && Line(s') == Line(s) && s'.before == s.before
    requires forall b | b in s'.phases && s'.phases[b].Direct? :: b in s.phases && s.phases[b] == s'.phases[b]
    requires s.executed <= s'.executed
    ensures OrderOk(s')
  {
    hide Ahead, Line;
    forall a, b | b in s'.before && a in s'.before[b] && b in s'.phases && s'.phases[b].Direct?
      ensures a in s'.executed
    {
      assert a in s.executed;
      var i :| 0 <= i < |s.executed| && s.executed[i] == a;
      assert s'.executed[i] == a;
    }
  }

  lemma BeginInv(s: State, a: Id, onLoop: bool)
    requires Inv(s) && Enabled(s, Begin(a, onLoop))
    ensures Inv(Do(s, Begin(a, onLoop)))
  {
    hide NoDup;
    var s' := Do(s, Begin(a, onLoop));
    assert Counted(s') == Counted(s);
    assert Line(s') == Line(s);
    assert a !in Line(s);
    assert Shape(s');
    forall x, b | b in s'.before && x in s'.before[b] ensures Ahead(Line(s'), x, b) {
      if b == a {
        assert x in Line(s);
        AheadOfAbsent(Line(s), x, a);
      }
    }
  }

  lemma AheadOfAbsent(l: seq<Id>, a: Id, b: Id)
    requires a in l && b !in l
    ensures Ahead(l, a, b)
  {
  }

  lemma ReadCountInv(s: State, a: Id)
    requires Inv(s) && Enabled(s, ReadCount(a))
    ensures Inv(Do(s, ReadCount(a)))
  {
    hide NoDup;
    var s' := Do(s, ReadCount(a));
    assert Counted(s') == Counted(s);
    assert Line(s') == Line(s);
    assert Shape(s');
    assert OrderOk(s') by {
      forall x | s.sendNum == 0 && x in s.before[a] ensures x in s.executed {
        assert Ahead(Line(s), x, a);
        assert x !in Counted(s);
        assert x in Line(s);
      }
      hide Ahead;
    }
  }

  lemma CountStep(s: State, s': State, a: Id)
    requires Counted(s') == Counted(s) + {a} && a !in Counted(s)
    ensures |Counted(s')| == |Counted(s)| + 1
  {
  }

  // Whether a call is in the queue, has run, or is in neither.
  function Place(p: Phase): nat { if p.Queued? then 1 else if p.Running? || p.Finished? then 2 else 0 }

  lemma SamePlace(s: State, s': State, a: Id, p: Phase)
    requires Shape(s) && a in s.phases && s'.phases == s.phases[a := p] && Place(p) == Place(s.phases[a])
    requires s'.queue == s.queue && s'.executed == s.executed && s'.before == s.before
    ensures Shape(s') && Line(s') == Line(s)
  {
    hide NoDup;
    assert Line(s') == Line(s);
    forall i | 0 <= i < |s.executed| ensures Place(s'.phases[s.executed[i]]) == 2 {
      assert Place(s.phases[s.executed[i]]) == 2;
    }
    forall i | 0 <= i < |s.queue| ensures Place(s'.phases[s.queue[i]]) == 1 { assert Place(s.phases[s.queue[i]]) == 1; }
  }

  lemma AnnounceInv(s: State, a: Id)
    requires Inv(s) && Enabled(s, Announce(a))
    ensures Inv(Do(s, Announce(a)))
  {
    hide Shape, OrderOk, Line;
    var s' := Do(s, Announce(a));
    assert Counted(s') == Counted(s) + {a};
    CountStep(s, s', a);
    SamePlace(s, s', a, Announced);
    SameLine(s, s');
  }

  lemma DecrementInv(s: State, a: Id)
    requires Inv(s) && Enabled(s, Decrement(a))
    ensures Inv(Do(s, Decrement(a)))
  {
    hide Shape, OrderOk, Line;
    var s' := Do(s, Decrement(a));
    assert Counted(s) == Counted(s') + {a};
    CountStep(s', s, a);
    SamePlace(s, s', a, Finished);
    SameLine(s, s');
  }

  lemma RunTaskInv(s: State, a: Id)
    requires Inv(s) && Enabled(s, RunTask(a))
    ensures Inv(Do(s, RunTask(a)))
  {
    hide NoDup, Ahead;
    var s' := Do(s, RunTask(a));
    assert Counted(s') == Counted(s);
    assert Line(s') == Line(s);
    RunTaskShape(s, a);
    SameLine(s, s');
  }

  lemma RunTaskShape(s: State, a: Id)
    requires Shape(s) && Enabled(s, RunTask(a))
    ensures Shape(Do(s, RunTask(a)))
  {
    var s' := Do(s, RunTask(a));
    assert Line(s') == Line(s);
    var n := |s.executed|;
    assert Line(s)[n] == a;
    forall i | 0 <= i < |s'.queue| ensures s'.queue[i] in s'.phases && s'.phases[s'.queue[i]].Queued? {
      assert s'.queue[i] == s.queue[i + 1] == Line(s)[n + i + 1];
    }
    forall x | x in s'.phases && s'.phases[x].Queued? ensures x in s'.queue {
      assert x in s.queue;
    }
  }

  lemma NotInLine(s: State, a: Id)
    requires Shape(s) && a in s.phases && (s.phases[a].Announced? || s.phases[a].Direct?)
    ensures a !in Line(s)
  {
  }

  // Putting `a` into the line at `n` keeps everyone else's order.
  lemma InsertAhead(l: seq<Id>, n: nat, a: Id, x: Id, b: Id)
    requires n <= |l| && Ahead(l, x, b) && a !in l && (b == a ==> x in l[..n])
    ensures Ahead(l[..n] + [a] + l[n..], x, b)
  {
    var l' := l[..n] + [a] + l[n..];
    var i :| 0 <= i < |l| && l[i] == x && (forall j | 0 <= j < |l| && l[j] == b :: i < j);
    if b == a {
      var k :| 0 <= k < n && l[..n][k] == x;
      assert l'[k] == x;
      forall j | 0 <= j < |l'| && l'[j] == b ensures k < j {}
    } else {
      var i' := if i < n then i else i + 1;
      assert l'[i'] == x;
      forall j | 0 <= j < |l'| && l'[j] == b ensures i' < j {
        var j0 := if j < n then j else j - 1;
        assert l[j0] == b;
      }
    }
  }

  lemma InsertNoDup(l: seq<Id>, n: nat, a: Id)
    requires n <= |l| && NoDup(l) && a !in l
    ensures NoDup(l[..n] + [a] + l[n..])
  {
  }

  lemma EnqueueInv(s: State, a: Id)
    requires Inv(s) && Enabled(s, Enqueue(a))
    ensures Inv(Do(s, Enqueue(a)))
  {
    hide NoDup, Ahead;
    var s' := Do(s, Enqueue(a));
    var l := Line(s);
    assert Counted(s') == Counted(s);
    assert Line(s') == l[..|l|] + [a] + l[|l|..];
    NotInLine(s, a);
    InsertNoDup(l, |l|, a);
    assert Shape(s');
    forall x, b | b in s'.before && x in s'.before[b] ensures Ahead(Line(s'), x, b) {
      AheadIn(l, x, b);
      assert l[..|l|] == l;
      InsertAhead(l, |l|, a, x, b);
    }
  }

  lemma AheadIn(l: seq<Id>, a: Id, b: Id)
    requires Ahead(l, a, b)
    ensures a in l
  {
  }

  lemma SendNowInv(s: State, a: Id)
    requires Inv(s) && Enabled(s, SendNow(a))
    ensures Inv(Do(s, SendNow(a)))
  {
    hide NoDup, Ahead;
    var s' := Do(s, SendNow(a));
    var l, n := Line(s), |s.executed|;
    assert Counted(s') == Counted(s);
    assert l[..n] == s.executed && l[n..] == s.queue;
    assert Line(s') == l[..n] + [a] + l[n..];
    NotInLine(s, a);
    InsertNoDup(l, n, a);
    assert Shape(s');
    forall x, b | b in s'.before && x in s'.before[b] ensures Ahead(Line(s'), x, b) {
      InsertAhead(l, n, a, x, b);
    }
  }

  lemma StepInv(s: State, step: Step)
    requires Inv(s) && Enabled(s, step)
    ensures Inv(Do(s, step))
  {
    hide Inv, Do;
    match step
    case Begin(a, onLoop) => BeginInv(s, a, onLoop);
    case ReadCount(a) => ReadCountInv(s, a);
    case SendNow(a) => SendNowInv(s, a);
    case Announce(a) => AnnounceInv(s, a);
    case Enqueue(a) => EnqueueInv(s, a);
    case RunTask(a) => RunTaskInv(s, a);
    case Decrement(a) => DecrementInv(s, a);
  }

  // ---- every run ----

  ghost predicate IsRun(s: State, steps: seq<Step>)
    decreases |steps|
  {
    steps != [] ==> Enabled(s, steps[0]) && IsRun(Do(s, steps[0]), steps[1..])
  }

  ghost function After(s: State, steps: seq<Step>): State
    requires IsRun(s, steps)
    decreases |steps|
  {
    if steps == [] then s else After(Do(s, steps[0]), steps[1..])
  }

  lemma {:induction false} RunInv(s: State, steps: seq<Step>)
    requires Inv(s) && IsRun(s, steps)
    ensures Inv(After(s, steps))
    decreases |steps|
  {
    hide Inv, Do, Enabled;
    if steps != [] {
      StepInv(s, steps[0]);
      RunInv(Do(s, steps[0]), steps[1..]);
    }
  }

  // If one call returned before another began, on whatever threads, its sendInLoop comes first; no call runs twice;
  // and m_sendNum is the number of announced calls that are left.
  lemma SendsInOrder(steps: seq<Step>, a: Id, b: Id)
    requires IsRun(Init(), steps)
    ensures var s := After(Init(), steps);
      && s.sendNum == |Counted(s)|
      && (b in s.before && a in s.before[b] && b in s.executed ==>
            exists i, j :: 0 <= i < j < |s.executed| && s.executed[i] == a && s.executed[j] == b)
      && NoDup(s.executed)
  {
    assert Inv(Init());
    RunInv(Init(), steps);
    hide IsRun, After, Counted;
    ExecutedInOrder(After(Init(), steps), a, b);
  }

  // ---- told from the steps alone ----

  // The step at which a call of send returns.
  predicate Returns(step: Step, a: Id) { step == Enqueue(a) || step == SendNow(a) }

  lemma {:induction false} Split(s: State, a: seq<Step>, b: seq<Step>)
    requires IsRun(s, a + b)
    ensures IsRun(s, a) && IsRun(After(s, a), b) && After(s, a + b) == After(After(s, a), b)
    decreases |a|
  {
    hide Do, Enabled;
    if a == [] {
      assert a + b == b;
    } else {
      assert (a + b)[1..] == a[1..] + b;
      Split(Do(s, a[0]), a[1..], b);
    }
  }

  // The state before and after step `k` of a run.
  lemma At(s: State, steps: seq<Step>, k: nat)
    requires IsRun(s, steps) && k < |steps|
    ensures IsRun(s, steps[..k]) && Enabled(After(s, steps[..k]), steps[k])
    ensures IsRun(Do(After(s, steps[..k]), steps[k]), steps[k + 1..])
    ensures After(s, steps) == After(Do(After(s, steps[..k]), steps[k]), steps[k + 1..])
  {
    hide Do, Enabled;
    assert steps == steps[..k] + steps[k..] && steps[k..][1..] == steps[k + 1..];
    Split(s, steps[..k], steps[k..]);
  }

  // A call that has returned stays returned, and what is known of the calls before another stays known.
  lemma {:induction false} ReturnedStays(s: State, steps: seq<Step>, a: Id)
    requires IsRun(s, steps) && a in Returned(s)
    ensures a in Returned(After(s, steps))
    decreases |steps|
  {
    if steps != [] { ReturnedStays(Do(s, steps[0]), steps[1..], a); }
  }

  lemma {:induction false} BeforeStays(s: State, steps: seq<Step>, b: Id)
    requires IsRun(s, steps) && b in s.before && b in s.phases
    ensures b in After(s, steps).before && After(s, steps).before[b] == s.before[b]
    decreases |steps|
  {
    if steps != [] { BeforeStays(Do(s, steps[0]), steps[1..], b); }
  }

  // In every run a call that returns before another begins is executed first.
  lemma ReturnedFirst(steps: seq<Step>, i: nat, j: nat, a: Id, b: Id)
    requires IsRun(Init(), steps) && i < j < |steps| && Returns(steps[i], a) && steps[j].Begin? && steps[j].a == b
    ensures var s := After(Init(), steps);
      b in s.executed ==> exists k, l :: 0 <= k < l < |s.executed| && s.executed[k] == a && s.executed[l] == b
  {
    At(Init(), steps, j);
    var before := steps[..j];
    At(Init(), before, i);
    var s1 := Do(After(Init(), before[..i]), before[i]);
    assert a in Returned(s1);
    ReturnedStays(s1, before[i + 1..], a);
    var s2 := Do(After(Init(), before), steps[j]);
    assert b in s2.before && a in s2.before[b];
    BeforeStays(s2, steps[j + 1..], b);
    hide IsRun, After, Do, Enabled;
    SendsInOrder(steps, a, b);
  }

  // Every call that has returned is executed once the loop has no task left.
  lemma AllExecuted(steps: seq<Step>, i: nat, a: Id)
    requires IsRun(Init(), steps) && i < |steps| && Returns(steps[i], a)
    ensures After(Init(), steps).queue == [] ==> a in After(Init(), steps).executed
  {
    At(Init(), steps, i);
    var s1 := Do(After(Init(), steps[..i]), steps[i]);
    assert a in Returned(s1);
    ReturnedStays(s1, steps[i + 1..], a);
    assert Inv(Init());
    RunInv(Init(), steps);
  }

  // A send on the loop's thread goes out at once exactly when no other has been announced and not finished.
  lemma DirectExactly(s: State, a: Id)
    requires Inv(s) && Enabled(s, ReadCount(a))
    ensures Do(s, ReadCount(a)).phases[a] == if Counted(s) == {} then Direct else Detour
  {
    if Counted(s) != {} { assert |Counted(s)| > 0; }
  }

  lemma ExecutedInOrder(s: State, a: Id, b: Id)
    requires Shape(s) && OrderOk(s)
    ensures NoDup(s.executed)
    ensures b in s.before && a in s.before[b] && b in s.executed ==>
      exists i, j :: 0 <= i < j < |s.executed| && s.executed[i] == a && s.executed[j] == b
  {
    forall i | 0 <= i < |s.executed| ensures Line(s)[i] == s.executed[i] {}
    if b in s.before && a in s.before[b] && b in s.executed {
      var i :| 0 <= i < |Line(s)| && Line(s)[i] == a && (forall j | 0 <= j < |Line(s)| && Line(s)[j] == b :: i < j);
      var j :| 0 <= j < |s.executed| && s.executed[j] == b;
      assert Line(s)[j] == b;
      assert s.executed[i] == a;
    }
  }
}
