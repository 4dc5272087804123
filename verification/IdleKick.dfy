// Whole runs of a timing wheel, and the kicking of connections that hangs on it.
module WheelRuns {
  import opened WheelMath
  import opened TimingWheel

  datatype Op = Insert(id: nat, delay: nat) | Tick

  // The specification of a wheel: a set of releases with their ticks.
  datatype Ledger = Ledger(now: nat, waiting: set<Due>, dropped: set<Due>)

  function Apply(b: nat, q: nat, l: Ledger, op: Op): Ledger
    requires b > 1 && q > 0
  {
    match op
    case Insert(id, delay) =>
      if delay == 0 then l else l.(waiting := l.waiting + {(id, Drop(b, q, 0, delay, l.now))})
    case Tick =>
      var now := l.now + 1;
      Ledger(now, (set p | p in l.waiting && p.1 > now), l.dropped + (set p | p in l.waiting && p.1 == now))
  }

  function Run(b: nat, q: nat, ops: seq<Op>): Ledger
    requires b > 1 && q > 0
  {
    if ops == [] then Ledger(0, {}, {}) else Apply(b, q, Run(b, q, ops[..|ops| - 1]), ops[|ops| - 1])
  }

  function Now(ops: seq<Op>): nat
  {
    if ops == [] then 0 else Now(ops[..|ops| - 1]) + (if ops[|ops| - 1] == Tick then 1 else 0)
  }

  // Every release the insertions of a run ask for.
  function Asked(b: nat, q: nat, ops: seq<Op>): set<Due>
    requires b > 1 && q > 0
  {
    if ops == [] then {} else
      var before := ops[..|ops| - 1];
      var op := ops[|ops| - 1];
      Asked(b, q, before) +
      if op.Insert? && op.delay > 0 then {(op.id, Drop(b, q, 0, op.delay, Now(before)))} else {}
  }

  // In every run each release happens once, at its tick: nothing is lost, early or late.
  lemma {:induction false} LedgerExact(b: nat, q: nat, ops: seq<Op>)
    requires b > 1 && q > 0
    ensures var l := Run(b, q, ops);
      && l.now == Now(ops)
      && l.waiting == (set p | p in Asked(b, q, ops) && p.1 > l.now)
      && l.dropped == (set p | p in Asked(b, q, ops) && p.1 <= l.now)
  {
    hide Drop;
    if ops != [] {
      var before, op := ops[..|ops| - 1], ops[|ops| - 1];
      LedgerExact(b, q, before);
      if op.Insert? && op.delay > 0 { DropAfter(b, q, op.delay, Now(before)); }
    }
  }

  // The wheel refines the ledger over every sequence of insertions and ticks.
  method Drive(w: Wheel, ops: seq<Op>)
    requires w.Valid() && w.ticks == 0 && w.Waiting() == {} && w.dropped == {}
    modifies w
    ensures w.Valid() && |w.queues| == old(|w.queues|)
    ensures Ledger(w.ticks, w.Waiting(), w.dropped) == Run(w.b, |w.queues|, ops)
  {
    hide AllDue, Drop, Rotations;
    ghost var q := |w.queues|;
    for n := 0 to |ops|
      invariant w.Valid() && |w.queues| == q
      invariant Ledger(w.ticks, w.Waiting(), w.dropped) == Run(w.b, q, ops[..n])
    {
      assert ops[..n + 1][..n] == ops[..n];
      match ops[n]
      case Insert(id, delay) => w.InsertEntryInLoop(delay, id);
      case Tick => w.Tick();
    }
    assert ops[..|ops|] == ops;
  }

  // ---- an object inserted again and again with the same delay ----

  predicate SameDelay(ops: seq<Op>, id: nat, delay: nat)
  {
    forall i | 0 <= i < |ops| && ops[i].Insert? && ops[i].id == id :: ops[i].delay == delay
  }

  predicate Inserted(ops: seq<Op>, id: nat)
  {
    exists i :: 0 <= i < |ops| && ops[i].Insert? && ops[i].id == id
  }

  // The tick of the last insertion.
  function LastInsert(ops: seq<Op>, id: nat): nat
    requires Inserted(ops, id)
  {
    var before, op := ops[..|ops| - 1], ops[|ops| - 1];
    if op.Insert? && op.id == id then Now(before)
    else
      assert Inserted(before, id) by {
        var i :| 0 <= i < |ops| && ops[i].Insert? && ops[i].id == id;
        assert before[i] == ops[i];
      }
      LastInsert(before, id)
  }

  predicate Held(l: Ledger, id: nat)
  {
    exists p :: p in l.waiting && p.0 == id
  }

  lemma {:induction false} AskedForOne(b: nat, q: nat, ops: seq<Op>, id: nat, delay: nat)
    requires b > 1 && q > 0 && 1 <= delay <= b && SameDelay(ops, id, delay)
    ensures !Inserted(ops, id) ==> forall p | p in Asked(b, q, ops) :: p.0 != id
    ensures Inserted(ops, id) ==> (id, LastInsert(ops, id) + delay) in Asked(b, q, ops)
    ensures Inserted(ops, id) ==> forall p | p in Asked(b, q, ops) && p.0 == id :: p.1 <= LastInsert(ops, id) + delay
    ensures Inserted(ops, id) ==> LastInsert(ops, id) <= Now(ops)
  {
    if ops != [] {
      var before, op := ops[..|ops| - 1], ops[|ops| - 1];
      AskedForOne(b, q, before, id, delay);
      if op.Insert? && op.id == id {
        assert Pow(b, 0) == 1;
        assert Drop(b, q, 0, delay, Now(before)) == Now(before) + delay;
        assert Inserted(ops, id);
      } else if Inserted(ops, id) {
        var i :| 0 <= i < |ops| && ops[i].Insert? && ops[i].id == id;
        assert before[i] == ops[i];
      }
    }
  }

  // With a delay of at most one turn the wheel lets go of the object exactly `delay` ticks after its last insertion.
  lemma HeldUntil(b: nat, q: nat, ops: seq<Op>, id: nat, delay: nat)
    requires b > 1 && q > 0 && 1 <= delay <= b && SameDelay(ops, id, delay) && Inserted(ops, id)
    ensures Held(Run(b, q, ops), id) <==> Now(ops) < LastInsert(ops, id) + delay
  {
    LedgerExact(b, q, ops);
    AskedForOne(b, q, ops, id, delay);
    var last := (id, LastInsert(ops, id) + delay);
    if Now(ops) < LastInsert(ops, id) + delay { assert last in Run(b, q, ops).waiting; }
  }
}

module IdleKick {
  import opened Common
  import opened WheelMath
  import opened TimingWheel

  // What can happen to a connection in its loop; times are in microseconds. Close is a close by other means.
  datatype Event = Establish | Close | Activity(now: int) | Tick | KeepAlive

  const SECOND: int := 1_000_000

  // The buckets per queue a server chooses.
  function Buckets(timeout: nat): nat { if timeout < 500 then timeout + 1 else 100 }

  class IdleConnection {
    const id: nat
    const wheel: Wheel
    var idleTimeout: nat      // of the connection, not of the server
    var lastUpdate: int
    var entryArmed: bool      // the kickoff entry still refers to the connection
    var status: Status
    var kicks: seq<nat>       // the ticks at which the kickoff entry closed the connection

    constructor (id: nat, wheel: Wheel)
      ensures this.id == id && this.wheel == wheel && idleTimeout == 0 && lastUpdate == 0
      ensures status == Connecting && kicks == []
    {
      this.id, this.wheel := id, wheel;
      idleTimeout, lastUpdate, entryArmed, status, kicks := 0, 0, false, Connecting, [];
    }

    // Called by the server for every new connection.
    method EnableKickingOff(timeout: nat)
      requires wheel.Valid() && timeout > 0
      modifies this`entryArmed, wheel`queues
      ensures wheel.Valid() && |wheel.queues| == old(|wheel.queues|) && entryArmed
      ensures wheel.Waiting() == old(wheel.Waiting()) + {(id, Drop(wheel.b, |wheel.queues|, 0, timeout, wheel.ticks))}
    {
      entryArmed := true;
      wheel.InsertEntryInLoop(timeout, id);
    }

    // Called on every read and write.
    method ExtendLife(now: int)
      requires wheel.Valid()
      modifies this`lastUpdate, wheel`queues
      ensures wheel.Valid() && |wheel.queues| == old(|wheel.queues|)
      ensures var counts := idleTimeout > 0 && now >= old(lastUpdate) + SECOND;
        && lastUpdate == (if counts then now else old(lastUpdate))
        && wheel.Waiting() == old(wheel.Waiting()) +
             if counts && old(wheel.Holds(id)) then {(id, Drop(wheel.b, |wheel.queues|, 0, idleTimeout, wheel.ticks))}
             else {}
    {
      if idleTimeout > 0 {
        if now < lastUpdate + SECOND { return; }
        lastUpdate := now;
        if wheel.Holds(id) { wheel.InsertEntryInLoop(idleTimeout, id); }
      }
    }

    method StayConnected()
      requires wheel.Shaped()
      modifies this`idleTimeout, this`entryArmed
      ensures idleTimeout == 0 && entryArmed == (old(entryArmed) && !wheel.Holds(id))
    {
      idleTimeout := 0;
      if wheel.Holds(id) { entryArmed := false; }
    }

    // forceClose() by the kickoff entry.
    method Kick()
      modifies this`status, this`kicks
      ensures status == (if Open(old(status)) then Disconnected else old(status))
      ensures kicks == (if Open(old(status)) then old(kicks) + [wheel.ticks] else old(kicks))
    {
      if Open(status) {
        status := Disconnected;
        kicks := kicks + [wheel.ticks];
      }
    }

    // A tick of the wheel; when it lets go of the entry for good, the entry's destructor closes the connection.
    method OnTick()
      requires wheel.Valid()
      modifies this`status, this`kicks, wheel
      ensures wheel.Valid() && |wheel.queues| == old(|wheel.queues|) && wheel.ticks == old(wheel.ticks) + 1
      ensures wheel.Waiting() == set p | p in old(wheel.Waiting()) && p.1 > wheel.ticks
      ensures var fires := old(wheel.Holds(id)) && !wheel.Holds(id) && entryArmed && Open(old(status));
        && kicks == (if fires then old(kicks) + [wheel.ticks] else old(kicks))
        && status == (if fires then Disconnected else old(status))
    {
      var held := wheel.Holds(id);
      wheel.Tick();
      if held && !wheel.Holds(id) && entryArmed { Kick(); }
    }
  }

  // ---- the life of a connection as a value ----

  // `at` is the tick of the last insertion that counted, and the wheel lets go of the entry at tick `due`.
  datatype Life = Life(now: nat, at: nat, due: nat, armed: bool, idle: nat, last: int, status: Status, kicks: seq<nat>)

  function Max(a: nat, b: nat): nat { if a < b then b else a }

  function After(b: nat, q: nat, s: Life, e: Event): Life
    requires b > 1 && q > 0
  {
    match e
    case Establish => if s.status == Connecting then s.(status := Connected) else s
    case Close => if Open(s.status) then s.(status := Disconnected) else s
    case KeepAlive => s.(idle := 0, armed := s.armed && s.now >= s.due)
    case Activity(now) =>
      if s.idle == 0 || now < s.last + SECOND then s
      else if s.now >= s.due then s.(last := now)
      else s.(last := now, at := s.now, due := Max(s.due, Drop(b, q, 0, s.idle, s.now)))
    case Tick =>
      if s.now + 1 == s.due && s.armed && Open(s.status)
      then s.(now := s.now + 1, status := Disconnected, kicks := s.kicks + [s.due])
      else s.(now := s.now + 1)
  }

  function Lived(b: nat, q: nat, s: Life, events: seq<Event>): Life
    requires b > 1 && q > 0
    decreases |events|
  {
    if events == [] then s else Lived(b, q, After(b, q, s, events[0]), events[1..])
  }

  // From the moment the server enables kicking: the timeout of the connection is `idle`.
  function Born(b: nat, q: nat, now: nat, timeout: nat, idle: nat): Life
    requires b > 1 && q > 0
  {
    Life(now, now, Drop(b, q, 0, timeout, now), true, idle, 0, Connecting, [])
  }

  // The object is in state `s`: the wheel holds its entry until `s.due` and not after.
  ghost predicate Matches(c: IdleConnection, s: Life)
    reads c, c.wheel
  {
    && c.wheel.Valid() && c.wheel.ticks == s.now && c.entryArmed == s.armed && c.idleTimeout == s.idle
    && c.lastUpdate == s.last && c.status == s.status && c.kicks == s.kicks
    && (forall p | p in c.wheel.Waiting() && p.0 == c.id :: p.1 <= s.due)
    && (s.now < s.due ==> (c.id, s.due) in c.wheel.Waiting())
  }

  lemma MatchesHolds(c: IdleConnection, s: Life)
    requires Matches(c, s)
    ensures c.wheel.Holds(c.id) <==> s.now < s.due
  {
  }

  method Step(c: IdleConnection, e: Event, ghost s: Life)
    requires Matches(c, s)
    modifies c, c.wheel
    ensures |c.wheel.queues| == old(|c.wheel.queues|) && Matches(c, After(c.wheel.b, old(|c.wheel.queues|), s, e))
  {
    hide AllDue, Rotations, Drop;
    MatchesHolds(c, s);
    match e
    case Establish => if c.status == Connecting { c.status := Connected; }
    case Close => if Open(c.status) { c.status := Disconnected; }
    case Activity(now) => c.ExtendLife(now);
    case KeepAlive => c.StayConnected();
    case Tick => StepTick(c, s);
  }

  method StepTick(c: IdleConnection, ghost s: Life)
    requires Matches(c, s)
    modifies c, c.wheel
    ensures |c.wheel.queues| == old(|c.wheel.queues|) && Matches(c, After(c.wheel.b, old(|c.wheel.queues|), s, Tick))
  {
    hide AllDue, Rotations, Drop;
    MatchesHolds(c, s);
    c.OnTick();
    assert c.wheel.Holds(c.id) ==> s.now + 1 < s.due;
  }

  // The life of one connection on a wheel that may serve others, from its creation on; `idle` is 0 in the code, and
  // `timeout` were enableKickingOff to store it.
  method Live(c: IdleConnection, timeout: nat, idle: nat, events: seq<Event>)
    requires c.wheel.Valid() && timeout > 0 && !c.wheel.Holds(c.id)
    requires c.idleTimeout == idle && c.status == Connecting && c.kicks == [] && c.lastUpdate == 0
    modifies c, c.wheel
    ensures var b, q := c.wheel.b, old(|c.wheel.queues|);
      Matches(c, Lived(b, q, Born(b, q, old(c.wheel.ticks), timeout, idle), events))
  {
    hide AllDue, Drop, Rotations;
    ghost var b, q := c.wheel.b, |c.wheel.queues|;
    ghost var s := Born(b, q, c.wheel.ticks, timeout, idle);
    ghost var whole := Lived(b, q, s, events);
    c.EnableKickingOff(timeout);
    for n := 0 to |events|
      invariant Matches(c, s) && |c.wheel.queues| == q && Lived(b, q, s, events[n..]) == whole
    {
      assert events[n..][1..] == events[n + 1..];
      Step(c, events[n], s);
      s := After(b, q, s, events[n]);
    }
  }

  // ---- what lives look like ----

  // Closed at most once, at the tick the entry is due for, which then lies behind.
  ghost predicate KickOk(s: Life)
  {
    s.kicks == [] || (s.kicks == [s.due] && s.now >= s.due && !Open(s.status) && s.status != Connecting)
  }

  lemma {:induction false} KicksAtDue(b: nat, q: nat, s: Life, events: seq<Event>)
    requires b > 1 && q > 0 && KickOk(s)
    ensures KickOk(Lived(b, q, s, events))
    decreases |events|
  {
    hide Drop;
    if events != [] { KicksAtDue(b, q, After(b, q, s, events[0]), events[1..]); }
  }

  // The wheel lets go `timeout` ticks after the last insertion.
  ghost predicate OnSchedule(s: Life, timeout: nat)
  {
    (s.idle == 0 || s.idle == timeout) && s.due == s.at + timeout && s.at <= s.now
  }

  lemma ScheduleKept(b: nat, q: nat, s: Life, e: Event, timeout: nat)
    requires b > 1 && q > 0 && 1 <= timeout <= b && OnSchedule(s, timeout)
    ensures OnSchedule(After(b, q, s, e), timeout)
  {
    hide Drop;
    DropNear(b, q, timeout, s.now);
  }

  // As intended: with the timeout stored and no longer than one turn of the wheel, a connection is closed at most once,
  // exactly `timeout` ticks after its last extension.
  lemma {:induction false} ExtendedKick(b: nat, q: nat, s: Life, events: seq<Event>, timeout: nat)
    requires b > 1 && q > 0 && 1 <= timeout <= b && KickOk(s) && OnSchedule(s, timeout)
    ensures var f := Lived(b, q, s, events);
      OnSchedule(f, timeout) && (f.kicks == [] || f.kicks == [f.at + timeout])
    decreases |events|
  {
    hide After, OnSchedule;
    if events == [] {
      Scheduled(s, timeout);
    } else {
      ScheduleKept(b, q, s, events[0], timeout);
      KicksAtDue(b, q, s, [events[0]]);
      ExtendedKick(b, q, After(b, q, s, events[0]), events[1..], timeout);
    }
  }

  lemma Scheduled(s: Life, timeout: nat)
    requires OnSchedule(s, timeout)
    ensures s.due == s.at + timeout
  {
  }

  lemma DropNear(b: nat, q: nat, d: nat, t: nat)
    requires b > 1 && q > 0 && 1 <= d <= b
    ensures Drop(b, q, 0, d, t) == t + d
  {
    assert Pow(b, 0) == 1;
  }

  // As it is: with no timeout stored, reads and writes change nothing.
  lemma {:induction false} ActivityIgnored(b: nat, q: nat, s: Life, before: seq<Event>, e: int, after: seq<Event>)
    requires b > 1 && q > 0 && s.idle == 0
    ensures Lived(b, q, s, before + [Activity(e)] + after) == Lived(b, q, s, before + after)
    decreases |before|
  {
    hide Drop;
    if before == [] {
      assert ([] + [Activity(e)] + after)[1..] == after;
      assert [] + after == after;
    } else {
      assert (before + [Activity(e)] + after)[1..] == before[1..] + [Activity(e)] + after;
      assert (before + after)[1..] == before[1..] + after;
      ActivityIgnored(b, q, After(b, q, s, before[0]), before[1..], e, after);
    }
  }

  // The tick `due` comes while the entry still refers to the connection and the connection is open.
  ghost predicate Hit(b: nat, q: nat, s: Life, events: seq<Event>)
    requires b > 1 && q > 0
    decreases |events|
  {
    events != [] &&
    ((events[0] == Tick && s.now + 1 == s.due && s.armed && Open(s.status)) ||
     Hit(b, q, After(b, q, s, events[0]), events[1..]))
  }

  // The kick comes exactly when that happens, once, whatever the timeout of the connection.
  lemma {:induction false} KickedExactly(b: nat, q: nat, s: Life, events: seq<Event>)
    requires b > 1 && q > 0 && s.kicks == []
    ensures Lived(b, q, s, events).kicks == if Hit(b, q, s, events) then [Lived(b, q, s, events).due] else []
    decreases |events|
  {
    hide Drop;
    if events != [] {
      var s' := After(b, q, s, events[0]);
      if s'.kicks == [] {
        KickedExactly(b, q, s', events[1..]);
      } else {
        Settled(b, q, s', events[1..]);
      }
    }
  }

  // Once the wheel has let go nothing changes that.
  lemma {:induction false} Settled(b: nat, q: nat, s: Life, events: seq<Event>)
    requires b > 1 && q > 0 && s.now >= s.due
    ensures Lived(b, q, s, events).kicks == s.kicks && Lived(b, q, s, events).due == s.due
    decreases |events|
  {
    hide Drop;
    if events != [] { Settled(b, q, After(b, q, s, events[0]), events[1..]); }
  }

  // With no timeout stored the tick of the kick is the one first computed.
  lemma {:induction false} FixedDue(b: nat, q: nat, s: Life, events: seq<Event>)
    requires b > 1 && q > 0 && s.idle == 0
    ensures Lived(b, q, s, events).due == s.due
    decreases |events|
  {
    hide Drop;
    if events != [] { FixedDue(b, q, After(b, q, s, events[0]), events[1..]); }
  }

  // The kick as it is: whatever the connection reads or writes, once and at the tick first computed, or not at all.
  lemma KickedAsBorn(b: nat, q: nat, now: nat, timeout: nat, events: seq<Event>)
    requires b > 1 && q > 0
    ensures var s := Born(b, q, now, timeout, 0);
      Lived(b, q, s, events).kicks == if Hit(b, q, s, events) then [Drop(b, q, 0, timeout, now)] else []
  {
    hide Drop, Lived, Hit;
    KickedExactly(b, q, Born(b, q, now, timeout, 0), events);
    FixedDue(b, q, Born(b, q, now, timeout, 0), events);
  }

  // The kick as intended, were the timeout stored: once and `timeout` ticks after the last extension, or not at all.
  lemma KickedAsIntended(b: nat, q: nat, now: nat, timeout: nat, events: seq<Event>)
    requires b > 1 && q > 0 && 1 <= timeout <= b
    ensures var s := Born(b, q, now, timeout, timeout);
      Lived(b, q, s, events).kicks == if Hit(b, q, s, events) then [Lived(b, q, s, events).at + timeout] else []
  {
    hide Drop, Lived, Hit;
    DropNear(b, q, timeout, now);
    KickedExactly(b, q, Born(b, q, now, timeout, timeout), events);
    ExtendedKick(b, q, Born(b, q, now, timeout, timeout), events, timeout);
  }

  // ---- when the kick as it is and the kick as intended are the same ----

  // Told from the events alone: before tick number `timeout`, but after the first, comes a read or write that would
  // have extended the life of the connection. `ticks` have passed; `last` is the time of the last one that counted.
  ghost predicate Busy(events: seq<Event>, ticks: nat, last: int, timeout: nat)
    decreases |events|
  {
    && events != [] && ticks < timeout
    && var rest := events[1..];
       match events[0]
       case Tick => Busy(rest, ticks + 1, last, timeout)
       case Activity(n) =>
         if n < last + SECOND then Busy(rest, ticks, last, timeout) else ticks > 0 || Busy(rest, ticks, n, timeout)
       case _ => Busy(rest, ticks, last, timeout)
  }

  // The connection is established before tick number `timeout`.
  ghost predicate Prompt(events: seq<Event>, ticks: nat, timeout: nat)
    decreases |events|
  {
    && events != [] && ticks < timeout
    && (events[0] == Establish || Prompt(events[1..], if events[0] == Tick then ticks + 1 else ticks, timeout))
  }

  lemma {:induction false} DueGrows(b: nat, q: nat, s: Life, events: seq<Event>)
    requires b > 1 && q > 0
    ensures Lived(b, q, s, events).due >= s.due
    decreases |events|
  {
    hide Drop;
    if events != [] { DueGrows(b, q, After(b, q, s, events[0]), events[1..]); }
  }

  // No kick once the entry is disarmed, the connection closed, or the tick past.
  ghost predicate Safe(s: Life) { !s.armed || s.now >= s.due || s.status == Disconnected }

  lemma {:induction false} NoHit(b: nat, q: nat, s: Life, events: seq<Event>)
    requires b > 1 && q > 0 && Safe(s)
    ensures !Hit(b, q, s, events)
    decreases |events|
  {
    hide Drop;
    if events != [] { NoHit(b, q, After(b, q, s, events[0]), events[1..]); }
  }

  // The same connection as the code has it and as intended, with the entry due at the same tick.
  ghost predicate Twins(s: Life, s': Life, timeout: nat)
  {
    && s.idle == 0 && s'.idle == timeout && s.kicks == s'.kicks == [] && s.armed == s'.armed
    && s.now == s'.now < s.due == s'.due && s.status == s'.status && s.due - timeout <= s.now
  }

  lemma {:induction false} SameUnlessBusy(b: nat, q: nat, s: Life, s': Life, events: seq<Event>, timeout: nat)
    requires b > 1 && q > 0 && 1 <= timeout <= b && Twins(s, s', timeout) && Hit(b, q, s, events)
    ensures Lived(b, q, s', events).kicks == [s.due] <==> !Busy(events, s.now + timeout - s.due, s'.last, timeout)
    decreases |events|
  {
    hide Drop;
    var e, rest := events[0], events[1..];
    var t, t' := After(b, q, s, e), After(b, q, s', e);
    DropNear(b, q, timeout, s.now);
    if e == Tick && t.now == s.due {
      if t.kicks == [] { NoHit(b, q, t, rest); }
      Settled(b, q, t', rest);
    } else if t'.due > s.due {
      KicksAtDue(b, q, t', rest);
      DueGrows(b, q, t', rest);
    } else {
      if Safe(t) { NoHit(b, q, t, rest); }
      SameUnlessBusy(b, q, t, t', rest, timeout);
    }
  }

  // Whoever is kicked as intended is kicked by the code as well, if established in time.
  lemma {:induction false} HitBoth(b: nat, q: nat, s: Life, s': Life, events: seq<Event>)
    requires b > 1 && q > 0 && s.idle == 0 && s.now == s'.now < s.due <= s'.due
    requires s.armed == s'.armed && s.status == s'.status
    requires s.status != Connecting || Prompt(events, s.now, s.due)
    ensures Hit(b, q, s', events) ==> Hit(b, q, s, events)
    decreases |events|
  {
    hide Drop;
    if events != [] {
      var e, rest := events[0], events[1..];
      var t, t' := After(b, q, s, e), After(b, q, s', e);
      if e == Tick && t.now == s.due {
        if !Hit(b, q, s, events) { assert Safe(s'); NoHit(b, q, s', events); }
      } else {
        HitBoth(b, q, t, t', rest);
      }
    }
  }

  // For connections the code kicks, the kick is the intended one if and only if the connection was not busy. A
  // connection established before its timeout that the code does not kick would not be kicked either way.
  lemma KickedAsDocumented(b: nat, q: nat, now: nat, timeout: nat, events: seq<Event>)
    requires b > 1 && q > 0 && 1 <= timeout <= b
    ensures var s, s' := Born(b, q, now, timeout, 0), Born(b, q, now, timeout, timeout);
      && (Hit(b, q, s, events) ==>
            (Lived(b, q, s, events).kicks == Lived(b, q, s', events).kicks <==> !Busy(events, 0, 0, timeout)))
      && (!Hit(b, q, s, events) && Prompt(events, 0, timeout) ==>
            Lived(b, q, s, events).kicks == Lived(b, q, s', events).kicks == [])
  {
    hide Drop, Lived, Hit, Busy, Prompt;
    var s, s' := Born(b, q, now, timeout, 0), Born(b, q, now, timeout, timeout);
    DropNear(b, q, timeout, now);
    KickedAsBorn(b, q, now, timeout, events);
    KickedExactly(b, q, s', events);
    if Hit(b, q, s, events) {
      SameUnlessBusy(b, q, s, s', events, timeout);
    } else if Prompt(events, 0, timeout) {
      PromptFrom(events, 0, timeout, now);
      HitBoth(b, q, s, s', events);
    }
  }

  lemma {:induction false} PromptFrom(events: seq<Event>, ticks: nat, timeout: nat, now: nat)
    ensures Prompt(events, ticks, timeout) == Prompt(events, now + ticks, now + timeout)
    decreases |events|
  {
    if events != [] && ticks < timeout {
      PromptFrom(events[1..], if events[0] == Tick then ticks + 1 else ticks, timeout, now);
    }
  }

  // A connection that is read or written one tick before the kick: closed all the same, where the intended wheel holds
  // it for a further two ticks.
  lemma KickedThoughActive()
    ensures var events := [Establish, Tick, Activity(SECOND), Tick];
      && Lived(3, 1, Born(3, 1, 0, 2, 0), events).kicks == [2]
      && Lived(3, 1, Born(3, 1, 0, 2, 2), events).kicks == []
  {
    DropNear(3, 1, 2, 0);
    DropNear(3, 1, 2, 1);
    FourEvents(3, 1, Born(3, 1, 0, 2, 0), Establish, Tick, Activity(SECOND), Tick);
    FourEvents(3, 1, Born(3, 1, 0, 2, 2), Establish, Tick, Activity(SECOND), Tick);
    hide Drop, Lived;
  }

  lemma FourEvents(b: nat, q: nat, s: Life, e: Event, f: Event, g: Event, h: Event)
    requires b > 1 && q > 0
    ensures Lived(b, q, s, [e, f, g, h]) == After(b, q, After(b, q, After(b, q, After(b, q, s, e), f), g), h)
  {
    hide Drop, After;
    var s1 := After(b, q, s, e);
    var s2 := After(b, q, s1, f);
    var s3 := After(b, q, s2, g);
    assert [e, f, g, h][1..] == [f, g, h] && [f, g, h][1..] == [g, h] && [g, h][1..] == [h];
    assert Lived(b, q, s3, [h]) == After(b, q, s3, h);
    assert Lived(b, q, s1, [f, g, h]) == Lived(b, q, s2, [g, h]);
  }

  // keepAlive before the tick `due` is for good.
  lemma {:induction false} KeptAlive(b: nat, q: nat, s: Life, before: seq<Event>, after: seq<Event>)
    requires b > 1 && q > 0 && KickOk(s)
    requires Lived(b, q, s, before).now < Lived(b, q, s, before).due
    ensures Lived(b, q, s, before + [KeepAlive] + after).kicks == []
    decreases |before|
  {
    hide Drop;
    if before == [] {
      assert ([] + [KeepAlive] + after)[1..] == after;
      NeverKicked(b, q, After(b, q, s, KeepAlive), after);
    } else {
      KicksAtDue(b, q, s, [before[0]]);
      assert (before + [KeepAlive] + after)[1..] == before[1..] + [KeepAlive] + after;
      KeptAlive(b, q, After(b, q, s, before[0]), before[1..], after);
    }
  }

  // Nor is a connection kicked that was open and closed by other means.
  lemma ClosedNotKicked(b: nat, q: nat, s: Life, after: seq<Event>)
    requires b > 1 && q > 0 && s.kicks == [] && Open(s.status)
    ensures Lived(b, q, s, [Close] + after).kicks == []
  {
    hide Drop;
    assert ([Close] + after)[1..] == after;
    NoHit(b, q, After(b, q, s, Close), after);
    KickedExactly(b, q, After(b, q, s, Close), after);
  }

  lemma {:induction false} NeverKicked(b: nat, q: nat, s: Life, events: seq<Event>)
    requires b > 1 && q > 0 && !s.armed && s.kicks == []
    ensures Lived(b, q, s, events).kicks == []
    decreases |events|
  {
    hide Drop;
    if events != [] { NeverKicked(b, q, After(b, q, s, events[0]), events[1..]); }
  }

  // The server's wheel: exact below 500 seconds, never exact from 500 on.
  lemma ServerKick(timeout: nat, q: nat, now: nat)
    requires timeout > 1 && FewestQueues(Buckets(timeout), timeout, q)
    ensures timeout < 500 ==> q == 1
    ensures Drop(Buckets(timeout), q, 0, timeout, now) == now + timeout <==> timeout < 500
  {
    var b := Buckets(timeout);
    assert Pow(b, 1) == b * Pow(b, 0);
    if timeout < 500 && q > 1 {
      PowGrows(b, q - 1);
    }
    InsertionTheorem(b, q, now, timeout);
  }

  lemma {:induction false} PowGrows(b: nat, n: nat)
    requires b > 1 && n >= 1
    ensures Pow(b, n) >= b
  {
    if n > 1 {
      PowGrows(b, n - 1);
      MulAtLeast(Pow(b, n - 1), b);
      assert b * Pow(b, n - 1) == Pow(b, n - 1) * b;
    }
  }
}
