// Timers of an event loop: a heap ordered by expiry, the set of live ids, and the timerfd that wakes the loop.
module Timers {
  import opened Common

  type Id = nat
  type Time = int            // nanoseconds of the steady clock

  const FLOOR: Time := 100_000
  const MICRO: Time := 1000

  datatype Timer = Timer(id: Id, when: Time, interval: Time)

  // What has happened so far, oldest first.
  datatype Event = Added(id: Id) | Cancelled(id: Id) | Ran(id: Id, interval: Time, when: Time, now: Time)

  // What a callback does, `at` being the clock it reads; MakeOne is a timer made by another thread meanwhile.
  datatype Action =
    | AddOne(when: Time, interval: Time, at: Time)
    | CancelOne(id: Id)
    | MakeOne(when: Time, interval: Time)

  // ---- what the log of a run must look like ----

  // No timer runs before it is due.
  ghost predicate OnTime(log: seq<Event>)
  {
    forall k | 0 <= k < |log| && log[k].Ran? :: log[k].when < log[k].now
  }

  // Only a repeating timer runs twice, and then more than its interval apart.
  ghost predicate Spaced(log: seq<Event>)
  {
    forall k, l | 0 <= k < l < |log| && log[k].Ran? && log[l].Ran? && log[k].id == log[l].id ::
      log[k].interval > 0 && log[l].now > log[k].now + log[k].interval
  }

  ghost predicate Withdrawn(log: seq<Event>, id: Id)
  {
    exists i, j :: 0 <= i < j < |log| && log[i] == Added(id) && log[j] == Cancelled(id)
  }

  // A timer cancelled after it was added does not run again.
  ghost predicate NoRunAfterCancel(log: seq<Event>)
  {
    forall k | 0 <= k < |log| && log[k].Ran? :: !Withdrawn(log[..k], log[k].id)
  }

  ghost predicate LogOk(log: seq<Event>) { OnTime(log) && Spaced(log) && NoRunAfterCancel(log) }

  // ---- what the queue keeps ----

  // `t` may run once it is due.
  ghost predicate Waits(log: seq<Event>, t: Timer)
  {
    forall k | 0 <= k < |log| && log[k].Ran? && log[k].id == t.id ::
      t.interval > 0 && log[k].interval == t.interval && t.when >= log[k].now + t.interval
  }

  // Every run of the timer so far had the interval it has.
  ghost predicate KeepsInterval(log: seq<Event>, t: Timer)
  {
    forall k | 0 <= k < |log| && log[k].Ran? && log[k].id == t.id :: log[k].interval == t.interval
  }

  ghost predicate LogKnown(log: seq<Event>, added: set<Id>, clock: Time)
  {
    && (forall k | 0 <= k < |log| && !log[k].Cancelled? :: log[k].id in added)
    && (forall k | 0 <= k < |log| && log[k].Ran? :: log[k].now <= clock)
  }

  ghost predicate HeapOk(heap: map<Id, Timer>, log: seq<Event>, added: set<Id>)
  {
    forall id | id in heap :: heap[id].id == id && id in added && Waits(log, heap[id])
  }

  // Timers taken out of the heap; those from `i` on have not had their turn.
  ghost predicate BatchOk(heap: map<Id, Timer>, batch: seq<Timer>, i: nat, log: seq<Event>, added: set<Id>)
  {
    && (forall j | 0 <= j < |batch| ::
          && batch[j].id in added && batch[j].id !in heap
          && KeepsInterval(log, batch[j]) && (i <= j ==> Waits(log, batch[j])))
    && (forall j, k | 0 <= j < k < |batch| :: batch[j].id != batch[k].id)
  }

  ghost predicate LiveOk(live: set<Id>, log: seq<Event>, added: set<Id>)
  {
    live <= added && forall id | id in live :: !Withdrawn(log, id)
  }

  // Timers whose insertion waits among the functions of the loop: new ids, each once.
  ghost predicate QueuedOk(queued: seq<Timer>, added: set<Id>, created: nat)
  {
    && (forall j | 0 <= j < |queued| :: queued[j].id <= created && queued[j].id !in added)
    && (forall j, k | 0 <= j < k < |queued| :: queued[j].id != queued[k].id)
  }

  // The queue at one moment; `batch` is empty between events and `last` is when timers were last run.
  datatype Queue = Queue(heap: map<Id, Timer>, batch: seq<Timer>, i: nat, live: set<Id>, log: seq<Event>,
                         added: set<Id>, last: Time)

  ghost predicate Good(q: Queue)
  {
    && HeapOk(q.heap, q.log, q.added) && BatchOk(q.heap, q.batch, q.i, q.log, q.added)
    && LiveOk(q.live, q.log, q.added) && LogKnown(q.log, q.added, q.last) && LogOk(q.log)
  }

  lemma GoodAdd(q: Queue, t: Timer)
    requires Good(q) && t.id !in q.added
    ensures Good(q.(heap := q.heap[t.id := t], live := q.live + {t.id},
                    log := q.log + [Added(t.id)], added := q.added + {t.id}))
  {
  }

  lemma GoodCancel(q: Queue, id: Id)
    requires Good(q)
    ensures Good(q.(live := q.live - {id}, log := q.log + [Cancelled(id)]))
    ensures id !in q.added ==> id !in q.live
  {
  }

  lemma GoodPop(q: Queue, id: Id)
    requires Good(q) && id in q.heap && q.i <= |q.batch|
    ensures Good(q.(heap := q.heap - {id}, batch := q.batch + [q.heap[id]]))
  {
  }

  lemma GoodRun(q: Queue)
    requires Good(q) && q.i < |q.batch| && q.batch[q.i].id in q.live && q.batch[q.i].when < q.last
    ensures var t := q.batch[q.i]; Good(q.(i := q.i + 1, log := q.log + [Ran(t.id, t.interval, t.when, q.last)]))
  {
  }

  lemma GoodSkip(q: Queue)
    requires Good(q) && q.i < |q.batch|
    ensures Good(q.(i := q.i + 1))
  {
  }

  // All timers of the batch had their turn; the first is put back or dropped.
  lemma GoodReset(q: Queue)
    requires Good(q) && 0 < q.i == |q.batch|
    ensures var t := q.batch[0]; var q' := q.(batch := q.batch[1..], i := q.i - 1);
      && Good(q')
      && Good(q'.(live := q.live - {t.id}))
      && (t.interval > 0 && t.id in q.live ==>
            Good(q'.(heap := q.heap[t.id := t.(when := q.last + t.interval)])))
  {
  }

  // ---- what callbacks do ----

  datatype Book = Book(live: set<Id>, created: nat, log: seq<Event>)

  function One(b: Book, a: Action): Book
  {
    match a
    case AddOne(_, _, _) => Book(b.live + {b.created + 1}, b.created + 1, b.log + [Added(b.created + 1)])
    case CancelOne(id) => b.(live := b.live - {id}, log := b.log + [Cancelled(id)])
    case MakeOne(_, _) => b.(created := b.created + 1)
  }

  function Echo(b: Book, acts: seq<Action>): Book
  {
    if acts == [] then b else One(Echo(b, acts[..|acts| - 1]), acts[|acts| - 1])
  }

  // The timers of a batch have their turns: each that is live then runs, and its callback acts.
  function Turns(b: Book, batch: seq<Timer>, acts: nat -> seq<Action>, now: Time): Book
  {
    if batch == [] then b
    else
      var n := |batch| - 1;
      var before, t := Turns(b, batch[..n], acts, now), batch[n];
      if t.id !in before.live then before
      else Echo(before.(log := before.log + [Ran(t.id, t.interval, t.when, now)]), acts(n))
  }

  lemma TurnsNone(b: Book, acts: nat -> seq<Action>, now: Time)
    ensures Turns(b, [], acts, now) == b
  {
  }

  lemma TurnsNext(b: Book, batch: seq<Timer>, t: Timer, acts: nat -> seq<Action>, now: Time)
    ensures var before := Turns(b, batch, acts, now);
      Turns(b, batch + [t], acts, now) ==
      if t.id !in before.live then before
      else Echo(before.(log := before.log + [Ran(t.id, t.interval, t.when, now)]), acts(|batch|))
  {
    hide Echo;
    assert (batch + [t])[..|batch|] == batch;
  }

  // An expiry goes through the due timers, in the order of their times; afterwards one-shot timers are forgotten.
  ghost predicate BatchRun(heap0: map<Id, Timer>, b: Book, acts: nat -> seq<Action>, now: Time, b': Book)
  {
    exists batch :: RanBatch(heap0, b, batch, acts, now, b')
  }

  ghost predicate RanBatch(heap0: map<Id, Timer>, b: Book, batch: seq<Timer>, acts: nat -> seq<Action>, now: Time,
          b': Book)
  {
    var e := Turns(b, batch, acts, now);
    && Sorted(batch) && Due(heap0, batch, now) && Survivors(batch, |batch|, e.live, b'.live)
    && b'.created == e.created && b'.log == e.log
  }

  // ---- the timerfd ----

  datatype Timespec = Timespec(sec: int, nsec: int)

  // howMuchTimeFromNow: whole microseconds, never less than 100
  function HowMuchTimeFromNow(when: Time, now: Time): Timespec
  {
    var left := (when - now) / MICRO;
    var micros := if left < 100 then 100 else left;
    Timespec(micros / 1_000_000, micros % 1_000_000 * 1000)
  }

  function ArmedAt(when: Time, now: Time): Time
  {
    var ts := HowMuchTimeFromNow(when, now);
    now + ts.sec * 1_000_000_000 + ts.nsec
  }

  function Max(a: int, b: int): int { if a <= b then b else a }

  // In time, to the microsecond, unless the 100 us floor forbids; and never at once.
  lemma ArmedInTime(when: Time, now: Time)
    ensures now + FLOOR <= ArmedAt(when, now) <= Max(when, now + FLOOR)
    ensures when >= now + FLOOR ==> when - MICRO < ArmedAt(when, now)
    ensures 0 <= HowMuchTimeFromNow(when, now).nsec < 1_000_000_000
  {
  }

  ghost predicate AtOrBefore(armed: Option<Time>, setAt: Time, heap: map<Id, Timer>)
  {
    forall id | id in heap :: armed.Some? && armed.value <= Max(heap[id].when, setAt + FLOOR)
  }

  predicate IsTop(heap: map<Id, Timer>, id: Id)
  {
    id in heap && forall x | x in heap :: heap[id].when <= heap[x].when
  }

  lemma {:induction false} TopExists(heap: map<Id, Timer>) returns (id: Id)
    requires heap != map[]
    ensures IsTop(heap, id)
    decreases |heap|
  {
    id :| id in heap;
    var rest := heap - {id};
    assert heap == rest[id := heap[id]];
    if rest != map[] {
      var best := TopExists(rest);
      if heap[best].when < heap[id].when { id := best; }
    }
  }

  ghost predicate Sorted(ts: seq<Timer>) { forall j, k | 0 <= j < k < |ts| :: ts[j].when <= ts[k].when }

  class TimerQueue {
    var heap: map<Id, Timer>
    var live: set<Id>
    var created: nat               // shared by all threads
    var queued: seq<Timer>         // made by other threads, to be inserted by the loop
    var armed: Option<Time>        // when the timerfd fires
    ghost var setAt: Time          // when it was last set
    ghost var log: seq<Event>
    ghost var added: set<Id>
    ghost var last: Time

    ghost function Now(batch: seq<Timer>, i: nat): Queue
      reads this
    {
      Queue(heap, batch, i, live, log, added, last)
    }

    ghost predicate Running(batch: seq<Timer>, i: nat)
      reads this
    {
      Good(Now(batch, i)) && QueuedOk(queued, added, created) && forall id | id in added :: id <= created
    }

    ghost function Booked(): Book
      reads this
    {
      Book(live, created, log)
    }

    ghost function Seen(): Snap
      reads this
    {
      Snap(heap, live, queued, created, log)
    }

    // Between events.
    ghost predicate Valid()
      reads this
    {
      Running([], 0) && AtOrBefore(armed, setAt, heap)
    }

    constructor (now: Time)
      ensures Valid() && Seen() == Snap(map[], {}, [], 0, []) && last == now
    {
      heap, live, created, queued, armed := map[], {}, 0, [], None;
      setAt, log, added, last := now, [], {}, now;
    }

    method Top() returns (id: Id)
      requires heap != map[]
      ensures IsTop(heap, id)
    {
      ghost var best := TopExists(heap);
      id :| id in heap && IsTop(heap, id);
    }

    method ResetTimerfd(when: Time, now: Time)
      modifies this`armed, this`setAt
      ensures armed == Some(ArmedAt(when, now)) && setAt == now
    {
      armed, setAt := Some(ArmedAt(when, now)), now;
    }

    // insert(): whether the timer is the earliest.
    method Insert(t: Timer) returns (earliest: bool)
      modifies this`heap
      ensures heap == old(heap)[t.id := t]
      ensures earliest <==> forall id | id in old(heap) :: t.when < old(heap)[id].when
    {
      earliest := true;
      if heap != map[] {
        var top := Top();
        earliest := t.when < heap[top].when;
      }
      heap := heap[t.id := t];
    }

    // addTimerInLoop(); `batch` and `i` are what handleRead has in hand, if it is running.
    method AddTimerInLoop(t: Timer, now: Time, ghost batch: seq<Timer>, ghost i: nat)
      requires Running(batch, i) && t.id !in added && t.id <= created && forall x | x in queued :: x.id != t.id
      modifies this`heap, this`live, this`log, this`added, this`armed, this`setAt
      ensures Running(batch, i)
      ensures heap == old(heap)[t.id := t] && live == old(live) + {t.id} && log == old(log) + [Added(t.id)]
      ensures added == old(added) + {t.id}
      ensures old(AtOrBefore(armed, setAt, heap)) ==> AtOrBefore(armed, setAt, heap)
    {
      GoodAdd(Now(batch, i), t);
      hide Good;
      live := live + {t.id};
      var earliest := Insert(t);
      log := log + [Added(t.id)];
      added := added + {t.id};
      if earliest {
        ArmedInTime(t.when, now);
        ResetTimerfd(t.when, now);
      }
    }

    // cancelTimer() in the loop thread
    method CancelInLoop(id: Id, ghost batch: seq<Timer>, ghost i: nat)
      requires Running(batch, i)
      modifies this`live, this`log
      ensures Running(batch, i) && live == old(live) - {id} && log == old(log) + [Cancelled(id)]
      ensures id !in added ==> live == old(live)
    {
      GoodCancel(Now(batch, i), id);
      hide Good;
      live := live - {id};
      log := log + [Cancelled(id)];
    }

    method GetExpired(now: Time) returns (expired: seq<Timer>)
      requires Running([], 0)
      modifies this`heap
      ensures Running(expired, 0) && Sorted(expired)
      ensures heap == NotDue(old(heap), now)
      ensures Due(old(heap), expired, now)
    {
      hide Good, Drained;
      expired := [];
      DrainStart(heap, now);
      while heap != map[]
        invariant Running(expired, 0) && Drained(old(heap), heap, expired, now)
        decreases |heap|
      {
        var top := Top();
        if heap[top].when >= now {
          DrainEnd(old(heap), heap, expired, now, top);
          return;
        }
        GoodPop(Now(expired, 0), top);
        PopIds(Now(expired, 0), top);
        DrainStep(old(heap), heap, expired, now, top);
        assert heap == (heap - {top})[top := heap[top]];
        expired := expired + [heap[top]];
        heap := heap - {top};
      }
      DrainEnd(old(heap), heap, expired, now, 0);
    }

    method AddTimer(when: Time, interval: Time, now: Time, ghost batch: seq<Timer>, ghost i: nat) returns (id: Id)
      requires Running(batch, i)
      modifies this`heap, this`live, this`log, this`added, this`armed, this`setAt, this`created
      ensures Running(batch, i) && id == old(created) + 1 && live == old(live) + {id} && log == old(log) + [Added(id)]
      ensures heap == old(heap)[id := Timer(id, when, interval)] && id !in old(heap) && created == id
      ensures old(AtOrBefore(armed, setAt, heap)) ==> AtOrBefore(armed, setAt, heap)
    {
      HeapIds(Now(batch, i));
      hide Good;
      created := created + 1;
      id := created;
      AddTimerInLoop(Timer(id, when, interval), now, batch, i);
    }

    // addTimer() in another thread: the id is made there and the insertion queued.
    method MakeTimer(when: Time, interval: Time, ghost batch: seq<Timer>, ghost i: nat) returns (id: Id)
      requires Running(batch, i)
      modifies this`created, this`queued
      ensures Running(batch, i) && id == created == old(created) + 1
      ensures queued == old(queued) + [Timer(id, when, interval)]
    {
      hide Good;
      created := created + 1;
      id := created;
      queued := queued + [Timer(id, when, interval)];
    }

    // The loop comes to one of the queued insertions, in whatever order they got into its functions.
    method Arrive(j: nat, now: Time)
      requires Valid() && j < |queued|
      modifies this`heap, this`live, this`log, this`added, this`armed, this`setAt, this`queued
      ensures Valid() && queued == old(queued)[..j] + old(queued)[j + 1..]
      ensures var t := old(queued)[j];
        && heap == old(heap)[t.id := t] && live == old(live) + {t.id} && log == old(log) + [Added(t.id)]
        && added == old(added) + {t.id}
    {
      hide Good, AtOrBefore;
      var t := queued[j];
      queued := queued[..j] + queued[j + 1..];
      AddTimerInLoop(t, now, [], 0);
    }

    // A timer's callback: it may add and cancel timers.
    method Callback(acts: seq<Action>, ghost batch: seq<Timer>, ghost i: nat)
      requires Running(batch, i)
      modifies this`heap, this`live, this`log, this`added, this`armed, this`setAt, this`created, this`queued
      ensures Running(batch, i) && Grown(old(log), old(live), log, live)
      ensures HeapGrown(old(heap), old(created), heap, created)
      ensures Booked() == Echo(old(Booked()), acts)
    {
      hide Good, Grown;
      GrownSame(log, live);
      for k := 0 to |acts|
        invariant Running(batch, i) && Grown(old(log), old(live), log, live)
        invariant HeapGrown(old(heap), old(created), heap, created)
        invariant Booked() == Echo(old(Booked()), acts[..k])
      {
        assert acts[..k + 1][..k] == acts[..k];
        ghost var log1, live1 := log, live;
        match acts[k]
        case AddOne(when, interval, at) =>
          var id := AddTimer(when, interval, at, batch, i);
          GrownAdd(old(log), old(live), log1, live1, id);
        case CancelOne(id) =>
          CancelInLoop(id, batch, i);
          GrownCancel(old(log), old(live), log1, live1, id);
        case MakeOne(when, interval) => var _ := MakeTimer(when, interval, batch, i);
      }
      assert acts[..|acts|] == acts;
    }

    // The loop of handleRead; `acts` says what the callback of each timer does.
    method RunBatch(expired: seq<Timer>, acts: nat -> seq<Action>)
      requires Running(expired, 0) && forall t | t in expired :: t.when < last
      modifies this`heap, this`live, this`log, this`added, this`armed, this`setAt, this`created, this`queued
      ensures Running(expired, |expired|) && Grown(old(log), old(live), log, live)
      ensures forall t | t in expired && t.id in old(live) :: HadTurn(log, |old(log)|, t.id)
      ensures HeapGrown(old(heap), old(created), heap, created)
      ensures Booked() == Turns(old(Booked()), expired, acts, last)
    {
      hide Good, Grown, HadTurn, Echo, Turns, HeapGrown, QueuedOk;
      GrownSame(log, live);
      TurnsNone(Booked(), acts, last);
      HeapGrownSame(heap, created);
      var i := 0;
      while i < |expired|
        invariant i <= |expired| && Running(expired, i) && Grown(old(log), old(live), log, live)
        invariant forall j | 0 <= j < i && expired[j].id in old(live) :: HadTurn(log, |old(log)|, expired[j].id)
        invariant |old(log)| <= |log| && HeapGrown(old(heap), old(created), heap, created)
        invariant Booked() == Turns(old(Booked()), expired[..i], acts, last)
      {
        assert expired[..i + 1] == expired[..i] + [expired[i]];
        TurnsNext(old(Booked()), expired[..i], expired[i], acts, last);
        ghost var log1, live1, heap1, created1 := log, live, heap, created;
        var t := expired[i];
        assert t in expired;
        if t.id in live {
          GoodRun(Now(expired, i));
          log := log + [Ran(t.id, t.interval, t.when, last)];
          GrownRun(old(log), old(live), log1, live1, t, last);
          ghost var log2 := log;
          Callback(acts(i), expired, i + 1);
          HeapGrownTrans(old(heap), old(created), heap1, created1, heap, created);
          GrownTrans(old(log), old(live), log2, live1, log, live);
          TurnsKept(old(log), log2, live1, log, live);
        } else {
          GoodSkip(Now(expired, i));
          if t.id in old(live) { CancelledTurn(old(log), old(live), log, live, t.id); }
        }
        i := i + 1;
      }
      assert expired[..i] == expired;
    }

    // reset(expired, now); `end` is the clock when the timerfd is set again.
    method Reset(expired: seq<Timer>, now: Time, end: Time)
      requires Running(expired, |expired|) && now == last
      modifies this`heap, this`live, this`armed, this`setAt
      ensures Valid()
      ensures Rearmed(old(heap), old(live), expired, |expired|, last, heap)
      ensures Survivors(expired, |expired|, old(live), live)
      ensures heap != map[] ==>
        setAt == end && exists id :: IsTop(heap, id) && armed == Some(ArmedAt(heap[id].when, end))
    {
      hide Good, Rearmed;
      RearmedStart(heap, live, expired, last);
      BatchIds(Now(expired, |expired|));
      var j := 0;
      assert expired[0..] == expired;
      while j < |expired|
        invariant j <= |expired| && Running(expired[j..], |expired| - j)
        invariant Rearmed(old(heap), old(live), expired, j, last, heap)
        invariant forall k | j <= k < |expired| :: expired[k].id in live <==> expired[k].id in old(live)
        invariant Survivors(expired, j, old(live), live)
      {
        var t := expired[j];
        GoodReset(Now(expired[j..], |expired| - j));
        assert expired[j..][1..] == expired[j + 1..];
        BatchIds(Now(expired[j..], |expired| - j));
        assert forall k | j < k < |expired| :: expired[k] == expired[j..][k - j];
        RearmedStep(old(heap), old(live), expired, j, last, heap);
        if t.id in live {
          if t.interval > 0 {
            var _ := Insert(t.(when := now + t.interval));
          } else {
            live := live - {t.id};
          }
        }
        j := j + 1;
      }
      assert expired[j..] == [];
      if heap != map[] {
        var top := Top();
        ArmedInTime(heap[top].when, end);
        ResetTimerfd(heap[top].when, end);
      }
    }

    // handleRead(): the timerfd fired and the clock says `now`.
    method HandleRead(now: Time, acts: nat -> seq<Action>, end: Time)
      requires Valid() && last <= now
      modifies this
      ensures Valid() && last == now && |old(log)| <= |log| && log[..|old(log)|] == old(log)
      ensures forall id | id in old(heap) && id in old(live) && old(heap)[id].when < now :: HadTurn(log, |old(log)|, id)
      ensures Fired(old(heap), old(created), now, heap, live, created)
      ensures BatchRun(old(heap), old(Booked()), acts, now, Booked())
    {
      hide Good, Rearmed, HadTurn, Grown, HeapGrown, Survivors, Fired, Due, QueuedOk, Turns, Sorted;
      LaterOk(Now([], 0), now);
      armed, last := None, now;
      var expired := GetExpired(now);
      DueEarly(old(heap), expired, now);
      RunBatch(expired, acts);
      GrownPrefix(old(log), old(live), log, live);
      DueHadTurn(old(heap), old(live), expired, log, |old(log)|, now);
      ghost var heap1, live1 := heap, live;
      BatchIds(Now(expired, |expired|));
      Reset(expired, now, end);
      assert RanBatch(old(heap), old(Booked()), expired, acts, now, Booked());
      DueRearmed(old(heap), old(created), expired, heap1, created, live1, now, heap, live);
    }

    // reset() after a fork: a new timerfd, armed again when there is anything to wait for.
    method ResetAfterFork(now: Time)
      requires Valid()
      modifies this`armed, this`setAt
      ensures Valid()
    {
      hide Good;
      armed := None;
      if heap != map[] {
        var top := Top();
        ArmedInTime(heap[top].when, now);
        ResetTimerfd(heap[top].when, now);
      }
    }
  }

  // Callbacks leave the timers in the heap alone and add new ones.
  ghost predicate HeapGrown(heap0: map<Id, Timer>, created0: nat, heap: map<Id, Timer>, created: nat)
  {
    && created0 <= created && (forall id | id in heap0 :: id in heap && heap[id] == heap0[id])
    && (forall id | id in heap && id !in heap0 :: created0 < id)
  }

  lemma HeapGrownSame(heap: map<Id, Timer>, created: nat)
    ensures HeapGrown(heap, created, heap, created)
  {
  }

  lemma HeapGrownTrans(heap0: map<Id, Timer>, created0: nat, heap1: map<Id, Timer>, created1: nat,
                       heap2: map<Id, Timer>, created2: nat)
    requires HeapGrown(heap0, created0, heap1, created1) && HeapGrown(heap1, created1, heap2, created2)
    ensures HeapGrown(heap0, created0, heap2, created2)
  {
  }

  // Of the first `j` timers of the batch, the live ones that repeat stay live; one-shot timers are forgotten.
  ghost predicate Survivors(expired: seq<Timer>, j: nat, live0: set<Id>, live: set<Id>)
  {
    && j <= |expired| && live <= live0
    && (forall k | 0 <= k < j :: expired[k].id in live <==> expired[k].interval > 0 && expired[k].id in live0)
    && (forall id | id in live0 && id !in live :: exists k :: 0 <= k < j && expired[k].id == id)
  }

  // The first `j` timers of the batch are back in the heap if they are live and repeat, at `now` plus the interval.
  ghost predicate Rearmed(heap0: map<Id, Timer>, live0: set<Id>, expired: seq<Timer>, j: nat, now: Time,
          heap: map<Id, Timer>)
  {
    && j <= |expired|
    && (forall id | id in heap0 :: id in heap && heap[id] == heap0[id])
    && (forall k | 0 <= k < j && expired[k].interval > 0 && expired[k].id in live0 ::
          expired[k].id in heap && heap[expired[k].id] == expired[k].(when := now + expired[k].interval))
    && (forall id | id in heap && id !in heap0 :: exists k :: 0 <= k < j && Back(expired, k, live0, id))
  }

  ghost predicate Back(expired: seq<Timer>, k: nat, live0: set<Id>, id: Id)
  {
    k < |expired| && expired[k].id == id && expired[k].interval > 0 && id in live0
  }

  lemma RearmedStart(heap: map<Id, Timer>, live: set<Id>, expired: seq<Timer>, now: Time)
    ensures Rearmed(heap, live, expired, 0, now, heap)
  {
  }

  lemma RearmedStep(heap0: map<Id, Timer>, live0: set<Id>, expired: seq<Timer>, j: nat, now: Time, heap: map<Id, Timer>)
    requires j < |expired| && Rearmed(heap0, live0, expired, j, now, heap) && expired[j].id !in heap
    ensures var t := expired[j];
      Rearmed(heap0, live0, expired, j + 1, now,
              if t.interval > 0 && t.id in live0 then heap[t.id := t.(when := now + t.interval)] else heap)
  {
    var t := expired[j];
    var heap' := if t.interval > 0 && t.id in live0 then heap[t.id := t.(when := now + t.interval)] else heap;
    forall id | id in heap' && id !in heap0 ensures exists k :: 0 <= k < j + 1 && Back(expired, k, live0, id) {
      if id in heap {
        var k :| 0 <= k < j && Back(expired, k, live0, id);
      } else {
        assert Back(expired, j, live0, id);
      }
    }
  }

  ghost predicate Ids(heap: map<Id, Timer>) { forall id | id in heap :: heap[id].id == id }

  function NotDue(heap: map<Id, Timer>, now: Time): map<Id, Timer>
  {
    map id | id in heap && heap[id].when >= now :: heap[id]
  }

  // The timers of `heap0` that were due, and no others.
  ghost predicate Due(heap0: map<Id, Timer>, expired: seq<Timer>, now: Time)
  {
    && (forall t | t in expired :: t.id in heap0 && t == heap0[t.id] && t.when < now)
    && (forall id | id in heap0 && heap0[id].when < now :: heap0[id] in expired)
  }

  lemma DueEarly(heap0: map<Id, Timer>, expired: seq<Timer>, now: Time)
    requires Due(heap0, expired, now)
    ensures forall t | t in expired :: t.when < now
  {
  }

  lemma DueHadTurn(heap0: map<Id, Timer>, live0: set<Id>, expired: seq<Timer>, log: seq<Event>, n: nat, now: Time)
    requires Ids(heap0) && Due(heap0, expired, now)
    requires forall t | t in expired && t.id in live0 :: HadTurn(log, n, t.id)
    ensures forall id | id in heap0 && id in live0 && heap0[id].when < now :: HadTurn(log, n, id)
  {
  }

  // What an expiry at `now` does to the heap: timers not due stay as they are; those due are back, one interval from
  // now, exactly if they repeat and are still live; and anything else was added meanwhile.
  ghost predicate Fired(heap0: map<Id, Timer>, created0: nat, now: Time, heap: map<Id, Timer>, live: set<Id>,
          created: nat)
  {
    && created0 <= created
    && (forall id | id in heap0 && heap0[id].when >= now :: id in heap && heap[id] == heap0[id])
    && (forall id | id in heap0 && heap0[id].when < now :: id in heap <==> heap0[id].interval > 0 && id in live)
    && (forall id | id in heap0 && heap0[id].when < now && id in heap ::
          heap[id] == heap0[id].(when := now + heap0[id].interval))
    && (forall id | id in heap && id !in heap0 :: created0 < id)
  }

  lemma DueRearmed(heap0: map<Id, Timer>, created0: nat, expired: seq<Timer>, heap1: map<Id, Timer>, created: nat,
                   live1: set<Id>, now: Time, heap: map<Id, Timer>, live: set<Id>)
    requires Ids(heap0) && Due(heap0, expired, now) && Rearmed(heap1, live1, expired, |expired|, now, heap)
    requires HeapGrown(NotDue(heap0, now), created0, heap1, created)
    requires forall k | 0 <= k < |expired| :: expired[k].id !in heap1
    requires Survivors(expired, |expired|, live1, live)
    ensures Fired(heap0, created0, now, heap, live, created)
  {
  }

  lemma BatchIds(q: Queue)
    requires Good(q)
    ensures forall k | 0 <= k < |q.batch| :: q.batch[k].id !in q.heap
    ensures forall j, k | 0 <= j < k < |q.batch| :: q.batch[j].id != q.batch[k].id
  {
  }

  lemma LaterOk(q: Queue, now: Time)
    requires Good(q) && q.last <= now
    ensures Good(q.(last := now)) && Ids(q.heap)
  {
  }

  lemma GrownPrefix(log0: seq<Event>, live0: set<Id>, log: seq<Event>, live: set<Id>)
    requires Grown(log0, live0, log, live)
    ensures |log0| <= |log| && log[..|log0|] == log0
  {
  }

  // The log went on, and whoever is no longer live was cancelled meanwhile.
  ghost predicate Grown(log0: seq<Event>, live0: set<Id>, log: seq<Event>, live: set<Id>)
  {
    && |log0| <= |log| && log[..|log0|] == log0
    && forall id | id in live0 && id !in live :: HadTurn(log, |log0|, id)
  }

  // The timer ran, or was cancelled, in the log from `n` on.
  ghost predicate HadTurn(log: seq<Event>, n: nat, id: Id)
  {
    exists k :: n <= k < |log| && log[k].id == id && !log[k].Added?
  }

  lemma GrownSame(log: seq<Event>, live: set<Id>)
    ensures Grown(log, live, log, live)
  {
  }

  lemma TurnLonger(log: seq<Event>, log': seq<Event>, n: nat, id: Id)
    requires HadTurn(log, n, id) && |log| <= |log'| && log'[..|log|] == log
    ensures HadTurn(log', n, id)
  {
  }

  lemma GrownTrans(log0: seq<Event>, live0: set<Id>, log1: seq<Event>, live1: set<Id>, log2: seq<Event>, live2: set<Id>)
    requires Grown(log0, live0, log1, live1) && Grown(log1, live1, log2, live2)
    ensures Grown(log0, live0, log2, live2)
  {
  }

  lemma GrownAdd(log0: seq<Event>, live0: set<Id>, log: seq<Event>, live: set<Id>, id: Id)
    requires Grown(log0, live0, log, live)
    ensures Grown(log0, live0, log + [Added(id)], live + {id})
  {
    GrownTrans(log0, live0, log, live, log + [Added(id)], live + {id});
  }

  lemma GrownCancel(log0: seq<Event>, live0: set<Id>, log: seq<Event>, live: set<Id>, id: Id)
    requires Grown(log0, live0, log, live)
    ensures Grown(log0, live0, log + [Cancelled(id)], live - {id})
  {
    var log' := log + [Cancelled(id)];
    assert log'[|log|] == Cancelled(id);
    GrownTrans(log0, live0, log, live, log', live - {id});
  }

  lemma GrownRun(log0: seq<Event>, live0: set<Id>, log: seq<Event>, live: set<Id>, t: Timer, now: Time)
    requires Grown(log0, live0, log, live)
    ensures var log' := log + [Ran(t.id, t.interval, t.when, now)];
      && Grown(log0, live0, log', live) && HadTurn(log', |log0|, t.id)
      && forall id | HadTurn(log, |log0|, id) :: HadTurn(log', |log0|, id)
  {
    var log' := log + [Ran(t.id, t.interval, t.when, now)];
    assert log'[|log|].id == t.id;
    GrownTrans(log0, live0, log, live, log', live);
    forall id | HadTurn(log, |log0|, id) ensures HadTurn(log', |log0|, id) { TurnLonger(log, log', |log0|, id); }
  }

  lemma TurnsKept(log0: seq<Event>, log1: seq<Event>, live1: set<Id>, log2: seq<Event>, live2: set<Id>)
    requires Grown(log1, live1, log2, live2)
    ensures forall id | HadTurn(log1, |log0|, id) :: HadTurn(log2, |log0|, id)
  {
  }

  lemma CancelledTurn(log0: seq<Event>, live0: set<Id>, log: seq<Event>, live: set<Id>, id: Id)
    requires Grown(log0, live0, log, live) && id in live0 && id !in live
    ensures HadTurn(log, |log0|, id)
  {
  }

  // What getExpired has done so far.
  ghost predicate Drained(heap0: map<Id, Timer>, heap: map<Id, Timer>, expired: seq<Timer>, now: Time)
  {
    && Sorted(expired)
    && (forall id | id in heap :: id in heap0 && heap[id] == heap0[id])
    && (forall id | id in heap0 && id !in heap :: heap0[id] in expired)
    && (forall t | t in expired :: t.id in heap0 && t == heap0[t.id] && t.when < now && t.id !in heap)
    && (forall t, id | t in expired && id in heap :: t.when <= heap[id].when)
  }

  lemma DrainStart(heap: map<Id, Timer>, now: Time)
    ensures Drained(heap, heap, [], now)
  {
  }

  lemma DrainStep(heap0: map<Id, Timer>, heap: map<Id, Timer>, expired: seq<Timer>, now: Time, top: Id)
    requires Drained(heap0, heap, expired, now) && IsTop(heap, top) && heap[top].when < now && heap[top].id == top
    ensures Drained(heap0, heap - {top}, expired + [heap[top]], now)
  {
    var t := heap[top];
    var more := expired + [t];
    forall j, k | 0 <= j < k < |more| ensures more[j].when <= more[k].when {
      assert more[j] in expired;
    }
    forall x | x in more ensures x == t || x in expired {}
    assert more[|expired|] == t;
  }

  lemma DrainEnd(heap0: map<Id, Timer>, heap: map<Id, Timer>, expired: seq<Timer>, now: Time, top: Id)
    requires Drained(heap0, heap, expired, now) && (heap == map[] || (IsTop(heap, top) && heap[top].when >= now))
    ensures heap == NotDue(heap0, now)
    ensures Sorted(expired)
    ensures Due(heap0, expired, now)
  {
  }

  lemma HeapIds(q: Queue)
    requires Good(q)
    ensures q.heap.Keys <= q.added
  {
  }

  lemma PopIds(q: Queue, id: Id)
    requires Good(q) && id in q.heap
    ensures q.heap[id].id == id
  {
  }

  // What may happen to a queue between polls. Add is a call in the loop's thread; a call in another thread is a Make
  // and, when the loop comes to it, an Arrive.
  datatype Op =
    | Make(when: Time, interval: Time)
    | Arrive(j: nat, at: Time)
    | Add(when: Time, interval: Time, at: Time)
    | Cancel(id: Id)
    | Fire(now: Time, acts: nat -> seq<Action>, end: Time)
    | Fork(at: Time)

  // A queue as the operations see it.
  datatype Snap = Snap(heap: map<Id, Timer>, live: set<Id>, queued: seq<Timer>, created: nat, log: seq<Event>)

  // What an operation does. At an expiry whoever is due and live runs or is cancelled by a callback that runs before,
  // and callbacks add timers with new ids.
  ghost predicate Happened(a: Snap, op: Op, b: Snap)
  {
    match op
    case Add(when, interval, _) =>
      var t := Timer(a.created + 1, when, interval);
      b == Inserted(a.(created := t.id), t)
    case Make(when, interval) =>
      var t := Timer(a.created + 1, when, interval);
      b == a.(created := t.id, queued := a.queued + [t])
    case Arrive(j, _) =>
      if j < |a.queued| then b == Inserted(a.(queued := a.queued[..j] + a.queued[j + 1..]), a.queued[j]) else b == a
    case Cancel(id) => b == a.(live := a.live - {id}, log := a.log + [Cancelled(id)])
    case Fire(now, acts, _) =>
      && a.log <= b.log && Fired(a.heap, a.created, now, b.heap, b.live, b.created)
      && BatchRun(a.heap, Book(a.live, a.created, a.log), acts, now, Book(b.live, b.created, b.log))
      && forall id | id in a.heap && id in a.live && a.heap[id].when < now :: HadTurn(b.log, |a.log|, id)
    case Fork(_) => b == a
  }

  function Inserted(a: Snap, t: Timer): Snap
  {
    a.(heap := a.heap[t.id := t], live := a.live + {t.id}, log := a.log + [Added(t.id)])
  }

  // Any life of a queue, on a clock that does not go back: timers run when due and not before, one-shot timers once,
  // repeating ones more than their interval apart, cancelled ones no more; and each return to poll finds the timerfd
  // set no later than the earliest timer, the 100 us floor aside.
  method Life(start: Time, ops: seq<Op>) returns (q: TimerQueue, ghost states: seq<Snap>)
    requires forall i | 0 <= i < |ops| && ops[i].Fire? :: start <= ops[i].now
    requires forall i, j | 0 <= i < j < |ops| && ops[i].Fire? && ops[j].Fire? :: ops[i].now <= ops[j].now
    ensures OnTime(q.log) && Spaced(q.log) && NoRunAfterCancel(q.log)
    ensures forall id | id in q.heap :: q.armed.Some? && q.armed.value <= Max(q.heap[id].when, q.setAt + FLOOR)
    ensures |states| == |ops| + 1 && states[0] == Snap(map[], {}, [], 0, []) && states[|ops|] == q.Seen()
    ensures forall i | 0 <= i < |ops| :: Happened(states[i], ops[i], states[i + 1])
  {
    q := new TimerQueue(start);
    states := [q.Seen()];
    for k := 0 to |ops|
      invariant fresh(q) && q.Valid()
      invariant forall i | k <= i < |ops| && ops[i].Fire? :: q.last <= ops[i].now
      invariant |states| == k + 1 && states[0] == Snap(map[], {}, [], 0, []) && states[k] == q.Seen()
      invariant forall i | 0 <= i < k :: Happened(states[i], ops[i], states[i + 1])
    {
      hide Good, AtOrBefore, QueuedOk, Happened;
      LifeStep(q, ops[k]);
      states := states + [q.Seen()];
    }
  }

  method LifeStep(q: TimerQueue, op: Op)
    requires q.Valid() && (op.Fire? ==> q.last <= op.now)
    modifies q
    ensures q.Valid() && q.last == (if op.Fire? then op.now else old(q.last))
    ensures Happened(old(q.Seen()), op, q.Seen())
  {
    hide Good, AtOrBefore, QueuedOk, Fired, HadTurn;
    match op
    case Add(when, interval, at) => var _ := q.AddTimer(when, interval, at, [], 0);
    case Make(when, interval) => var _ := q.MakeTimer(when, interval, [], 0);
    case Arrive(j, at) => if j < |q.queued| { q.Arrive(j, at); }
    case Cancel(id) => q.CancelInLoop(id, [], 0);
    case Fire(now, acts, end) => q.HandleRead(now, acts, end);
    case Fork(at) => q.ResetAfterFork(at);
  }

  // A cancel in the loop's thread may overtake the insertion of a timer another thread has made, and is then lost: the
  // timer runs.
  method CancelLost(when: Time, interval: Time, now: Time) returns (q: TimerQueue)
    requires when < now
    ensures exists k, l :: 0 <= k < l < |q.log| && q.log[k] == Cancelled(1) && q.log[l].Ran? && q.log[l].id == 1
  {
    hide TimerQueue.Valid, HadTurn, BatchRun;
    q := CancelOvertakes(when, interval, now);
    ghost var heap, b := q.heap, q.Booked();
    q.HandleRead(now, _ => [], now);
    QuietBatch(heap, b, _ => [], now, q.Booked());
    RanAfter(q.log, 2, 1);
    assert q.log[0] == q.log[..2][0];
  }

  method CancelOvertakes(when: Time, interval: Time, now: Time) returns (q: TimerQueue)
    ensures fresh(q) && q.Valid() && q.last == now && q.log == [Cancelled(1), Added(1)]
    ensures 1 in q.live && 1 in q.heap && q.heap[1].when == when
  {
    hide Good, AtOrBefore, QueuedOk;
    q := new TimerQueue(now);
    var id := q.MakeTimer(when, interval, [], 0);
    assert q.queued == [Timer(1, when, interval)];
    q.CancelInLoop(id, [], 0);
    assert q.log == [Cancelled(1)];
    q.Arrive(0, now);
  }

  // Callbacks that do nothing leave nothing but runs in the log.
  lemma {:induction false} QuietTurns(b: Book, batch: seq<Timer>, acts: nat -> seq<Action>, now: Time)
    requires forall j :: acts(j) == []
    ensures var e := Turns(b, batch, acts, now); b.log <= e.log && forall k | |b.log| <= k < |e.log| :: e.log[k].Ran?
  {
    if batch != [] { QuietTurns(b, batch[..|batch| - 1], acts, now); }
  }

  lemma QuietBatch(heap0: map<Id, Timer>, b: Book, acts: nat -> seq<Action>, now: Time, b': Book)
    requires BatchRun(heap0, b, acts, now, b') && forall j :: acts(j) == []
    ensures b.log <= b'.log && forall k | |b.log| <= k < |b'.log| :: b'.log[k].Ran?
  {
    hide RanBatch;
    var batch :| RanBatch(heap0, b, batch, acts, now, b');
    QuietTurns(b, batch, acts, now);
    BatchLog(heap0, b, batch, acts, now, b');
  }

  lemma BatchLog(heap0: map<Id, Timer>, b: Book, batch: seq<Timer>, acts: nat -> seq<Action>, now: Time, b': Book)
    requires RanBatch(heap0, b, batch, acts, now, b')
    ensures b'.log == Turns(b, batch, acts, now).log
  {
  }

  lemma RanAfter(log: seq<Event>, n: nat, id: Id)
    requires HadTurn(log, n, id) && n <= |log| && forall k | n <= k < |log| :: log[k].Ran?
    ensures exists l :: n <= l < |log| && log[l].Ran? && log[l].id == id
  {
  }
}
