// The hierarchical timing wheel, with a tick interval of one second.
module TimingWheel {
  import opened WheelMath

  // What a bucket holds: an object of the user, or a callback entry that puts `inner` back one queue lower
  // when it is destroyed.
  datatype Entry = User(id: nat) | Again(delay: nat, level: nat, t: nat, inner: Entry)

  function Id(e: Entry): nat { if e.User? then e.id else Id(e.inner) }

  // Queue `i` holds entries wrapped exactly `i` times.
  ghost predicate Fits(e: Entry, i: nat)
  {
    if i == 0 then e.User? else e.Again? && e.delay > 0 && e.level == i - 1 && Fits(e.inner, i - 1)
  }

  // The ticks from the destruction of `e` to the release of the object inside.
  ghost function Lag(b: nat, e: Entry): nat
    requires b > 1
  {
    match e
    case User(_) => 0
    case Again(delay, level, t, inner) => Turns(b, level, Slot(b, delay, t) + 1) + Lag(b, inner)
  }

  type Bucket = set<Entry>
  type Due = (nat, nat)   // an object and the tick of its release

  // The release of entry `e` of bucket `k` of queue `i`, which has made `turns` rotations.
  ghost function EntryDue(b: nat, i: nat, turns: nat, k: nat, e: Entry): Due
    requires b > 1
  {
    (Id(e), Turns(b, i, turns + k + 1) + Lag(b, e))
  }

  // What queue `i`, which has made `turns` rotations, will release.
  ghost function QueueDue(b: nat, queue: seq<Bucket>, i: nat, turns: nat): set<Due>
    requires b > 1
  {
    set k, e | 0 <= k < |queue| && e in queue[k] :: EntryDue(b, i, turns, k, e)
  }

  // What a bucket destroyed at tick `now` will release.
  ghost function BucketDue(b: nat, bucket: Bucket, now: nat): set<Due>
    requires b > 1
  {
    set e | e in bucket :: (Id(e), now + Lag(b, e))
  }

  ghost function AllDue(b: nat, queues: seq<seq<Bucket>>, turns: seq<nat>): set<Due>
    requires b > 1 && |queues| == |turns|
  {
    set i, p | 0 <= i < |queues| && p in QueueDue(b, queues[i], i, turns[i]) :: p
  }

  // The same without queue `i`.
  ghost function OtherDue(b: nat, queues: seq<seq<Bucket>>, turns: seq<nat>, i: nat): set<Due>
    requires b > 1 && |queues| == |turns|
  {
    set j, p | 0 <= j < |queues| && j != i && p in QueueDue(b, queues[j], j, turns[j]) :: p
  }

  lemma DueSplit(b: nat, queues: seq<seq<Bucket>>, turns: seq<nat>, i: nat)
    requires b > 1 && |queues| == |turns| && i < |queues|
    ensures AllDue(b, queues, turns) == OtherDue(b, queues, turns, i) + QueueDue(b, queues[i], i, turns[i])
  {
  }

  // A change of queue `i` alone.
  lemma DueUpdate(b: nat, queues: seq<seq<Bucket>>, turns: seq<nat>, i: nat, queue: seq<Bucket>, r: nat)
    requires b > 1 && |queues| == |turns| && i < |queues|
    ensures AllDue(b, queues[i := queue], turns[i := r]) ==
            OtherDue(b, queues, turns, i) + QueueDue(b, queue, i, r)
  {
    hide QueueDue;
    var q', t' := queues[i := queue], turns[i := r];
    DueSplit(b, q', t', i);
    forall p | p in OtherDue(b, queues, turns, i) ensures p in OtherDue(b, q', t', i) {
      var j :| 0 <= j < |queues| && j != i && p in QueueDue(b, queues[j], j, turns[j]);
      assert p in QueueDue(b, q'[j], j, t'[j]);
    }
    forall p | p in OtherDue(b, q', t', i) ensures p in OtherDue(b, queues, turns, i) {
      var j :| 0 <= j < |queues| && j != i && p in QueueDue(b, q'[j], j, t'[j]);
      assert p in QueueDue(b, queues[j], j, turns[j]);
    }
  }

  // Putting an entry into bucket `k` adds its one release.
  lemma PutDue(b: nat, queue: seq<Bucket>, i: nat, turns: nat, k: nat, e: Entry)
    requires b > 1 && k < |queue|
    ensures QueueDue(b, queue[k := queue[k] + {e}], i, turns) ==
            QueueDue(b, queue, i, turns) + {(Id(e), Turns(b, i, turns + k + 1) + Lag(b, e))}
  {
    hide EntryDue, Turns, Lag;
    var queue' := queue[k := queue[k] + {e}];
    var one := EntryDue(b, i, turns, k, e);
    forall p | p in QueueDue(b, queue', i, turns) ensures p in QueueDue(b, queue, i, turns) + {one} {
      var j, f :| 0 <= j < |queue'| && f in queue'[j] && p == EntryDue(b, i, turns, j, f);
      if !(j == k && f == e) { assert f in queue[j]; }
    }
    forall p | p in QueueDue(b, queue, i, turns) ensures p in QueueDue(b, queue', i, turns) {
      var j, f :| 0 <= j < |queue| && f in queue[j] && p == EntryDue(b, i, turns, j, f);
      assert f in queue'[j];
    }
    assert e in queue'[k];
    assert one in QueueDue(b, queue', i, turns);
    EntryDueIs(b, i, turns, k, e);
  }

  lemma EntryDueIs(b: nat, i: nat, turns: nat, k: nat, e: Entry)
    requires b > 1
    ensures EntryDue(b, i, turns, k, e) == (Id(e), Turns(b, i, turns + k + 1) + Lag(b, e))
  {
  }

  // Dropping the front bucket and adding an empty one moves every other bucket one step nearer.
  lemma RotateDue(b: nat, queue: seq<Bucket>, i: nat, turns: nat)
    requires b > 1 && |queue| > 0
    ensures QueueDue(b, queue, i, turns) ==
            QueueDue(b, queue[1..] + [{}], i, turns + 1) + BucketDue(b, queue[0], Turns(b, i, turns + 1))
  {
    hide Turns, Lag;
    var queue' := queue[1..] + [{}];
    forall p | p in QueueDue(b, queue, i, turns)
      ensures p in QueueDue(b, queue', i, turns + 1) + BucketDue(b, queue[0], Turns(b, i, turns + 1))
    {
      var j, f :| 0 <= j < |queue| && f in queue[j] && p == (Id(f), Turns(b, i, turns + j + 1) + Lag(b, f));
      if j > 0 { assert f in queue'[j - 1]; }
    }
    forall p | p in QueueDue(b, queue', i, turns + 1) ensures p in QueueDue(b, queue, i, turns) {
      var j, f :| 0 <= j < |queue'| && f in queue'[j] && p == (Id(f), Turns(b, i, turns + 1 + j + 1) + Lag(b, f));
      assert f in queue[j + 1];
    }
    forall p | p in BucketDue(b, queue[0], Turns(b, i, turns + 1)) ensures p in QueueDue(b, queue, i, turns) {
      var f :| f in queue[0] && p == (Id(f), Turns(b, i, turns + 1) + Lag(b, f));
      assert f in queue[0];
    }
  }

  // ---- rotations and ticks ----

  lemma TurnsAdd(b: nat, i: nat, x: nat, y: nat)
    ensures Turns(b, i, x + y) == Turns(b, i, x) + Turns(b, i, y)
  {
  }

  // Queue `i` rotates exactly on the multiples of B^i.
  ghost predicate TurnsNow(b: nat, i: nat, now: nat)
    requires b > 1
  {
    PowPositive(b, i);
    now % Pow(b, i) == 0
  }

  lemma Rotates(b: nat, i: nat, now: nat)
    requires b > 1 && now > 0
    ensures Rotations(b, i, now) == Rotations(b, i, now - 1) + (if TurnsNow(b, i, now) then 1 else 0)
    ensures TurnsNow(b, i, now) ==> Turns(b, i, Rotations(b, i, now)) == now
    ensures Turns(b, i, Rotations(b, i, now) + 1) > now
  {
    PowPositive(b, i);
    var p := Pow(b, i);
    var x, r := now / p, now % p;
    assert now == p * x + r;
    assert p * (x + 1) == p * x + p;
    if r == 0 {
      assert p * (x - 1) == p * x - p;
      DivUnique(now - 1, p, x - 1, p - 1);
    } else {
      DivUnique(now - 1, p, x, r - 1);
    }
  }

  // When a queue turns, so do all the lower ones.
  lemma LowerTurns(b: nat, i: nat, now: nat)
    requires b > 1 && TurnsNow(b, i + 1, now)
    ensures TurnsNow(b, i, now)
  {
    PowPositive(b, i);
    PowPositive(b, i + 1);
    var p := Pow(b, i);
    var x := now / (b * p);
    assert now == (b * p) * x;
    Assoc(p, b, x);
    DivUnique(now, p, b * x, 0);
  }

  class Wheel {
    const b: nat                       // buckets per queue
    var queues: seq<seq<Bucket>>
    var ticks: nat
    var dropped: set<Due>              // what has been released, and when
    ghost var turns: seq<nat>          // rotations made by each queue

    ghost predicate Shaped()
      reads this
    {
      && b > 1 && |queues| >= 1 && |turns| == |queues|
      && (forall i | 0 <= i < |queues| :: |queues[i]| == b)
      && (forall i, k, e | 0 <= i < |queues| && 0 <= k < b && e in queues[i][k] :: Fits(e, i))
    }

    // The releases still to come.
    ghost function Waiting(): set<Due>
      requires Shaped()
      reads this
    {
      AllDue(b, queues, turns)
    }

    ghost predicate Valid()
      reads this
    {
      && Shaped()
      && (forall i | 0 <= i < |queues| :: turns[i] == Rotations(b, i, ticks))
      && (forall p | p in Waiting() :: p.1 > ticks)
    }

    constructor (maxTimeout: nat, bucketsNumPerQueue: nat)
      requires maxTimeout > 1 && bucketsNumPerQueue > 1
      ensures Valid() && b == bucketsNumPerQueue && ticks == 0
      ensures FewestQueues(b, maxTimeout, |queues|)
      ensures Waiting() == {} && dropped == {}
    {
      var maxTickNum := maxTimeout;
      var ticksNum := bucketsNumPerQueue;
      var queueNum := 1;
      while maxTickNum > ticksNum
        invariant queueNum >= 1 && ticksNum == Pow(bucketsNumPerQueue, queueNum) && ticksNum > 0
        invariant queueNum > 1 ==> Pow(bucketsNumPerQueue, queueNum - 1) < maxTickNum
        decreases maxTickNum - ticksNum
      {
        MulLe(ticksNum, 2, bucketsNumPerQueue);
        queueNum := queueNum + 1;
        ticksNum := ticksNum * bucketsNumPerQueue;
      }
      b := bucketsNumPerQueue;
      queues := seq(queueNum, _ => seq(bucketsNumPerQueue, _ => {}));
      ticks := 0;
      dropped := {};
      turns := seq(queueNum, _ => 0);
      new;
      forall i | 0 <= i < |queues| ensures turns[i] == Rotations(b, i, ticks) { PowPositive(b, i); }
    }

    // Puts an entry into one bucket.
    method Put(i: nat, k: nat, e: Entry)
      requires Shaped() && i < |queues| && k < b && Fits(e, i)
      modifies this`queues
      ensures Shaped() && |queues| == old(|queues|)
      ensures Waiting() == old(Waiting()) + {(Id(e), Turns(b, i, turns[i] + k + 1) + Lag(b, e))}
      ensures queues == old(queues)[i := old(queues[i])[k := old(queues[i][k]) + {e}]]
    {
      hide QueueDue, AllDue, OtherDue, Lag, Turns, Fits;
      var queue := queues[i][k := queues[i][k] + {e}];
      PutDue(b, queues[i], i, turns[i], k, e);
      DueSplit(b, queues, turns, i);
      DueUpdate(b, queues, turns, i, queue, turns[i]);
      assert turns[i := turns[i]] == turns;
      queues := queues[i := queue];
    }

    method InsertEntryInLoop(delay0: nat, id: nat)
      requires Valid()
      modifies this`queues
      ensures Valid() && |queues| == old(|queues|)
      ensures delay0 == 0 ==> Waiting() == old(Waiting())
      ensures delay0 > 0 ==> Waiting() == old(Waiting()) + {(id, Drop(b, |queues|, 0, delay0, ticks))}
      ensures delay0 == 0 ==> queues == old(queues)
      ensures delay0 > 0 ==> PutAt(old(queues), queues, Level(b, |queues|, 0, delay0, ticks), id)
    {
      if delay0 == 0 { return; }
      hide AllDue, Rotations, OnWay, PutAt, Level, Drop;
      var delay: nat, t: nat, entry := delay0, ticks, User(id);
      OnWayStart(b, |queues|, delay0, ticks, id);
      var i := 0;
      while i < |queues|
        invariant Valid() && queues == old(queues) && i < |queues| && t == Rotations(b, i, ticks)
        invariant OnWay(b, |queues|, i, delay, t, entry, delay0, ticks, id)
        decreases |queues| - i
      {
        if delay <= b {
          Place(i, delay - 1, entry, delay, t, delay0, id);
          break;
        }
        OnWayNext(b, |queues|, i, delay, t, entry, delay0, ticks, id);
        if i < |queues| - 1 {
          entry := Again(delay, i, t, entry);
        } else {
          Place(i, b - 1, entry, delay, t, delay0, id);
          break;
        }
        delay := (delay + t % b - 1) / b;
        t := t / b;
        i := i + 1;
      }
    }

    // The entry goes into its bucket.
    method Place(i: nat, k: nat, entry: Entry, ghost delay: nat, ghost t: nat, ghost delay0: nat, ghost id: nat)
      requires Valid() && i < |queues| && k < b && t == Rotations(b, i, ticks) && delay0 > 0
      requires OnWay(b, |queues|, i, delay, t, entry, delay0, ticks, id)
      requires if delay <= b then k + 1 == delay else i + 1 == |queues| && k + 1 == b
      modifies this`queues
      ensures Valid() && |queues| == old(|queues|)
      ensures Waiting() == old(Waiting()) + {(id, Drop(b, |queues|, 0, delay0, ticks))}
      ensures PutAt(old(queues), queues, Level(b, |queues|, 0, delay0, ticks), id)
    {
      hide AllDue, Rotations, OnWay, PutAt, Level, Drop, Turns, Lag, Fits, Id;
      OnWayHere(b, |queues|, i, delay, t, entry, delay0, ticks, id);
      DropAfter(b, |queues|, delay0, ticks);
      PutThere(queues, i, k, entry);
      Put(i, k, entry);
    }

    // Whether some bucket still refers to the object, directly or inside a callback entry.
    predicate Holds(id: nat)
      requires Shaped()
      reads this
      ensures Holds(id) <==> exists p :: p in Waiting() && p.0 == id
    {
      HoldsDue(b, queues, turns, id);
      exists i | 0 <= i < |queues| :: exists k | 0 <= k < |queues[i]| :: exists e | e in queues[i][k] :: Id(e) == id
    }

    // Takes the front bucket off queue `i` and adds an empty one at the back.
    method Rotate(i: nat) returns (tmp: Bucket)
      requires Shaped() && i < |queues|
      modifies this`queues, this`turns
      ensures Shaped() && |queues| == old(|queues|) && turns == old(turns)[i := old(turns[i]) + 1]
      ensures forall e | e in tmp :: Fits(e, i)
      ensures old(Waiting()) == Waiting() + BucketDue(b, tmp, Turns(b, i, turns[i]))
    {
      hide QueueDue, AllDue, OtherDue, Lag, Turns, Fits, BucketDue;
      tmp := queues[i][0];
      var queue := queues[i][1..] + [{}];
      RotateDue(b, queues[i], i, turns[i]);
      DueSplit(b, queues, turns, i);
      DueUpdate(b, queues, turns, i, queue, turns[i] + 1);
      queues, turns := queues[i := queue], turns[i := turns[i] + 1];
    }

    // Destroys the entries of a bucket: objects are released, callback entries put their content one queue lower.
    method Destroy(i: nat, tmp: Bucket)
      requires Shaped() && i < |queues| && forall e | e in tmp :: Fits(e, i)
      requires i > 0 ==> Turns(b, i - 1, turns[i - 1]) == ticks
      modifies this`queues, this`dropped
      ensures Shaped() && |queues| == old(|queues|)
      ensures i == 0 ==> Waiting() == old(Waiting()) && dropped == old(dropped) + BucketDue(b, tmp, ticks)
      ensures i > 0 ==> Waiting() == old(Waiting()) + BucketDue(b, tmp, ticks) && dropped == old(dropped)
    {
      hide AllDue;
      var rest, done: Bucket := tmp, {};
      while rest != {}
        invariant Shaped() && |queues| == old(|queues|) && rest + done == tmp
        invariant i == 0 ==> Waiting() == old(Waiting()) && dropped == old(dropped) + BucketDue(b, done, ticks)
        invariant i > 0 ==> Waiting() == old(Waiting()) + BucketDue(b, done, ticks) && dropped == old(dropped)
        decreases rest
      {
        var e :| e in rest;
        DestroyOne(i, e);
        BucketDueAdd(b, done, e, ticks);
        rest, done := rest - {e}, done + {e};
      }
      assert done == tmp;
    }

    method DestroyOne(i: nat, e: Entry)
      requires Shaped() && i < |queues| && Fits(e, i)
      requires i > 0 ==> Turns(b, i - 1, turns[i - 1]) == ticks
      modifies this`queues, this`dropped
      ensures Shaped() && |queues| == old(|queues|)
      ensures i == 0 ==> Waiting() == old(Waiting()) && dropped == old(dropped) + {(Id(e), ticks + Lag(b, e))}
      ensures i > 0 ==> Waiting() == old(Waiting()) + {(Id(e), ticks + Lag(b, e))} && dropped == old(dropped)
    {
      hide AllDue;
      match e
      case User(id) =>
        dropped := dropped + {(id, ticks)};
      case Again(delay, level, t, inner) =>
        if delay > 0 {
          var k := (delay + t % b - 0) % b;
          TurnsAdd(b, level, turns[level], k + 1);
          Put(level, k, inner);
        }
    }

    method Tick()
      requires Valid()
      modifies this`queues, this`ticks, this`dropped, this`turns
      ensures Valid() && ticks == old(ticks) + 1 && |queues| == old(|queues|)
      ensures Waiting() == set p | p in old(Waiting()) && p.1 > ticks
      ensures dropped == old(dropped) + set p | p in old(Waiting()) && p.1 == ticks
    {
      hide AllDue, Rotations;
      ghost var w := Waiting();
      ticks := ticks + 1;
      var t := ticks;
      var pow := 1;
      ghost var gone := {};
      var i := 0;
      while i < |queues|
        invariant ticks == t == old(ticks) + 1
        invariant 0 <= i <= |queues| == old(|queues|) && Shaped() && pow == Pow(b, i)
        invariant forall j | 0 <= j < |queues| :: turns[j] == Rotations(b, j, if j < i then ticks else ticks - 1)
        invariant dropped == old(dropped) + gone && (forall p | p in gone :: p.1 == ticks)
        invariant Waiting() + gone == w
      {
        PowPositive(b, i);
        Rotates(b, i, ticks);
        if t % pow == 0 {
          ghost var now := Advance(i);
          gone := gone + now;
        }
        pow := pow * b;
        i := i + 1;
      }
      AllLater();
    }

    // The turn of queue `i`, the lower queues having turned.
    method Advance(i: nat) returns (ghost gone: set<Due>)
      requires Shaped() && i < |queues| && ticks > 0 && TurnsNow(b, i, ticks)
      requires turns[i] == Rotations(b, i, ticks - 1)
      requires i > 0 ==> turns[i - 1] == Rotations(b, i - 1, ticks)
      modifies this`queues, this`dropped, this`turns
      ensures Shaped() && |queues| == old(|queues|) && turns == old(turns)[i := Rotations(b, i, ticks)]
      ensures old(Waiting()) == Waiting() + gone && dropped == old(dropped) + gone
      ensures forall p | p in gone :: p.1 == ticks
    {
      hide AllDue, Rotations, TurnsNow;
      Rotates(b, i, ticks);
      var tmp := Rotate(i);
      if i > 0 {
        LowerTurns(b, i - 1, ticks);
        Rotates(b, i - 1, ticks);
      }
      Destroy(i, tmp);
      gone := if i == 0 then BucketDue(b, tmp, ticks) else {};
      if i == 0 { FrontDue(b, tmp, ticks); }
    }

    // Once every queue has turned, all that is left lies in the future.
    lemma AllLater()
      requires Shaped()
      requires forall i | 0 <= i < |queues| :: turns[i] == Rotations(b, i, ticks)
      requires ticks > 0
      ensures forall p | p in Waiting() :: p.1 > ticks
    {
      hide EntryDue, Rotations, Fits;
      forall p | p in Waiting() ensures p.1 > ticks {
        var i :| 0 <= i < |queues| && p in QueueDue(b, queues[i], i, turns[i]);
        var k, e :| 0 <= k < |queues[i]| && e in queues[i][k] && p == EntryDue(b, i, turns[i], k, e);
        EntryLater(b, i, ticks, k, e);
      }
    }
  }

  lemma EntryLater(b: nat, i: nat, n: nat, k: nat, e: Entry)
    requires b > 1 && n > 0
    ensures EntryDue(b, i, Rotations(b, i, n), k, e).1 > n
  {
    hide Lag, Turns, Rotations;
    Rotates(b, i, n);
    TurnsAdd(b, i, Rotations(b, i, n) + 1, k);
  }

  lemma Wrapped(b: nat, delay: nat, i: nat, t: nat, e: Entry)
    requires b > 1 && delay > 0 && Fits(e, i)
    ensures var w := Again(delay, i, t, e);
      Fits(w, i + 1) && Id(w) == Id(e) && Lag(b, w) == Turns(b, i, Slot(b, delay, t) + 1) + Lag(b, e)
  {
  }

  lemma Unwrapped(b: nat, id: nat)
    requires b > 1
    ensures Fits(User(id), 0) && Id(User(id)) == id && Lag(b, User(id)) == 0
  {
  }

  lemma NextDelayPositive(b: nat, d: nat, t: nat)
    requires b > 1 && d > b
    ensures NextDelay(b, d, t) >= 1
  {
  }

  // The three branches of an insertion into queue `i`.
  lemma DropHere(b: nat, q: nat, i: nat, d: nat, t: nat)
    requires b > 1 && i < q && d >= 1
    ensures d <= b ==> Drop(b, q, i, d, t) == Turns(b, i, t + (d - 1) + 1)
    ensures d > b && i + 1 == q ==> Drop(b, q, i, d, t) == Turns(b, i, t + (b - 1) + 1)
    ensures d > b ==> NextDelay(b, d, t) == (d + t % b - 1) / b && NextDelay(b, d, t) >= 1
    ensures d > b && i + 1 < q ==>
      Drop(b, q, i, d, t) == Drop(b, q, i + 1, NextDelay(b, d, t), t / b) + Turns(b, i, Slot(b, d, t) + 1)
  {
  }

  // The object went into one bucket of queue `m`, alone or wrapped; all else is as it was.
  ghost predicate PutAt(queues: seq<seq<Bucket>>, queues': seq<seq<Bucket>>, m: nat, id: nat)
  {
    m < |queues| && exists k, e :: 0 <= k < |queues[m]| && Id(e) == id && Inserted(queues, queues', m, k, e)
  }

  ghost predicate Inserted(queues: seq<seq<Bucket>>, queues': seq<seq<Bucket>>, m: nat, k: nat, e: Entry)
    requires m < |queues| && k < |queues[m]|
  {
    queues' == queues[m := queues[m][k := queues[m][k] + {e}]]
  }

  lemma PutThere(queues: seq<seq<Bucket>>, i: nat, k: nat, e: Entry)
    requires i < |queues| && k < |queues[i]|
    ensures PutAt(queues, queues[i := queues[i][k := queues[i][k] + {e}]], i, Id(e))
  {
    hide Id;
    assert Inserted(queues, queues[i := queues[i][k := queues[i][k] + {e}]], i, k, e);
  }

  // The loop of the insertion at queue `i`: `entry` wraps the object `i` times, and what is left to do leads to the
  // queue and the release of the whole insertion.
  ghost predicate OnWay(b: nat, q: nat, i: nat, delay: nat, t: nat, entry: Entry, delay0: nat, now: nat, id: nat)
    requires b > 1 && i < q
  {
    && delay >= 1 && Fits(entry, i) && Id(entry) == id
    && Level(b, q, i, delay, t) == Level(b, q, 0, delay0, now)
    && Drop(b, q, i, delay, t) + Lag(b, entry) == Drop(b, q, 0, delay0, now)
  }

  lemma OnWayStart(b: nat, q: nat, delay0: nat, now: nat, id: nat)
    requires b > 1 && q > 0 && delay0 >= 1
    ensures OnWay(b, q, 0, delay0, now, User(id), delay0, now, id) && now == Rotations(b, 0, now)
  {
    Unwrapped(b, id);
    RotationsNext(b, 0, now);
  }

  lemma OnWayNext(b: nat, q: nat, i: nat, delay: nat, t: nat, entry: Entry, delay0: nat, now: nat, id: nat)
    requires b > 1 && i < q && OnWay(b, q, i, delay, t, entry, delay0, now, id) && delay > b
    requires t == Rotations(b, i, now)
    ensures (delay + t % b - 1) / b >= 1 && t / b == Rotations(b, i + 1, now)
    ensures i + 1 < q ==> OnWay(b, q, i + 1, (delay + t % b - 1) / b, t / b, Again(delay, i, t, entry), delay0, now, id)
  {
    hide Drop, Level, Turns, Lag, Fits, Id, NextDelay, Slot, Rotations;
    DropHere(b, q, i, delay, t);
    LevelHere(b, q, i, delay, t);
    Wrapped(b, delay, i, t, entry);
    RotationsNext(b, i, now);
  }

  lemma OnWayHere(b: nat, q: nat, i: nat, delay: nat, t: nat, entry: Entry, delay0: nat, now: nat, id: nat)
    requires b > 1 && i < q && OnWay(b, q, i, delay, t, entry, delay0, now, id) && (delay <= b || i + 1 == q)
    ensures Fits(entry, i) && Id(entry) == id && Level(b, q, 0, delay0, now) == i
    ensures var k := if delay <= b then delay - 1 else b - 1;
      k >= 0 && Turns(b, i, t + k + 1) + Lag(b, entry) == Drop(b, q, 0, delay0, now)
  {
    hide Drop, Level, Turns, Lag, Fits, Id, NextDelay, Slot;
    DropHere(b, q, i, delay, t);
    LevelHere(b, q, i, delay, t);
  }

  lemma LevelHere(b: nat, q: nat, i: nat, d: nat, t: nat)
    requires b > 1 && i < q
    ensures d <= b || i + 1 == q ==> Level(b, q, i, d, t) == i
    ensures d > b && i + 1 < q ==> Level(b, q, i, d, t) == Level(b, q, i + 1, NextDelay(b, d, t), t / b)
  {
    hide NextDelay;
  }

  lemma DropAfter(b: nat, q: nat, d: nat, t: nat)
    requires b > 1 && q > 0 && d >= 1
    ensures Drop(b, q, 0, d, t) > t
  {
    DropLater(b, q, 0, d, t);
  }

  // An entry is always released after the tick of its insertion.
  lemma {:induction false} DropLater(b: nat, q: nat, i: nat, d: nat, t: nat)
    requires b > 1 && i < q && d >= 1
    ensures Drop(b, q, i, d, t) >= Turns(b, i, t + 1)
    decreases q - i
  {
    if d <= b {
      MulLe(Pow(b, i), t + 1, t + d);
    } else if i + 1 < q {
      NextDelayPositive(b, d, t);
      DropLater(b, q, i + 1, NextDelay(b, d, t), t / b);
      TurnsUp(b, i, t);
    } else {
      MulLe(Pow(b, i), t + 1, t + b);
    }
  }

  lemma TurnsUp(b: nat, i: nat, t: nat)
    requires b > 1
    ensures Turns(b, i + 1, t / b + 1) >= Turns(b, i, t + 1)
  {
    var p := Pow(b, i);
    Assoc(p, b, t / b + 1);
    assert b * (t / b + 1) == b * (t / b) + b;
    MulLe(p, t + 1, b * (t / b + 1));
  }

  lemma BucketDueAdd(b: nat, bucket: Bucket, e: Entry, now: nat)
    requires b > 1
    ensures BucketDue(b, bucket + {e}, now) == BucketDue(b, bucket, now) + {(Id(e), now + Lag(b, e))}
  {
    hide Lag, Id;
    var all := bucket + {e};
    forall p | p in BucketDue(b, bucket, now) ensures p in BucketDue(b, all, now) {
      var f :| f in bucket && p == (Id(f), now + Lag(b, f));
      assert f in all;
    }
    forall p | p in BucketDue(b, all, now) ensures p in BucketDue(b, bucket, now) + {(Id(e), now + Lag(b, e))} {
      var f :| f in all && p == (Id(f), now + Lag(b, f));
      if f != e { assert f in bucket; }
    }
    assert e in all;
  }

  lemma FrontDue(b: nat, bucket: Bucket, now: nat)
    requires b > 1 && forall e | e in bucket :: Fits(e, 0)
    ensures forall p | p in BucketDue(b, bucket, now) :: p.1 == now
  {
  }

  lemma HoldsDue(b: nat, queues: seq<seq<Bucket>>, turns: seq<nat>, id: nat)
    requires b > 1 && |queues| == |turns|
    ensures (exists p :: p in AllDue(b, queues, turns) && p.0 == id) <==>
            (exists i | 0 <= i < |queues| ::
              exists k | 0 <= k < |queues[i]| :: exists e | e in queues[i][k] :: Id(e) == id)
  {
    if p :| p in AllDue(b, queues, turns) && p.0 == id {
      var i :| 0 <= i < |queues| && p in QueueDue(b, queues[i], i, turns[i]);
      var k, e :| 0 <= k < |queues[i]| && e in queues[i][k] && p == (Id(e), Turns(b, i, turns[i] + k + 1) + Lag(b, e));
    }
    if i, k, e :| 0 <= i < |queues| && 0 <= k < |queues[i]| && e in queues[i][k] && Id(e) == id {
      var p := (Id(e), Turns(b, i, turns[i] + k + 1) + Lag(b, e));
      assert p in QueueDue(b, queues[i], i, turns[i]);
      assert p in AllDue(b, queues, turns);
    }
  }
}
