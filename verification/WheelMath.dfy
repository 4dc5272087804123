// The arithmetic of a hierarchical timing wheel with `B` buckets per queue and a tick of one second.
module WheelMath {

  function Pow(b: nat, n: nat): nat
  {
    if n == 0 then 1 else b * Pow(b, n - 1)
  }

  lemma {:induction false} PowPositive(b: nat, n: nat)
    requires b >= 1
    ensures Pow(b, n) >= 1
  {
    if n > 0 { PowPositive(b, n - 1); MulAtLeast(b, Pow(b, n - 1)); }
  }

  lemma MulAtLeast(a: nat, b: nat)
    requires a >= 1 && b >= 1
    ensures a * b >= b && a * b >= 1
  {
  }

  lemma DivUnique(n: int, b: int, q: int, r: int)
    requires b > 0 && n == b * q + r && 0 <= r < b
    ensures n / b == q && n % b == r
  {
    var q', r' := n / b, n % b;
    assert n == b * q' + r' && 0 <= r' < b;
    if q' < q { MulLe(b, q' + 1, q); } else if q' > q { MulLe(b, q + 1, q'); }
  }

  lemma MulLe(b: int, x: int, y: int)
    requires b >= 0 && x <= y
    ensures b * x <= b * y
  {
  }

  lemma MulAdd(a: int, x: int, y: int)
    ensures a * (x + y) == a * x + a * y
  {
  }

  lemma MulAssoc(a: int, b: int, c: int)
    ensures a * (b * c) == (a * b) * c
  {
  }

  lemma DivMod(n: nat, b: nat)
    requires b > 0
    ensures n == b * (n / b) + n % b && 0 <= n % b < b && n / b >= 0
  {
  }

  // Dividing twice is dividing by the product.
  lemma DivDiv(n: nat, a: nat, b: nat)
    requires a > 0 && b > 0
    ensures a * b > 0 && (n / a) / b == n / (a * b)
  {
    MulAtLeast(a, b);
    DivMod(n, a);
    var x, r := n / a, n % a;
    DivMod(x, b);
    var y, s := x / b, x % b;
    MulAdd(a, b * y, s);
    MulAssoc(a, b, y);
    MulLe(a, s + 1, b);
    MulAdd(a, s, 1);
    MulLe(a, 0, s);
    DivUnique(n, a * b, y, a * s + r);
  }

  // What the loop of the constructor finds: the fewest queues that cover `maxTicks`.
  ghost predicate FewestQueues(b: nat, maxTicks: nat, q: nat)
  {
    q >= 1 && maxTicks <= Pow(b, q) && (q > 1 ==> Pow(b, q - 1) < maxTicks)
  }

  // `n` rotations of queue `i`, in ticks.
  function Turns(b: nat, i: nat, n: nat): nat
  {
    MulLe(Pow(b, i), 0, n);
    Pow(b, i) * n
  }

  // How often queue `i` has rotated at tick `n`.
  function Rotations(b: nat, i: nat, n: nat): nat
    requires b > 1
  {
    PowPositive(b, i);
    n / Pow(b, i)
  }

  lemma RotationsNext(b: nat, i: nat, n: nat)
    requires b > 1
    ensures Rotations(b, i + 1, n) == Rotations(b, i, n) / b
    ensures Rotations(b, 0, n) == n
  {
    PowPositive(b, i);
    DivDiv(n, Pow(b, i), b);
    assert b * Pow(b, i) == Pow(b, i) * b;
  }

  // ---- where and when an entry is dropped ----

  // The tick at which the wheel drops an entry that still has `d` rotations of queue `i` to go when queue `i`
  // has made `t` rotations; `q` queues in all.
  function Drop(b: nat, q: nat, i: nat, d: nat, t: nat): nat
    requires b > 1 && i < q
    decreases q - i
  {
    if d <= b then Turns(b, i, t + d)
    else if i + 1 < q then
      Drop(b, q, i + 1, NextDelay(b, d, t), t / b) + Turns(b, i, Slot(b, d, t) + 1)
    else Turns(b, i, t + b)
  }

  function NextDelay(b: nat, d: nat, t: nat): nat
    requires b > 1 && d > 0
  {
    (d + t % b - 1) / b
  }

  // The bucket an entry falls into when it comes down.
  function Slot(b: nat, d: nat, t: nat): nat
    requires b > 1
  {
    (d + t % b - 0) % b
  }

  // The queue in which the entry is first put.
  function Level(b: nat, q: nat, i: nat, d: nat, t: nat): nat
    requires b > 1 && i < q
    decreases q - i
  {
    if d <= b || i + 1 == q then i else Level(b, q, i + 1, NextDelay(b, d, t), t / b)
  }

  // ---- the same recurrence on the single number s = t + d ----

  lemma NextSum(b: nat, d: nat, t: nat)
    requires b > 1 && d > 0
    ensures t / b + NextDelay(b, d, t) == (t + d - 1) / b
    ensures Slot(b, d, t) == (t + d) % b
  {
    var q, r := t / b, t % b;
    assert t == b * q + r;
    var e, f := (d + r - 1) / b, (d + r - 1) % b;
    assert d + r - 1 == b * e + f;
    assert b * (q + e) == b * q + b * e;
    DivUnique(t + d - 1, b, q + e, f);
    var g, h := (d + r) / b, (d + r) % b;
    assert d + r == b * g + h;
    assert b * (q + g) == b * q + b * g;
    DivUnique(t + d, b, q + g, h);
  }

  // A delay of more than one turn moves up to a positive delay, B times smaller.
  lemma NextDelayRange(b: nat, d: nat, t: nat, n: nat)
    requires b > 1 && b < d <= b * n
    ensures 1 <= NextDelay(b, d, t) <= n
  {
    var x := d + t % b - 1;
    assert x >= b && x < b * n + b;
    assert b * n + b == b * (n + 1);
    var e := x / b;
    assert x == b * e + x % b;
    if e > n { MulLe(b, n + 1, e); }
    if e < 1 { MulLe(b, e, 0); }
  }

  // No delay within the range of the wheel reaches the branch "delay is too long".
  lemma {:induction false} NeverTooLong(b: nat, q: nat, i: nat, d: nat, t: nat)
    requires b > 1 && i < q && 1 <= d <= Pow(b, q - i)
    ensures Level(b, q, i, d, t) < q
    ensures i + 1 == q ==> d <= b
    decreases q - i
  {
    if i + 1 == q {
      assert Pow(b, 1) == b * Pow(b, 0);
    } else if d > b {
      assert Pow(b, q - i) == b * Pow(b, q - i - 1);
      NextDelayRange(b, d, t, Pow(b, q - i - 1));
      NeverTooLong(b, q, i + 1, NextDelay(b, d, t), t / b);
    }
  }

  // One coming down costs a rotation too many, or saves B - 1 of them.
  lemma Step(b: nat, s: nat)
    requires b > 1 && s >= 1
    ensures b * ((s - 1) / b) + s % b + 1 == if s % b == 0 then s - b + 1 else s + 1
  {
    var q, r := s / b, s % b;
    assert s == b * q + r;
    if r == 0 {
      assert b * (q - 1) == b * q - b;
      DivUnique(s - 1, b, q - 1, b - 1);
    } else {
      DivUnique(s - 1, b, q, r - 1);
    }
  }

  // How far the drop is from the tick that was asked for.
  function Drift(b: nat, q: nat, i: nat, d: nat, t: nat): int
    requires b > 1 && i < q
  {
    Drop(b, q, i, d, t) - Turns(b, i, t + d)
  }

  // The drift of one queue is that of the next one plus the step.
  lemma DriftStep(b: nat, q: nat, i: nat, d: nat, t: nat)
    requires b > 1 && i + 1 < q && d > b
    ensures Drift(b, q, i, d, t) == Drift(b, q, i + 1, NextDelay(b, d, t), t / b)
              + Pow(b, i) * (if (t + d) % b == 0 then 1 - b else 1)
  {
    var s := t + d;
    var p := Pow(b, i);
    var s' := (s - 1) / b;
    NextSum(b, d, t);
    Step(b, s);
    var e := if s % b == 0 then 1 - b else 1;
    assert b * s' + s % b + 1 - s == e;
    assert Turns(b, i + 1, s') == p * (b * s') by { assert b * p * s' == p * (b * s') by { Assoc(p, b, s'); } }
    Distribute(p, b * s', s % b + 1, s);
  }

  lemma Assoc(p: int, b: int, s: int)
    ensures b * p * s == p * (b * s)
  {
  }

  lemma Distribute(p: int, x: int, y: int, z: int)
    ensures p * x + p * y - p * z == p * (x + y - z)
  {
  }

  lemma AtOnce(b: nat, q: nat, i: nat, d: nat, t: nat)
    requires b > 1 && i < q && d <= b
    ensures Level(b, q, i, d, t) == i && Drift(b, q, i, d, t) == 0
  {
  }

  // A delay of more than one turn is handled by the next queue.
  lemma HandedOn(b: nat, q: nat, i: nat, d: nat, t: nat)
    requires b > 1 && i < q && b < d <= Pow(b, q - i)
    ensures i + 1 < q && 1 <= NextDelay(b, d, t) <= Pow(b, q - (i + 1))
    ensures Level(b, q, i, d, t) == Level(b, q, i + 1, NextDelay(b, d, t), t / b)
    ensures Pow(b, i + 1) == b * Pow(b, i)
  {
    NeverTooLong(b, q, i, d, t);
    assert Pow(b, q - i) == b * Pow(b, q - i - 1);
    NextDelayRange(b, d, t, Pow(b, q - i - 1));
  }

  lemma AddStep(b: int, p: int, pm: int, drift: int, e: int)
    requires b > 1 && p >= 1 && (e == 1 || e == 1 - b)
    requires b * p - pm <= drift && (b - 1) * drift <= pm - b * p
    ensures p - pm <= drift + p * e && (b - 1) * (drift + p * e) <= pm - p
  {
  }

  // The bounds on the drop of an entry first put in queue m: at most B^m - B^i early,
  // at most B^i + ... + B^(m-1) late.
  lemma {:induction false} DriftBounds(b: nat, q: nat, i: nat, d: nat, t: nat)
    requires b > 1 && i < q && 1 <= d <= Pow(b, q - i)
    ensures var m := Level(b, q, i, d, t);
      && Pow(b, i) - Pow(b, m) <= Drift(b, q, i, d, t)
      && (b - 1) * Drift(b, q, i, d, t) <= Pow(b, m) - Pow(b, i)
    decreases q - i
  {
    hide Drift, Level, Pow, NextDelay;
    if d <= b {
      AtOnce(b, q, i, d, t);
    } else {
      HandedOn(b, q, i, d, t);
      var d' := NextDelay(b, d, t);
      DriftBounds(b, q, i + 1, d', t / b);
      DriftStep(b, q, i, d, t);
      PowPositive(b, i);
      AddStep(b, Pow(b, i), Pow(b, Level(b, q, i, d, t)), Drift(b, q, i + 1, d', t / b),
              if (t + d) % b == 0 then 1 - b else 1);
    }
  }

  // The bucket taken on the first way down, from the queue where the entry was put.
  function TopSlot(b: nat, q: nat, i: nat, d: nat, t: nat): nat
    requires b > 1 && i < q
    decreases q - i
  {
    if d <= b || i + 1 == q then 0
    else if NextDelay(b, d, t) <= b then Slot(b, d, t)
    else DivMod(t, b); TopSlot(b, q, i + 1, NextDelay(b, d, t), t / b)
  }

  lemma SignStep(b: int, p: int, drift: int, e: int)
    requires b > 1 && p >= 1 && (e == 1 || e == 1 - b)
    ensures drift <= -(b * p) ==> drift + p * e <= -p
    ensures drift >= b * p ==> drift + p * e >= p
    ensures p * (1 - b) <= -p
  {
  }

  lemma TopSlotStep(b: nat, q: nat, i: nat, d: nat, t: nat)
    requires b > 1 && i + 1 < q && d > b
    ensures TopSlot(b, q, i, d, t) == if NextDelay(b, d, t) <= b then (t + d) % b
                                      else TopSlot(b, q, i + 1, NextDelay(b, d, t), t / b)
  {
    NextSum(b, d, t);
  }

  // An entry that has to come down is never on time: it is early exactly when its first bucket is number 0.
  lemma {:induction false} DriftSign(b: nat, q: nat, i: nat, d: nat, t: nat)
    requires b > 1 && i < q && b < d <= Pow(b, q - i)
    ensures if TopSlot(b, q, i, d, t) == 0 then Drift(b, q, i, d, t) + Pow(b, i) <= 0
            else Drift(b, q, i, d, t) >= Pow(b, i)
    decreases q - i
  {
    hide Drift, Level, Pow, NextDelay, TopSlot;
    HandedOn(b, q, i, d, t);
    var d' := NextDelay(b, d, t);
    DriftStep(b, q, i, d, t);
    TopSlotStep(b, q, i, d, t);
    PowPositive(b, i);
    SignStep(b, Pow(b, i), Drift(b, q, i + 1, d', t / b), if (t + d) % b == 0 then 1 - b else 1);
    if d' > b {
      DriftSign(b, q, i + 1, d', t / b);
    } else {
      AtOnce(b, q, i + 1, d', t / b);
    }
  }

  // ---- the theorem about one insertion at tick `now` with delay `d` ----

  lemma InsertionTheorem(b: nat, q: nat, now: nat, d: nat)
    requires b > 1 && q >= 1 && 1 <= d <= Pow(b, q)
    ensures var m := Level(b, q, 0, d, now); var at := Drop(b, q, 0, d, now);
      && m < q
      && now + d - (Pow(b, m) - 1) <= at
      && (b - 1) * (at - (now + d)) <= Pow(b, m) - 1
      && (at == now + d <==> d <= b)
      && (at < now + d <==> d > b && TopSlot(b, q, 0, d, now) == 0)
  {
    NeverTooLong(b, q, 0, d, now);
    DriftBounds(b, q, 0, d, now);
    assert Pow(b, 0) == 1;
    if d > b { DriftSign(b, q, 0, d, now); }
  }

  // ---- with "- 1" in the slot as well, every entry would be on time ----

  function EvenDrop(b: nat, q: nat, i: nat, d: nat, t: nat): nat
    requires b > 1 && i < q
    decreases q - i
  {
    if d <= b then Turns(b, i, t + d)
    else if i + 1 < q then
      EvenDrop(b, q, i + 1, NextDelay(b, d, t), t / b) + Turns(b, i, (d + t % b - 1) % b + 1)
    else Turns(b, i, t + b)
  }

  lemma {:induction false} EvenDropExact(b: nat, q: nat, i: nat, d: nat, t: nat)
    requires b > 1 && i < q && 1 <= d <= Pow(b, q - i)
    ensures EvenDrop(b, q, i, d, t) == Turns(b, i, t + d)
    decreases q - i
  {
    hide Pow, NextDelay, EvenDrop;
    EvenStep(b, q, i, d, t);
    if d > b {
      HandedOn(b, q, i, d, t);
      EvenDropExact(b, q, i + 1, NextDelay(b, d, t), t / b);
      EvenSum(b, Pow(b, i), d, t);
    }
  }

  lemma EvenStep(b: nat, q: nat, i: nat, d: nat, t: nat)
    requires b > 1 && i < q
    ensures d <= b ==> EvenDrop(b, q, i, d, t) == Turns(b, i, t + d)
    ensures d > b && i + 1 < q ==>
      EvenDrop(b, q, i, d, t) == EvenDrop(b, q, i + 1, NextDelay(b, d, t), t / b) + Turns(b, i, (d + t % b - 1) % b + 1)
  {
  }

  lemma EvenSum(b: nat, p: nat, d: nat, t: nat)
    requires b > 1 && d > 0
    ensures (b * p) * (t / b + NextDelay(b, d, t)) + p * ((d + t % b - 1) % b + 1) == p * (t + d)
  {
  }
}
