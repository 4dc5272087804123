// The lock that keeps an epoll port alive while threads use it, together with the tree of open handles.
module Reflock {
  type Thread = nat
  type Port = nat
  type Key = nat

  const REF: int := 1
  const DESTROY: int := 0x1000_0000
  const POISON: int := 0x300d_ead0

  // word & REFLOCK__REF_MASK and the four bits of word & REFLOCK__DESTROY_MASK
  function Count(word: int): int { word % DESTROY }
  function High(word: int): int { word / DESTROY % 16 }

  // Where a thread stands in epoll_ctl / epoll_wait (Lookup to Signalling) or in epoll_close (the rest).
  datatype Pc =
    | Out
    | Lookup(k: Key)        // holds the tree lock shared
    | Found(n: Port)        // still holds it, about to take a reference
    | Using(n: Port)        // holds a reference
    | Signalling(n: Port)   // dropped the last reference of a port being destroyed
    | DelLock(k: Key)       // holds the tree lock exclusively
    | Unhooked(n: Port)     // has taken the port out of the tree, about to take a reference
    | Closing(n: Port)      // holds a reference
    | Awaiting(n: Port)
    | Last(n: Port)         // about to poison
    | Freeing(n: Port)      // reflock_unref_and_destroy has returned

  datatype State = State(
    pc: map<Thread, Pc>,
    tree: map<Key, Port>,
    word: map<Port, int>,
    freed: set<Port>,
    // history
    key: map<Port, Key>,
    closer: map<Port, Thread>,      // who took the port out of the tree
    waited: set<Port>,              // whose destroyer had to wait
    signaller: map<Port, Thread>)   // whose unref saw the last reference go

  datatype Step =
    | Create(k: Key, n: Port)
    | Share(k: Key) | Find | Ref | Unref
    | Exclude(k: Key) | Unhook | DelRef | Destroy | Poison | Free
    | Signal(to: Thread)

  predicate Reader(p: Pc) { p.Lookup? || p.Found? }
  predicate Writer(p: Pc) { p.DelLock? || p.Unhooked? }
  predicate Holds(p: Pc, n: Port) { p == Using(n) || p == Closing(n) }
  predicate Closer(p: Pc, n: Port) {
    p == Unhooked(n) || p == Closing(n) || p == Awaiting(n) || p == Last(n) || p == Freeing(n)
  }

  function Refs(pc: map<Thread, Pc>, n: Port): set<Thread> { set t | t in pc && Holds(pc[t], n) }

  ghost predicate Enabled(s: State, t: Thread, a: Step)
  {
    && t in s.pc
    && match a
       case Create(k, n) =>
         s.pc[t].Out? && n !in s.word && (forall u | u in s.pc :: !Reader(s.pc[u]) && !Writer(s.pc[u]))
       case Share(k) => s.pc[t].Out? && forall u | u in s.pc :: !Writer(s.pc[u])
       case Find => s.pc[t].Lookup?
       case Ref => s.pc[t].Found? && s.pc[t].n in s.word
       case Unref => s.pc[t].Using? && s.pc[t].n in s.word
       case Exclude(k) => s.pc[t].Out? && forall u | u in s.pc :: !Reader(s.pc[u]) && !Writer(s.pc[u])
       case Unhook => s.pc[t].DelLock?
       case DelRef => s.pc[t].Unhooked? && s.pc[t].n in s.word
       case Destroy => s.pc[t].Closing? && s.pc[t].n in s.word
       case Poison => s.pc[t].Last? && s.pc[t].n in s.word
       case Free => s.pc[t].Freeing?
       // a release of a keyed event blocks until somebody waits on the same address
       case Signal(u) => s.pc[t].Signalling? && u in s.pc && s.pc[u] == Awaiting(s.pc[t].n)
  }

  ghost function Do(s: State, t: Thread, a: Step): State
    requires Enabled(s, t, a)
  {
    var p := s.pc[t];
    match a
    case Create(k, n) =>
      if k in s.tree then s else s.(tree := s.tree[k := n], word := s.word[n := 0], key := s.key[n := k])
    case Share(k) => s.(pc := s.pc[t := Lookup(k)])
    case Find => s.(pc := s.pc[t := if p.k in s.tree then Found(s.tree[p.k]) else Out])
    case Ref => s.(pc := s.pc[t := Using(p.n)], word := s.word[p.n := s.word[p.n] + REF])
    case Unref =>
      var w := s.word[p.n] - REF;
      if w == DESTROY then
        s.(pc := s.pc[t := Signalling(p.n)], word := s.word[p.n := w], signaller := s.signaller[p.n := t])
      else
        s.(pc := s.pc[t := Out], word := s.word[p.n := w])
    case Exclude(k) => s.(pc := s.pc[t := DelLock(k)])
    case Unhook =>
      if p.k in s.tree then
        s.(pc := s.pc[t := Unhooked(s.tree[p.k])], tree := s.tree - {p.k}, closer := s.closer[s.tree[p.k] := t])
      else
        s.(pc := s.pc[t := Out])
    case DelRef => s.(pc := s.pc[t := Closing(p.n)], word := s.word[p.n := s.word[p.n] + REF])
    case Destroy =>
      var w := s.word[p.n] + DESTROY - REF;
      if Count(w) != 0 then
        s.(pc := s.pc[t := Awaiting(p.n)], word := s.word[p.n := w], waited := s.waited + {p.n})
      else
        s.(pc := s.pc[t := Last(p.n)], word := s.word[p.n := w])
    case Poison => s.(pc := s.pc[t := Freeing(p.n)], word := s.word[p.n := POISON])
    case Free => s.(pc := s.pc[t := Out], freed := s.freed + {p.n})
    case Signal(u) => s.(pc := s.pc[t := Out][u := Last(p.n)])
  }

  // The asserts of the code, no use of a freed port, and no second signal.
  ghost predicate Safe(s: State, t: Thread, a: Step)
    requires Enabled(s, t, a)
  {
    var p := s.pc[t];
    && (a.Ref? || a.DelRef? ==> p.n !in s.freed && High(s.word[p.n] + REF) == 0)
    && (a.Unref? ==> p.n !in s.freed && High(s.word[p.n] - REF) <= 1)
    && (a.Unref? && s.word[p.n] - REF == DESTROY ==> p.n !in s.signaller)
    && (a.Destroy? ==> p.n !in s.freed && High(s.word[p.n] + DESTROY - REF) == 1)
    && (a.Poison? ==> p.n !in s.freed && s.word[p.n] == DESTROY)
    && (a.Free? ==> p.n !in s.freed)
  }

  // ---- what every step keeps ----

  ghost predicate LockInv(s: State)
  {
    forall t, u | t in s.pc && u in s.pc && t != u && Writer(s.pc[t]) :: !Reader(s.pc[u]) && !Writer(s.pc[u])
  }

  ghost predicate TreeInv(s: State)
  {
    && (forall k | k in s.tree :: var n := s.tree[k];
          n in s.word && n in s.key && s.key[n] == k && n !in s.closer && n !in s.freed)
    && (forall n | n in s.word :: n in s.key && (n !in s.closer ==> s.key[n] in s.tree && s.tree[s.key[n]] == n))
    && (forall n | n in s.closer :: n in s.word)
    && (forall n | n in s.freed :: n in s.closer)
  }

  ghost predicate Live(s: State, n: Port) { n in s.word && n !in s.freed }

  ghost predicate PcOf(s: State, t: Thread, p: Pc)
  {
    match p
    case Out => true
    case Lookup(_) => true
    case DelLock(_) => true
    case Found(n) => Live(s, n) && n !in s.closer
    case Using(n) => Live(s, n)
    case Signalling(n) => Live(s, n)
    case _ => Live(s, p.n) && p.n in s.closer && s.closer[p.n] == t
  }

  ghost predicate PcInv(s: State) { forall t | t in s.pc :: PcOf(s, t, s.pc[t]) }

  ghost predicate CloserInv(s: State)
  {
    forall n | n in s.closer && n !in s.freed :: s.closer[n] in s.pc && Closer(s.pc[s.closer[n]], n)
  }

  // The port is past reflock_unref_and_destroy's addition.
  ghost predicate Doomed(s: State, n: Port)
  {
    n in s.closer && s.closer[n] in s.pc && (s.pc[s.closer[n]] == Awaiting(n) || s.pc[s.closer[n]] == Last(n))
  }

  ghost predicate Dead(s: State, n: Port)
  {
    n in s.freed || (n in s.closer && s.closer[n] in s.pc && s.pc[s.closer[n]] == Freeing(n))
  }

  ghost predicate WordOf(s: State, n: Port)
    requires n in s.word
  {
    var refs := Refs(s.pc, n);
    if Dead(s, n) then refs == {} && s.word[n] == POISON
    else if Doomed(s, n) then
      && s.word[n] == DESTROY + |refs|
      && (s.pc[s.closer[n]] == Last(n) ==> refs == {})
    else s.word[n] == |refs|
  }

  ghost predicate WordInv(s: State) { forall n | n in s.word :: WordOf(s, n) }

  ghost predicate SignalOf(s: State, n: Port)
    requires n in s.word
  {
    && (n in s.signaller <==> n in s.waited && Refs(s.pc, n) == {})
    && (n in s.waited ==> Doomed(s, n) || Dead(s, n))
    && (Doomed(s, n) && s.pc[s.closer[n]] == Awaiting(n) ==> n in s.waited)
    && (Doomed(s, n) && s.pc[s.closer[n]] == Awaiting(n) && n in s.signaller ==>
          s.signaller[n] in s.pc && s.pc[s.signaller[n]] == Signalling(n))
    && (forall t | t in s.pc && s.pc[t] == Signalling(n) ::
          n in s.signaller && s.signaller[n] == t && Doomed(s, n) && s.pc[s.closer[n]] == Awaiting(n))
  }

  ghost predicate SignalInv(s: State)
  {
    && (forall n | n in s.word :: SignalOf(s, n))
    && (forall n | n in s.waited || n in s.signaller :: n in s.word)
  }

  ghost predicate Inv(s: State)
  {
    && |s.pc| < DESTROY
    && LockInv(s) && TreeInv(s) && PcInv(s) && CloserInv(s) && WordInv(s) && SignalInv(s)
  }

  function Start(threads: set<Thread>): State
  {
    State(map t | t in threads :: Out, map[], map[], {}, map[], map[], {}, map[])
  }

  lemma StartInv(threads: set<Thread>)
    requires |threads| < DESTROY
    ensures Inv(Start(threads))
  {
    assert Start(threads).pc.Keys == threads;
  }

  // ---- counting ----

  lemma RefsMoved(pc: map<Thread, Pc>, t: Thread, p: Pc, n: Port)
    requires t in pc
    ensures var a, b := Refs(pc, n), Refs(pc[t := p], n);
      && b == (if Holds(p, n) then a + {t} else a - {t})
      && |b| == |a| - (if Holds(pc[t], n) then 1 else 0) + (if Holds(p, n) then 1 else 0)
  {
  }

  lemma RefsFew(pc: map<Thread, Pc>, n: Port)
    ensures |Refs(pc, n)| <= |pc|
    ensures (exists t :: t in pc && !Holds(pc[t], n)) ==> |Refs(pc, n)| < |pc|
  {
    Fewer(Refs(pc, n), pc.Keys);
    if t :| t in pc && !Holds(pc[t], n) {
      Fewer(Refs(pc, n), pc.Keys - {t});
    }
  }

  lemma {:induction false} Fewer(a: set<Thread>, b: set<Thread>)
    requires a <= b
    ensures |a| <= |b|
  {
    if a != {} {
      var x :| x in a;
      Fewer(a - {x}, b - {x});
    }
  }

  // ---- one step ----

  lemma StepLock(s: State, t: Thread, a: Step)
    requires LockInv(s) && Enabled(s, t, a)
    ensures LockInv(Do(s, t, a))
  {
    hide LockInv;
    var pc' := Do(s, t, a).pc;
    match a
    case Create(k, n) => MoveLock(s, Do(s, t, a), t, s.pc[t]);
    case Share(k) => TakeLock(s, Do(s, t, a), t, Lookup(k));
    case Exclude(k) => TakeLock(s, Do(s, t, a), t, DelLock(k));
    case Signal(u) => SignalLock(s, t, u);
    case _ =>
      NoLockTaken(s, t, a);
      hide Do, Enabled;
      MoveLock(s, Do(s, t, a), t, pc'[t]);
  }

  lemma NoLockTaken(s: State, t: Thread, a: Step)
    requires Enabled(s, t, a) && !a.Create? && !a.Share? && !a.Exclude? && !a.Signal?
    ensures var pc' := Do(s, t, a).pc;
      && t in pc' && pc' == s.pc[t := pc'[t]]
      && (Reader(pc'[t]) ==> Reader(s.pc[t])) && (Writer(pc'[t]) ==> Writer(s.pc[t]))
  {
    hide Count;
  }

  lemma SignalLock(s: State, t: Thread, u: Thread)
    requires LockInv(s) && Enabled(s, t, Signal(u))
    ensures LockInv(Do(s, t, Signal(u)))
  {
    hide LockInv;
    MoveLock(s, s.(pc := s.pc[t := Out]), t, Out);
    MoveLock(s.(pc := s.pc[t := Out]), Do(s, t, Signal(u)), u, Last(s.pc[t].n));
  }

  lemma MoveLock(s: State, s': State, t: Thread, p: Pc)
    requires LockInv(s) && t in s.pc && s'.pc == s.pc[t := p]
    requires (Reader(p) ==> Reader(s.pc[t])) && (Writer(p) ==> Writer(s.pc[t]))
    ensures LockInv(s')
  {
  }

  lemma TakeLock(s: State, s': State, t: Thread, p: Pc)
    requires LockInv(s) && t in s.pc && s'.pc == s.pc[t := p]
    requires forall u | u in s.pc :: !Writer(s.pc[u])
    requires Writer(p) ==> !Reader(p) && forall u | u in s.pc :: !Reader(s.pc[u])
    ensures LockInv(s')
  {
  }

  lemma StepTree(s: State, t: Thread, a: Step)
    requires TreeInv(s) && PcInv(s) && Enabled(s, t, a)
    ensures TreeInv(Do(s, t, a))
  {
    hide TreeInv, PcInv;
    match a
    case Create(k, n) => CreateTree(s, t, k, n);
    case Unhook => UnhookTree(s, t);
    case Free => FreeTree(s, t);
    case _ => SameTree(s, Do(s, t, a));
  }

  lemma SameTree(s: State, s': State)
    requires TreeInv(s) && s'.tree == s.tree && s'.key == s.key && s'.closer == s.closer && s'.freed == s.freed
    requires s'.word.Keys == s.word.Keys
    ensures TreeInv(s')
  {
  }

  lemma CreateTree(s: State, t: Thread, k: Key, n: Port)
    requires TreeInv(s) && Enabled(s, t, Create(k, n))
    ensures TreeInv(Do(s, t, Create(k, n)))
  {
  }

  lemma FreeTree(s: State, t: Thread)
    requires TreeInv(s) && PcInv(s) && Enabled(s, t, Free)
    ensures TreeInv(Do(s, t, Free))
  {
  }

  lemma UnhookTree(s: State, t: Thread)
    requires TreeInv(s) && Enabled(s, t, Unhook)
    ensures TreeInv(Do(s, t, Unhook))
  {
  }

  lemma StepPc(s: State, t: Thread, a: Step)
    requires TreeInv(s) && PcInv(s) && LockInv(s) && WordInv(s) && SignalInv(s) && Enabled(s, t, a)
    ensures PcInv(Do(s, t, a))
  {
    hide PcInv, TreeInv, LockInv, WordInv, SignalInv;
    PcAt(s, t);
    match a
    case Create(k, n) => CreatePc(s, t, k, n);
    case Unhook => UnhookPc(s, t);
    case Free => FreePc(s, t);
    case Signal(u) => SignalPc(s, t, u);
    case Find => FindPc(s, t);
    case _ => MovePc(s, Do(s, t, a), t, Do(s, t, a).pc[t]);
  }

  lemma SignalPc(s: State, t: Thread, u: Thread)
    requires PcInv(s) && Enabled(s, t, Signal(u))
    ensures PcInv(Do(s, t, Signal(u)))
  {
    PcAt(s, u);
    hide PcInv;
    MovePc(s, s.(pc := s.pc[t := Out]), t, Out);
    MovePc(s.(pc := s.pc[t := Out]), Do(s, t, Signal(u)), u, Last(s.pc[t].n));
  }

  lemma PcAt(s: State, t: Thread)
    requires PcInv(s) && t in s.pc
    ensures PcOf(s, t, s.pc[t])
  {
  }

  lemma FindPc(s: State, t: Thread)
    requires PcInv(s) && TreeInv(s) && Enabled(s, t, Find)
    ensures PcInv(Do(s, t, Find))
  {
  }

  lemma MovePc(s: State, s': State, t: Thread, p: Pc)
    requires PcInv(s) && t in s.pc && s'.pc == s.pc[t := p] && PcOf(s, t, p)
    requires s'.closer == s.closer && s'.freed == s.freed && s.word.Keys <= s'.word.Keys
    ensures PcInv(s')
  {
  }

  lemma CreatePc(s: State, t: Thread, k: Key, n: Port)
    requires PcInv(s) && Enabled(s, t, Create(k, n))
    ensures PcInv(Do(s, t, Create(k, n)))
  {
  }

  lemma UnhookPc(s: State, t: Thread)
    requires PcInv(s) && TreeInv(s) && LockInv(s) && Enabled(s, t, Unhook)
    ensures PcInv(Do(s, t, Unhook))
  {
  }

  lemma FreePc(s: State, t: Thread)
    requires PcInv(s) && WordInv(s) && SignalInv(s) && Enabled(s, t, Free)
    ensures PcInv(Do(s, t, Free))
  {
    var n := s.pc[t].n;
    assert PcOf(s, t, s.pc[t]);
    assert WordOf(s, n) && SignalOf(s, n);
    var s' := Do(s, t, Free);
    forall u | u in s'.pc ensures PcOf(s', u, s'.pc[u]) {
      assert PcOf(s, u, s.pc[u]);
      assert Holds(s.pc[u], n) ==> u in Refs(s.pc, n);
    }
  }

  lemma StepCloser(s: State, t: Thread, a: Step)
    requires TreeInv(s) && PcInv(s) && CloserInv(s) && Enabled(s, t, a)
    ensures CloserInv(Do(s, t, a))
  {
    assert PcOf(s, t, s.pc[t]);
    var s' := Do(s, t, a);
    forall n | n in s'.closer && n !in s'.freed ensures s'.closer[n] in s'.pc && Closer(s'.pc[s'.closer[n]], n) {
      if n in s.closer {
        var u := s.closer[n];
        assert Closer(s.pc[u], n);
      }
    }
  }

  // ---- the lock word and the signal, port by port ----

  ghost predicate PortOf(s: State, n: Port) { n in s.word ==> WordOf(s, n) && SignalOf(s, n) }

  predicate About(p: Pc, n: Port) { Holds(p, n) || Closer(p, n) || p == Signalling(n) }

  ghost predicate SameAt(s: State, s': State, n: Port)
  {
    && n in s.word && n in s'.word && s'.word[n] == s.word[n]
    && (n in s'.closer <==> n in s.closer) && (n in s.closer ==> s'.closer[n] == s.closer[n])
    && (n in s'.freed <==> n in s.freed) && (n in s'.waited <==> n in s.waited)
    && (n in s'.signaller <==> n in s.signaller) && (n in s.signaller ==> s'.signaller[n] == s.signaller[n])
  }

  // A move that has nothing to do with `n`.
  lemma OtherPort(s: State, s': State, t: Thread, p: Pc, n: Port)
    requires t in s.pc && s'.pc == s.pc[t := p] && SameAt(s, s', n) && PortOf(s, n)
    requires !About(s.pc[t], n) && !About(p, n) && (n in s.closer && n !in s.freed ==> s.closer[n] != t)
    ensures PortOf(s', n)
  {
    RefsSame(s.pc, t, p, n);
    hide Refs;
    FateSame(s, s', t, p, n);
    SignalSame(s, s', t, p, n);
  }

  lemma RefsSame(pc: map<Thread, Pc>, t: Thread, p: Pc, n: Port)
    requires t in pc && !Holds(pc[t], n) && !Holds(p, n)
    ensures Refs(pc[t := p], n) == Refs(pc, n)
  {
  }

  lemma FateSame(s: State, s': State, t: Thread, p: Pc, n: Port)
    requires t in s.pc && s'.pc == s.pc[t := p] && SameAt(s, s', n)
    requires !About(s.pc[t], n) && !About(p, n) && (n in s.closer && n !in s.freed ==> s.closer[n] != t)
    ensures Dead(s', n) <==> Dead(s, n)
    ensures n !in s.freed ==> (Doomed(s', n) <==> Doomed(s, n))
    ensures Doomed(s', n) ==> Doomed(s, n) && s'.pc[s'.closer[n]] == s.pc[s.closer[n]]
  {
    hide Refs, Holds;
  }

  lemma SignalSame(s: State, s': State, t: Thread, p: Pc, n: Port)
    requires t in s.pc && s'.pc == s.pc[t := p] && SameAt(s, s', n) && SignalOf(s, n)
    requires !About(s.pc[t], n) && !About(p, n) && (n in s.closer && n !in s.freed ==> s.closer[n] != t)
    requires Refs(s'.pc, n) == Refs(s.pc, n)
    ensures SignalOf(s', n)
  {
    hide Refs;
    FateSame(s, s', t, p, n);
  }

  lemma Bits(c: int)
    requires 0 <= c < DESTROY
    ensures Count(c) == c && High(c) == 0 && Count(DESTROY + c) == c && High(DESTROY + c) == 1
  {
  }

  lemma RefPort(s: State, t: Thread)
    requires Enabled(s, t, Ref) && PcOf(s, t, s.pc[t]) && PortOf(s, s.pc[t].n) && |s.pc| < DESTROY
    ensures PortOf(Do(s, t, Ref), s.pc[t].n) && Safe(s, t, Ref)
  {
    hide Refs, Count, High;
    var n := s.pc[t].n;
    RefsMoved(s.pc, t, Using(n), n);
    RefsFew(s.pc, n);
    Bits(|Refs(s.pc, n)| + 1);
  }

  lemma InTree(s: State, k: Key)
    requires TreeInv(s) && k in s.tree
    ensures var n := s.tree[k]; Live(s, n) && n !in s.closer
  {
  }

  lemma UnhookPort(s: State, t: Thread)
    requires Enabled(s, t, Unhook) && s.pc[t].k in s.tree && TreeInv(s)
    requires PortOf(s, s.tree[s.pc[t].k])
    ensures PortOf(Do(s, t, Unhook), s.tree[s.pc[t].k])
  {
    var n := s.tree[s.pc[t].k];
    RefsMoved(s.pc, t, Unhooked(n), n);
    assert t !in Refs(s.pc, n);
    assert Refs(s.pc, n) - {t} == Refs(s.pc, n);
    InTree(s, s.pc[t].k);
    hide Refs, Count, High, TreeInv;
    var s' := Do(s, t, Unhook);
    assert !Dead(s, n) && !Doomed(s, n) && !Dead(s', n) && !Doomed(s', n);
  }

  lemma DelRefPort(s: State, t: Thread)
    requires Enabled(s, t, DelRef) && PcOf(s, t, s.pc[t]) && PortOf(s, s.pc[t].n) && |s.pc| < DESTROY
    ensures PortOf(Do(s, t, DelRef), s.pc[t].n) && Safe(s, t, DelRef)
  {
    hide Refs, Count, High;
    var n := s.pc[t].n;
    RefsMoved(s.pc, t, Closing(n), n);
    RefsFew(s.pc, n);
    Bits(|Refs(s.pc, n)| + 1);
  }

  lemma UnrefWord(s: State, t: Thread)
    requires Enabled(s, t, Unref) && PcOf(s, t, s.pc[t]) && PortOf(s, s.pc[t].n) && |s.pc| < DESTROY
    ensures var n := s.pc[t].n; var refs := Refs(s.pc, n);
      && Safe(s, t, Unref) && !Dead(s, n) && t in refs && n !in s.signaller
      && s.word[n] - REF == (if Doomed(s, n) then DESTROY else 0) + |refs - {t}|
      && (s.word[n] - REF == DESTROY <==> Doomed(s, n) && refs == {t})
      && (Doomed(s, n) ==> s.pc[s.closer[n]] == Awaiting(n) && s.closer[n] != t)
  {
    var n := s.pc[t].n;
    var refs := Refs(s.pc, n);
    RefsFew(s.pc, n);
    assert t in refs;
    assert refs == refs - {t} + {t};
    Bits(|refs - {t}|);
    hide Refs, Count, High;
  }

  lemma UnrefPort(s: State, t: Thread)
    requires Enabled(s, t, Unref) && PcOf(s, t, s.pc[t]) && PortOf(s, s.pc[t].n) && |s.pc| < DESTROY
    ensures PortOf(Do(s, t, Unref), s.pc[t].n)
  {
    hide Refs, Count, High, Safe;
    var n, s' := s.pc[t].n, Do(s, t, Unref);
    RefsMoved(s.pc, t, s'.pc[t], n);
    UnrefWord(s, t);
    assert Doomed(s, n) <==> Doomed(s', n);
    assert !Dead(s', n);
  }

  lemma InRefs(pc: map<Thread, Pc>, t: Thread, n: Port)
    requires t in pc && Holds(pc[t], n)
    ensures t in Refs(pc, n) && |Refs(pc, n)| >= 1 && (Refs(pc, n) - {t} == {} <==> Refs(pc, n) == {t})
  {
    assert t in Refs(pc, n);
  }

  lemma DestroyPort(s: State, t: Thread)
    requires Enabled(s, t, Destroy) && PcOf(s, t, s.pc[t]) && PortOf(s, s.pc[t].n) && |s.pc| < DESTROY
    ensures PortOf(Do(s, t, Destroy), s.pc[t].n) && Safe(s, t, Destroy)
    ensures Do(s, t, Destroy).pc[t].Awaiting? <==> Refs(s.pc, s.pc[t].n) != {t}
  {
    hide Refs, Count, High;
    var n := s.pc[t].n;
    InRefs(s.pc, t, n);
    RefsFew(s.pc, n);
    Bits(|Refs(s.pc, n)| - 1);
    RefsMoved(s.pc, t, Do(s, t, Destroy).pc[t], n);
  }

  lemma PoisonPort(s: State, t: Thread)
    requires Enabled(s, t, Poison) && PcOf(s, t, s.pc[t]) && PortOf(s, s.pc[t].n)
    ensures PortOf(Do(s, t, Poison), s.pc[t].n) && Safe(s, t, Poison)
  {
  }

  lemma FreePort(s: State, t: Thread)
    requires Enabled(s, t, Free) && PcOf(s, t, s.pc[t]) && PortOf(s, s.pc[t].n)
    ensures PortOf(Do(s, t, Free), s.pc[t].n) && Safe(s, t, Free)
  {
  }

  // The last reference is gone and the destroyer waits.
  lemma SignalBefore(s: State, t: Thread, u: Thread)
    requires Enabled(s, t, Signal(u)) && PcOf(s, t, s.pc[t]) && PcOf(s, u, s.pc[u]) && PortOf(s, s.pc[t].n)
    ensures var n := s.pc[t].n;
      && n in s.word && n !in s.freed && Refs(s.pc, n) == {} && s.word[n] == DESTROY
      && n in s.signaller && n in s.waited
      && n in s.closer && s.closer[n] == u && forall v | v in s.pc && s.pc[v] == Signalling(n) :: v == t
  {
    hide Refs, Count, High, Do;
  }

  lemma SignalPort(s: State, t: Thread, u: Thread)
    requires Enabled(s, t, Signal(u)) && PcOf(s, t, s.pc[t]) && PcOf(s, u, s.pc[u]) && PortOf(s, s.pc[t].n)
    ensures PortOf(Do(s, t, Signal(u)), s.pc[t].n)
  {
    hide Refs, Count, High;
    var n, s' := s.pc[t].n, Do(s, t, Signal(u));
    SignalBefore(s, t, u);
    RefsMoved(s.pc, t, Out, n);
    RefsMoved(s.pc[t := Out], u, Last(n), n);
    Signalled(s, s', t, u, n);
  }

  lemma Signalled(s: State, s': State, t: Thread, u: Thread, n: Port)
    requires t in s.pc && u in s.pc && s' == s.(pc := s.pc[t := Out][u := Last(n)])
    requires n in s.word && n !in s.freed && s.word[n] == DESTROY && n in s.signaller && n in s.waited
    requires n in s.closer && s.closer[n] == u && Refs(s'.pc, n) == {}
    requires forall v | v in s.pc && s.pc[v] == Signalling(n) :: v == t
    ensures PortOf(s', n)
  {
    hide Refs;
  }

  // What is known of the thread that steps and of the port looked at.
  ghost predicate Ready(s: State, t: Thread, n: Port)
  {
    && t in s.pc && PcOf(s, t, s.pc[t]) && PortOf(s, n) && |s.pc| < DESTROY
    && (n in s.closer && n !in s.freed ==> s.closer[n] in s.pc && Closer(s.pc[s.closer[n]], n))
  }

  lemma RefAt(s: State, t: Thread, n: Port)
    requires Enabled(s, t, Ref) && Ready(s, t, n)
    ensures PortOf(Do(s, t, Ref), n)
  {
    hide PortOf, Refs;
    var s' := Do(s, t, Ref);
    if n == s.pc[t].n { RefPort(s, t); } else if n in s.word { OtherPort(s, s', t, s'.pc[t], n); }
    else { NoPort(s', n); }
  }

  lemma DelRefAt(s: State, t: Thread, n: Port)
    requires Enabled(s, t, DelRef) && Ready(s, t, n)
    ensures PortOf(Do(s, t, DelRef), n)
  {
    hide PortOf, Refs;
    var s' := Do(s, t, DelRef);
    if n == s.pc[t].n { DelRefPort(s, t); } else if n in s.word { OtherPort(s, s', t, s'.pc[t], n); }
    else { NoPort(s', n); }
  }

  lemma UnrefAt(s: State, t: Thread, n: Port)
    requires Enabled(s, t, Unref) && Ready(s, t, n)
    ensures PortOf(Do(s, t, Unref), n)
  {
    hide PortOf, Refs;
    var s' := Do(s, t, Unref);
    if n == s.pc[t].n { UnrefPort(s, t); } else if n in s.word { OtherPort(s, s', t, s'.pc[t], n); }
    else { NoPort(s', n); }
  }

  lemma DestroyAt(s: State, t: Thread, n: Port)
    requires Enabled(s, t, Destroy) && Ready(s, t, n)
    ensures PortOf(Do(s, t, Destroy), n)
  {
    hide PortOf, Refs;
    var s' := Do(s, t, Destroy);
    if n == s.pc[t].n { DestroyPort(s, t); } else if n in s.word { OtherPort(s, s', t, s'.pc[t], n); }
    else { NoPort(s', n); }
  }

  lemma PoisonAt(s: State, t: Thread, n: Port)
    requires Enabled(s, t, Poison) && Ready(s, t, n)
    ensures PortOf(Do(s, t, Poison), n)
  {
    hide PortOf, Refs;
    var s' := Do(s, t, Poison);
    if n == s.pc[t].n { PoisonPort(s, t); } else if n in s.word { OtherPort(s, s', t, s'.pc[t], n); }
    else { NoPort(s', n); }
  }

  lemma FreeAt(s: State, t: Thread, n: Port)
    requires Enabled(s, t, Free) && Ready(s, t, n)
    ensures PortOf(Do(s, t, Free), n)
  {
    hide PortOf, Refs;
    var s' := Do(s, t, Free);
    if n == s.pc[t].n { FreePort(s, t); } else if n in s.word { OtherPort(s, s', t, s'.pc[t], n); }
    else { NoPort(s', n); }
  }

  lemma UnhookAt(s: State, t: Thread, n: Port)
    requires Enabled(s, t, Unhook) && Ready(s, t, n) && TreeInv(s)
    ensures PortOf(Do(s, t, Unhook), n)
  {
    hide PortOf, Refs;
    var p, s' := s.pc[t], Do(s, t, Unhook);
    if p.k in s.tree && n == s.tree[p.k] { UnhookPort(s, t); }
    else if n in s.word { OtherPort(s, s', t, s'.pc[t], n); } else { NoPort(s', n); }
  }

  lemma QuietAt(s: State, t: Thread, a: Step, n: Port)
    requires Enabled(s, t, a) && Ready(s, t, n) && (a.Share? || a.Find? || a.Exclude?)
    ensures PortOf(Do(s, t, a), n)
  {
    hide PortOf, Refs;
    var s' := Do(s, t, a);
    if n in s.word { OtherPort(s, s', t, s'.pc[t], n); } else { NoPort(s', n); }
  }

  lemma StepPort(s: State, t: Thread, a: Step, n: Port)
    requires Inv(s) && Enabled(s, t, a)
    ensures PortOf(Do(s, t, a), n)
  {
    hide LockInv, TreeInv, PcInv, CloserInv, WordInv, SignalInv, PortOf, Refs, Do;
    PcAt(s, t);
    PortAt(s, n);
    CloserAt(s, n);
    match a
    case Create(k, m) => CreatePort(s, t, k, m, n);
    case Unhook => UnhookAt(s, t, n);
    case Ref => RefAt(s, t, n);
    case DelRef => DelRefAt(s, t, n);
    case Unref => UnrefAt(s, t, n);
    case Destroy => DestroyAt(s, t, n);
    case Poison => PoisonAt(s, t, n);
    case Free => FreeAt(s, t, n);
    case Signal(u) => SignalOther(s, t, u, n);
    case _ => QuietAt(s, t, a, n);
  }

  lemma PortAt(s: State, n: Port)
    requires WordInv(s) && SignalInv(s)
    ensures PortOf(s, n)
  {
  }

  lemma CloserAt(s: State, n: Port)
    requires CloserInv(s)
    ensures n in s.closer && n !in s.freed ==> s.closer[n] in s.pc && Closer(s.pc[s.closer[n]], n)
  {
  }

  lemma NoPort(s: State, n: Port)
    requires n !in s.word
    ensures PortOf(s, n)
  {
  }

  lemma CreatePort(s: State, t: Thread, k: Key, m: Port, n: Port)
    requires Enabled(s, t, Create(k, m)) && PortOf(s, n) && PcInv(s) && TreeInv(s) && SignalInv(s)
    ensures PortOf(Do(s, t, Create(k, m)), n)
  {
    var s' := Do(s, t, Create(k, m));
    if n == m {
      forall u | u in s.pc ensures !Holds(s.pc[u], n) && s.pc[u] != Signalling(n) { PcAt(s, u); }
      assert Refs(s'.pc, n) == {};
    }
  }

  lemma SignalOther(s: State, t: Thread, u: Thread, n: Port)
    requires Enabled(s, t, Signal(u)) && PortOf(s, n) && CloserInv(s) && PcInv(s)
    ensures PortOf(Do(s, t, Signal(u)), n)
  {
    hide PortOf, CloserInv, PcInv;
    PcAt(s, t);
    PcAt(s, u);
    var m := s.pc[t].n;
    if n == m {
      SignalPort(s, t, u);
    } else if n in s.word {
      var s1 := s.(pc := s.pc[t := Out]);
      CloserAt(s, n);
      OtherPort(s, s1, t, Out, n);
      OtherPort(s1, Do(s, t, Signal(u)), u, Last(m), n);
    } else {
      NoPort(Do(s, t, Signal(u)), n);
    }
  }

  lemma StepInv(s: State, t: Thread, a: Step)
    requires Inv(s) && Enabled(s, t, a)
    ensures Inv(Do(s, t, a)) && Safe(s, t, a)
  {
    StepSafe(s, t, a);
    StepLock(s, t, a);
    StepTree(s, t, a);
    StepPc(s, t, a);
    StepCloser(s, t, a);
    StepPorts(s, t, a);
    SameThreads(s, t, a);
    hide *;
    assert Inv(Do(s, t, a)) by { AllInv(Do(s, t, a)); }
  }

  lemma AllInv(s: State)
    requires |s.pc| < DESTROY && LockInv(s) && TreeInv(s) && PcInv(s) && CloserInv(s) && WordInv(s) && SignalInv(s)
    ensures Inv(s)
  {
  }

  lemma SameThreads(s: State, t: Thread, a: Step)
    requires Enabled(s, t, a)
    ensures Do(s, t, a).pc.Keys == s.pc.Keys && |Do(s, t, a).pc| == |s.pc|
  {
    var s' := Do(s, t, a);
    if a.Signal? {
      SameKeys(s.pc, t, Out);
      SameKeys(s.pc[t := Out], a.to, s'.pc[a.to]);
    } else {
      SameKeys(s.pc, t, s'.pc[t]);
      assert s.pc[t := s.pc[t]] == s.pc;
    }
  }

  lemma SameKeys(pc: map<Thread, Pc>, t: Thread, p: Pc)
    requires t in pc
    ensures pc[t := p].Keys == pc.Keys && |pc[t := p]| == |pc|
  {
    assert pc[t := p].Keys == pc.Keys;
    assert |pc[t := p]| == |pc[t := p].Keys| && |pc| == |pc.Keys|;
  }

  lemma StepPorts(s: State, t: Thread, a: Step)
    requires Inv(s) && Enabled(s, t, a)
    ensures WordInv(Do(s, t, a)) && SignalInv(Do(s, t, a))
  {
    var s' := Do(s, t, a);
    HistoryOf(s, t, a);
    hide Inv, Do, WordOf, SignalOf, Enabled;
    forall n | n in s'.word ensures WordOf(s', n) && SignalOf(s', n) { StepPort(s, t, a, n); }
  }

  lemma HistoryOf(s: State, t: Thread, a: Step)
    requires Inv(s) && Enabled(s, t, a)
    ensures var s' := Do(s, t, a); forall n | n in s'.waited || n in s'.signaller :: n in s'.word
  {
    hide LockInv, TreeInv, PcInv, CloserInv, WordInv, SignalOf;
  }

  lemma StepSafe(s: State, t: Thread, a: Step)
    requires Inv(s) && Enabled(s, t, a)
    ensures Safe(s, t, a)
  {
    hide LockInv, TreeInv, PcInv, CloserInv, WordInv, SignalInv, PortOf, Refs, Do;
    PcAt(s, t);
    match a
    case Ref => PortAt(s, s.pc[t].n); RefPort(s, t);
    case DelRef => PortAt(s, s.pc[t].n); DelRefPort(s, t);
    case Unref => PortAt(s, s.pc[t].n); UnrefWord(s, t);
    case Destroy => PortAt(s, s.pc[t].n); DestroyPort(s, t);
    case Poison => PortAt(s, s.pc[t].n); PoisonPort(s, t);
    case Free => PortAt(s, s.pc[t].n); FreePort(s, t);
    case _ =>
  }

  // ---- whole runs ----

  ghost predicate CanRun(s: State, run: seq<(Thread, Step)>)
    decreases |run|
  {
    run == [] || (Enabled(s, run[0].0, run[0].1) && CanRun(Do(s, run[0].0, run[0].1), run[1..]))
  }

  ghost function Run(s: State, run: seq<(Thread, Step)>): State
    requires CanRun(s, run)
    decreases |run|
  {
    if run == [] then s else Run(Do(s, run[0].0, run[0].1), run[1..])
  }

  // No thread can touch the port any more.
  ghost predicate Untouchable(s: State, n: Port)
  {
    && Dead(s, n) && n !in s.tree.Values
    && forall t | t in s.pc :: s.pc[t] != Found(n) && s.pc[t] != Signalling(n) && !Holds(s.pc[t], n)
  }

  lemma DeadUntouchable(s: State, n: Port)
    requires Inv(s) && Dead(s, n)
    ensures Untouchable(s, n)
    ensures n in s.signaller <==> n in s.waited
  {
    assert n in s.word && WordOf(s, n) && SignalOf(s, n);
    forall t | t in s.pc ensures s.pc[t] != Found(n) && s.pc[t] != Signalling(n) && !Holds(s.pc[t], n) {
      PcAt(s, t);
      assert Holds(s.pc[t], n) ==> t in Refs(s.pc, n);
    }
  }

  lemma DeadStays(s: State, t: Thread, a: Step, n: Port)
    requires Inv(s) && Enabled(s, t, a) && Dead(s, n)
    ensures Dead(Do(s, t, a), n)
  {
    hide LockInv, PcInv, TreeInv, CloserInv, WordInv, SignalInv, Refs, Count;
    OutOfTree(s, n);
    if n !in s.freed {
      var c := s.closer[n];
      var s' := Do(s, t, a);
      assert s'.closer[n] == c;
      assert s'.pc[c] == Freeing(n) || n in s'.freed;
    }
  }

  lemma OutOfTree(s: State, n: Port)
    requires TreeInv(s) && Dead(s, n)
    ensures n in s.closer && forall k | k in s.tree :: s.tree[k] != n
  {
  }

  lemma {:induction false} RunInv(s: State, run: seq<(Thread, Step)>)
    requires Inv(s) && CanRun(s, run)
    ensures Inv(Run(s, run))
    ensures forall n | Dead(s, n) :: Dead(Run(s, run), n)
    decreases |run|
  {
    if run != [] {
      StepInv(s, run[0].0, run[0].1);
      var s' := Do(s, run[0].0, run[0].1);
      forall n | Dead(s, n) ensures Dead(s', n) { DeadStays(s, run[0].0, run[0].1, n); }
      RunInv(s', run[1..]);
    }
  }

  // From any start and through any schedule, once reflock_unref_and_destroy has returned for a port, nobody holds or is
  // about to take a reference to it, then or ever after; and a signal was given exactly when the destroyer had to wait.
  lemma DestroyedForGood(threads: set<Thread>, run: seq<(Thread, Step)>, later: seq<(Thread, Step)>, t: Thread, n: Port)
    requires |threads| < DESTROY && CanRun(Start(threads), run)
    requires var s := Run(Start(threads), run); t in s.pc && s.pc[t] == Freeing(n) && CanRun(s, later)
    ensures var s := Run(Start(threads), run);
      && Untouchable(s, n) && Untouchable(Run(s, later), n)
      && (n in s.signaller <==> n in s.waited)
  {
    StartInv(threads);
    RunInv(Start(threads), run);
    var s := Run(Start(threads), run);
    PcAt(s, t);
    DeadUntouchable(s, n);
    RunInv(s, later);
    DeadUntouchable(Run(s, later), n);
  }

  // The destroyer waits exactly when somebody else holds a reference.
  lemma WaitsExactly(s: State, t: Thread, n: Port)
    requires Inv(s) && Enabled(s, t, Destroy) && s.pc[t] == Closing(n)
    ensures Do(s, t, Destroy).pc == s.pc[t := if HeldByOthers(s.pc, t, n) then Awaiting(n) else Last(n)]
  {
    hide LockInv, PcInv, TreeInv, CloserInv, WordInv, SignalInv, PortOf, Count, High;
    PcAt(s, t);
    PortAt(s, n);
    DestroyPort(s, t);
    OthersHold(s.pc, t, n);
    hide Refs;
  }

  ghost predicate HeldByOthers(pc: map<Thread, Pc>, t: Thread, n: Port)
  {
    exists u :: u in pc && u != t && Holds(pc[u], n)
  }

  lemma OthersHold(pc: map<Thread, Pc>, t: Thread, n: Port)
    requires t in pc && Holds(pc[t], n)
    ensures HeldByOthers(pc, t, n) <==> Refs(pc, n) != {t}
  {
    assert t in Refs(pc, n);
    if u :| u in pc && u != t && Holds(pc[u], n) { assert u in Refs(pc, n); }
    else { assert Refs(pc, n) == {t}; }
  }

  // A waiting destroyer is never forgotten: either a reference is still out, held by a thread in epoll_ctl or
  // epoll_wait, or the one thread that dropped the last reference is about to signal.
  lemma WaitEnds(s: State, t: Thread) returns (u: Thread)
    requires Inv(s) && t in s.pc && s.pc[t].Awaiting?
    ensures u in s.pc && (s.pc[u] == Using(s.pc[t].n) || Enabled(s, u, Signal(t)))
  {
    hide LockInv, PcInv, TreeInv, CloserInv, WordInv, SignalInv;
    var n := s.pc[t].n;
    PcAt(s, t);
    PortAt(s, n);
    if Refs(s.pc, n) == {} {
      u := s.signaller[n];
    } else {
      u :| u in Refs(s.pc, n);
      PcAt(s, u);
    }
  }

  // ---- what the operations achieve ----

  lemma Prepend(s: State, t: Thread, a: Step, run: seq<(Thread, Step)>)
    requires Enabled(s, t, a) && CanRun(Do(s, t, a), run)
    ensures CanRun(s, [(t, a)] + run) && Run(s, [(t, a)] + run) == Run(Do(s, t, a), run)
  {
    hide Do, Enabled;
    assert ([(t, a)] + run)[1..] == run;
  }

  ghost predicate LockFree(s: State) { forall u | u in s.pc :: !Reader(s.pc[u]) && !Writer(s.pc[u]) }

  // epoll_create: a new port under a new handle, without references.
  lemma OpensExactly(s: State, t: Thread, k: Key, n: Port)
    requires Enabled(s, t, Create(k, n)) && k !in s.tree
    ensures var e := Do(s, t, Create(k, n)); e.tree == s.tree[k := n] && e.word == s.word[n := 0] && e.pc == s.pc
  {
  }

  // ts_tree_find_and_ref: a handle that is open is found and its port gets a reference, any other is not.
  lemma FindsExactly(s: State, t: Thread, k: Key)
    requires Inv(s) && LockFree(s) && t in s.pc && s.pc[t].Out?
    ensures k !in s.tree ==>
      && CanRun(s, [(t, Share(k)), (t, Find)])
      && Run(s, [(t, Share(k)), (t, Find)]) == s.(pc := s.pc[t := Out])
    ensures k in s.tree ==>
      && CanRun(s, [(t, Share(k)), (t, Find), (t, Ref)])
      && var e, n := Run(s, [(t, Share(k)), (t, Find), (t, Ref)]), s.tree[k];
      && n in s.word && e == s.(pc := s.pc[t := Using(n)], word := s.word[n := s.word[n] + 1])
  {
    if k in s.tree { InTree(s, k); }
    hide Inv, Do, Enabled;
    ShareStep(s, t, k);
    FindStep(s.(pc := s.pc[t := Lookup(k)]), t, k);
    if k in s.tree {
      RefStep(s.(pc := s.pc[t := Found(s.tree[k])]), t, s.tree[k]);
      Overwrite(s.pc, t, Lookup(k), Found(s.tree[k]));
      Overwrite(s.pc, t, Found(s.tree[k]), Using(s.tree[k]));
      Three(s, (t, Share(k)), (t, Find), (t, Ref));
    } else {
      Overwrite(s.pc, t, Lookup(k), Out);
      Two(s, (t, Share(k)), (t, Find));
    }
  }

  lemma Overwrite(pc: map<Thread, Pc>, t: Thread, p: Pc, p': Pc)
    ensures pc[t := p][t := p'] == pc[t := p']
  {
  }

  lemma ShareStep(s: State, t: Thread, k: Key)
    requires LockFree(s) && t in s.pc && s.pc[t].Out?
    ensures Enabled(s, t, Share(k)) && Do(s, t, Share(k)) == s.(pc := s.pc[t := Lookup(k)])
    ensures Enabled(s, t, Exclude(k)) && Do(s, t, Exclude(k)) == s.(pc := s.pc[t := DelLock(k)])
  {
  }

  lemma FindStep(s: State, t: Thread, k: Key)
    requires t in s.pc && s.pc[t] == Lookup(k)
    ensures Enabled(s, t, Find)
    ensures Do(s, t, Find) == s.(pc := s.pc[t := if k in s.tree then Found(s.tree[k]) else Out])
  {
  }

  lemma RefStep(s: State, t: Thread, n: Port)
    requires t in s.pc && s.pc[t] == Found(n) && n in s.word
    ensures Enabled(s, t, Ref)
    ensures Do(s, t, Ref) == s.(pc := s.pc[t := Using(n)], word := s.word[n := s.word[n] + 1])
  {
  }

  lemma Two(s: State, a: (Thread, Step), b: (Thread, Step))
    requires Enabled(s, a.0, a.1) && Enabled(Do(s, a.0, a.1), b.0, b.1)
    ensures CanRun(s, [a, b]) && Run(s, [a, b]) == Do(Do(s, a.0, a.1), b.0, b.1)
  {
    hide Do, Enabled;
    var s1 := Do(s, a.0, a.1);
    assert CanRun(Do(s1, b.0, b.1), []);
    Prepend(s1, b.0, b.1, []);
    assert [b] + [] == [b] && [a] + [b] == [a, b];
    Prepend(s, a.0, a.1, [b]);
  }

  lemma Three(s: State, a: (Thread, Step), b: (Thread, Step), c: (Thread, Step))
    requires Enabled(s, a.0, a.1) && Enabled(Do(s, a.0, a.1), b.0, b.1)
    requires Enabled(Do(Do(s, a.0, a.1), b.0, b.1), c.0, c.1)
    ensures CanRun(s, [a, b, c]) && Run(s, [a, b, c]) == Do(Do(Do(s, a.0, a.1), b.0, b.1), c.0, c.1)
  {
    hide Do, Enabled;
    Two(Do(s, a.0, a.1), b, c);
    assert [a] + [b, c] == [a, b, c];
    Prepend(s, a.0, a.1, [b, c]);
  }

  // ts_tree_del_and_ref: an open handle is taken out of the tree, and its port gets a reference.
  lemma UnhooksExactly(s: State, t: Thread, k: Key)
    requires Inv(s) && LockFree(s) && t in s.pc && s.pc[t].Out? && k in s.tree
    ensures CanRun(s, [(t, Exclude(k)), (t, Unhook), (t, DelRef)])
    ensures var e, n := Run(s, [(t, Exclude(k)), (t, Unhook), (t, DelRef)]), s.tree[k];
      && n in s.word && e.pc == s.pc[t := Closing(n)] && e.tree == s.tree - {k}
      && e.word == s.word[n := s.word[n] + 1]
  {
    InTree(s, k);
    hide Inv, Do, Enabled;
    var n := s.tree[k];
    ShareStep(s, t, k);
    UnhookStep(s.(pc := s.pc[t := DelLock(k)]), t, k);
    var s2 := Do(s.(pc := s.pc[t := DelLock(k)]), t, Unhook);
    DelRefStep(s2, t, n);
    Overwrite(s.pc, t, DelLock(k), Unhooked(n));
    Overwrite(s.pc, t, Unhooked(n), Closing(n));
    Three(s, (t, Exclude(k)), (t, Unhook), (t, DelRef));
  }

  lemma UnhookStep(s: State, t: Thread, k: Key)
    requires t in s.pc && s.pc[t] == DelLock(k) && k in s.tree
    ensures Enabled(s, t, Unhook)
    ensures var n := s.tree[k];
      Do(s, t, Unhook) == s.(pc := s.pc[t := Unhooked(n)], tree := s.tree - {k}, closer := s.closer[n := t])
  {
  }

  lemma DelRefStep(s: State, t: Thread, n: Port)
    requires t in s.pc && s.pc[t] == Unhooked(n) && n in s.word
    ensures Enabled(s, t, DelRef)
    ensures Do(s, t, DelRef) == s.(pc := s.pc[t := Closing(n)], word := s.word[n := s.word[n] + 1])
  {
  }

  // A destroyer that waits can always be brought to its end: the holders of references drop them, the last one signals,
  // and the port is poisoned and freed.
  lemma {:induction false} DestroyFinishes(s: State, t: Thread) returns (run: seq<(Thread, Step)>)
    requires Inv(s) && t in s.pc && s.pc[t].Awaiting?
    ensures CanRun(s, run) && s.pc[t].n in Run(s, run).freed
    decreases |Refs(s.pc, s.pc[t].n)|
  {
    var n := s.pc[t].n;
    var u := WaitEnds(s, t);
    if s.pc[u] == Using(n) {
      UnrefNext(s, t, u);
      StepInv(s, u, Unref);
      hide Inv, Do, Enabled, Refs;
      var rest := DestroyFinishes(Do(s, u, Unref), t);
      Prepend(s, u, Unref, rest);
      return [(u, Unref)] + rest;
    }
    SignalFrees(s, t, u);
    run := [(u, Signal(t)), (t, Poison), (t, Free)];
  }

  lemma UnrefNext(s: State, t: Thread, u: Thread)
    requires Inv(s) && t in s.pc && s.pc[t].Awaiting? && u in s.pc && s.pc[u] == Using(s.pc[t].n)
    ensures Enabled(s, u, Unref)
    ensures var s' := Do(s, u, Unref);
      t in s'.pc && s'.pc[t] == s.pc[t] && |Refs(s'.pc, s.pc[t].n)| < |Refs(s.pc, s.pc[t].n)|
  {
    hide LockInv, PcInv, TreeInv, CloserInv, WordInv, SignalInv;
    PcAt(s, u);
    var n := s.pc[t].n;
    RefsMoved(s.pc, u, Do(s, u, Unref).pc[u], n);
  }

  lemma SignalFrees(s: State, t: Thread, u: Thread)
    requires Inv(s) && t in s.pc && s.pc[t].Awaiting? && Enabled(s, u, Signal(t))
    ensures CanRun(s, [(u, Signal(t)), (t, Poison), (t, Free)])
    ensures s.pc[t].n in Run(s, [(u, Signal(t)), (t, Poison), (t, Free)]).freed
  {
    PcAt(s, t);
    hide Inv, Do, Enabled;
    var n := s.pc[t].n;
    SignalStep(s, t, u);
    var s1 := Do(s, u, Signal(t));
    PoisonStep(s1, t, n);
    FreeStep(Do(s1, t, Poison), t, n);
    Three(s, (u, Signal(t)), (t, Poison), (t, Free));
  }

  lemma SignalStep(s: State, t: Thread, u: Thread)
    requires Enabled(s, u, Signal(t)) && t in s.pc && s.pc[t].Awaiting?
    ensures var s' := Do(s, u, Signal(t)); t in s'.pc && s'.pc[t] == Last(s.pc[t].n) && s'.word == s.word
  {
  }

  lemma PoisonStep(s: State, t: Thread, n: Port)
    requires t in s.pc && s.pc[t] == Last(n) && n in s.word
    ensures Enabled(s, t, Poison) && t in Do(s, t, Poison).pc && Do(s, t, Poison).pc[t] == Freeing(n)
  {
  }

  lemma FreeStep(s: State, t: Thread, n: Port)
    requires t in s.pc && s.pc[t] == Freeing(n)
    ensures Enabled(s, t, Free) && n in Do(s, t, Free).freed
  {
  }

  // So it may come to: one thread has found the port when another closes its handle.
  lemma WaitHappens(s: State, t: Thread, u: Thread, k: Key) returns (run: seq<(Thread, Step)>)
    requires Inv(s) && LockFree(s) && t in s.pc && s.pc[t].Out? && u in s.pc && s.pc[u].Out? && t != u && k in s.tree
    ensures CanRun(s, run) && t in Run(s, run).pc && Run(s, run).pc[t] == Awaiting(s.tree[k])
  {
    hide Inv, Do, Enabled, CanRun, Run, LockFree, HeldByOthers;
    var meet := Meet(s, t, u, k);
    var s2 := Run(s, meet);
    DestroyEnabled(s2, t, s.tree[k]);
    WaitsExactly(s2, t, s.tree[k]);
    RunOne(s2, t, Destroy);
    Join(s, meet, [(t, Destroy)]);
    run := meet + [(t, Destroy)];
  }

  lemma Meet(s: State, t: Thread, u: Thread, k: Key) returns (run: seq<(Thread, Step)>)
    requires Inv(s) && LockFree(s) && t in s.pc && s.pc[t].Out? && u in s.pc && s.pc[u].Out? && t != u && k in s.tree
    ensures CanRun(s, run) && Inv(Run(s, run)) && t in Run(s, run).pc
    ensures Run(s, run).pc[t] == Closing(s.tree[k]) && HeldByOthers(Run(s, run).pc, t, s.tree[k])
  {
    hide Inv, Do, Enabled, CanRun, Run, LockFree, HeldByOthers;
    var n := s.tree[k];
    var a, b := [(u, Share(k)), (u, Find), (u, Ref)], [(t, Exclude(k)), (t, Unhook), (t, DelRef)];
    FindsExactly(s, u, k);
    RunInv(s, a);
    var s1 := Run(s, a);
    StillFree(s, s1, u, n);
    UnhooksExactly(s1, t, k);
    RunInv(s1, b);
    UserHolds(s.pc, t, u, n);
    Join(s, a, b);
    run := a + b;
  }

  lemma StillFree(s: State, s1: State, u: Thread, n: Port)
    requires LockFree(s) && s1.pc == s.pc[u := Using(n)]
    ensures LockFree(s1)
  {
  }

  lemma UserHolds(pc: map<Thread, Pc>, t: Thread, u: Thread, n: Port)
    requires t != u
    ensures HeldByOthers(pc[u := Using(n)][t := Closing(n)], t, n)
  {
    var pc' := pc[u := Using(n)][t := Closing(n)];
    assert u in pc' && Holds(pc'[u], n);
  }

  lemma DestroyEnabled(s: State, t: Thread, n: Port)
    requires Inv(s) && t in s.pc && s.pc[t] == Closing(n)
    ensures Enabled(s, t, Destroy)
  {
    PcAt(s, t);
  }

  lemma RunOne(s: State, t: Thread, a: Step)
    requires Enabled(s, t, a)
    ensures CanRun(s, [(t, a)]) && Run(s, [(t, a)]) == Do(s, t, a)
  {
    hide Do, Enabled;
    assert CanRun(Do(s, t, a), []);
    Prepend(s, t, a, []);
    assert [(t, a)] + [] == [(t, a)];
  }

  lemma {:induction false} Join(s: State, a: seq<(Thread, Step)>, b: seq<(Thread, Step)>)
    requires CanRun(s, a) && CanRun(Run(s, a), b)
    ensures CanRun(s, a + b) && Run(s, a + b) == Run(Run(s, a), b)
    decreases |a|
  {
    hide Do, Enabled;
    if a == [] {
      assert a + b == b;
    } else {
      assert (a + b)[1..] == a[1..] + b;
      Join(Do(s, a[0].0, a[0].1), a[1..], b);
    }
  }
}
