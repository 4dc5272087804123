// Closing a connection: the I/O loop that owns it and the acceptor loop that lists it take turns.
module CloseHandshake {
  import opened Common

  type Conn = nat
  type Loop = nat

  const ACCEPTOR: Loop := 0

  // `fired`, `erased` and `destroyed` count what has happened to the connection.
  datatype Connection = Connection(loop: Loop, status: Status, enabled: bool, registered: bool,
                                   fired: nat, erased: nat, destroyed: nat)

  // What a loop may find in its queue of functions.
  datatype Func = Establish(c: Conn) | Force(c: Conn) | CloseInLoop(c: Conn) | Destroy(c: Conn)

  datatype Phase = Polling | Dispatching | Running

  datatype LoopState = LoopState(phase: Phase, active: seq<Conn>, queue: seq<Func>)

  datatype State = State(conns: map<Conn, Connection>, connSet: set<Conn>, loops: map<Loop, LoopState>)

  datatype Report = Report(hup: bool, readable: bool, pri: bool, rdhup: bool)

  datatype Step =
    | Accept(c: Conn, l: Loop)
    | PollReturn(l: Loop, active: seq<Conn>)
    | Handle(l: Loop, r: Report, ends: bool)     // `ends`: reading, if it comes to that, finds the end or an error
    | EndDispatch(l: Loop)
    | RunFunc(l: Loop)
    | EndRun(l: Loop)
    | Kill(l: Loop, c: Conn)                     // forceClose() from a callback of the same loop
    | KillFromAfar(c: Conn)                      // forceClose() from another thread
    | Shutdown(l: Loop, c: Conn)

  // ---- the operations ----

  function Post(s: State, l: Loop, f: Func): State
    requires l in s.loops
  {
    s.(loops := s.loops[l := s.loops[l].(queue := s.loops[l].queue + [f])])
  }

  function SetConn(s: State, c: Conn, x: Connection): State { s.(conns := s.conns[c := x]) }

  // connectEstablished
  function Established(s: State, c: Conn): State
    requires c in s.conns
  {
    SetConn(s, c, s.conns[c].(status := Connected, enabled := true, registered := true))
  }

  // TcpServer::handleCloseInLoop
  function Erased(s: State, c: Conn): State
    requires c in s.conns && s.conns[c].loop in s.loops
  {
    var s1 := SetConn(s.(connSet := s.connSet - {c}), c, s.conns[c].(erased := s.conns[c].erased + 1));
    Post(s1, s.conns[c].loop, Destroy(c))
  }

  // handleClose, with TcpServer::connectionClosed as its close callback
  function Closed(s: State, c: Conn): State
    requires c in s.conns && s.conns[c].loop in s.loops && ACCEPTOR in s.loops
  {
    var x := s.conns[c];
    var s1 := SetConn(s, c, x.(status := Disconnected, enabled := false, fired := x.fired + 1));
    if x.loop == ACCEPTOR then Erased(s1, c) else Post(s1, ACCEPTOR, CloseInLoop(c))
  }

  // forceClose
  function Forced(s: State, c: Conn): State
    requires c in s.conns && s.conns[c].loop in s.loops && ACCEPTOR in s.loops
  {
    if Open(s.conns[c].status) then Closed(s, c) else s
  }

  // connectDestroyed
  function Destroyed(s: State, c: Conn): State
    requires c in s.conns
  {
    var x := s.conns[c];
    SetConn(s, c, x.(registered := false, destroyed := x.destroyed + 1))
  }

  // How often one handleEvent() runs handleClose(): once for the close callback, once for a read that ends.
  function Closes(r: Report, ends: bool): nat
  {
    (if r.hup && !r.readable then 1 else 0) + (if (r.readable || r.pri || r.rdhup) && ends then 1 else 0)
  }

  function Handled(s: State, c: Conn, r: Report, ends: bool): State
    requires c in s.conns && s.conns[c].loop in s.loops && ACCEPTOR in s.loops
  {
    if !s.conns[c].enabled || Closes(r, ends) == 0 then s
    else if Closes(r, ends) == 1 then Closed(s, c)
    else Closed(Closed(s, c), c)
  }

  predicate Known(s: State, c: Conn) { c in s.conns && s.conns[c].loop in s.loops && ACCEPTOR in s.loops }

  ghost predicate Enabled(s: State, a: Step)
  {
    match a
    case Accept(c, l) => c !in s.conns && l in s.loops && ACCEPTOR in s.loops && !s.loops[ACCEPTOR].phase.Polling?
    case PollReturn(l, active) =>
      && l in s.loops && s.loops[l].phase.Polling?
      && (forall i | 0 <= i < |active| ::
            && Known(s, active[i])
            && s.conns[active[i]].loop == l && s.conns[active[i]].enabled && s.conns[active[i]].registered)
    case Handle(l, r, ends) =>
      l in s.loops && s.loops[l].phase.Dispatching? && s.loops[l].active != [] && Known(s, s.loops[l].active[0])
    case EndDispatch(l) => l in s.loops && s.loops[l].phase.Dispatching? && s.loops[l].active == []
    case RunFunc(l) =>
      l in s.loops && s.loops[l].phase.Running? && s.loops[l].queue != [] && Known(s, s.loops[l].queue[0].c)
    case EndRun(l) => l in s.loops && s.loops[l].phase.Running? && s.loops[l].queue == []
    case Kill(l, c) => Known(s, c) && s.conns[c].loop == l && !s.loops[l].phase.Polling?
    case KillFromAfar(c) => Known(s, c)
    case Shutdown(l, c) => Known(s, c) && s.conns[c].loop == l && !s.loops[l].phase.Polling?
  }

  function SetLoop(s: State, l: Loop, x: LoopState): State { s.(loops := s.loops[l := x]) }

  function Ran(s: State, f: Func): State
    requires Known(s, f.c)
  {
    match f
    case Establish(c) => Established(s, c)
    case Force(c) => Forced(s, c)
    case CloseInLoop(c) => Erased(s, c)
    case Destroy(c) => Destroyed(s, c)
  }

  ghost function Do(s: State, a: Step): State
    requires Enabled(s, a)
  {
    match a
    case Accept(c, l) =>
      var s1 := SetConn(s, c, Connection(l, Connecting, false, false, 0, 0, 0)).(connSet := s.connSet + {c});
      if l == ACCEPTOR then Established(s1, c) else Post(s1, l, Establish(c))
    case PollReturn(l, active) => SetLoop(s, l, s.loops[l].(phase := Dispatching, active := active))
    case Handle(l, r, ends) =>
      var c := s.loops[l].active[0];
      Handled(SetLoop(s, l, s.loops[l].(active := s.loops[l].active[1..])), c, r, ends)
    case EndDispatch(l) => SetLoop(s, l, s.loops[l].(phase := Running))
    case RunFunc(l) => Ran(SetLoop(s, l, s.loops[l].(queue := s.loops[l].queue[1..])), s.loops[l].queue[0])
    case EndRun(l) => SetLoop(s, l, s.loops[l].(phase := Polling))
    case Kill(l, c) => Forced(s, c)
    case KillFromAfar(c) => Post(s, s.conns[c].loop, Force(c))
    case Shutdown(l, c) =>
      if s.conns[c].status == Connected then SetConn(s, c, s.conns[c].(status := Disconnecting)) else s
  }

  // A hang-up without input together with urgent data or a half-close, and a read that finds the end.
  predicate Twofold(r: Report, ends: bool) { r.hup && !r.readable && (r.pri || r.rdhup) && ends }

  // What the two loops can cope with.
  ghost predicate Fair(s: State, a: Step)
    requires Enabled(s, a)
  {
    a.Handle? && s.conns[s.loops[a.l].active[0]].enabled ==> !Twofold(a.r, a.ends)
  }

  // ---- what every step keeps ----

  function Pending(s: State, l: Loop, f: Func): nat { if l in s.loops then multiset(s.loops[l].queue)[f] else 0 }

  ghost predicate ConnInv(s: State, c: Conn)
    requires c in s.conns
  {
    var x := s.conns[c];
    && Known(s, c)
    && (x.enabled <==> Open(x.status))
    && (x.registered <==> x.status != Connecting && x.destroyed == 0)
    && (x.fired == 1 <==> x.status == Disconnected)
    && x.destroyed <= x.erased <= x.fired <= 1
    && (c in s.connSet <==> x.erased == 0)
    && Pending(s, x.loop, Establish(c)) == (if x.status == Connecting then 1 else 0)
    && Pending(s, ACCEPTOR, CloseInLoop(c)) == x.fired - x.erased
    && Pending(s, x.loop, Destroy(c)) == x.erased - x.destroyed
  }

  // Nothing strange in any queue.
  ghost predicate QueueInv(s: State)
  {
    forall l, i | l in s.loops && 0 <= i < |s.loops[l].queue| :: FuncOk(s, l, s.loops[l].queue[i])
  }

  ghost predicate FuncOk(s: State, l: Loop, f: Func)
  {
    Known(s, f.c) && l == (if f.CloseInLoop? then ACCEPTOR else s.conns[f.c].loop)
  }

  // A channel waiting to be dispatched is still registered; lists are empty outside the dispatch.
  ghost predicate ActiveInv(s: State)
  {
    && (forall l, i | l in s.loops && 0 <= i < |s.loops[l].active| :: ActiveOk(s, l, s.loops[l].active[i]))
    && (forall l | l in s.loops && !s.loops[l].phase.Dispatching? :: s.loops[l].active == [])
  }

  ghost predicate ActiveOk(s: State, l: Loop, c: Conn) { Known(s, c) && s.conns[c].loop == l && s.conns[c].registered }

  ghost predicate Inv(s: State)
  {
    && ACCEPTOR in s.loops && s.connSet <= s.conns.Keys
    && (forall c | c in s.conns :: ConnInv(s, c)) && QueueInv(s) && ActiveInv(s)
  }

  // ---- counting ----

  lemma PostPending(s: State, l: Loop, f: Func, l': Loop, g: Func)
    requires l in s.loops
    ensures Pending(Post(s, l, f), l', g) == Pending(s, l', g) + (if l == l' && f == g then 1 else 0)
  {
  }

  function Popped(s: State, l: Loop): State
    requires l in s.loops && s.loops[l].queue != []
  {
    SetLoop(s, l, s.loops[l].(queue := s.loops[l].queue[1..]))
  }

  lemma PopPending(s: State, l: Loop, l': Loop, g: Func)
    requires l in s.loops && s.loops[l].queue != []
    ensures Pending(s, l', g) == Pending(Popped(s, l), l', g) + (if l == l' && g == s.loops[l].queue[0] then 1 else 0)
  {
    var q := s.loops[l].queue;
    assert q == [q[0]] + q[1..];
  }

  // Nothing that concerns `c` differs.
  ghost predicate SameFor(s: State, s': State, c: Conn)
  {
    && c in s.conns && c in s'.conns && s'.conns[c] == s.conns[c]
    && (c in s'.connSet <==> c in s.connSet) && s'.loops.Keys == s.loops.Keys
    && (forall l :: Pending(s', l, Establish(c)) == Pending(s, l, Establish(c)))
    && (forall l :: Pending(s', l, CloseInLoop(c)) == Pending(s, l, CloseInLoop(c)))
    && (forall l :: Pending(s', l, Destroy(c)) == Pending(s, l, Destroy(c)))
  }

  lemma SameConn(s: State, s': State, c: Conn)
    requires SameFor(s, s', c) && ConnInv(s, c)
    ensures ConnInv(s', c)
  {
  }

  // ---- queues and lists ----

  lemma PostRest(s: State, l: Loop, f: Func)
    requires QueueInv(s) && ActiveInv(s) && l in s.loops && FuncOk(s, l, f)
    ensures QueueInv(Post(s, l, f)) && ActiveInv(Post(s, l, f))
  {
  }

  lemma SetConnRest(s: State, c: Conn, x: Connection, connSet: set<Conn>)
    requires QueueInv(s) && ActiveInv(s) && c in s.conns && x.loop == s.conns[c].loop
    requires x.registered || (x.loop in s.loops && !s.loops[x.loop].phase.Dispatching?) || !s.conns[c].registered
    ensures QueueInv(SetConn(s.(connSet := connSet), c, x)) && ActiveInv(SetConn(s.(connSet := connSet), c, x))
  {
  }

  // ---- the operations, each on a connection in the right stage ----

  // All is well, `c` aside.
  ghost predicate InvBut(s: State, c: Conn)
  {
    && ACCEPTOR in s.loops && s.connSet <= s.conns.Keys && Known(s, c)
    && (forall d | d in s.conns && d != c :: ConnInv(s, d)) && QueueInv(s) && ActiveInv(s)
  }

  // `c` has these functions queued: an establishment, a close, a destruction.
  ghost predicate Queued(s: State, c: Conn, e: nat, k: nat, d: nat)
    requires c in s.conns
  {
    && Pending(s, s.conns[c].loop, Establish(c)) == e && Pending(s, ACCEPTOR, CloseInLoop(c)) == k
    && Pending(s, s.conns[c].loop, Destroy(c)) == d
  }

  // A change of `c` alone.
  lemma SetConnBut(s: State, c: Conn, x: Connection, connSet: set<Conn>)
    requires InvBut(s, c) && x.loop == s.conns[c].loop && connSet <= s.conns.Keys
    requires forall d | d != c :: d in connSet <==> d in s.connSet
    requires x.registered || !s.loops[x.loop].phase.Dispatching? || !s.conns[c].registered
    ensures InvBut(SetConn(s.(connSet := connSet), c, x), c)
  {
    var s' := SetConn(s.(connSet := connSet), c, x);
    SetConnRest(s, c, x, connSet);
    hide QueueInv, ActiveInv, Pending;
    SamePending(s, s');
    forall d | d in s'.conns && d != c ensures ConnInv(s', d) { assert SameFor(s, s', d); SameConn(s, s', d); }
  }

  lemma PostBut(s: State, l: Loop, f: Func)
    requires InvBut(s, f.c) && l in s.loops && FuncOk(s, l, f)
    ensures InvBut(Post(s, l, f), f.c)
  {
    hide Pending;
    var s' := Post(s, l, f);
    PostRest(s, l, f);
    forall d | d in s'.conns && d != f.c ensures ConnInv(s', d) {
      forall m ensures Pending(s', m, Establish(d)) == Pending(s, m, Establish(d))
               ensures Pending(s', m, CloseInLoop(d)) == Pending(s, m, CloseInLoop(d))
               ensures Pending(s', m, Destroy(d)) == Pending(s, m, Destroy(d))
      {
        PostPending(s, l, f, m, Establish(d));
        PostPending(s, l, f, m, CloseInLoop(d));
        PostPending(s, l, f, m, Destroy(d));
      }
      SameConn(s, s', d);
    }
  }

  lemma Whole(s: State, c: Conn)
    requires InvBut(s, c) && ConnInv(s, c)
    ensures Inv(s)
  {
  }

  lemma PostQueued(s: State, l: Loop, f: Func, e: nat, k: nat, d: nat)
    requires f.c in s.conns && l in s.loops && Queued(s, f.c, e, k, d)
    requires l == (if f.CloseInLoop? then ACCEPTOR else s.conns[f.c].loop)
    ensures Queued(Post(s, l, f), f.c, e + (if f.Establish? then 1 else 0), k + (if f.CloseInLoop? then 1 else 0),
                   d + (if f.Destroy? then 1 else 0))
  {
    hide Pending;
    PostPending(s, l, f, s.conns[f.c].loop, Establish(f.c));
    PostPending(s, l, f, ACCEPTOR, CloseInLoop(f.c));
    PostPending(s, l, f, s.conns[f.c].loop, Destroy(f.c));
  }

  lemma ErasedOk(s: State, c: Conn)
    requires InvBut(s, c) && Queued(s, c, 0, 0, 0)
    requires s.conns[c] == Connection(s.conns[c].loop, Disconnected, false, true, 1, 0, 0)
    ensures Inv(Erased(s, c))
  {
    hide Pending;
    var x := s.conns[c];
    SetConnBut(s, c, x.(erased := 1), s.connSet - {c});
    var s1 := SetConn(s.(connSet := s.connSet - {c}), c, x.(erased := 1));
    assert Queued(s1, c, 0, 0, 0) by { SamePending(s, s1); }
    PostBut(s1, x.loop, Destroy(c));
    PostQueued(s1, x.loop, Destroy(c), 0, 0, 0);
    Whole(Erased(s, c), c);
  }

  lemma SamePending(s: State, s': State)
    requires s'.loops == s.loops
    ensures forall l, f :: Pending(s', l, f) == Pending(s, l, f)
  {
  }

  lemma ClosedOk(s: State, c: Conn)
    requires Inv(s) && c in s.conns && Open(s.conns[c].status)
    ensures Inv(Closed(s, c)) && c in s.connSet
  {
    hide Pending, QueueInv, ActiveInv;
    var x := s.conns[c];
    assert ConnInv(s, c);
    SetConnBut(s, c, x.(status := Disconnected, enabled := false, fired := 1), s.connSet);
    var s1 := SetConn(s, c, x.(status := Disconnected, enabled := false, fired := 1));
    assert s.(connSet := s.connSet) == s;
    assert Queued(s1, c, 0, 0, 0) by { SamePending(s, s1); }
    if x.loop == ACCEPTOR {
      ErasedOk(s1, c);
    } else {
      PostBut(s1, ACCEPTOR, CloseInLoop(c));
      PostQueued(s1, ACCEPTOR, CloseInLoop(c), 0, 0, 0);
      Whole(Closed(s, c), c);
    }
  }

  lemma EstablishedOk(s: State, c: Conn)
    requires InvBut(s, c) && Queued(s, c, 0, 0, 0) && c in s.connSet
    requires s.conns[c] == Connection(s.conns[c].loop, Connecting, false, false, 0, 0, 0)
    ensures Inv(Established(s, c))
  {
    hide Pending;
    var x := s.conns[c].(status := Connected, enabled := true, registered := true);
    SetConnBut(s, c, x, s.connSet);
    assert s.(connSet := s.connSet) == s;
    SamePending(s, Established(s, c));
    Whole(Established(s, c), c);
  }

  lemma DestroyedOk(s: State, c: Conn)
    requires InvBut(s, c) && Queued(s, c, 0, 0, 0) && c !in s.connSet && s.loops[s.conns[c].loop].phase.Running?
    requires s.conns[c] == Connection(s.conns[c].loop, Disconnected, false, true, 1, 1, 0)
    ensures Inv(Destroyed(s, c))
  {
    hide Pending;
    var x := s.conns[c].(registered := false, destroyed := 1);
    SetConnBut(s, c, x, s.connSet);
    assert s.(connSet := s.connSet) == s;
    SamePending(s, Destroyed(s, c));
    Whole(Destroyed(s, c), c);
  }

  // ---- one step ----

  lemma PoppedOk(s: State, l: Loop)
    requires Inv(s) && Enabled(s, RunFunc(l))
    ensures var f := s.loops[l].queue[0]; var c, s1 := f.c, Popped(s, l);
      && InvBut(s1, c) && FuncOk(s, l, f) && Pending(s, l, f) >= 1
      && (f.Establish? ==>
            Queued(s1, c, Pending(s, l, f) - 1, Pending(s, ACCEPTOR, CloseInLoop(c)), Pending(s, l, Destroy(c))))
      && (f.CloseInLoop? ==> Queued(s1, c, Pending(s, s.conns[c].loop, Establish(c)), Pending(s, l, f) - 1,
                                    Pending(s, s.conns[c].loop, Destroy(c))))
      && (f.Destroy? ==>
            Queued(s1, c, Pending(s, l, Establish(c)), Pending(s, ACCEPTOR, CloseInLoop(c)), Pending(s, l, f) - 1))
      && (f.Force? ==> ConnInv(s1, c))
  {
    hide Pending;
    var f := s.loops[l].queue[0];
    var s1 := Popped(s, l);
    assert FuncOk(s, l, f);
    PoppedRest(s, l);
    forall d, m ensures f != Establish(d) || m != l ==> Pending(s1, m, Establish(d)) == Pending(s, m, Establish(d))
                ensures f != CloseInLoop(d) || m != l ==>
                  Pending(s1, m, CloseInLoop(d)) == Pending(s, m, CloseInLoop(d))
                ensures f != Destroy(d) || m != l ==> Pending(s1, m, Destroy(d)) == Pending(s, m, Destroy(d))
    {
      PopPending(s, l, m, Establish(d));
      PopPending(s, l, m, CloseInLoop(d));
      PopPending(s, l, m, Destroy(d));
    }
    PopPending(s, l, l, f);
    hide QueueInv, ActiveInv;
    forall d | d in s1.conns && (d != f.c || f.Force?) ensures ConnInv(s1, d) { SameConn(s, s1, d); }
  }

  lemma PoppedRest(s: State, l: Loop)
    requires QueueInv(s) && ActiveInv(s) && l in s.loops && s.loops[l].queue != []
    ensures QueueInv(Popped(s, l)) && ActiveInv(Popped(s, l))
  {
  }

  lemma RunFuncOk(s: State, l: Loop)
    requires Inv(s) && Enabled(s, RunFunc(l))
    ensures Inv(Do(s, RunFunc(l))) && Safe(s, RunFunc(l))
  {
    hide Pending, QueueInv, ActiveInv;
    var f, s1 := s.loops[l].queue[0], Popped(s, l);
    var c := f.c;
    PoppedOk(s, l);
    assert ConnInv(s, c);
    match f
    case Establish(_) => EstablishedOk(s1, c);
    case CloseInLoop(_) => ErasedOk(s1, c);
    case Destroy(_) => NoneActive(s, l); DestroyedOk(s1, c);
    case Force(_) => Whole(s1, c); if Open(s1.conns[c].status) { ClosedOk(s1, c); }
  }

  // The asserts: a connection is established once, erased from the set while it is in it, and its channel is removed
  // only when disabled, registered, and not waiting in a list that is being dispatched.
  ghost predicate Safe(s: State, a: Step)
    requires Enabled(s, a)
  {
    match a
    case RunFunc(l) =>
      var f := s.loops[l].queue[0];
      var x := s.conns[f.c];
      && (f.Establish? ==> x.status == Connecting)
      && (f.CloseInLoop? ==> f.c in s.connSet)
      && (f.Force? && Open(x.status) ==> f.c in s.connSet)
      && (f.Destroy? ==>
            !x.enabled && x.registered && x.status != Connected && l == x.loop && f.c !in s.loops[l].active)
    case Handle(l, r, ends) =>
      var c := s.loops[l].active[0];
      s.conns[c].enabled && Closes(r, ends) > 0 ==> Closes(r, ends) == 1 && c in s.connSet
    case Kill(_, c) => Open(s.conns[c].status) ==> c in s.connSet
    case _ => true
  }

  lemma NoneActive(s: State, l: Loop)
    requires ActiveInv(s) && l in s.loops && !s.loops[l].phase.Dispatching?
    ensures s.loops[l].active == []
  {
  }

  // A step that only touches the phase and the list of a loop.
  lemma LoopOk(s: State, l: Loop, x: LoopState)
    requires Inv(s) && l in s.loops && x.queue == s.loops[l].queue
    requires forall i | 0 <= i < |x.active| :: ActiveOk(s, l, x.active[i])
    requires !x.phase.Dispatching? ==> x.active == []
    ensures Inv(SetLoop(s, l, x))
  {
    hide QueueInv, ActiveInv, Pending;
    var s' := SetLoop(s, l, x);
    LoopRest(s, l, x);
    LoopPending(s, l, x);
    assert s'.loops.Keys == s.loops.Keys;
    forall d | d in s'.conns ensures ConnInv(s', d) { SameConn(s, s', d); }
  }

  lemma LoopPending(s: State, l: Loop, x: LoopState)
    requires l in s.loops && x.queue == s.loops[l].queue
    ensures forall m, f :: Pending(SetLoop(s, l, x), m, f) == Pending(s, m, f)
  {
  }

  lemma LoopRest(s: State, l: Loop, x: LoopState)
    requires QueueInv(s) && ActiveInv(s) && l in s.loops && x.queue == s.loops[l].queue
    requires forall i | 0 <= i < |x.active| :: ActiveOk(s, l, x.active[i])
    requires !x.phase.Dispatching? ==> x.active == []
    ensures QueueInv(SetLoop(s, l, x)) && ActiveInv(SetLoop(s, l, x))
  {
  }

  lemma HandleOk(s: State, l: Loop, r: Report, ends: bool)
    requires Inv(s) && Enabled(s, Handle(l, r, ends)) && Fair(s, Handle(l, r, ends))
    ensures Inv(Do(s, Handle(l, r, ends))) && Safe(s, Handle(l, r, ends))
  {
    var c := s.loops[l].active[0];
    var x := s.loops[l].(active := s.loops[l].active[1..]);
    forall i | 0 <= i < |x.active| ensures ActiveOk(s, l, x.active[i]) {
      assert ActiveOk(s, l, s.loops[l].active[i + 1]);
    }
    LoopOk(s, l, x);
    hide Pending, QueueInv, ActiveInv;
    var s1 := SetLoop(s, l, x);
    assert ConnInv(s, c);
    if s1.conns[c].enabled && Closes(r, ends) > 0 { ClosedOk(s1, c); }
  }

  // A new connection: nothing in any queue concerns it.
  lemma AcceptOk(s: State, c: Conn, l: Loop)
    requires Inv(s) && Enabled(s, Accept(c, l))
    ensures Inv(Do(s, Accept(c, l)))
  {
    hide QueueInv, ActiveInv, Pending;
    var s1 := SetConn(s, c, Connection(l, Connecting, false, false, 0, 0, 0)).(connSet := s.connSet + {c});
    NoneQueued(s, c);
    SamePending(s, s1);
    AcceptRest(s, s1, c);
    forall d | d in s1.conns && d != c ensures ConnInv(s1, d) { SameConn(s, s1, d); }
    if l == ACCEPTOR {
      EstablishedOk(s1, c);
    } else {
      PostBut(s1, l, Establish(c));
      PostQueued(s1, l, Establish(c), 0, 0, 0);
      Whole(Post(s1, l, Establish(c)), c);
    }
  }

  lemma AcceptRest(s: State, s1: State, c: Conn)
    requires QueueInv(s) && ActiveInv(s) && c !in s.conns && c in s1.conns
    requires s1.conns == s.conns[c := s1.conns[c]] && s1.loops == s.loops
    ensures QueueInv(s1) && ActiveInv(s1)
  {
  }

  lemma NoneQueued(s: State, c: Conn)
    requires QueueInv(s) && c !in s.conns
    ensures forall l: Loop, f: Func | f.c == c :: Pending(s, l, f) == 0
  {
  }

  lemma StepInv(s: State, a: Step)
    requires Inv(s) && Enabled(s, a) && Fair(s, a)
    ensures Inv(Do(s, a)) && Safe(s, a)
  {
    match a
    case Accept(c, l) => AcceptOk(s, c, l);
    case PollReturn(l, active) => LoopOk(s, l, s.loops[l].(phase := Dispatching, active := active));
    case Handle(l, r, ends) => HandleOk(s, l, r, ends);
    case EndDispatch(l) => LoopOk(s, l, s.loops[l].(phase := Running));
    case RunFunc(l) => RunFuncOk(s, l);
    case EndRun(l) => NoneActive(s, l); LoopOk(s, l, s.loops[l].(phase := Polling));
    case Kill(l, c) => if Open(s.conns[c].status) { ClosedOk(s, c); }
    case KillFromAfar(c) => ForceQueued(s, c);
    case Shutdown(l, c) => ShutdownOk(s, c);
  }

  lemma ForceQueued(s: State, c: Conn)
    requires Inv(s) && c in s.conns
    ensures Inv(Post(s, s.conns[c].loop, Force(c)))
  {
    hide Pending, QueueInv, ActiveInv;
    assert ConnInv(s, c);
    var x := s.conns[c];
    PostBut(s, x.loop, Force(c));
    PostQueued(s, x.loop, Force(c), Pending(s, x.loop, Establish(c)), Pending(s, ACCEPTOR, CloseInLoop(c)),
               Pending(s, x.loop, Destroy(c)));
    Whole(Post(s, x.loop, Force(c)), c);
  }

  lemma ShutdownOk(s: State, c: Conn)
    requires Inv(s) && c in s.conns
    ensures s.conns[c].status == Connected ==> Inv(SetConn(s, c, s.conns[c].(status := Disconnecting)))
  {
    hide Pending, QueueInv, ActiveInv;
    assert ConnInv(s, c);
    var x := s.conns[c].(status := Disconnecting);
    if s.conns[c].status == Connected {
      SetConnBut(s, c, x, s.connSet);
      assert s.(connSet := s.connSet) == s;
      SamePending(s, SetConn(s, c, x));
      Whole(SetConn(s, c, x), c);
    }
  }

  // ---- whole runs ----

  ghost predicate CanRun(s: State, run: seq<Step>)
    decreases |run|
  {
    run == [] || (Enabled(s, run[0]) && CanRun(Do(s, run[0]), run[1..]))
  }

  ghost function Run(s: State, run: seq<Step>): State
    requires CanRun(s, run)
    decreases |run|
  {
    if run == [] then s else Run(Do(s, run[0]), run[1..])
  }

  ghost predicate FairRun(s: State, run: seq<Step>)
    requires CanRun(s, run)
    decreases |run|
  {
    run == [] || (Fair(s, run[0]) && FairRun(Do(s, run[0]), run[1..]))
  }

  function Start(loops: set<Loop>): State
  {
    State(map[], {}, map l | l in loops :: LoopState(Polling, [], []))
  }

  lemma {:induction false} RunInv(s: State, run: seq<Step>)
    requires Inv(s) && CanRun(s, run) && FairRun(s, run)
    ensures Inv(Run(s, run))
    decreases |run|
  {
    hide Inv, Enabled, Do, Fair;
    if run != [] {
      StepInv(s, run[0]);
      RunInv(Do(s, run[0]), run[1..]);
    }
  }

  // In every fair run every connection fires its close callback at most once, leaves the set at most once and then has
  // its channel removed at most once, in that order; and when no function is left in a queue, a closed connection has
  // gone all the way.
  lemma ClosesOnce(loops: set<Loop>, run: seq<Step>, c: Conn)
    requires ACCEPTOR in loops && CanRun(Start(loops), run) && FairRun(Start(loops), run)
    requires c in Run(Start(loops), run).conns
    ensures var s := Run(Start(loops), run); var x := s.conns[c];
      && x.destroyed <= x.erased <= x.fired <= 1 && (c in s.connSet <==> x.erased == 0)
      && ((forall l | l in s.loops :: s.loops[l].queue == []) && x.fired == 1 ==>
            x.erased == 1 && x.destroyed == 1 && !x.registered)
      && ((forall l | l in s.loops :: s.loops[l].queue == []) && x.fired == 0 ==> x.registered && x.enabled)
  {
    assert Inv(Start(loops));
    RunInv(Start(loops), run);
    assert ConnInv(Run(Start(loops), run), c);
  }

  // A report on an enabled channel closes the connection for a hang-up without input, and for a read that ends; with
  // both, twice.
  lemma TwiceExactly(s: State, l: Loop, r: Report, ends: bool)
    requires Inv(s) && Enabled(s, Handle(l, r, ends)) && s.conns[s.loops[l].active[0]].enabled
    ensures s.loops[l].active[0] in Do(s, Handle(l, r, ends)).conns
    ensures var x := Do(s, Handle(l, r, ends)).conns[s.loops[l].active[0]];
      var hangsUp, readEnds := r.hup && !r.readable, (r.readable || r.pri || r.rdhup) && ends;
      && x.fired == (if hangsUp && readEnds then 2 else if hangsUp || readEnds then 1 else 0)
      && (x.status == Disconnected <==> hangsUp || readEnds)
  {
    hide Inv, Do;
    NotFired(s, s.loops[l].active[0]);
    HandleFires(s, l, r, ends);
  }

  lemma HandleFires(s: State, l: Loop, r: Report, ends: bool)
    requires Enabled(s, Handle(l, r, ends)) && s.conns[s.loops[l].active[0]].enabled
    ensures var c, s' := s.loops[l].active[0], Do(s, Handle(l, r, ends));
      && c in s'.conns && s'.conns[c].fired == s.conns[c].fired + Closes(r, ends)
      && s'.conns[c].status == (if Closes(r, ends) == 0 then s.conns[c].status else Disconnected)
  {
    hide Closed;
    var c, s1 := s.loops[l].active[0], SetLoop(s, l, s.loops[l].(active := s.loops[l].active[1..]));
    ClosedFires(s1, c);
    ClosedFires(Closed(s1, c), c);
  }

  lemma NotFired(s: State, c: Conn)
    requires Inv(s) && c in s.conns && s.conns[c].enabled
    ensures s.conns[c].fired == 0 && Open(s.conns[c].status)
  {
    assert ConnInv(s, c);
  }

  lemma ClosedFires(s: State, c: Conn)
    requires Known(s, c)
    ensures Known(Closed(s, c), c) && Closed(s, c).conns[c].fired == s.conns[c].fired + 1
    ensures Closed(s, c).conns[c].status == Disconnected
  {
  }

  // ---- what closes a connection, and nothing else ----

  // The step is a report that ends the connection, or a forceClose.
  ghost predicate Ends(s: State, a: Step, c: Conn)
    requires Enabled(s, a)
  {
    match a
    case Handle(l, r, ends) =>
      s.loops[l].active[0] == c && ((r.hup && !r.readable) || ((r.readable || r.pri || r.rdhup) && ends))
    case Kill(_, d) => d == c
    case RunFunc(l) => s.loops[l].queue[0] == Force(c)
    case _ => false
  }

  // Every step does to the status of a connection exactly this.
  lemma StatusLaw(s: State, a: Step, c: Conn)
    requires Inv(s) && Enabled(s, a) && Fair(s, a) && c in s.conns
    ensures c in Do(s, a).conns
    ensures var x, x' := s.conns[c], Do(s, a).conns[c];
      var ended := Ends(s, a, c) && Open(x.status);
      && x'.loop == x.loop && x'.fired == x.fired + (if ended then 1 else 0)
      && x'.status == (if ended then Disconnected
                       else if a.Shutdown? && a.c == c && x.status == Connected then Disconnecting
                       else if a.RunFunc? && s.loops[a.l].queue[0] == Establish(c) then Connected
                       else x.status)
  {
    hide Inv, Do, Closed;
    EnabledOpen(s, c);
    match a
    case Handle(l, r, ends) => HandleLaw(s, l, r, ends, c);
    case Kill(l, d) => KillLaw(s, l, d, c);
    case RunFunc(l) => RanLaw(s, l, c);
    case _ => PlainLaw(s, a, c);
  }

  lemma EnabledOpen(s: State, c: Conn)
    requires Inv(s) && c in s.conns
    ensures s.conns[c].enabled <==> Open(s.conns[c].status)
  {
    assert ConnInv(s, c);
  }

  lemma KillLaw(s: State, l: Loop, d: Conn, c: Conn)
    requires Enabled(s, Kill(l, d)) && c in s.conns
    ensures c in Do(s, Kill(l, d)).conns
    ensures var x, x' := s.conns[c], Do(s, Kill(l, d)).conns[c];
      var ended := c == d && Open(x.status);
      && x'.loop == x.loop && x'.fired == x.fired + (if ended then 1 else 0)
      && x'.status == if ended then Disconnected else x.status
  {
    ClosedLaw(s, d, c);
    hide Closed;
  }

  lemma PlainLaw(s: State, a: Step, c: Conn)
    requires Enabled(s, a) && !a.Handle? && !a.Kill? && !a.RunFunc? && c in s.conns
    ensures c in Do(s, a).conns
    ensures var x, x' := s.conns[c], Do(s, a).conns[c];
      && x'.loop == x.loop && x'.fired == x.fired
      && x'.status == if a.Shutdown? && a.c == c && x.status == Connected then Disconnecting else x.status
  {
    hide Closed, Erased, Ran, Handled;
  }

  lemma HandleLaw(s: State, l: Loop, r: Report, ends: bool, c: Conn)
    requires Enabled(s, Handle(l, r, ends)) && Fair(s, Handle(l, r, ends)) && c in s.conns
    ensures c in Do(s, Handle(l, r, ends)).conns
    ensures var d, x, x' := s.loops[l].active[0], s.conns[c], Do(s, Handle(l, r, ends)).conns[c];
      var ended := c == d && x.enabled && ((r.hup && !r.readable) || ((r.readable || r.pri || r.rdhup) && ends));
      && x'.loop == x.loop && x'.fired == x.fired + (if ended then 1 else 0)
      && x'.status == if ended then Disconnected else x.status
  {
    var d, s1 := s.loops[l].active[0], SetLoop(s, l, s.loops[l].(active := s.loops[l].active[1..]));
    ClosedLaw(s1, d, c);
    hide Closed;
  }

  lemma ClosedLaw(s: State, d: Conn, c: Conn)
    requires Known(s, d) && c in s.conns
    ensures c in Closed(s, d).conns
    ensures var x, x' := s.conns[c], Closed(s, d).conns[c];
      && x'.loop == x.loop && x'.fired == x.fired + (if c == d then 1 else 0)
      && x'.status == if c == d then Disconnected else x.status
  {
  }

  lemma RanLaw(s: State, l: Loop, c: Conn)
    requires Enabled(s, RunFunc(l)) && c in s.conns
    ensures c in Do(s, RunFunc(l)).conns
    ensures var f, x, x' := s.loops[l].queue[0], s.conns[c], Do(s, RunFunc(l)).conns[c];
      var ended := f == Force(c) && Open(x.status);
      && x'.loop == x.loop && x'.fired == x.fired + (if ended then 1 else 0)
      && x'.status == if ended then Disconnected else if f == Establish(c) then Connected else x.status
  {
    ClosedLaw(SetLoop(s, l, s.loops[l].(queue := s.loops[l].queue[1..])), s.loops[l].queue[0].c, c);
    hide Closed;
  }

  // ---- a forceClose is never lost ----

  // A forceClose of the connection is in the queue of its loop, behind the establishing if that is still to come; or
  // the connection is closed.
  ghost predicate Sentenced(s: State, c: Conn)
  {
    && Known(s, c)
    && var x := s.conns[c];
       x.status == Disconnected || exists i :: ForcedAt(x.status, s.loops[x.loop].queue, c, i)
  }

  ghost predicate ForcedAt(status: Status, queue: seq<Func>, c: Conn, i: int)
  {
    0 <= i < |queue| && queue[i] == Force(c) && (status == Connecting ==> Establish(c) in queue[..i])
  }

  // Queues are taken from in front and added to behind.
  lemma QueueGrows(s: State, a: Step, l: Loop)
    requires Enabled(s, a) && l in s.loops
    ensures l in Do(s, a).loops
    ensures (if a == RunFunc(l) then s.loops[l].queue[1..] else s.loops[l].queue) <= Do(s, a).loops[l].queue
  {
    match a
    case Handle(m, r, ends) =>
      var s1 := SetLoop(s, m, s.loops[m].(active := s.loops[m].active[1..]));
      ClosedGrows(s1, s.loops[m].active[0], l);
      ClosedFires(s1, s.loops[m].active[0]);
      ClosedGrows(Closed(s1, s.loops[m].active[0]), s.loops[m].active[0], l);
      hide Closed;
    case Kill(_, d) =>
      ClosedGrows(s, d, l);
      hide Closed;
    case RunFunc(m) => RanGrows(s, m, l);
    case _ =>
  }

  lemma ClosedGrows(s: State, d: Conn, l: Loop)
    requires Known(s, d) && l in s.loops
    ensures l in Closed(s, d).loops && s.loops[l].queue <= Closed(s, d).loops[l].queue
  {
  }

  lemma RanGrows(s: State, m: Loop, l: Loop)
    requires Enabled(s, RunFunc(m)) && l in s.loops
    ensures l in Do(s, RunFunc(m)).loops
    ensures (if l == m then s.loops[l].queue[1..] else s.loops[l].queue) <= Do(s, RunFunc(m)).loops[l].queue
  {
    var s1 := SetLoop(s, m, s.loops[m].(queue := s.loops[m].queue[1..]));
    ClosedGrows(s1, s.loops[m].queue[0].c, l);
    hide Closed;
  }

  lemma ForcedStays(status: Status, status': Status, queue: seq<Func>, queue': seq<Func>, c: Conn, i: int)
    requires ForcedAt(status, queue, c, i) && queue <= queue' && (status' == Connecting ==> status == Connecting)
    ensures ForcedAt(status', queue', c, i)
  {
    assert queue'[..i] == queue[..i];
  }

  // The front function is run.
  lemma ForcedNearer(status: Status, status': Status, queue: seq<Func>, queue': seq<Func>, c: Conn, i: int)
    requires ForcedAt(status, queue, c, i) && i > 0 && queue[1..] <= queue'
    requires status' == Connecting ==> status == Connecting && queue[0] != Establish(c)
    ensures ForcedAt(status', queue', c, i - 1)
  {
    assert queue'[i - 1] == queue[1..][i - 1] == queue[i];
    if status' == Connecting {
      var j :| 0 <= j < i && queue[..i][j] == Establish(c);
      assert queue'[..i - 1][j - 1] == queue[1..][j - 1] == queue[j];
    }
  }

  lemma SentencedKept(s: State, a: Step, c: Conn)
    requires Inv(s) && Enabled(s, a) && Fair(s, a) && Sentenced(s, c)
    ensures Sentenced(Do(s, a), c)
  {
    StatusLaw(s, a, c);
    KnownStays(s, a, c);
    var l := s.conns[c].loop;
    QueueGrows(s, a, l);
    assert ConnInv(s, c);
    var x, x' := s.conns[c], Do(s, a).conns[c];
    hide Inv, ConnInv, Do, Enabled, Fair;
    if x.status != Disconnected {
      var i :| ForcedAt(x.status, s.loops[l].queue, c, i);
      if a != RunFunc(l) {
        NotEstablished(s, a, c);
        ForcedStays(x.status, x'.status, s.loops[l].queue, Do(s, a).loops[l].queue, c, i);
      } else if i > 0 {
        ForcedNearer(x.status, x'.status, s.loops[l].queue, Do(s, a).loops[l].queue, c, i);
      }
    }
  }

  // The status never goes back to Connecting.
  lemma NotEstablished(s: State, a: Step, c: Conn)
    requires Inv(s) && Enabled(s, a) && Fair(s, a) && c in s.conns
    ensures c in Do(s, a).conns && (Do(s, a).conns[c].status == Connecting ==> s.conns[c].status == Connecting)
  {
    StatusLaw(s, a, c);
    hide Inv, Do;
  }

  lemma KnownStays(s: State, a: Step, c: Conn)
    requires Inv(s) && Enabled(s, a) && Fair(s, a) && Known(s, c)
    ensures Known(Do(s, a), c)
  {
    StatusLaw(s, a, c);
    QueueGrows(s, a, s.conns[c].loop);
    QueueGrows(s, a, ACCEPTOR);
    hide Inv, Do, Enabled;
  }

  // forceClose from another thread: the function goes to the end of the queue.
  lemma SentencedFirst(s: State, c: Conn)
    requires Inv(s) && Enabled(s, KillFromAfar(c))
    ensures Sentenced(Do(s, KillFromAfar(c)), c)
  {
    assert ConnInv(s, c);
    var queue := s.loops[s.conns[c].loop].queue;
    var n := |queue|;
    if s.conns[c].status == Connecting {
      assert Establish(c) in multiset(queue);
      assert (queue + [Force(c)])[..n] == queue;
    }
    assert ForcedAt(s.conns[c].status, queue + [Force(c)], c, n);
  }

  lemma {:induction false} SentencedRun(s: State, run: seq<Step>, c: Conn)
    requires Inv(s) && CanRun(s, run) && FairRun(s, run) && Sentenced(s, c)
    ensures Sentenced(Run(s, run), c)
    decreases |run|
  {
    hide Inv, Enabled, Do, Fair, Sentenced;
    if run != [] {
      SentencedKept(s, run[0], c);
      StepInv(s, run[0]);
      SentencedRun(Do(s, run[0]), run[1..], c);
    }
  }

  // A connection forced to close from another thread, at whatever stage, is closed once its loop has run its functions,
  // and gone altogether once all loops have.
  lemma ForcedCloses(s: State, run: seq<Step>, c: Conn)
    requires Inv(s) && Enabled(s, KillFromAfar(c))
    requires CanRun(Do(s, KillFromAfar(c)), run) && FairRun(Do(s, KillFromAfar(c)), run)
    ensures var e := Run(Do(s, KillFromAfar(c)), run);
      && Known(e, c)
      && (e.loops[e.conns[c].loop].queue == [] ==> e.conns[c].status == Disconnected && e.conns[c].fired == 1)
      && ((forall l | l in e.loops :: e.loops[l].queue == []) ==> e.conns[c].destroyed == 1 && c !in e.connSet)
  {
    hide Inv, Sentenced, Enabled, Do, CanRun, Run, Fair, FairRun;
    SentencedFirst(s, c);
    StepInv(s, KillFromAfar(c));
    var s1 := Do(s, KillFromAfar(c));
    SentencedRun(s1, run, c);
    RunInv(s1, run);
    Executed(Run(s1, run), c);
  }

  lemma Executed(e: State, c: Conn)
    requires Inv(e) && Sentenced(e, c)
    ensures Known(e, c)
    ensures e.loops[e.conns[c].loop].queue == [] ==> e.conns[c].status == Disconnected && e.conns[c].fired == 1
    ensures (forall l | l in e.loops :: e.loops[l].queue == []) ==> e.conns[c].destroyed == 1 && c !in e.connSet
  {
    assert ConnInv(e, c);
  }

  // No close callback has fired twice, now or at any later point of the run.
  ghost predicate OnceAlways(s: State, run: seq<Step>)
    requires CanRun(s, run)
    decreases |run|
  {
    && (forall c | c in s.conns :: s.conns[c].fired <= 1)
    && (run == [] || OnceAlways(Do(s, run[0]), run[1..]))
  }

  // The condition on reports is exact: a run keeps to one close for each connection if and only if it is fair.
  lemma {:induction false} OnceExactly(s: State, run: seq<Step>)
    requires Inv(s) && CanRun(s, run)
    ensures OnceAlways(s, run) <==> FairRun(s, run)
    decreases |run|
  {
    AtMostOnce(s);
    hide Inv, Enabled, Do;
    if run != [] {
      if Fair(s, run[0]) {
        StepInv(s, run[0]);
        OnceExactly(Do(s, run[0]), run[1..]);
      } else {
        Unfair(s, run[0]);
      }
    }
  }

  lemma AtMostOnce(s: State)
    requires Inv(s)
    ensures forall c | c in s.conns :: s.conns[c].fired <= 1
  {
    forall c | c in s.conns ensures s.conns[c].fired <= 1 { assert ConnInv(s, c); }
  }

  lemma Unfair(s: State, a: Step)
    requires Inv(s) && Enabled(s, a) && !Fair(s, a)
    ensures exists c :: c in Do(s, a).conns && Do(s, a).conns[c].fired == 2
  {
    hide Inv, Do;
    TwiceExactly(s, a.l, a.r, a.ends);
    HandleFires(s, a.l, a.r, a.ends);
    assert s.loops[a.l].active[0] in Do(s, a).conns;
  }

  // A run that closes twice: one loop, one connection, a hang-up with a half-close.
  lemma ClosedTwice()
    ensures exists run ::
      && CanRun(Start({ACCEPTOR}), run)
      && 0 in Run(Start({ACCEPTOR}), run).conns && Run(Start({ACCEPTOR}), run).conns[0].fired == 2
  {
    var s0 := Start({ACCEPTOR});
    var a0, a1, a2, a3 := PollReturn(ACCEPTOR, []), Accept(0, ACCEPTOR), EndDispatch(ACCEPTOR), EndRun(ACCEPTOR);
    var a4, a5 := PollReturn(ACCEPTOR, [0]), Handle(ACCEPTOR, Report(true, false, false, true), true);
    var s1 := Do(s0, a0);
    var s2 := Do(s1, a1);
    var s3 := Do(s2, a2);
    var s4 := Do(s3, a3);
    var s5 := Do(s4, a4);
    HandleFires(s5, ACCEPTOR, a5.r, a5.ends);
    hide Do, Enabled;
    Prepend(s5, a5, []);
    Prepend(s4, a4, [a5]);
    Prepend(s3, a3, [a4, a5]);
    Prepend(s2, a2, [a3, a4, a5]);
    Prepend(s1, a1, [a2, a3, a4, a5]);
    Prepend(s0, a0, [a1, a2, a3, a4, a5]);
  }

  lemma Prepend(s: State, a: Step, run: seq<Step>)
    requires Enabled(s, a) && CanRun(Do(s, a), run)
    ensures CanRun(s, [a] + run) && Run(s, [a] + run) == Run(Do(s, a), run)
  {
    assert ([a] + run)[1..] == run;
  }
}
