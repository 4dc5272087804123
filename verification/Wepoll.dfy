// An epoll port on top of AFD polls: which sockets are polled, cancelled, queued for update, or waiting to be freed.
module Wepoll {
  import opened Common
  import opened PollGroups

  type Handle = nat          // the SOCKET a user registers
  const INVALID_SOCKET: Handle := 0xFFFF_FFFF_FFFF_FFFF
  type Ref = nat             // a sock_state in memory; never reused here

  datatype Event =
    | In | Pri | Out | Err | Hup | RdNorm | RdBand | WrNorm | WrBand | Msg | RdHup | OneShot
    | Other(bit: nat)
  type Events = set<Event>

  predicate Known(e: Event) { !e.OneShot? && !e.Other? }

  // user & KNOWN & ~pending
  function Uncovered(user: Events, pending: Events): Events { set e | e in user && Known(e) && e !in pending }

  datatype PollStatus = Idle | Pending | Cancelled

  datatype Sock = Sock(handle: Handle, group: GroupId, userEvents: Events, pendingEvents: Events,
                       status: PollStatus, deletePending: bool)

  datatype Afd = Receive | Expedited | Send | Disconnect | Abort | LocalClose | Accept | ConnectFail

  // sock__epoll_events_to_afd_events
  function Watched(user: Events): set<Afd>
  {
    {LocalClose}
    + (if user * {In, RdNorm} != {} then {Receive, Accept} else {})
    + (if user * {Pri, RdBand} != {} then {Expedited} else {})
    + (if user * {Out, WrNorm, WrBand} != {} then {Send} else {})
    + (if user * {In, RdNorm, RdHup} != {} then {Disconnect} else {})
    + (if Hup in user then {Abort} else {})
    + (if Err in user then {ConnectFail} else {})
  }

  // sock__afd_events_to_epoll_events
  function Meaning(afd: set<Afd>): Events
  {
    (if afd * {Receive, Accept} != {} then {In, RdNorm} else {})
    + (if Expedited in afd then {Pri, RdBand} else {})
    + (if Send in afd then {Out, WrNorm, WrBand} else {})
    + (if Disconnect in afd then {In, RdNorm, RdHup} else {})
    + (if Abort in afd then {Hup} else {})
    + (if ConnectFail in afd then {In, Out, Err, RdNorm, WrNorm, RdHup} else {})
  }

  // A poll watches exactly the conditions whose report would survive the filter on the user's events, as long as
  // errors are asked for, which sock_set_event sees to; and local close, always.
  lemma WatchedExactly(user: Events, a: Afd)
    requires Err in user
    ensures a in Watched(user) <==> a == LocalClose || Meaning({a}) * user != {}
  {
    hide Meaning, Watched;
    MeaningOf(a);
    WatchedFor(user, a);
    var m := Meaning({a});
    assert m * user == user * m;
    if a.ConnectFail? { assert Err in m * user; }
    if a.Abort? { assert m * user != {} <==> Hup in m * user; }
  }

  // What one condition means.
  lemma MeaningOf(a: Afd)
    ensures Meaning({a}) == match a
                            case Receive => {In, RdNorm}
                            case Accept => {In, RdNorm}
                            case Expedited => {Pri, RdBand}
                            case Send => {Out, WrNorm, WrBand}
                            case Disconnect => {In, RdNorm, RdHup}
                            case Abort => {Hup}
                            case LocalClose => {}
                            case ConnectFail => {In, Out, Err, RdNorm, WrNorm, RdHup}
  {
    if a in {Receive, Accept} { assert a in {a} * {Receive, Accept}; }
  }

  // A report means what its conditions mean.
  lemma MeaningUnion(a: set<Afd>, b: set<Afd>)
    ensures Meaning(a + b) == Meaning(a) + Meaning(b)
  {
    hide Meaning;
    forall e: Event ensures e in Meaning(a + b) <==> e in Meaning(a) + Meaning(b) {
      MeaningMember(a + b, e);
      MeaningMember(a, e);
      MeaningMember(b, e);
    }
  }

  // Which conditions raise an event.
  lemma MeaningMember(afd: set<Afd>, e: Event)
    ensures e in Meaning(afd) <==>
      match e
      case In => Receive in afd || Accept in afd || Disconnect in afd || ConnectFail in afd
      case RdNorm => Receive in afd || Accept in afd || Disconnect in afd || ConnectFail in afd
      case Pri => Expedited in afd
      case RdBand => Expedited in afd
      case Out => Send in afd || ConnectFail in afd
      case WrNorm => Send in afd || ConnectFail in afd
      case WrBand => Send in afd
      case RdHup => Disconnect in afd || ConnectFail in afd
      case Hup => Abort in afd
      case Err => ConnectFail in afd
      case _ => false
  {
    var both := afd * {Receive, Accept};
    assert both != {} <==> Receive in both || Accept in both;
  }

  lemma {:induction false} MeaningEach(afd: set<Afd>, e: Event)
    ensures e in Meaning(afd) <==> exists a :: a in afd && e in Meaning({a})
    decreases |afd|
  {
    hide Meaning;
    if afd == {} {
      MeaningNone();
    } else {
      var a :| a in afd;
      var rest := afd - {a};
      assert afd == rest + {a};
      MeaningUnion(rest, {a});
      MeaningEach(rest, e);
    }
  }

  lemma MeaningNone()
    ensures Meaning({}) == {}
  {
  }

  // What makes a poll watch for one condition.
  lemma WatchedFor(user: Events, a: Afd)
    ensures a in Watched(user) <==> match a
                                    case Receive => user * {In, RdNorm} != {}
                                    case Accept => user * {In, RdNorm} != {}
                                    case Expedited => user * {Pri, RdBand} != {}
                                    case Send => user * {Out, WrNorm, WrBand} != {}
                                    case Disconnect => user * {In, RdNorm, RdHup} != {}
                                    case Abort => Hup in user
                                    case LocalClose => true
                                    case ConnectFail => Err in user
  {
  }

  // One of the conditions means an event the user asked for.
  ghost predicate Told(afd: set<Afd>, user: Events, e: Event)
  {
    e in user && exists a :: a in afd && e in Meaning({a})
  }

  // How a completed poll comes back.
  datatype Completion = WasCancelled | Failed | NoHandles | Reported(afd: set<Afd>)

  // The events of a completed poll, before the filter.
  function Raised(c: Completion): Events
  {
    match c
    case WasCancelled => {}
    case Failed => {Err}
    case NoHandles => {}
    case Reported(afd) => Meaning(afd)
  }

  // How afd_poll() answers.
  datatype Submission = Submitted | InvalidHandle | SubmitError

  function Removed(q: seq<Ref>, r: Ref): seq<Ref>
  {
    if q == [] then [] else (if q[0] == r then [] else [q[0]]) + Removed(q[1..], r)
  }

  lemma {:induction false} RemovedMembers(q: seq<Ref>, r: Ref)
    ensures forall x :: x in Removed(q, r) <==> x in q && x != r
    ensures r !in q ==> Removed(q, r) == q
    ensures |Removed(q, r)| <= |q|
    ensures r in q ==> |Removed(q, r)| < |q|
    ensures NoDup(q) ==> NoDup(Removed(q, r))
  {
    if q != [] {
      RemovedMembers(q[1..], r);
      var rest := Removed(q[1..], r);
      if NoDup(q) {
        forall i, j | 0 <= i < j < |q[1..]| ensures q[1..][i] != q[1..][j] { assert q[i + 1] != q[j + 1]; }
        if q[0] != r {
          forall j | 0 <= j < |rest| ensures rest[j] != q[0] {
            assert rest[j] in q[1..];
            var k :| 0 <= k < |q[1..]| && q[1..][k] == rest[j];
            assert q[0] != q[k + 1];
          }
          var l := [q[0]] + rest;
          forall i, j | 0 <= i < j < |l| ensures l[i] != l[j] {
            if i > 0 { assert l[i] == rest[i - 1] && l[j] == rest[j - 1]; }
          }
        }
      }
    }
  }

  // The sockets of a group.
  function Members(socks: map<Ref, Sock>, g: GroupId): set<Ref> { set r | r in socks && socks[r].group == g }

  // A port at one moment.
  datatype Table = Table(
    socks: map<Ref, Sock>,          // every sock_state in memory
    tree: map<Handle, Ref>,         // sock_tree
    updates: seq<Ref>,              // sock_update_queue
    deleted: seq<Ref>,              // sock_deleted_queue
    kernel: set<Ref>,               // sock_states whose poll the kernel has not completed
    freed: set<Ref>,                // sock_states given back
    nextRef: Ref)

  ghost predicate Registered(t: Table, r: Ref) { r in t.socks && !t.socks[r].deletePending }

  // The socket needs a poll that is not under way.
  ghost predicate Needy(s: Sock)
  {
    s.status.Idle? || (s.status.Pending? && Uncovered(s.userEvents, s.pendingEvents) != {})
  }

  // In the predicates below `x` is the socket being taken apart, if any.

  ghost predicate TreeOk(t: Table, x: set<Ref>)
  {
    && (forall h | h in t.tree :: Registered(t, t.tree[h]) && t.socks[t.tree[h]].handle == h && t.tree[h] !in x)
    && (forall r | Registered(t, r) && r !in x :: t.socks[r].handle in t.tree && t.tree[t.socks[r].handle] == r)
  }

  ghost predicate QueuesOk(t: Table, x: set<Ref>)
  {
    && NoDup(t.updates) && NoDup(t.deleted)
    && (forall r | r in t.updates :: Registered(t, r) && r !in x)
    && (forall r | r in t.deleted :: r in t.socks && (r in x || t.socks[r].deletePending))
  }

  // Memory the kernel may write to is never given back; a deleted socket waits for its poll and for nothing else.
  ghost predicate KernelOk(t: Table, x: set<Ref>)
  {
    && (forall r | r in t.kernel :: r in t.socks && r !in x)
    && (forall r | r in t.socks && r !in x :: SockOk(t, r))
  }

  ghost predicate SockOk(t: Table, r: Ref)
    requires r in t.socks
  {
    var s := t.socks[r];
    && (r in t.kernel <==> !s.status.Idle?)
    && (!s.status.Pending? ==> s.pendingEvents == {})
    && (s.deletePending ==> r in t.deleted && !s.status.Idle?)
  }

  ghost predicate MemoryOk(t: Table)
  {
    && (forall r | r in t.socks :: r !in t.freed && r < t.nextRef)
    && (forall r | r in t.freed :: r < t.nextRef)
  }

  // Interest is never lost: who needs a poll is in the update queue.
  ghost predicate InterestOk(t: Table, x: set<Ref>)
  {
    forall r | Registered(t, r) && r !in x && Needy(t.socks[r]) :: r in t.updates
  }

  ghost predicate SizesOk(t: Table, sizes: Sizes)
  {
    && (forall r | r in t.socks :: t.socks[r].group in sizes)
    && (forall g | g in sizes :: sizes[g] == |Members(t.socks, g)|)
  }

  ghost predicate Ok(t: Table, sizes: Sizes, x: set<Ref>)
  {
    TreeOk(t, x) && QueuesOk(t, x) && KernelOk(t, x) && MemoryOk(t) && InterestOk(t, x) && SizesOk(t, sizes)
  }

  lemma MembersSame(socks: map<Ref, Sock>, r: Ref, s: Sock)
    requires r in socks && s.group == socks[r].group
    ensures forall g :: Members(socks[r := s], g) == Members(socks, g)
  {
  }

  lemma MembersLess(socks: map<Ref, Sock>, r: Ref)
    requires r in socks
    ensures var g := socks[r].group;
      && r in Members(socks, g) && |Members(socks - {r}, g)| == |Members(socks, g)| - 1
      && forall g' | g' != g :: Members(socks - {r}, g') == Members(socks, g')
  {
    var g := socks[r].group;
    assert Members(socks, g) == Members(socks - {r}, g) + {r};
    forall g' | g' != g ensures Members(socks - {r}, g') == Members(socks, g') {}
  }

  lemma MembersMore(socks: map<Ref, Sock>, r: Ref, s: Sock)
    requires r !in socks
    ensures |Members(socks[r := s], s.group)| == |Members(socks, s.group)| + 1
    ensures forall g' | g' != s.group :: Members(socks[r := s], g') == Members(socks, g')
  {
    assert Members(socks[r := s], s.group) == Members(socks, s.group) + {r};
    forall g' | g' != s.group ensures Members(socks[r := s], g') == Members(socks, g') {}
  }

  // All is well, except that `r` may be waiting to be queued.
  ghost predicate OkBut(t: Table, sizes: Sizes, r: Ref)
  {
    TreeOk(t, {}) && QueuesOk(t, {}) && KernelOk(t, {}) && MemoryOk(t) && InterestOk(t, {r}) && SizesOk(t, sizes)
  }

  lemma OkOkBut(t: Table, sizes: Sizes, r: Ref)
    requires Ok(t, sizes, {})
    ensures OkBut(t, sizes, r)
  {
  }

  // ---- taking a socket apart ----

  // Out of the tree and the update queue; its memory is no longer the kernel's business.
  function Unlinked(t: Table, r: Ref): Table
    requires r in t.socks
  {
    t.(socks := t.socks[r := t.socks[r].(deletePending := true)], tree := t.tree - {t.socks[r].handle},
       updates := Removed(t.updates, r), kernel := t.kernel - {r})
  }

  lemma UnlinkedOk(t: Table, sizes: Sizes, r: Ref)
    requires OkBut(t, sizes, r) && Registered(t, r)
    ensures Ok(Unlinked(t, r), sizes, {r})
  {
    UnlinkedTree(t, r);
    UnlinkedQueues(t, r);
    UnlinkedRest(t, sizes, r);
  }

  lemma UnlinkedTree(t: Table, r: Ref)
    requires TreeOk(t, {}) && Registered(t, r)
    ensures TreeOk(Unlinked(t, r), {r})
  {
  }

  lemma UnlinkedQueues(t: Table, r: Ref)
    requires QueuesOk(t, {}) && InterestOk(t, {r}) && Registered(t, r)
    ensures QueuesOk(Unlinked(t, r), {r}) && InterestOk(Unlinked(t, r), {r})
  {
    RemovedMembers(t.updates, r);
    hide Needy;
  }

  lemma UnlinkedRest(t: Table, sizes: Sizes, r: Ref)
    requires KernelOk(t, {}) && MemoryOk(t) && SizesOk(t, sizes) && Registered(t, r)
    ensures KernelOk(Unlinked(t, r), {r}) && MemoryOk(Unlinked(t, r)) && SizesOk(Unlinked(t, r), sizes)
  {
    MembersSame(t.socks, r, t.socks[r].(deletePending := true));
    hide Members;
    var t' := Unlinked(t, r);
    forall q | q in t'.socks && q !in {r} ensures SockOk(t', q) { assert SockOk(t, q); }
  }

  // Given back.
  function Gone(t: Table, r: Ref): Table
  {
    t.(socks := t.socks - {r}, deleted := Removed(t.deleted, r), freed := t.freed + {r})
  }

  lemma GoneOk(t: Table, sizes: Sizes, r: Ref)
    requires Ok(t, sizes, {r}) && r in t.socks && r !in t.kernel
    ensures t.socks[r].group in sizes && sizes[t.socks[r].group] > 0
    ensures var g := t.socks[r].group; Ok(Gone(t, r), sizes[g := sizes[g] - 1], {})
  {
    RemovedMembers(t.deleted, r);
    GoneSizes(t, sizes, r);
    GoneTree(t, r);
    GoneKernel(t, r);
  }

  lemma GoneSizes(t: Table, sizes: Sizes, r: Ref)
    requires SizesOk(t, sizes) && r in t.socks
    ensures t.socks[r].group in sizes && sizes[t.socks[r].group] > 0
    ensures var g := t.socks[r].group; SizesOk(Gone(t, r), sizes[g := sizes[g] - 1])
  {
    MembersLess(t.socks, r);
    hide Members;
  }

  lemma GoneTree(t: Table, r: Ref)
    requires TreeOk(t, {r}) && QueuesOk(t, {r}) && InterestOk(t, {r})
    ensures TreeOk(Gone(t, r), {}) && QueuesOk(Gone(t, r), {}) && InterestOk(Gone(t, r), {})
  {
    RemovedMembers(t.deleted, r);
    hide Needy;
  }

  lemma GoneKernel(t: Table, r: Ref)
    requires KernelOk(t, {r}) && MemoryOk(t) && r in t.socks && r !in t.kernel
    ensures KernelOk(Gone(t, r), {}) && MemoryOk(Gone(t, r))
  {
    RemovedMembers(t.deleted, r);
    var t' := Gone(t, r);
    forall q | q in t'.socks ensures SockOk(t', q) { assert SockOk(t, q); }
  }

  // Deleted while the kernel still holds its poll: it waits in the deleted queue.
  function Parked(t: Table, r: Ref): Table
    requires r in t.socks
  {
    t.(socks := t.socks[r := t.socks[r].(deletePending := true)], tree := t.tree - {t.socks[r].handle},
       updates := Removed(t.updates, r), deleted := t.deleted + [r])
  }

  lemma ParkedOk(t: Table, sizes: Sizes, r: Ref)
    requires OkBut(t, sizes, r) && Registered(t, r) && !t.socks[r].status.Idle?
    ensures Ok(Parked(t, r), sizes, {})
  {
    ParkedTree(t, r);
    ParkedQueues(t, r);
    ParkedRest(t, sizes, r);
  }

  lemma ParkedTree(t: Table, r: Ref)
    requires TreeOk(t, {}) && Registered(t, r)
    ensures TreeOk(Parked(t, r), {})
  {
  }

  lemma ParkedQueues(t: Table, r: Ref)
    requires QueuesOk(t, {}) && InterestOk(t, {r}) && Registered(t, r)
    ensures QueuesOk(Parked(t, r), {}) && InterestOk(Parked(t, r), {})
  {
    RemovedMembers(t.updates, r);
    hide Needy;
    assert r !in t.deleted;
  }

  lemma ParkedRest(t: Table, sizes: Sizes, r: Ref)
    requires KernelOk(t, {}) && MemoryOk(t) && SizesOk(t, sizes) && Registered(t, r) && !t.socks[r].status.Idle?
    ensures KernelOk(Parked(t, r), {}) && MemoryOk(Parked(t, r)) && SizesOk(Parked(t, r), sizes)
  {
    MembersSame(t.socks, r, t.socks[r].(deletePending := true));
    hide Members;
    var t' := Parked(t, r);
    forall q | q in t'.socks ensures SockOk(t', q) { assert SockOk(t, q); }
  }

  // ---- changing a socket in place ----

  // `s` becomes the content of `r`; `updates` differs from the old queue at most in `r`.
  function Revised(t: Table, r: Ref, s: Sock, updates: seq<Ref>): Table
  {
    t.(socks := t.socks[r := s], updates := updates,
       kernel := if s.status.Idle? then t.kernel - {r} else t.kernel + {r})
  }

  ghost predicate SameBut(q: seq<Ref>, q': seq<Ref>, r: Ref)
  {
    NoDup(q') && forall x | x != r :: x in q' <==> x in q
  }

  lemma RevisedOk(t: Table, sizes: Sizes, r: Ref, s: Sock, updates: seq<Ref>)
    requires OkBut(t, sizes, r) && Registered(t, r)
    requires s.handle == t.socks[r].handle && s.group == t.socks[r].group && !s.deletePending
    requires !s.status.Pending? ==> s.pendingEvents == {}
    requires SameBut(t.updates, updates, r) && (Needy(s) ==> r in updates)
    ensures Ok(Revised(t, r, s, updates), sizes, {})
  {
    RevisedTree(t, r, s, updates);
    RevisedQueues(t, r, s, updates);
    RevisedRest(t, sizes, r, s, updates);
  }

  lemma RevisedTree(t: Table, r: Ref, s: Sock, updates: seq<Ref>)
    requires TreeOk(t, {}) && Registered(t, r) && s.handle == t.socks[r].handle && !s.deletePending
    ensures TreeOk(Revised(t, r, s, updates), {})
  {
  }

  lemma RevisedQueues(t: Table, r: Ref, s: Sock, updates: seq<Ref>)
    requires QueuesOk(t, {}) && InterestOk(t, {r}) && Registered(t, r) && !s.deletePending
    requires SameBut(t.updates, updates, r) && (Needy(s) ==> r in updates)
    ensures QueuesOk(Revised(t, r, s, updates), {}) && InterestOk(Revised(t, r, s, updates), {})
  {
  }

  lemma RevisedRest(t: Table, sizes: Sizes, r: Ref, s: Sock, updates: seq<Ref>)
    requires KernelOk(t, {}) && MemoryOk(t) && SizesOk(t, sizes) && Registered(t, r)
    requires s.group == t.socks[r].group && !s.deletePending && (!s.status.Pending? ==> s.pendingEvents == {})
    ensures var t' := Revised(t, r, s, updates); KernelOk(t', {}) && MemoryOk(t') && SizesOk(t', sizes)
  {
    MembersSame(t.socks, r, s);
    hide Members;
    var t' := Revised(t, r, s, updates);
    forall q | q in t'.socks ensures SockOk(t', q) { assert SockOk(t, q); }
  }

  // ---- a new socket ----

  function Fresh(handle: Handle, g: GroupId): Sock { Sock(handle, g, {}, {}, Idle, false) }

  function Added(t: Table, handle: Handle, g: GroupId): Table
  {
    t.(socks := t.socks[t.nextRef := Fresh(handle, g)], tree := t.tree[handle := t.nextRef], nextRef := t.nextRef + 1)
  }

  lemma AddedOk(t: Table, sizes: Sizes, handle: Handle, g: GroupId)
    requires Ok(t, sizes, {}) && handle !in t.tree
    ensures t.nextRef !in t.socks
    ensures OkBut(Added(t, handle, g), sizes[g := 1 + if g in sizes then sizes[g] else 0], t.nextRef)
  {
    AddedTree(t, handle, g);
    AddedRest(t, handle, g);
    AddedSizes(t, sizes, handle, g);
  }

  lemma AddedTree(t: Table, handle: Handle, g: GroupId)
    requires TreeOk(t, {}) && QueuesOk(t, {}) && InterestOk(t, {}) && MemoryOk(t) && handle !in t.tree
    ensures var t' := Added(t, handle, g); TreeOk(t', {}) && QueuesOk(t', {}) && InterestOk(t', {t.nextRef})
  {
  }

  lemma AddedRest(t: Table, handle: Handle, g: GroupId)
    requires KernelOk(t, {}) && MemoryOk(t)
    ensures var t' := Added(t, handle, g); KernelOk(t', {}) && MemoryOk(t')
  {
  }

  lemma AddedSizes(t: Table, sizes: Sizes, handle: Handle, g: GroupId)
    requires SizesOk(t, sizes) && t.nextRef !in t.socks
    ensures SizesOk(Added(t, handle, g), sizes[g := 1 + if g in sizes then sizes[g] else 0])
  {
    MembersMore(t.socks, t.nextRef, Fresh(handle, g));
    if g !in sizes { assert Members(t.socks, g) == {}; }
    hide Members;
  }

  class Port {
    var socks: map<Ref, Sock>
    var tree: map<Handle, Ref>
    var updates: seq<Ref>
    var deleted: seq<Ref>
    ghost var kernel: set<Ref>
    ghost var freed: set<Ref>
    var nextRef: Ref
    const groups: Groups

    ghost function Now(): Table
      reads this
    {
      Table(socks, tree, updates, deleted, kernel, freed, nextRef)
    }

    ghost predicate Valid()
      reads this, groups
    {
      groups.Valid() && Ok(Now(), groups.sizes, {})
    }

    constructor ()
      ensures Valid() && socks == map[] && fresh(groups)
    {
      groups := new Groups();
      socks, tree, updates, deleted, kernel, freed, nextRef := map[], map[], [], [], {}, {}, 0;
    }

    // port_request_socket_update
    method RequestUpdate(r: Ref)
      requires NoDup(updates)
      modifies this`updates
      ensures updates == Requested(old(updates), deleted, r)
    {
      if r in updates || r in deleted { return; }
      updates := updates + [r];
    }

    // sock__cancel_poll; the system may refuse.
    method CancelPoll(r: Ref, granted: bool)
      requires groups.Valid() && OkBut(Now(), groups.sizes, r) && Registered(Now(), r) && socks[r].status.Pending?
      modifies this`socks
      ensures OkBut(Now(), groups.sizes, r) && (granted ==> Valid())
      ensures socks == Cancel(old(socks), r, granted)
    {
      hide TreeOk, QueuesOk, KernelOk, MemoryOk, InterestOk, SizesOk, Listed, FullFirst, Sum, AllFull;
      if !granted { return; }
      ghost var t := Now();
      var s := socks[r].(status := Cancelled, pendingEvents := {});
      Facts(t, groups.sizes, r);
      RevisedOk(t, groups.sizes, r, s, t.updates);
      assert t.kernel + {r} == t.kernel;
      socks := socks[r := s];
      OkOkBut(Now(), groups.sizes, r);
    }

    // sock_new
    method SockNew(handle: Handle, baseFound: bool, granted: bool, memory: bool) returns (r: Option<Ref>)
      requires Valid()
      modifies this`socks, this`tree, this`nextRef, groups
      ensures groups.Valid() && (r.Some? ==> OkBut(Now(), groups.sizes, r.value))
      ensures r.None? ==> Valid() && Now() == old(Now())
      ensures r.None? <==>
        || handle == 0 || handle == INVALID_SOCKET || handle in old(tree) || !baseFound || !memory
        || (AllFull(old(groups.queue), old(groups.sizes)) && !granted)
      ensures r.Some? ==>
        r.value !in old(socks) && r.value in socks && Now() == Added(old(Now()), handle, socks[r.value].group)
      ensures r.Some? ==> r.value == old(nextRef)
    {
      hide TreeOk, QueuesOk, KernelOk, MemoryOk, InterestOk, SizesOk, Listed, FullFirst, Sum, AllFull;
      if handle == 0 || handle == INVALID_SOCKET || !baseFound { return None; }
      var g := groups.Acquire(granted);
      if g.None? { return None; }
      if !memory || handle in tree {
        groups.Release(g.value);
        EmptyGroup(Now(), old(groups.sizes), groups.sizes, g.value);
        return None;
      }
      AddedOk(Now(), old(groups.sizes), handle, g.value);
      r := Some(nextRef);
      socks, tree, nextRef := socks[nextRef := Fresh(handle, g.value)], tree[handle := nextRef], nextRef + 1;
    }

    // sock_set_event
    method SetEvent(r: Ref, events: Events)
      requires groups.Valid() && OkBut(Now(), groups.sizes, r) && Registered(Now(), r)
      modifies this`socks, this`updates
      ensures Valid() && Now() == Asked(old(Now()), r, events)
    {
      hide TreeOk, QueuesOk, KernelOk, MemoryOk, InterestOk, SizesOk, Listed, FullFirst, Sum, AllFull;
      var all := events + {Err, Hup};
      var s := socks[r].(userEvents := all);
      ghost var t := Now();
      Facts(t, groups.sizes, r);
      if Uncovered(all, s.pendingEvents) != {} { RequestUpdate(r); }
      SetEventNeeds(s, events);
      RequestedSame(t.updates, t.deleted, r);
      RevisedOk(t, groups.sizes, r, s, updates);
      assert (if s.status.Idle? then kernel - {r} else kernel + {r}) == kernel;
      socks := socks[r := s];
    }

    // The end of sock__delete: the slot and the memory go back.
    method Free(r: Ref)
      requires groups.Valid() && Ok(Now(), groups.sizes, {r}) && r in socks && r !in kernel
      modifies this`socks, this`deleted, this`freed, groups
      ensures Valid() && Now() == Gone(old(Now()), r)
    {
      hide TreeOk, QueuesOk, KernelOk, MemoryOk, InterestOk, SizesOk, Listed, FullFirst, Sum, AllFull;
      GoneOk(Now(), groups.sizes, r);
      groups.Release(socks[r].group);
      deleted := Removed(deleted, r);
      socks := socks - {r};
      freed := freed + {r};
    }

    // sock__delete
    method SockDelete(r: Ref, force: bool, granted: bool)
      requires groups.Valid() && r in socks
      requires !socks[r].deletePending ==> OkBut(Now(), groups.sizes, r)
      requires socks[r].deletePending && force ==> Ok(Now(), groups.sizes, {})
      requires socks[r].deletePending && !force ==>
        Ok(Now(), groups.sizes, {r}) && socks[r].status.Idle? && r !in kernel
      modifies this, groups
      ensures Valid()
      ensures old(socks[r].status.Idle?) || force ==> Now() == Dropped(old(Now()), r)
      ensures !(old(socks[r].status.Idle?) || force) ==>
        Now() == Parked(old(Now().(socks := Cancel(socks, r, granted))), r)
    {
      hide TreeOk, QueuesOk, KernelOk, MemoryOk, InterestOk, SizesOk, Listed, FullFirst, Sum, AllFull;
      ghost var t0 := Now();
      if !socks[r].deletePending {
        if socks[r].status.Pending? { CancelPoll(r, granted); }
        ghost var t := Now();
        updates := Removed(updates, r);
        tree := tree - {socks[r].handle};
        socks := socks[r := socks[r].(deletePending := true)];
        if !force && !socks[r].status.Idle? {
          ParkedOk(t, groups.sizes, r);
          Facts(t, groups.sizes, r);
          deleted := deleted + [r];
          return;
        }
        UnlinkedOk(t, groups.sizes, r);
        kernel := kernel - {r};
        assert Now() == Unlinked(t, r);
      } else {
        if force { AbandonedOk(t0, groups.sizes, r); } else { assert kernel - {r} == kernel; }
        kernel := kernel - {r};
        NotListed(Now(), groups.sizes, r);
      }
      Free(r);
      assert socks == t0.socks - {r};
    }

    // sock_update
    method SockUpdate(r: Ref, submission: Submission, granted: bool) returns (ok: bool)
      requires Valid() && r in updates
      modifies this, groups
      ensures Valid() && r in old(socks) && ok == Answered(old(socks)[r], submission, granted)
      ensures !ok ==> Now() == old(Now())
      ensures ok ==> Now() == Updated(old(Now()), r, submission)
      ensures var s := old(socks)[r];
        && (ok && s.status.Idle? && submission == Submitted ==>
              r in kernel && r in socks && socks[r] == s.(status := Pending, pendingEvents := s.userEvents))
        && (ok && s.status.Idle? && submission == InvalidHandle ==> r !in socks && s.handle !in tree)
        && (ok && s.status.Pending? && Missing(s) ==>
              r in kernel && r in socks && socks[r] == s.(status := Cancelled, pendingEvents := {}))
        && (ok && !s.status.Idle? && !(s.status.Pending? && Missing(s)) ==> r in socks && socks[r] == s)
    {
      hide TreeOk, QueuesOk, KernelOk, MemoryOk, InterestOk, SizesOk, Listed, FullFirst, Sum, AllFull;
      ghost var t := Now();
      QueuedFacts(t, groups.sizes, r);
      RequestedSame(t.updates, t.deleted, r);
      var s := socks[r];
      MissingUncovered(s);
      if s.status.Pending? && Uncovered(s.userEvents, s.pendingEvents) == {} {
      } else if s.status.Pending? {
        CancelPoll(r, granted);
        if !granted { return false; }
      } else if s.status.Cancelled? {
      } else {
        if submission == InvalidHandle {
          SockDelete(r, false, false);
          return true;
        }
        if submission == SubmitError { return false; }
        kernel := kernel + {r};
        socks := socks[r := s.(status := Pending, pendingEvents := s.userEvents)];
      }
      assert t.socks[r := t.socks[r]] == t.socks;
      RevisedOk(t, groups.sizes, r, Polled(s), Removed(t.updates, r));
      updates := Removed(updates, r);
      assert t.kernel + {r} == kernel;
      return true;
    }

    // sock_feed_event
    method FeedEvent(r: Ref, c: Completion) returns (ev: Option<Events>)
      requires Valid() && r in kernel
      modifies this, groups
      ensures Valid() && r in old(socks)
      ensures var s := old(socks)[r];
        if s.deletePending || (c.Reported? && LocalClose in c.afd) then ev == None && Now() == Dropped(old(Now()), r)
        else
          && ev == (if Raised(c) * s.userEvents == {} then None else Some(Raised(c) * s.userEvents))
          && Now() == Revised(old(Now()), r, Reset(s, ev.Some?), Requested(old(updates), old(deleted), r))
      ensures var s := old(socks)[r];
        !s.deletePending && !(c.Reported? && LocalClose in c.afd) ==>
          && r in socks && r in updates && r !in kernel && socks[r].status.Idle? && socks[r].pendingEvents == {}
          && socks[r].userEvents == (if ev.Some? && OneShot in s.userEvents then {} else s.userEvents)
          && (c.WasCancelled? || c.NoHandles? ==> ev == None)
          && (c.Failed? ==> ev == if Err in s.userEvents then Some({Err}) else None)
          && (c.Reported? ==>
                forall e :: (ev.Some? && e in ev.value) <==> Told(c.afd, s.userEvents, e))
    {
      hide TreeOk, QueuesOk, KernelOk, MemoryOk, InterestOk, SizesOk, Listed, FullFirst, Sum, AllFull;
      ghost var t := Now();
      KernelFacts(t, groups.sizes, r);
      var s := socks[r].(status := Idle, pendingEvents := {});
      socks := socks[r := s];
      kernel := kernel - {r};
      if s.deletePending {
        CompletedOk(t, groups.sizes, r);
        SockDelete(r, false, false);
        assert socks == t.socks - {r};
        return None;
      } else if c.Reported? && LocalClose in c.afd {
        RevisedBut(t, groups.sizes, r, s);
        SockDelete(r, false, false);
        assert socks == t.socks - {r};
        return None;
      }
      ev := Report(r, Raised(c), t);
      InRequested(t, groups.sizes, r);
      ReportMeans(c, t.socks[r].userEvents, ev);
    }

    // The end of sock_feed_event: the socket is queued again and the events the user asked for are handed over.
    method Report(r: Ref, raised: Events, ghost t: Table) returns (ev: Option<Events>)
      requires groups.Valid() && OkBut(t, groups.sizes, r) && Registered(t, r)
      requires Now() == t.(socks := t.socks[r := Reset(t.socks[r], false)], kernel := t.kernel - {r})
      modifies this`socks, this`updates
      ensures Valid()
      ensures ev == (if raised * t.socks[r].userEvents == {} then None else Some(raised * t.socks[r].userEvents))
      ensures Now() == Revised(t, r, Reset(t.socks[r], ev.Some?), Requested(t.updates, t.deleted, r))
    {
      hide TreeOk, QueuesOk, KernelOk, MemoryOk, InterestOk, SizesOk, Listed, FullFirst, Sum, AllFull, Needy, Removed;
      Facts(t, groups.sizes, r);
      RequestedSame(t.updates, t.deleted, r);
      RequestUpdate(r);
      var s := socks[r];
      var events := raised * s.userEvents;
      if events != {} {
        if OneShot in s.userEvents { socks := socks[r := s.(userEvents := {})]; }
        ev := Some(events);
      } else {
        ev := None;
      }
      assert socks == t.socks[r := Reset(t.socks[r], ev.Some?)];
      RevisedOk(t, groups.sizes, r, Reset(t.socks[r], ev.Some?), updates);
    }

    // port__update_events; the system's answers are given per socket, since each is updated at most once.
    method UpdateEvents(submissions: Ref -> Submission, grants: Ref -> bool) returns (ok: bool)
      requires Valid()
      modifies this, groups
      ensures Valid()
      ensures ok <==>
        forall r | r in old(updates) :: r in old(socks) && Answered(old(socks)[r], submissions(r), grants(r))
      ensures ok ==> updates == [] && forall r | Registered(Now(), r) :: r in kernel && Served(socks[r])
      ensures forall r | r in old(socks) && r !in old(updates) :: r in socks && socks[r] == old(socks)[r]
      ensures Now() == Settled(old(Now()), submissions, grants)
      ensures forall r | r in socks && r in old(socks) :: Fate(old(socks)[r], socks[r])
    {
      hide TreeOk, QueuesOk, KernelOk, MemoryOk, InterestOk, SizesOk, Listed, FullFirst, Sum, AllFull, Served,
           Answered, Removed;
      ghost var t0, k := Now(), 0;
      while updates != []
        invariant Valid() && 0 <= k <= |t0.updates| && updates == t0.updates[k..]
        invariant Untouched(t0, socks, t0.updates[..k])
        invariant Settled(Now(), submissions, grants) == Settled(t0, submissions, grants)
        invariant forall r | r in t0.updates[..k] :: r in t0.socks && Answered(t0.socks[r], submissions(r), grants(r))
        decreases |updates|
      {
        ghost var t := Now();
        var r := updates[0];
        NextQueued(t0, t, k);
        SettledNext(t, submissions, grants);
        var done := SockUpdate(r, submissions(r), grants(r));
        assert r in t0.updates;
        if !done {
          SettledFates(t0, submissions, grants);
          return false;
        }
        UpdatedUntouched(t0, t, r, submissions(r), k);
        k := k + 1;
      }
      assert t0.updates[..k] == t0.updates;
      SettledNext(Now(), submissions, grants);
      SettledFates(t0, submissions, grants);
      QuietServed(Now(), groups.sizes);
      return true;
    }

    // port__ctl_add; `polling` when some thread is waiting on the port.
    method CtlAdd(handle: Handle, events: Events, baseFound: bool, granted: bool, memory: bool,
                  polling: bool, submissions: Ref -> Submission, grants: Ref -> bool)
      returns (ok: bool, ghost g: GroupId)
      requires Valid()
      modifies this, groups
      ensures Valid() && old(nextRef) !in old(socks)
      ensures !ok <==>
        || handle == 0 || handle == INVALID_SOCKET || handle in old(tree) || !baseFound || !memory
        || (AllFull(old(groups.queue), old(groups.sizes)) && !granted)
      ensures !ok ==> Now() == old(Now())
      ensures ok ==>
        var t := Asked(Added(old(Now()), handle, g), old(nextRef), events);
        Now() == (if polling then Settled(t, submissions, grants) else t) && old(nextRef) in t.updates
      ensures ok && old(nextRef) in socks ==> socks[old(nextRef)].userEvents == events + {Err, Hup}
    {
      hide TreeOk, QueuesOk, KernelOk, MemoryOk, InterestOk, SizesOk, Listed, FullFirst, Sum, AllFull, Removed, Served,
           Settled;
      NewRef(Now(), groups.sizes);
      var r := SockNew(handle, baseFound, granted, memory);
      if r.None? { return false, 0; }
      g := socks[r.value].group;
      SetEvent(r.value, events);
      IdleQueued(Now(), groups.sizes, r.value);
      SettledKeeps(Now(), submissions, grants, r.value);
      if polling { var _ := UpdateEvents(submissions, grants); }
      return true, g;
    }

    // port__ctl_mod
    method CtlMod(handle: Handle, events: Events, polling: bool, submissions: Ref -> Submission, grants: Ref -> bool)
      returns (ok: bool)
      requires Valid()
      modifies this, groups
      ensures Valid() && (ok <==> handle in old(tree))
      ensures !ok ==> Now() == old(Now())
      ensures ok ==> old(tree)[handle] in old(socks)
      ensures ok ==>
        var t := Asked(old(Now()), old(tree)[handle], events);
        Now() == if polling then Settled(t, submissions, grants) else t
      ensures ok && old(tree)[handle] in socks ==> socks[old(tree)[handle]].userEvents == events + {Err, Hup}
    {
      hide TreeOk, QueuesOk, KernelOk, MemoryOk, InterestOk, SizesOk, Listed, FullFirst, Sum, AllFull, Removed, Served,
           Settled;
      if handle !in tree { return false; }
      TreeFacts(Now(), groups.sizes, handle);
      var r := tree[handle];
      SetEvent(r, events);
      SettledKeeps(Now(), submissions, grants, r);
      if polling { var _ := UpdateEvents(submissions, grants); }
      return true;
    }

    // port__ctl_del
    method CtlDel(handle: Handle, granted: bool) returns (ok: bool)
      requires Valid()
      modifies this, groups
      ensures Valid() && (ok <==> handle in old(tree)) && tree == old(tree) - {handle}
      ensures !ok ==> Now() == old(Now())
      ensures ok ==> var r := old(tree)[handle];
        && r in old(socks) && kernel == old(kernel) && r !in updates
        && (if r in old(kernel) then r in socks && r in deleted && freed == old(freed) else freed == old(freed) + {r})
    {
      hide TreeOk, QueuesOk, KernelOk, MemoryOk, InterestOk, SizesOk, Listed, FullFirst, Sum, AllFull, Removed;
      if handle !in tree { return false; }
      var r := tree[handle];
      TreeFacts(Now(), groups.sizes, handle);
      Facts(Now(), groups.sizes, r);
      RemovedMembers(updates, r);
      if r !in kernel { assert kernel - {r} == kernel; }
      SockDelete(r, false, granted);
      return true;
    }

    // port_delete
    method Delete(grants: Ref -> bool)
      requires Valid()
      modifies this, groups
      ensures Valid() && socks == map[] && tree == map[] && updates == [] && deleted == []
      ensures freed == old(freed) + old(socks).Keys
      ensures forall g | g in groups.sizes :: groups.sizes[g] == 0
    {
      hide TreeOk, QueuesOk, KernelOk, MemoryOk, InterestOk, SizesOk, Listed, FullFirst, Sum, AllFull, Removed;
      DeleteTree(grants);
      DeleteParked(grants);
      AllGone(Now(), groups.sizes);
    }

    // The registered sockets.
    method DeleteTree(grants: Ref -> bool)
      requires Valid()
      modifies this, groups
      ensures Valid() && tree == map[] && freed + socks.Keys == old(freed + socks.Keys)
    {
      hide TreeOk, QueuesOk, KernelOk, MemoryOk, InterestOk, SizesOk, Listed, FullFirst, Sum, AllFull, Removed, Dropped;
      while tree != map[]
        invariant Valid() && freed + socks.Keys == old(freed + socks.Keys)
        decreases |tree|
      {
        var h :| h in tree;
        TreeFacts(Now(), groups.sizes, h);
        DroppedFacts(Now(), tree[h]);
        SockDelete(tree[h], true, grants(tree[h]));
      }
    }

    // The sockets deleted before.
    method DeleteParked(grants: Ref -> bool)
      requires Valid() && tree == map[]
      modifies this, groups
      ensures Valid() && tree == map[] && deleted == [] && freed + socks.Keys == old(freed + socks.Keys)
    {
      hide TreeOk, QueuesOk, KernelOk, MemoryOk, InterestOk, SizesOk, Listed, FullFirst, Sum, AllFull, Removed, Dropped;
      while deleted != []
        invariant Valid() && tree == map[] && freed + socks.Keys == old(freed + socks.Keys)
        decreases |deleted|
      {
        var r := deleted[0];
        DeletedFacts(Now(), groups.sizes, r);
        DroppedFacts(Now(), r);
        SockDelete(r, true, grants(r));
      }
    }
  }

  // An event the user asked for is not watched by the poll under way; the one-shot flag and unknown bits are no events.
  ghost predicate Missing(s: Sock)
  {
    exists e :: e in s.userEvents && !e.OneShot? && !e.Other? && e !in s.pendingEvents
  }

  lemma MissingUncovered(s: Sock)
    ensures Missing(s) <==> Uncovered(s.userEvents, s.pendingEvents) != {}
  {
    if e :| e in s.userEvents && !e.OneShot? && !e.Other? && e !in s.pendingEvents {
      assert e in Uncovered(s.userEvents, s.pendingEvents);
    }
    if e :| e in Uncovered(s.userEvents, s.pendingEvents) {}
  }

  // The system let sock_update do what the socket needed.
  predicate Answered(s: Sock, submission: Submission, granted: bool)
  {
    match s.status
    case Idle => submission != SubmitError
    case Pending => granted || Uncovered(s.userEvents, s.pendingEvents) == {}
    case Cancelled => true
  }

  // A socket after sock_update.
  function Polled(s: Sock): Sock
  {
    match s.status
    case Idle => s.(status := Pending, pendingEvents := s.userEvents)
    case Pending =>
      if Uncovered(s.userEvents, s.pendingEvents) == {} then s else s.(status := Cancelled, pendingEvents := {})
    case Cancelled => s
  }

  function Updated(t: Table, r: Ref, submission: Submission): Table
    requires r in t.socks
  {
    if t.socks[r].status.Idle? && submission == InvalidHandle then Dropped(t, r)
    else Revised(t, r, Polled(t.socks[r]), Removed(t.updates, r))
  }

  // A socket whose poll came back; `told` when events go to the user.
  function Reset(s: Sock, told: bool): Sock
  {
    s.(status := Idle, pendingEvents := {}, userEvents := if told && OneShot in s.userEvents then {} else s.userEvents)
  }

  lemma QueuedFacts(t: Table, sizes: Sizes, r: Ref)
    requires Ok(t, sizes, {}) && r in t.updates
    ensures Registered(t, r) && OkBut(t, sizes, r) && SockOk(t, r) && NoDup(t.updates)
    ensures Removed(t.deleted, r) == t.deleted
  {
    RemovedMembers(t.deleted, r);
  }

  lemma KernelFacts(t: Table, sizes: Sizes, r: Ref)
    requires Ok(t, sizes, {}) && r in t.kernel
    ensures r in t.socks && OkBut(t, sizes, r)
  {
  }

  // The poll of a deleted socket comes back.
  lemma CompletedOk(t: Table, sizes: Sizes, r: Ref)
    requires Ok(t, sizes, {}) && r in t.socks && t.socks[r].deletePending
    ensures var s := t.socks[r].(status := Idle, pendingEvents := {});
      Ok(t.(socks := t.socks[r := s], kernel := t.kernel - {r}), sizes, {r})
  {
    hide TreeOk, QueuesOk, InterestOk, KernelOk, MemoryOk, SizesOk;
    var s := t.socks[r].(status := Idle, pendingEvents := {});
    AbandonedOk(t, sizes, r);
    var t1 := t.(kernel := t.kernel - {r});
    ReplacedTree(t1, r, s);
    ReplacedRest(t1, sizes, r, s);
  }

  lemma ReplacedTree(t: Table, r: Ref, s: Sock)
    requires TreeOk(t, {r}) && QueuesOk(t, {r}) && InterestOk(t, {r}) && r in t.socks && s.deletePending
    requires t.socks[r].deletePending
    ensures var t' := t.(socks := t.socks[r := s]); TreeOk(t', {r}) && QueuesOk(t', {r}) && InterestOk(t', {r})
  {
  }

  lemma ReplacedRest(t: Table, sizes: Sizes, r: Ref, s: Sock)
    requires KernelOk(t, {r}) && MemoryOk(t) && SizesOk(t, sizes) && r in t.socks && s.group == t.socks[r].group
    ensures var t' := t.(socks := t.socks[r := s]); KernelOk(t', {r}) && MemoryOk(t') && SizesOk(t', sizes)
  {
    MembersSame(t.socks, r, s);
    hide Members;
    var t' := t.(socks := t.socks[r := s]);
    forall q | q in t'.socks && q !in {r} ensures SockOk(t', q) { assert SockOk(t, q); }
  }

  // The poll of a registered socket comes back.
  lemma RevisedBut(t: Table, sizes: Sizes, r: Ref, s: Sock)
    requires OkBut(t, sizes, r) && Registered(t, r) && s == t.socks[r].(status := Idle, pendingEvents := {})
    ensures OkBut(t.(socks := t.socks[r := s], kernel := t.kernel - {r}), sizes, r)
  {
    RevisedTree(t, r, s, t.updates);
    RevisedRest(t, sizes, r, s, t.updates);
    var t' := t.(socks := t.socks[r := s], kernel := t.kernel - {r});
    assert t' == Revised(t, r, s, t.updates);
    hide Members, Needy, TreeOk, KernelOk, SizesOk;
    assert InterestOk(t', {r}) && QueuesOk(t', {});
  }

  // A socket torn out of everything.
  function Dropped(t: Table, r: Ref): Table
    requires r in t.socks
  {
    t.(socks := t.socks - {r}, tree := if t.socks[r].deletePending then t.tree else t.tree - {t.socks[r].handle},
       updates := Removed(t.updates, r), deleted := Removed(t.deleted, r),
       kernel := t.kernel - {r}, freed := t.freed + {r})
  }

  lemma DroppedFacts(t: Table, r: Ref)
    requires r in t.socks
    ensures var t' := Dropped(t, r);
      && t'.freed + t'.socks.Keys == t.freed + t.socks.Keys
      && t'.deleted == Removed(t.deleted, r)
      && (t.socks[r].deletePending ==> t'.tree == t.tree)
      && (!t.socks[r].deletePending && t.socks[r].handle in t.tree ==> |t'.tree| < |t.tree|)
  {
    hide Removed;
    KeysMoved(t.freed, t.socks, r);
    if t.socks[r].handle in t.tree { OneLess(t.tree, t.socks[r].handle); }
  }

  lemma KeysMoved(freed: set<Ref>, socks: map<Ref, Sock>, r: Ref)
    requires r in socks
    ensures freed + {r} + (socks - {r}).Keys == freed + socks.Keys
  {
    assert (socks - {r}).Keys == socks.Keys - {r};
  }

  lemma OneLess(tree: map<Handle, Ref>, h: Handle)
    requires h in tree
    ensures |tree - {h}| < |tree|
  {
    assert (tree - {h}).Keys == tree.Keys - {h};
    assert |tree - {h}| == |(tree - {h}).Keys| && |tree| == |tree.Keys|;
  }

  // sock_set_event
  function Asked(t: Table, r: Ref, events: Events): Table
    requires r in t.socks
  {
    var s := t.socks[r].(userEvents := events + {Err, Hup});
    t.(socks := t.socks[r := s],
       updates := if Uncovered(s.userEvents, s.pendingEvents) != {}
                  then Requested(t.updates, t.deleted, r) else t.updates)
  }

  lemma InRequested(t: Table, sizes: Sizes, r: Ref)
    requires Ok(t, sizes, {}) && Registered(t, r)
    ensures r in Requested(t.updates, t.deleted, r)
  {
  }

  lemma ReportMeans(c: Completion, user: Events, ev: Option<Events>)
    requires ev == (if Raised(c) * user == {} then None else Some(Raised(c) * user))
    ensures c.WasCancelled? || c.NoHandles? ==> ev == None
    ensures c.Failed? ==> ev == if Err in user then Some({Err}) else None
    ensures c.Reported? ==> forall e :: (ev.Some? && e in ev.value) <==> Told(c.afd, user, e)
  {
    hide Meaning;
    if c.Failed? { assert {Err} * user == if Err in user then {Err} else {}; }
    if c.Reported? {
      forall e ensures (ev.Some? && e in ev.value) <==> Told(c.afd, user, e) {
        MeaningEach(c.afd, e);
        assert e in Raised(c) * user <==> e in Meaning(c.afd) && e in user;
      }
    }
  }

  // port__update_events: the queue is served from the front, up to the first socket the system does not answer.
  ghost function Settled(t: Table, submissions: Ref -> Submission, grants: Ref -> bool): Table
    decreases |t.updates|
  {
    if
      || t.updates == [] || t.updates[0] !in t.socks
      || !Answered(t.socks[t.updates[0]], submissions(t.updates[0]), grants(t.updates[0]))
    then t
    else
      RemovedMembers(t.updates, t.updates[0]);
      Settled(Updated(t, t.updates[0], submissions(t.updates[0])), submissions, grants)
  }

  lemma SettledNext(t: Table, submissions: Ref -> Submission, grants: Ref -> bool)
    ensures t.updates == [] ==> Settled(t, submissions, grants) == t
    ensures t.updates != [] && t.updates[0] in t.socks ==>
      var r := t.updates[0];
      Settled(t, submissions, grants) ==
      if Answered(t.socks[r], submissions(r), grants(r))
      then Settled(Updated(t, r, submissions(r)), submissions, grants) else t
  {
    hide Answered, Updated, Removed;
  }

  // What may become of a socket when the queue is served: an idle one gets a poll for all it wants, a poll that misses
  // something is cancelled, and nothing else changes.
  ghost predicate Fate(s: Sock, s': Sock)
  {
    || s' == s
    || (s.status.Idle? && s' == s.(status := Pending, pendingEvents := s.userEvents))
    || (s.status.Pending? && Missing(s) && s' == s.(status := Cancelled, pendingEvents := {}))
  }

  lemma FatePolled(s: Sock)
    ensures Fate(s, Polled(s)) && Polled(Polled(s)) == Polled(s)
  {
    MissingUncovered(s);
    hide Missing;
  }

  lemma {:induction false} SettledFate(t: Table, submissions: Ref -> Submission, grants: Ref -> bool, x: Ref)
    requires x in t.socks
    ensures var t' := Settled(t, submissions, grants);
      x in t'.socks ==> t'.socks[x] == t.socks[x] || t'.socks[x] == Polled(t.socks[x])
    decreases |t.updates|
  {
    hide Answered, Removed, Polled;
    if t.updates != [] && t.updates[0] in t.socks {
      var r := t.updates[0];
      if Answered(t.socks[r], submissions(r), grants(r)) {
        var t1 := Updated(t, r, submissions(r));
        RemovedMembers(t.updates, r);
        FatePolled(t.socks[x]);
        if x in t1.socks { SettledFate(t1, submissions, grants, x); } else { SettledGone(t1, submissions, grants, x); }
      }
    }
  }

  lemma SettledFates(t: Table, submissions: Ref -> Submission, grants: Ref -> bool)
    ensures forall r | r in t.socks && r in Settled(t, submissions, grants).socks ::
      Fate(t.socks[r], Settled(t, submissions, grants).socks[r])
  {
    hide Settled, Polled, Fate;
    forall r | r in t.socks && r in Settled(t, submissions, grants).socks
      ensures Fate(t.socks[r], Settled(t, submissions, grants).socks[r])
    {
      SettledFate(t, submissions, grants, r);
      FatePolled(t.socks[r]);
      FateSame(t.socks[r]);
    }
  }

  lemma FateSame(s: Sock)
    ensures Fate(s, s)
  {
  }

  // A socket that is still there afterwards watches what it watched.
  lemma {:induction false} SettledKeeps(t: Table, submissions: Ref -> Submission, grants: Ref -> bool, x: Ref)
    requires x in t.socks
    ensures x in Settled(t, submissions, grants).socks ==>
      Settled(t, submissions, grants).socks[x].userEvents == t.socks[x].userEvents
    decreases |t.updates|
  {
    hide Answered, Removed;
    if t.updates != [] && t.updates[0] in t.socks {
      var r := t.updates[0];
      if Answered(t.socks[r], submissions(r), grants(r)) {
        var t' := Updated(t, r, submissions(r));
        RemovedMembers(t.updates, r);
        if x in t'.socks { SettledKeeps(t', submissions, grants, x); } else { SettledGone(t', submissions, grants, x); }
      }
    }
  }

  lemma {:induction false} SettledGone(t: Table, submissions: Ref -> Submission, grants: Ref -> bool, x: Ref)
    requires x !in t.socks
    ensures x !in Settled(t, submissions, grants).socks
    decreases |t.updates|
  {
    hide Answered, Removed;
    if t.updates != [] && t.updates[0] in t.socks {
      var r := t.updates[0];
      if Answered(t.socks[r], submissions(r), grants(r)) {
        RemovedMembers(t.updates, r);
        SettledGone(Updated(t, r, submissions(r)), submissions, grants, x);
      }
    }
  }

  lemma NewRef(t: Table, sizes: Sizes)
    requires Ok(t, sizes, {})
    ensures t.nextRef !in t.socks
  {
  }

  function Cancel(socks: map<Ref, Sock>, r: Ref, granted: bool): map<Ref, Sock>
    requires r in socks
  {
    if granted && socks[r].status.Pending? then socks[r := socks[r].(status := Cancelled, pendingEvents := {})]
    else socks
  }

  function Requested(updates: seq<Ref>, deleted: seq<Ref>, r: Ref): seq<Ref>
  {
    if r in updates || r in deleted then updates else updates + [r]
  }

  lemma RequestedSame(updates: seq<Ref>, deleted: seq<Ref>, r: Ref)
    requires NoDup(updates)
    ensures SameBut(updates, updates, r) && SameBut(updates, Requested(updates, deleted, r), r)
    ensures SameBut(updates, Removed(updates, r), r)
    ensures r !in deleted ==> r in Requested(updates, deleted, r)
    ensures r !in Removed(updates, r) && (r in updates ==> |Removed(updates, r)| < |updates|)
  {
    RemovedMembers(updates, r);
  }

  // What the invariant says of one registered socket.
  lemma Facts(t: Table, sizes: Sizes, r: Ref)
    requires OkBut(t, sizes, r) && Registered(t, r)
    ensures r !in t.deleted && SockOk(t, r) && NoDup(t.updates)
    ensures t.socks[r].handle in t.tree && t.tree[t.socks[r].handle] == r
    ensures t.socks[r].group in sizes
  {
  }

  // An idle or cancelled socket has nothing pending, so the events asked for are uncovered.
  lemma SetEventNeeds(s: Sock, events: Events)
    requires s.userEvents == events + {Err, Hup} && (!s.status.Pending? ==> s.pendingEvents == {})
    ensures Needy(s) ==> Uncovered(s.userEvents, s.pendingEvents) != {}
  {
    assert Err in s.userEvents && Known(Err);
    if s.pendingEvents == {} { assert Err in Uncovered(s.userEvents, s.pendingEvents); }
  }

  // The port closes its completion port: nothing is heard of the poll of `r` any more.
  lemma AbandonedOk(t: Table, sizes: Sizes, r: Ref)
    requires Ok(t, sizes, {}) && r in t.socks && t.socks[r].deletePending
    ensures Ok(t.(kernel := t.kernel - {r}), sizes, {r})
  {
    var t' := t.(kernel := t.kernel - {r});
    assert InterestOk(t', {r}) && TreeOk(t', {r}) && QueuesOk(t', {r});
    forall q | q in t'.socks && q !in {r} ensures SockOk(t', q) { assert SockOk(t, q); }
  }

  lemma NotListed(t: Table, sizes: Sizes, r: Ref)
    requires Ok(t, sizes, {r})
    ensures r !in t.updates && Removed(t.updates, r) == t.updates
  {
    RemovedMembers(t.updates, r);
  }

  // Nothing more to ask of the kernel: a poll for all that the user wants is under way, or the one under way is
  // cancelled and its completion queues the socket again.
  ghost predicate Served(s: Sock)
  {
    s.status.Cancelled? || (s.status.Pending? && Uncovered(s.userEvents, s.pendingEvents) == {})
  }

  lemma QuietServed(t: Table, sizes: Sizes)
    requires Ok(t, sizes, {}) && t.updates == []
    ensures forall r | Registered(t, r) :: r in t.kernel && Served(t.socks[r])
  {
  }

  ghost predicate Untouched(t0: Table, socks: map<Ref, Sock>, done: seq<Ref>)
  {
    forall r | r in t0.socks && r !in done :: r in socks && socks[r] == t0.socks[r]
  }

  lemma NextQueued(t0: Table, t: Table, k: nat)
    requires k < |t0.updates| && t.updates == t0.updates[k..] && Untouched(t0, t.socks, t0.updates[..k])
    requires QueuesOk(t0, {})
    ensures var r := t.updates[0]; r in t.socks && r in t0.socks && t.socks[r] == t0.socks[r] && r in t0.updates
    ensures Removed(t.updates, t.updates[0]) == t0.updates[k + 1..]
  {
    var r := t.updates[0];
    assert r == t0.updates[k] && r in t0.updates && Registered(t0, r);
    assert forall i | 0 <= i < k :: t0.updates[..k][i] == t0.updates[i];
    assert r !in t0.updates[..k];
    RemovedMembers(t.updates[1..], r);
    assert t.updates[1..] == t0.updates[k + 1..];
  }

  lemma UpdatedUntouched(t0: Table, t: Table, r: Ref, submission: Submission, k: nat)
    requires k < |t0.updates| && r == t0.updates[k] && r in t.socks && Untouched(t0, t.socks, t0.updates[..k])
    ensures Untouched(t0, Updated(t, r, submission).socks, t0.updates[..k + 1])
    ensures t0.updates[..k + 1] == t0.updates[..k] + [r]
  {
  }

  lemma IdleQueued(t: Table, sizes: Sizes, r: Ref)
    requires Ok(t, sizes, {}) && Registered(t, r) && t.socks[r].status.Idle?
    ensures r in t.updates
  {
  }

  lemma TreeFacts(t: Table, sizes: Sizes, h: Handle)
    requires Ok(t, sizes, {}) && h in t.tree
    ensures var r := t.tree[h]; Registered(t, r) && OkBut(t, sizes, r) && t.socks[r].handle == h
  {
  }

  lemma DeletedFacts(t: Table, sizes: Sizes, r: Ref)
    requires Ok(t, sizes, {}) && r in t.deleted
    ensures r in t.socks && t.socks[r].deletePending && |Removed(t.deleted, r)| < |t.deleted|
  {
    RemovedMembers(t.deleted, r);
  }

  lemma EmptyOrHead(q: seq<Ref>)
    ensures q == [] || q[0] in q
  {
  }

  lemma AllGone(t: Table, sizes: Sizes)
    requires Ok(t, sizes, {}) && t.tree == map[] && t.deleted == []
    ensures t.socks == map[] && t.updates == [] && forall g | g in sizes :: sizes[g] == 0
  {
    EmptyOrHead(t.updates);
    assert forall r | r in t.socks :: SockOk(t, r);
    assert t.socks.Keys == {};
    forall g | g in sizes ensures sizes[g] == 0 { assert Members(t.socks, g) == {}; }
  }

  // A slot taken and given back changes no size; a group started in between is empty.
  lemma EmptyGroup(t: Table, sizes: Sizes, sizes': Sizes, g: GroupId)
    requires SizesOk(t, sizes)
    requires sizes' == sizes[g := if g in sizes then sizes[g] else 0]
    ensures SizesOk(t, sizes')
  {
  }
}
