// Three ways to watch channels, over epoll, kqueue and poll; each keeps the same map from descriptors to events.
module Pollers {
  datatype Ev = In | Pri | Out
  type Events = set<Ev>

  const NEW := -1
  const ADDED := 1
  const DELETED := 2

  class Channel {
    const fd: int
    var events: Events
    var index: int

    constructor (fd: int)
      ensures this.fd == fd && events == {} && index == NEW
    {
      this.fd, events, index := fd, {}, NEW;
    }
  }

  ghost predicate ChannelsOk(channels: map<int, Channel>, want: map<int, Events>)
    reads channels.Values
  {
    && want.Keys == channels.Keys
    && (forall fd | fd in channels :: fd >= 0 && channels[fd].fd == fd)
  }

  class EpollPoller {
    var channels: map<int, Channel>
    var kernel: map<int, Events>       // the epoll set
    ghost var want: map<int, Events>

    ghost predicate Valid()
      reads this, channels.Values
    {
      && ChannelsOk(channels, want)
      && kernel.Keys <= channels.Keys
      && (forall fd | fd in channels :: channels[fd].index == ADDED || channels[fd].index == DELETED)
      && (forall fd | fd in channels && channels[fd].index == ADDED :: fd in kernel && kernel[fd] == want[fd])
      && (forall fd | fd in channels && channels[fd].index == DELETED :: fd !in kernel && want[fd] == {})
    }

    constructor ()
      ensures Valid() && channels == map[] && want == map[]
    {
      channels, kernel, want := map[], map[], map[];
    }

    // Exactly what is wanted is watched, descriptors without events aside.
    lemma WatchExact(fd: int, e: Events)
      requires Valid() && e != {}
      ensures (fd in kernel && kernel[fd] == e) <==> fd in want && want[fd] == e
    {
    }

    // epoll_ctl: adding what is there, or changing or deleting what is not, would fail.
    method CtlAdd(channel: Channel)
      requires channel.fd !in kernel
      modifies this`kernel
      ensures kernel == old(kernel)[channel.fd := channel.events]
    {
      kernel := kernel[channel.fd := channel.events];
    }

    method CtlMod(channel: Channel)
      requires channel.fd in kernel
      modifies this`kernel
      ensures kernel == old(kernel)[channel.fd := channel.events]
    {
      kernel := kernel[channel.fd := channel.events];
    }

    method CtlDel(channel: Channel)
      requires channel.fd in kernel
      modifies this`kernel
      ensures kernel == old(kernel) - {channel.fd}
    {
      kernel := kernel - {channel.fd};
    }

    method UpdateChannel(channel: Channel)
      requires Valid() && channel.fd >= 0
      requires
        if channel.index == NEW then channel.fd !in channels
        else channel.fd in channels && channels[channel.fd] == channel
      modifies this, channel`index
      ensures Valid() && want == old(want)[channel.fd := channel.events]
      ensures channels == old(channels)[channel.fd := channel]
      ensures channel.index == (if old(channel.index) == ADDED && channel.events == {} then DELETED else ADDED)
      ensures channel.fd in kernel <==> channel.events != {} || old(channel.index) != ADDED
    {
      if channel.index == NEW || channel.index == DELETED {
        Enter(channel);
      } else {
        Change(channel);
      }
    }

    method Enter(channel: Channel)
      requires Valid() && channel.fd >= 0 && (channel.index == NEW || channel.index == DELETED)
      requires if channel.index == NEW then channel.fd !in channels
               else channel.fd in channels && channels[channel.fd] == channel
      modifies this, channel`index
      ensures Valid() && want == old(want)[channel.fd := channel.events]
      ensures channels == old(channels)[channel.fd := channel]
      ensures channel.index == ADDED && channel.fd in kernel
    {
      channels := channels[channel.fd := channel];
      channel.index := ADDED;
      CtlAdd(channel);
      want := want[channel.fd := channel.events];
    }

    method Change(channel: Channel)
      requires Valid() && channel.fd in channels && channels[channel.fd] == channel && channel.index == ADDED
      modifies this`kernel, this`want, channel`index
      ensures Valid() && want == old(want)[channel.fd := channel.events]
      ensures channel.index == (if channel.events == {} then DELETED else ADDED)
      ensures channel.fd in kernel <==> channel.events != {}
    {
      if channel.events == {} {
        CtlDel(channel);
        channel.index := DELETED;
      } else {
        CtlMod(channel);
      }
      want := want[channel.fd := channel.events];
    }

    method RemoveChannel(channel: Channel)
      requires Valid() && channel.fd in channels && channels[channel.fd] == channel && channel.events == {}
      modifies this, channel`index
      ensures Valid() && want == old(want) - {channel.fd} && channels == old(channels) - {channel.fd}
      ensures channel.index == NEW
    {
      if channel.index == ADDED { CtlDel(channel); }
      channels := channels - {channel.fd};
      want := want - {channel.fd};
      channel.index := NEW;
    }
  }

  // ---- kqueue ----

  datatype Filter = Read | Write

  function Filters(e: Events): set<Filter>
  {
    (if In in e || Pri in e then {Read} else {}) + (if Out in e then {Write} else {})
  }

  ghost predicate IndexOf(channel: Channel, e: Events)
    reads channel
  {
    channel.index == ADDED || (channel.index == DELETED && e == {})
  }

  lemma EmptyOrNot(s: set<int>)
    ensures s == {} || exists x :: x in s
  {
    if forall x :: x !in s { assert s == {}; }
  }

  class KQueue {
    var channels: map<int, (Events, Channel)>
    var kernel: set<(int, Filter)>
    ghost var want: map<int, Events>

    ghost predicate Sound()
      reads this, set fd | fd in channels :: channels[fd].1
    {
      && want.Keys == channels.Keys
      && (forall fd | fd in channels :: fd >= 0 && channels[fd].1.fd == fd)
    }

    // The kernel holds what the record says.
    ghost predicate Recorded(fd: int)
      requires fd in channels
      reads this
    {
      forall f :: (fd, f) in kernel <==> f in Filters(channels[fd].0)
    }

    ghost predicate Valid()
      reads this, set fd | fd in channels :: channels[fd].1
    {
      && Sound()
      && InKernel(channels, want, kernel)
      && (forall fd | fd in channels :: IndexOf(channels[fd].1, want[fd]))
    }

    constructor ()
      ensures Valid() && channels == map[] && want == map[]
    {
      channels, kernel, want := map[], {}, map[];
    }

    // The read filter is set exactly for input and urgent data wanted, the write filter exactly for output wanted.
    lemma FiltersExact(fd: int)
      requires Valid()
      ensures (fd, Read) in kernel <==> fd in want && (In in want[fd] || Pri in want[fd])
      ensures (fd, Write) in kernel <==> fd in want && Out in want[fd]
    {
    }

    // kevent: a filter is added only when absent and deleted only when present.
    method Kevent(fd: int, f: Filter, add: bool)
      requires add <==> (fd, f) !in kernel
      modifies this`kernel
      ensures kernel == if add then old(kernel) + {(fd, f)} else old(kernel) - {(fd, f)}
    {
      kernel := if add then kernel + {(fd, f)} else kernel - {(fd, f)};
    }

    // update(): only the difference to the record is sent.
    method Update(channel: Channel)
      requires if channel.fd in channels then Recorded(channel.fd) else forall f :: (channel.fd, f) !in kernel
      modifies this`channels, this`kernel
      ensures channels == old(channels)[channel.fd := (channel.events, channel)] && Recorded(channel.fd)
      ensures forall fd, f | fd != channel.fd :: (fd, f) in kernel <==> (fd, f) in old(kernel)
    {
      var fd := channel.fd;
      var before: set<Filter> := if fd in channels then Filters(channels[fd].0) else {};
      var after := Filters(channel.events);
      channels := channels[fd := (channel.events, channel)];
      if Read in after && Read !in before { Kevent(fd, Read, true); }
      else if Read !in after && Read in before { Kevent(fd, Read, false); }
      if Write in after && Write !in before { Kevent(fd, Write, true); }
      else if Write !in after && Write in before { Kevent(fd, Write, false); }
    }

    method UpdateChannel(channel: Channel)
      requires Valid() && channel.fd >= 0
      requires if channel.index == NEW then channel.fd !in channels
               else channel.fd in channels && channels[channel.fd].1 == channel
      modifies this, channel`index
      ensures Valid() && want == old(want)[channel.fd := channel.events]
      ensures channels == old(channels)[channel.fd := (channel.events, channel)]
      ensures channel.index == (if old(channel.index) == ADDED && channel.events == {} then DELETED else ADDED)
    {
      hide Filters, InKernel, Filled;
      var deleted := channel.index == ADDED && channel.events == {};
      ghost var channels0, kernel0 := channels, kernel;
      RecordedAt(channels, want, kernel, channel.fd);
      Update(channel);
      KernelUpdated(channels0, want, kernel0, channel, channel.events, kernel);
      want := want[channel.fd := channel.events];
      channel.index := if deleted then DELETED else ADDED;
    }

    method RemoveChannel(channel: Channel)
      requires Valid() && channel.fd in channels && channels[channel.fd].1 == channel && channel.events == {}
      modifies this, channel`index
      ensures Valid() && want == old(want) - {channel.fd} && channel.index == NEW
      ensures channels == old(channels) - {channel.fd}
    {
      hide Filters, InKernel, Filled;
      ghost var channels0, kernel0 := channels, kernel;
      RecordedAt(channels, want, kernel, channel.fd);
      NoFilters(channels, want, kernel, channel.fd);
      if channel.index == ADDED { Update(channel); }
      KernelRemoved(channels0, want, kernel0, channel.fd, kernel);
      assert channels - {channel.fd} == channels0 - {channel.fd};
      channels := channels - {channel.fd};
      want := want - {channel.fd};
      channel.index := NEW;
    }

    // A new kqueue is filled again from the record.
    method ResetAfterFork()
      requires Valid() && forall fd | fd in channels :: channels[fd].1.events == want[fd]
      modifies this
      ensures Valid() && want == old(want) && channels.Keys == old(channels).Keys
    {
      hide Filters, InKernel, Half, Filled;
      kernel := {};
      EnabledIsWanted();
      RefillAll();
      HalfEnd(old(channels), old(want), channels, kernel);
    }

    method RefillAll()
      requires kernel == {} && forall fd | fd in channels :: channels[fd].1.fd == fd
      modifies this`channels, this`kernel
      ensures Half(old(channels), old(Enabled()), {}, channels, kernel)
    {
      hide Half, Filters;
      ghost var start, ev := channels, Enabled();
      var todo := channels.Keys;
      HalfStart(channels, ev, kernel);
      while todo != {}
        invariant Half(start, ev, todo, channels, kernel)
        decreases |todo|
      {
        EmptyOrNot(todo);
        var fd :| fd in todo;
        ghost var before, kernel0 := channels, kernel;
        HalfAt(start, ev, todo, channels, kernel, fd);
        Refill(fd);
        HalfStep(start, ev, todo, before, kernel0, fd, channels, kernel);
        todo := todo - {fd};
      }
    }

    // The events each registered channel has enabled.
    ghost function Enabled(): map<int, Events>
      reads this, set fd | fd in channels :: channels[fd].1
    {
      map fd | fd in channels :: channels[fd].1.events
    }

    lemma EnabledIsWanted()
      requires Sound() && forall fd | fd in channels :: channels[fd].1.events == want[fd]
      ensures Enabled() == want
    {
      var m := Enabled();
      assert m.Keys == channels.Keys;
      forall fd | fd in m ensures m[fd] == want[fd] { assert fd in channels; }
    }

    method Refill(fd: int)
      requires fd in channels && channels[fd].1.fd == fd && forall f :: (fd, f) !in kernel
      modifies this`channels, this`kernel
      ensures fd in channels && channels == old(channels)[fd := channels[fd]] && channels[fd].1 == old(channels)[fd].1
      ensures Recorded(fd) && Filters(channels[fd].0) == Filters(channels[fd].1.events)
      ensures forall x, f | x != fd :: (x, f) in kernel <==> (x, f) in old(kernel)
    {
      var channel := channels[fd].1;
      channels := channels[fd := ({}, channel)];
      if Filters(channel.events) != {} { Update(channel); }
    }
  }

  // The kernel holds the filters of the record, which are those of the wanted events.
  ghost predicate InKernel(channels: map<int, (Events, Channel)>, want: map<int, Events>, kernel: set<(int, Filter)>)
  {
    && channels.Keys == want.Keys
    && (forall fd, f | (fd, f) in kernel :: fd in channels)
    && (forall fd | fd in channels :: Filled(channels[fd].0, want[fd], kernel, fd))
  }

  lemma RecordedAt(channels: map<int, (Events, Channel)>, want: map<int, Events>, kernel: set<(int, Filter)>, fd: int)
    requires InKernel(channels, want, kernel)
    ensures forall f ::
      (fd, f) in kernel <==> fd in channels && f in Filters(channels[fd].0)
  {
    hide Filters;
    if fd in channels { assert Filled(channels[fd].0, want[fd], kernel, fd); }
  }

  // No events, no filters.
  lemma NoFilters(channels: map<int, (Events, Channel)>, want: map<int, Events>, kernel: set<(int, Filter)>, fd: int)
    requires InKernel(channels, want, kernel) && fd in channels
    ensures Filters({}) == {} && (want[fd] == {} ==> forall f :: (fd, f) !in kernel)
  {
    assert Filled(channels[fd].0, want[fd], kernel, fd);
  }

  lemma KernelUpdated(channels: map<int, (Events, Channel)>, want: map<int, Events>, kernel: set<(int, Filter)>,
                      channel: Channel, e: Events, kernel': set<(int, Filter)>)
    requires InKernel(channels, want, kernel)
    requires forall f :: (channel.fd, f) in kernel' <==> f in Filters(e)
    requires forall x, f | x != channel.fd :: (x, f) in kernel' <==> (x, f) in kernel
    ensures InKernel(channels[channel.fd := (e, channel)], want[channel.fd := e], kernel')
  {
    hide Filters;
    forall x | x in channels && x != channel.fd ensures Filled(channels[x].0, want[x], kernel', x) {
      assert Filled(channels[x].0, want[x], kernel, x);
    }
  }

  lemma KernelRemoved(channels: map<int, (Events, Channel)>, want: map<int, Events>, kernel: set<(int, Filter)>,
                      fd: int, kernel': set<(int, Filter)>)
    requires InKernel(channels, want, kernel) && forall f :: (fd, f) !in kernel'
    requires forall x, f | x != fd :: (x, f) in kernel' <==> (x, f) in kernel
    ensures InKernel(channels - {fd}, want - {fd}, kernel')
  {
    hide Filters;
    forall x | x in channels && x != fd ensures Filled(channels[x].0, want[x], kernel', x) {
      assert Filled(channels[x].0, want[x], kernel, x);
    }
  }

  lemma HalfEnd(start: map<int, (Events, Channel)>, ev: map<int, Events>,
                channels: map<int, (Events, Channel)>, kernel: set<(int, Filter)>)
    requires Half(start, ev, {}, channels, kernel)
    ensures InKernel(channels, ev, kernel) && channels.Keys == start.Keys
    ensures forall fd | fd in start :: channels[fd].1 == start[fd].1
  {
  }

  // resetAfterFork with `todo` left to do.
  ghost predicate Half(start: map<int, (Events, Channel)>, ev: map<int, Events>, todo: set<int>,
                       channels: map<int, (Events, Channel)>, kernel: set<(int, Filter)>)
  {
    && channels.Keys == start.Keys == ev.Keys && todo <= start.Keys
    && (forall fd | fd in start :: channels[fd].1 == start[fd].1)
    && (forall fd, f | (fd, f) in kernel :: fd in start && fd !in todo)
    && (forall fd | fd in start && fd !in todo :: Filled(channels[fd].0, ev[fd], kernel, fd))
  }

  ghost predicate Filled(e: Events, enabled: Events, kernel: set<(int, Filter)>, fd: int)
  {
    Filters(e) == Filters(enabled) && forall f :: (fd, f) in kernel <==> f in Filters(e)
  }

  lemma HalfStart(channels: map<int, (Events, Channel)>, ev: map<int, Events>, kernel: set<(int, Filter)>)
    requires kernel == {} && ev.Keys == channels.Keys
    ensures Half(channels, ev, channels.Keys, channels, kernel)
  {
  }

  lemma HalfAt(start: map<int, (Events, Channel)>, ev: map<int, Events>, todo: set<int>,
               channels: map<int, (Events, Channel)>, kernel: set<(int, Filter)>, fd: int)
    requires Half(start, ev, todo, channels, kernel) && fd in todo
    ensures fd in start && fd in ev && fd in channels && channels[fd].1 == start[fd].1 && forall f :: (fd, f) !in kernel
  {
  }

  lemma HalfStep(start: map<int, (Events, Channel)>, ev: map<int, Events>, todo: set<int>,
                 before: map<int, (Events, Channel)>, kernel0: set<(int, Filter)>, fd: int,
                 channels: map<int, (Events, Channel)>, kernel: set<(int, Filter)>)
    requires Half(start, ev, todo, before, kernel0) && fd in todo && fd in channels && fd in ev
    requires channels == before[fd := channels[fd]] && channels[fd].1 == start[fd].1
    requires Filled(channels[fd].0, ev[fd], kernel, fd)
    requires forall x, f | x != fd :: (x, f) in kernel <==> (x, f) in kernel0
    ensures Half(start, ev, todo - {fd}, channels, kernel)
  {
  }

  // ---- poll ----

  datatype Pollfd = Pollfd(fd: int, events: Events)

  // A negative descriptor is ignored by poll().
  function Owner(fd: int): int { if fd < 0 then -fd - 1 else fd }

  // What poll() is asked to watch.
  ghost predicate PollWatches(pollfds: seq<Pollfd>, fd: int, e: Events)
  {
    exists i :: 0 <= i < |pollfds| && pollfds[i] == Pollfd(fd, e)
  }

  class PollPoller {
    var channels: map<int, Channel>
    var pollfds: seq<Pollfd>
    ghost var want: map<int, Events>

    ghost predicate Valid()
      reads this, channels.Values
    {
      && ChannelsOk(channels, want)
      && (forall fd | fd in channels :: SlotOf(fd))
      && (forall i | 0 <= i < |pollfds| :: var fd := Owner(pollfds[i].fd); fd in channels && channels[fd].index == i)
    }

    ghost predicate SlotOf(fd: int)
      requires fd in channels
      reads this, channels[fd]
    {
      var i := channels[fd].index;
      && 0 <= i < |pollfds| && Owner(pollfds[i].fd) == fd
      && fd in want && pollfds[i].events == want[fd] && (pollfds[i].fd < 0 ==> want[fd] == {})
    }

    constructor ()
      ensures Valid() && channels == map[] && want == map[]
    {
      channels, pollfds, want := map[], [], map[];
    }

    lemma WatchExact(fd: int, e: Events)
      requires Valid() && fd >= 0 && e != {}
      ensures PollWatches(pollfds, fd, e) <==> fd in want && want[fd] == e
    {
      if fd in channels { assert SlotOf(fd); }
    }

    // A channel is muted by an update without events, unless that update is its first.
    method UpdateChannel(channel: Channel)
      requires Valid() && channel.fd >= 0
      requires
        if channel.index < 0 then channel.fd !in channels
        else channel.fd in channels && channels[channel.fd] == channel
      modifies this, channel`index
      ensures Valid() && want == old(want)[channel.fd := channel.events]
      ensures channels == old(channels)[channel.fd := channel]
      ensures 0 <= channel.index < |pollfds|
      ensures pollfds[channel.index].fd < 0 <==> old(channel.index) >= 0 && channel.events == {}
    {
      var fd := channel.fd;
      if channel.index < 0 {
        pollfds := pollfds + [Pollfd(fd, channel.events)];
        channel.index := |pollfds| - 1;
        channels := channels[fd := channel];
      } else {
        assert SlotOf(fd);
        pollfds := pollfds[channel.index := Pollfd(if channel.events == {} then -fd - 1 else fd, channel.events)];
      }
      want := want[fd := channel.events];
    }

    method RemoveChannel(channel: Channel)
      requires Valid() && channel.fd in channels && channels[channel.fd] == channel && channel.events == {}
      requires 0 <= channel.index < |pollfds| && pollfds[channel.index] == Pollfd(-channel.fd - 1, {})
      modifies this, channels.Values
      ensures Valid() && want == old(want) - {channel.fd} && channels == old(channels) - {channel.fd}
      ensures |pollfds| == |old(pollfds)| - 1 && channel.index == old(channel.index)
    {
      var fd, idx := channel.fd, channel.index;
      ghost var channels0 := channels;
      channels := channels - {fd};
      want := want - {fd};
      if idx == |pollfds| - 1 {
        pollfds := pollfds[..idx];
      } else {
        var last := pollfds[|pollfds| - 1];
        pollfds := pollfds[idx := last][..|pollfds| - 1];
        channels[Owner(last.fd)].index := idx;
      }
    }
  }
}
