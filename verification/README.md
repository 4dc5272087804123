# Verified models of netpoll-cpp

netpoll-cpp is a reactor network library: one event loop per thread, connections owned by loops, timers, and on Windows
an epoll made from AFD polls. This project models its hard cores in Dafny and proves what they promise over all inputs,
all runs and all interleavings. Files that update objects in place are classes whose methods are proved against
specification functions; protocols between threads are state machines whose invariants hold through every run.

| file | what it covers |
|---|---|
| RbTree.dfy | the red-black tree with parent pointers of wepoll, on the heap |
| PollGroups.dfy, Wepoll.dfy | poll groups and the life of a socket in an epoll port |
| Reflock.dfy | the destruction lock and the tree of open handles |
| OutputPath.dfy, SendOrder.dfy | what a connection sends, and in which order |
| WheelMath.dfy, TimingWheel.dfy, IdleKick.dfy | the timing wheel and idle-connection kicking |
| Mpsc.dfy, EventLoop.dfy | the lock-free queue and the wakeup protocol |
| CloseHandshake.dfy | closing a connection across two loops |
| TimerQueue.dfy, Pollers.dfy | timers and the three pollers |
| Bytes.dfy, MessageBuffer.dfy, ChatCodec.dfy | byte buffers, network order, and the chat framing |
| Common.dfy | types the modules share |

`dafny verify dfyconfig.toml` checks everything. `hide` statements in bodies only keep definitions out of a proof.

## What the models show about the code

- A connection is kicked a fixed time after it was made, whatever it reads or writes: `enableKickingOff` never sets the
  timeout `extendLife` tests, contrary to the comment at netpoll/net/tcp_server.h:167-172. The kick is the documented
  one exactly when no read or write that counts comes between the first tick and the timeout. From 500 seconds on it is
  never exactly on time.
- An entry with more than one turn to wait is never dropped exactly at T+d, because one place subtracts 1 and the other
  0.
- `sendFile` with an offset and length 0 takes the file size as the length; such a range never finishes and blocks all
  that follows. Without one, a socket that takes what it is offered drains the list. `m_bytesSent` leaves out
  exactly the bytes of files that have gone out.
- A first `sendfile` that would block leaves write interest off, and `shutdown` then closes the sending side with data
  pending. Connected, no write interest and data pending is exactly when it does.
- A `quit` before `loop` clears the flag is lost, and only such a quit. A quit that found the flag clear has woken the
  loop when it returns; one that found it set may return before that.
- A report with POLLHUP but not POLLIN together with POLLPRI or POLLRDHUP closes a connection twice when the read ends.
  Without such reports every connection closes at most once.
- A `cancelTimer` in the loop's thread that overtakes the insertion of a timer made by another thread is lost. One that
  comes after the insertion never is.
- The poll-based poller needs a second update before a channel without events can be removed, and does not reset the
  index of a removed channel; the other two pollers behave alike.
- A `MessageBuffer` made with a length below 8 is broken by `retrieveAll`.

## Model

| member | source | states |
|---|---|---|
| RbTree.Tree.TreeAdd | dependencies/wepoll/wepoll.c:2034-2066 | the tree stays a search tree with consistent parent links, a black root, no red-red edge and equal black counts; -1 is returned exactly when the key is present and then nothing at all has changed; otherwise the node set grows by this node and the key set by this key |
| RbTree.Tree.TreeDel | dependencies/wepoll/wepoll.c:2096-2164 | the same invariant holds afterwards; the node set loses exactly this node and the key set exactly its key, on every shape of the tree |
| RbTree.Tree.TreeFind | dependencies/wepoll/wepoll.c:2166-2176 | a node with the key is returned if and only if the tree has the key |
| RbTree.Tree.constructor | dependencies/wepoll/wepoll.c:1971 | the empty tree meets the invariant, with no nodes |
| RbTree.Tree.Rotate | dependencies/wepoll/wepoll.c:1975-2001 | on the heap, a rotation either way turns the pointer structure of the lower elbow into that of the upper one, parent links and root included, and touches nothing else |
| RbTree.Tree.FindSpot | dependencies/wepoll/wepoll.c:2038-2048 | the descent ends at the key, or at the one empty link between whose neighbours the key belongs |
| RbTree.Tree.FixOnce | dependencies/wepoll/wepoll.c:2011-2032 | one turn of the insertion loop keeps the in-order keys and the invariant "one red-red edge at most, here", and moves strictly up |
| RbTree.Tree.FixInsert | dependencies/wepoll/wepoll.c:2055-2063 | the insertion loop ends with a sound tree that has the same in-order keys |
| RbTree.Tree.Leftmost | dependencies/wepoll/wepoll.c:2104-2110 | the successor is the leftmost node of the right subtree, reached along a spine of left links |
| RbTree.Tree.RemoveOnce | dependencies/wepoll/wepoll.c:2068-2094 | one turn of the deletion loop keeps the in-order keys and either ends with a sound tree or moves the missing black strictly up |
| RbTree.Tree.Rebalance | dependencies/wepoll/wepoll.c:2144-2163 | the deletion loop ends with a sound tree that has the same in-order keys |
| RbTree.Tree.RedNephew | dependencies/wepoll/wepoll.c:2078-2093 | a black sibling with a red kid: one or two rotations make the whole tree sound without changing the order |
| RbTree.Tree.DelDouble | dependencies/wepoll/wepoll.c:2104-2136 | a node with two kids: the successor takes its place and colour, and all other nodes keep their order |
| RbTree.Tree.DelSingle | dependencies/wepoll/wepoll.c:2104-2142 | a node with at most one kid is unlinked and the tree made sound again |
| RbTree.RecolouredHot | dependencies/wepoll/wepoll.c:2015-2020 | a red uncle: recolouring moves the red-red edge two levels up and keeps all black counts |
| RbTree.BendHot | dependencies/wepoll/wepoll.c:2023-2028 | an inner grandchild: rotating the parent keeps keys, black counts and the single red-red edge |
| RbTree.FoldHot | dependencies/wepoll/wepoll.c:2029-2031 | an outer grandchild: recolouring and rotating the grandparent removes the red-red edge |
| RbTree.Removed | dependencies/wepoll/wepoll.c:2137-2152 | what unlinking a node leaves: a sound tree if it was red, a red kid to blacken, or one black too few on every path below |
| RbTree.GraftRemoved | dependencies/wepoll/wepoll.c:2119-2136 | the same when the node taken out is the successor and moves up into the place of the deleted node |
| RbTree.LeanShort | dependencies/wepoll/wepoll.c:2071-2077 | a red sibling: rotation and recolouring leave the shortage with a black sibling |
| RbTree.TuckShort | dependencies/wepoll/wepoll.c:2081-2087 | a red near nephew only: rotating the sibling leaves the shortage with a red far nephew |
| RbTree.SettleGood | dependencies/wepoll/wepoll.c:2088-2090 | a red far nephew: the rotation makes up the missing black |
| RbTree.PassedShort | dependencies/wepoll/wepoll.c:2078-2094 | no red nephew: the sibling turns red and the shortage moves to the parent, or ends there if it is red |
| RbTree.BalancedPaths | dependencies/wepoll/wepoll.c:2034-2164 | the inductive balance predicate holds if and only if all root-to-leaf paths have the same number of black nodes |
| RbTree.SortedSearch | dependencies/wepoll/wepoll.c:2166-2176 | the in-order keys are strictly increasing if and only if the tree is a search tree |
| RbTree.LogHeight | dependencies/wepoll/wepoll.c:2034-2164 | a sound tree of n keys has height at most 2 log2(n + 1) |
| PollGroups.Groups.Acquire | dependencies/wepoll/wepoll.c:919-979 | a slot is refused exactly when all groups are full and a new one cannot be made; otherwise one size grows by one, and the full groups stay in front |
| PollGroups.Groups.Release | dependencies/wepoll/wepoll.c:981-992 | exactly one size drops by one, no group is made or lost, and the full groups stay in front |
| PollGroups.Groups.TightPacking | dependencies/wepoll/wepoll.c:909-992 | at every moment the number of groups ever made is the peak number of slots in use divided by 32, rounded up |
| PollGroups.SlotTaken | dependencies/wepoll/wepoll.c:975-976 | taking a slot in the last group, moved to the front when it fills, keeps full groups first and adds one to the total |
| PollGroups.SlotGiven | dependencies/wepoll/wepoll.c:981-992 | giving a slot back and moving its group to the end keeps full groups first and takes one from the total |
| Wepoll.Port.SockNew | dependencies/wepoll/wepoll.c:1612-1648 | fails if and only if the socket is invalid or known, there is no base socket, no memory, or all groups are full and no new one can be made, and then leaves no trace (a slot taken is given back); otherwise the port gains one idle socket, in the tree and nowhere else |
| Wepoll.Port.SetEvent | dependencies/wepoll/wepoll.c:1693-1708 | the new state exactly: the socket watches the events and always errors and hang-ups, and it joins the update queue exactly when its poll does not cover them; every invariant holds |
| Wepoll.Port.CancelPoll | dependencies/wepoll/wepoll.c:1599-1610 | the invariant survives a cancellation and a refused one |
| Wepoll.Port.SockDelete | dependencies/wepoll/wepoll.c:1650-1681 | an idle or forced socket leaves the tree, both queues and memory and its group loses one; any other is parked, out of the tree and the update queue, until its poll comes back |
| Wepoll.Port.Free | dependencies/wepoll/wepoll.c:1667-1673 | given that no kernel poll refers to it, the socket leaves memory, once, and its group loses a slot; every invariant holds again |
| Wepoll.Port.SockUpdate | dependencies/wepoll/wepoll.c:1751-1818 | fails exactly when the kernel refuses the poll or the cancellation the socket needs, changing nothing; otherwise an idle socket gets a poll for exactly the events it wants or, its handle being invalid, is dropped; a poll that misses a wanted event is cancelled; any other is left alone; and the socket leaves the queue |
| Wepoll.Port.UpdateEvents | dependencies/wepoll/wepoll.c:1140-1157 | terminates; succeeds exactly when the kernel answers every queued socket, and then every registered socket has in the kernel a poll covering all it wants or a cancelled one; a socket is cancelled only if it was or its poll missed a wanted event, an idle one becomes pending for exactly what it wants, and nothing else changes; the new state is that of serving the queue from the front up to the first refusal |
| Wepoll.Port.FeedEvent | dependencies/wepoll/wepoll.c:1820-1878 | a completion frees a deleted or closed socket, and otherwise makes it idle and queued; an event is reported exactly if it was asked for and one of the conditions raised means it, a failed poll reports an error and a cancelled one nothing; a one-shot socket watches nothing afterwards exactly when something is reported |
| Wepoll.Port.Report | dependencies/wepoll/wepoll.c:1862-1877 | the socket is queued again and the filtered events handed over |
| Wepoll.Port.CtlAdd | dependencies/wepoll/wepoll.c:1292-1307 | fails exactly as the making of the socket does, and then nothing has changed; on success the handle maps to a new queued socket with the events asked for, and while another thread waits the update queue is served on top, which leaves those events as they are |
| Wepoll.Port.CtlMod | dependencies/wepoll/wepoll.c:1309-1320 | fails exactly for an unknown handle; otherwise the events of that socket become those asked for, and while another thread waits the update queue is served on top, which leaves them as they are |
| Wepoll.SettledKeeps | dependencies/wepoll/wepoll.c:1140-1157 | serving the update queue never changes what a socket that stays watches |
| Wepoll.Port.CtlDel | dependencies/wepoll/wepoll.c:1322-1330 | fails exactly for an unknown handle; the socket is freed at once if and only if no kernel poll is outstanding on it |
| Wepoll.Port.Delete | dependencies/wepoll/wepoll.c:1105-1138 | teardown frees every socket once, leaves the update queue empty and every group size zero |
| Wepoll.QuietServed | dependencies/wepoll/wepoll.c:1140-1157 | with an empty update queue no registered socket lacks a poll: interest is never lost |
| Wepoll.WatchedExactly | dependencies/wepoll/wepoll.c:1710-1749 | as long as errors are asked for, a poll watches exactly the conditions whose translation back meets the requested events, and local close |
| Wepoll.MeaningMember | dependencies/wepoll/wepoll.c:1730-1749 | which conditions raise each event, in any combination |
| Wepoll.MeaningEach | dependencies/wepoll/wepoll.c:1730-1749 | a report means exactly what its conditions mean one by one |
| Wepoll.UnlinkedOk | dependencies/wepoll/wepoll.c:1650-1681 | taking a socket out of tree and update queue keeps every invariant of the others |
| Wepoll.ParkedOk | dependencies/wepoll/wepoll.c:1650-1681 | parking a socket whose poll is outstanding keeps every invariant |
| Wepoll.GoneOk | dependencies/wepoll/wepoll.c:1667-1673 | freeing a detached socket keeps every invariant, and its group had a slot to give back |
| Wepoll.AllGone | dependencies/wepoll/wepoll.c:1105-1138 | with tree and deleted queue empty there are no sockets, no queued updates and no used slots |
| Reflock.StepInv | dependencies/wepoll/wepoll.c:1494-1559 | every step of every thread keeps the invariant and meets the asserts on the lock word; no step touches a freed port and no port is signalled twice |
| Reflock.DestroyedForGood | dependencies/wepoll/wepoll.c:551-575 | from any start, through any schedule: when reflock_unref_and_destroy has returned nobody holds or is about to take a reference, then or after any further run, and a signal was given exactly when the destroyer waited |
| Reflock.WaitsExactly | dependencies/wepoll/wepoll.c:1546-1558 | the destroyer of a port goes to wait if and only if another thread holds a reference to it, and otherwise goes on |
| Reflock.WaitEnds | dependencies/wepoll/wepoll.c:1536-1558 | while the destroyer waits, a thread still holds a reference or the one signal is about to be given to it |
| Reflock.DestroyFinishes | dependencies/wepoll/wepoll.c:1536-1558 | from every reachable state with a waiting destroyer there is a way on that ends with the port freed |
| Reflock.FindsExactly | dependencies/wepoll/wepoll.c:1950-1962 | a lookup finds an open handle and takes one reference to its port, and finds no other |
| Reflock.UnhooksExactly | dependencies/wepoll/wepoll.c:1932-1948 | closing takes exactly that handle out of the tree, with one reference to its port |
| Reflock.OpensExactly | dependencies/wepoll/wepoll.c:1912-1921 | a new port enters the tree without references |
| Reflock.WaitHappens | dependencies/wepoll/wepoll.c:551-575 | whenever a handle is open and two threads are free, there is a run in which the destroyer has to wait |
| Reflock.UnrefWord | dependencies/wepoll/wepoll.c:1536-1544 | an unref signals exactly when it drops the last reference of a port being destroyed |
| Reflock.RunInv | dependencies/wepoll/wepoll.c:1912-1969 | the invariant, and the fate of a destroyed port, last through every run |
| OutputPath.Connection.SendInLoop | netpoll/net/inner/tcp_connection_impl.cc:350-402 | accepted bytes are on the wire or pending in order, for any behaviour of the socket; data is given up if and only if the connection is not Connected or a direct write meets a failing socket, and then leaves no trace; a direct write that would block or takes a part leaves exactly the rest queued with write interest on |
| OutputPath.Connection.HandleWrite | netpoll/net/inner/tcp_connection_impl.cc:185-259 | the byte stream is preserved; a finished front node is removed and nothing else; a buffer or file in front gives the socket exactly what it takes with one call; write interest goes off exactly when the list is empty or a file meets a failing socket; the sending side is closed only when everything accepted is on the wire; the bytes put on the wire are left out of m_bytesSent exactly when a file is in front; on a socket that takes all and with no overlong range queued, every event leaves the list empty or its front node finished |
| OutputPath.Connection.SendNext | netpoll/net/inner/tcp_connection_impl.cc:160-181 | the byte stream is preserved and only the front node changes |
| OutputPath.Connection.SendFileRange | netpoll/net/inner/tcp_connection_impl.cc:701-730 | one sendfile() moves bytes from the front of the range to the wire and nothing else, none of them counted in m_bytesSent; would-block leaves list and write interest alone |
| OutputPath.Connection.SendStreamChunks | netpoll/net/inner/tcp_connection_impl.cc:732-794 | fetching and writing chunks keeps wire + staging + rest of the stream equal to what was accepted; it goes on to the end of the stream unless a write is refused or taken in part; write interest is off afterwards exactly if it was off and the last write failed |
| OutputPath.Connection.SendFileInLoop | netpoll/net/inner/tcp_connection_impl.cc:701-794 | the byte stream is preserved for files and streams, and only the front node changes; with write interest on, it goes off exactly when a file meets a failing socket |
| OutputPath.Connection.SendFile | netpoll/net/inner/tcp_connection_impl.cc:593-649 | the range joins the stream behind everything accepted; length 0 stands for the size of the file, whatever the offset, so on any list the last node is overlong exactly when the range passes the end; a first sendfile() that would block leaves write interest and wire alone |
| OutputPath.Connection.SendStream | netpoll/net/inner/tcp_connection_impl.cc:651-699 | the chunks up to the first empty one join the stream behind everything accepted |
| OutputPath.Connection.Shutdown | netpoll/net/inner/tcp_connection_impl.cc:322-335 | the sending side is closed at once exactly when write interest is off; it is closed with accepted bytes unsent if and only if the connection was Connected, write interest off and bytes pending, and then a file is in front |
| OutputPath.StalledShutdown | netpoll/net/inner/tcp_connection_impl.cc:701-730 | a file sent first, answered with would-block, then shutdown: for every range the sending side is closed with nothing of it on the wire |
| OutputPath.StalledByte | netpoll/net/inner/tcp_connection_impl.cc:322-335 | for instance one byte: closed for writing while the wire differs from what was accepted |
| OutputPath.Connection.ForceClose | netpoll/net/inner/tcp_connection_impl.cc:337-348 | only an open connection is closed; the stream invariant stays |
| OutputPath.Connection.WriteInLoop | netpoll/net/inner/tcp_connection_impl.cc:862-876 | bytes taken by the socket are a prefix of the data and are counted |
| OutputPath.Run | netpoll/net/inner/tcp_connection_impl.cc:160-259 | for every sequence of sends, files, streams and events and every socket: the wire followed by what is pending is the concatenation of everything accepted; data is accepted only in the Connected stage, which the operations alone determine, and always there if the socket never fails; write interest implies a non-empty list; and m_bytesSent is the number of bytes on the wire less the bytes of files asked for and no longer pending |
| OutputPath.Uncounted | netpoll/net/inner/tcp_connection_impl.cc:701-730 | for every range within a file: sent to a socket that takes all, the range is on the wire and m_bytesSent is 0 |
| OutputPath.RunStuck | netpoll/net/inner/tcp_connection_impl.cc:701-730 | behind a file range that reaches past the end of its file nothing is ever sent again, whatever the run and the socket |
| OutputPath.RangeWhole | netpoll/net/inner/tcp_connection_impl.cc:701-730 | the bytes of a file range number as many as it wants to send if and only if it does not reach past the end |
| OutputPath.Drain | netpoll/net/inner/tcp_connection_impl.cc:185-259 | write interest on and a socket that takes all it is offered: two write events for each node empty the list and put everything accepted on the wire, if and only if no range is overlong |
| WheelMath.InsertionTheorem | netpoll/net/inner/timing_wheel.cc:84-121 | for every delay up to the maximum the entry lands in an existing queue m (the queue InsertEntryInLoop changes) and is dropped within [T+d-(B^m-1), T+d+(B^m-1)/(B-1)]; exactly at T+d if and only if d <= B, and early exactly when its first bucket on the way down is number 0 |
| WheelMath.NeverTooLong | netpoll/net/inner/timing_wheel.cc:114-118 | the branch for delays that do not fit is unreachable |
| WheelMath.DriftBounds | netpoll/net/inner/timing_wheel.cc:84-121 | the bounds from any queue on |
| WheelMath.DriftSign | netpoll/net/inner/timing_wheel.cc:84-121 | an entry that has to come down is never on time |
| WheelMath.EvenDropExact | netpoll/net/inner/timing_wheel.cc:108-119 | with -1 in both places every entry is dropped exactly at T+d |
| TimingWheel.Wheel.constructor | netpoll/net/inner/timing_wheel.cc:18-31 | the loop finds the least number of queues that covers the maximum, all empty |
| TimingWheel.Wheel.InsertEntryInLoop | netpoll/net/inner/timing_wheel.cc:84-121 | the insertion adds exactly one release, at the tick of the cascade recurrence; it puts one entry of that object in one bucket of queue Level, the m of InsertionTheorem, and leaves every other bucket of every queue as it was |
| TimingWheel.Wheel.Tick | netpoll/net/inner/timing_wheel.cc:33-56 | a tick releases exactly what was due at it, keeps exactly the rest, and all the rest lies in the future |
| TimingWheel.Wheel.Destroy | netpoll/net/inner/timing_wheel.cc:105-112 | destroying a bucket releases objects from the lowest queue and puts callback entries one queue lower without changing when they are due |
| TimingWheel.Wheel.Advance | netpoll/net/inner/timing_wheel.cc:43-53 | the turn of one queue conserves what is due and releases only what is due now |
| WheelRuns.Drive | netpoll/net/inner/timing_wheel.cc:33-56 | over every sequence of insertions and ticks the wheel refines a ledger of releases |
| WheelRuns.LedgerExact | netpoll/net/inner/timing_wheel.cc:33-56 | in every run each release asked for happens once, at its tick |
| WheelRuns.HeldUntil | netpoll/net/inner/timing_wheel.cc:97-101 | with delays of at most one turn an object is held exactly until its last insertion plus the delay |
| IdleKick.IdleConnection.EnableKickingOff | netpoll/net/inner/tcp_connection_impl.h:95-104 | the entry is due once, at the tick the wheel computes; the timeout of the connection stays as it was |
| IdleKick.IdleConnection.ExtendLife | netpoll/net/inner/tcp_connection_impl.cc:144-158 | exactly: with a timeout of 0 or within a second of the last update nothing changes; otherwise the time is noted, and a further release is added if and only if the wheel still holds the entry |
| IdleKick.IdleConnection.StayConnected | netpoll/net/inner/tcp_connection_impl.h:73-78 | disarms the entry if the wheel still holds it |
| IdleKick.IdleConnection.OnTick | netpoll/net/inner/tcp_connection_impl.h:27-43 | the connection is closed exactly when the wheel lets go of an armed entry and it is still open |
| IdleKick.Live | netpoll/net/tcp_server.cc:57-77 | from the making of a connection, Connecting, over every sequence of establish, close by other means, reads and writes, keepAlive and ticks, for any stored timeout, the object goes through the states of the value specification Lived |
| IdleKick.ActivityIgnored | netpoll/net/inner/tcp_connection_impl.cc:144-158 | reads and writes change nothing at all: enableKickingOff never sets the timeout that extendLife tests; KickedThoughActive and KickedAsDocumented say what that does to the promise of netpoll/net/tcp_server.h:167-172 |
| IdleKick.KickedExactly | netpoll/net/inner/tcp_connection_impl.h:27-43 | closed by the entry exactly once, at the tick the entry is due, if that tick finds the entry armed and the connection open, and never otherwise; for any stored timeout |
| IdleKick.KickedAsBorn | netpoll/net/inner/tcp_connection_impl.h:95-104 | as the code is, that tick is the one computed when the connection was made, in every life; KickedAsDocumented says when it is the documented one |
| IdleKick.KickedAsIntended | netpoll/net/inner/tcp_connection_impl.cc:144-158 | were the timeout stored, and no longer than one turn of the wheel, that tick would be the last extension plus the timeout |
| IdleKick.KickedAsDocumented | netpoll/net/tcp_server.h:167-172 | over every sequence of events, with a timeout of at most one turn: a kick by the code is the one the stored timeout would give if and only if no read or write that counts came after the first tick and before the timeout, a condition on the events alone; a connection established before its timeout that the code does not kick would not be kicked with the timeout stored either |
| IdleKick.KickedThoughActive | netpoll/net/inner/tcp_connection_impl.cc:144-158 | a life in which a connection active one tick before is kicked by the code and not with the timeout stored |
| IdleKick.KeptAlive | netpoll/net/inner/tcp_connection_impl.h:73-78 | keepAlive before the entry is due prevents the kick for good |
| IdleKick.ClosedNotKicked | netpoll/net/inner/tcp_connection_impl.h:27-43 | a connection closed by other means is not kicked |
| IdleKick.ServerKick | netpoll/net/tcp_server.cc:85-100 | the kick of the server wheel is exactly on time if and only if the timeout is below 500 |
| Mpsc.StepInv | netpoll/util/lockfree_queue.h:37-75 | no step of any producer or of the consumer touches a freed node or a consumed item, and the invariant is kept |
| Mpsc.DeliveredInOrder | netpoll/util/lockfree_queue.h:37-68 | in every interleaving the items taken in are those given to enqueue, in head-exchange order, and the items dequeued are a prefix of them; both are told from the steps alone |
| Mpsc.SeesNothing | netpoll/util/lockfree_queue.h:57-75 | the consumer sees an empty queue exactly when all is delivered or the next enqueue has exchanged the head but not linked its node |
| Mpsc.DequeueEmpty | netpoll/util/lockfree_queue.h:57-62 | dequeue answers that the queue is empty if and only if all is delivered or the next enqueue has exchanged the head but not linked its node |
| Mpsc.DequeueDelivers | netpoll/util/lockfree_queue.h:57-68 | otherwise its six steps can all be taken, and they hand over exactly the next item, move on by one node and leave the producers alone |
| Mpsc.NothingLeaks | netpoll/util/lockfree_queue.h:23-29 | in every run from the empty queue, with nobody inside the queue owns exactly the nodes from the tail on |
| Mpsc.RunNoStrays | netpoll/util/lockfree_queue.h:37-68 | in every run every allocated node belongs to the list, a producer or the consumer |
| EventLoop.ActInv | netpoll/net/eventloop.cc:151-183 | every action of the loop and of any number of callers keeps the invariant; the thread of the loop may itself queue functions and call quit wherever it runs code of the user |
| EventLoop.NoLostWakeup | netpoll/net/eventloop.cc:214-230 | in every run, when the loop sleeps with work left the first undelivered function belongs to a caller that has yet to call wakeup; when it sleeps with the quit flag set, some caller of quit has yet to call it |
| EventLoop.QuitWakes | netpoll/net/eventloop.cc:143-156 | in every run, a quit that began after loop() last cleared the flag, and found it clear, cannot leave the loop asleep once its own caller has finished, whatever other callers are doing |
| EventLoop.StoredQuitWakes | netpoll/net/eventloop.cc:143-149 | flag stored and eventfd written by the same caller, with no loop() begun since the store: the flag is still set and the loop is not asleep |
| EventLoop.OwnQuitWakes | netpoll/net/eventloop.cc:146-148 | a store by the thread of the loop itself needs no wakeup |
| EventLoop.EarlyReturn | netpoll/net/eventloop.cc:143-149 | if the loop does sleep after such a quit has returned, the call had found the flag set, and another caller has stored it and not yet written to the eventfd |
| EventLoop.QuitRemembered | netpoll/net/eventloop.cc:143-156 | at the end of every run the flag is set if and only if some quit stored it and loop() has not been entered since |
| EventLoop.QuietMeansDone | netpoll/net/eventloop.cc:291-309 | in every run, when the loop sleeps and all callers have returned, all functions have been delivered and no quit is outstanding |
| EventLoop.LeftAlone | netpoll/net/eventloop.cc:151-183 | from every reachable state: a woken loop with all callers returned can run every function queued and then sleeps again with all delivered, or returns if told to quit |
| EventLoop.ExitsOnQuit | netpoll/net/eventloop.cc:151-183 | in every run loop() has returned only if some quit stored the flag after it was entered |
| EventLoop.QuitBeforeLoop | netpoll/net/eventloop.cc:143-156 | QuitRemembered in action: a run in which a quit comes before loop() clears the flag, all callers have returned, and the loop sleeps with no quit set |
| EventLoop.SecondQuitReturnsEarly | netpoll/net/eventloop.cc:143-149 | a second quit may return while the loop still sleeps, because the first caller has yet to wake it |
| SendOrder.StepInv | netpoll/net/inner/tcp_connection_impl.cc:404-432 | every step of every send and of the loop keeps the invariant |
| SendOrder.SendsInOrder | netpoll/net/inner/tcp_connection_impl.cc:404-524 | in every run: a send that returned before another began is executed first, none is executed twice, and m_sendNum is the number of sends announced and not finished |
| SendOrder.ReturnedFirst | netpoll/net/inner/tcp_connection_impl.cc:404-524 | told from the steps of any run: if the call of one send returns before another begins, it is executed first |
| SendOrder.AllExecuted | netpoll/net/inner/tcp_connection_impl.cc:404-432 | every send whose call has returned is executed once the loop has no task left |
| SendOrder.DirectExactly | netpoll/net/inner/tcp_connection_impl.cc:404-412 | a send on the thread of the loop goes out at once exactly when no other is announced and unfinished |
| MessageBuffers.MessageBuffer.constructor | netpoll/util/message_buffer.cc:22-28 | an empty buffer of the capacity asked for |
| MessageBuffers.MessageBuffer.EnsureWritableBytes | netpoll/util/message_buffer.cc:30-50 | contents kept, room made; the storage is kept if and only if there is room behind, or room in front and behind together beyond the reserved 8 bytes, and otherwise has exactly the doubled or needed size; the recursion with pushBack ends; a buffer that has copied fewer bytes in reallocations than its size still has |
| MessageBuffers.MessageBuffer.PushBack | netpoll/util/message_buffer.cc:67-72 | appends exactly the bytes |
| MessageBuffers.MessageBuffer.PushBackBuffer | netpoll/util/message_buffer.cc:60-65 | appends the contents of another buffer, or of itself |
| MessageBuffers.MessageBuffer.PushFront | netpoll/util/message_buffer.cc:207-235 | prepends exactly the bytes, in the reserved room, by shifting, or in new storage, which is used exactly when neither end has room |
| MessageBuffers.MessageBuffer.ShiftIn | netpoll/util/message_buffer.cc:216-225 | the overlapping move keeps the contents |
| MessageBuffers.MessageBuffer.GrowFront | netpoll/util/message_buffer.cc:226-234 | new storage of the least capacity that fits and is no smaller |
| MessageBuffers.MessageBuffer.Retrieve | netpoll/util/message_buffer.cc:134-142 | drops a prefix |
| MessageBuffers.MessageBuffer.RetrieveAll | netpoll/util/message_buffer.cc:144-148 | empties the buffer, which stays usable if and only if its capacity is at least 8 |
| MessageBuffers.MessageBuffer.ReadFd | netpoll/util/message_buffer.cc:150-169 | appends exactly the bytes read, also beyond the free room |
| MessageBuffers.MessageBuffer.Read | netpoll/util/message_buffer.cc:171-177 | returns the prefix it drops |
| MessageBuffers.MessageBuffer.PushBackInt | netpoll/util/message_buffer.cc:74-90 | appends the number in network order |
| MessageBuffers.MessageBuffer.PushFrontInt | netpoll/util/message_buffer.cc:92-108 | prepends the number in network order |
| MessageBuffers.MessageBuffer.ReadInt | netpoll/util/message_buffer.cc:110-132 | takes off the one number whose network order was in front |
| Bytes.ReversalIsNetworkOrder | netpoll/util/funcs.h:7-16 | reversing the bytes of a little-endian number gives network order |
| Bytes.BigEndianRoundTrip | netpoll/util/message_buffer.cc:126-132 | reading back what was written gives the number |
| Bytes.FromBigEndianRoundTrip | netpoll/util/message_buffer.cc:126-132 | any bytes are the network order of the number they read as |
| ChatCodec.Serve | examples/chat/chat_server.cc:35-45 | for any bytes in any pieces the server is handed exactly the frames of their concatenation |
| ChatCodec.RoundTrip | examples/chat/context.cc:9-53 | the encodings of any messages, concatenated and cut anywhere, give back exactly those messages |
| ChatCodec.FramesComplete | examples/chat/context.cc:9-42 | every byte string is its frames, encoded, and an incomplete rest |
| ChatCodec.FramesUnique | examples/chat/context.cc:9-42 | and no other messages and incomplete rest make it up |
| ChatCodec.Context.ProcessCodec | examples/chat/context.cc:9-42 | nothing is lost or reordered between buffer and decoder; it stops exactly when a message is complete or more bytes are needed; expectedLength never underflows |
| ChatCodec.Context.GetText | examples/chat/context.h:19-36 | hands over the message whose encoding was held and starts afresh |
| ChatCodec.Session.OnMessage | examples/chat/chat_server.cc:35-45 | the loop ends with no complete frame left unread |
| ChatCodec.Send | examples/chat/context.cc:44-53 | the wire gets length and body, which decode to the message alone |
| Timers.Life | netpoll/net/inner/timer_queue.cc:28-97 | over every sequence of adds in the loop, timers made by other threads and inserted later in any order, cancels, expiries and forks, with callbacks that add and cancel while other threads make timers: no timer runs before it is due, a one-shot timer runs at most once, repeats are more than the interval apart, none runs after a cancel that followed its add; the timerfd is always set no later than the earliest timer, the 100 us floor aside; and each operation does to heap, ids and log exactly what it should, every due live timer having its turn |
| Timers.TimerQueue.HandleRead | netpoll/net/inner/timer_queue.cc:62-97 | every due live timer runs or is cancelled by an earlier callback of the same batch; due timers are back one interval from now if and only if they repeat and are live; the others stay as they are, and anything else in the heap was added meanwhile; the log grows by exactly the runs and the acts of their callbacks |
| Timers.TimerQueue.GetExpired | netpoll/net/inner/timer_queue.cc:254-278 | takes out exactly the timers due before now, in order |
| Timers.TimerQueue.RunBatch | netpoll/net/inner/timer_queue.cc:77-84 | each timer of the batch that is live when its turn comes runs once, followed by what its callback does, and nothing else happens; the others were cancelled meanwhile |
| Timers.TimerQueue.Reset | netpoll/net/inner/timer_queue.cc:280-304 | live repeating timers are back, and only they stay live of the batch; one-shot timers are forgotten; the timerfd is set for the earliest |
| Timers.TimerQueue.AddTimerInLoop | netpoll/net/inner/timer_queue.cc:213-227 | the timer joins heap and id set; the timerfd stays in time |
| Timers.TimerQueue.MakeTimer | netpoll/net/inner/timer_queue.cc:191-211 | in another thread addTimer makes a new id and queues the insertion; nothing else of the queue changes and the invariant holds, in the middle of a batch as well |
| Timers.TimerQueue.Arrive | netpoll/net/inner/timer_queue.cc:213-227 | any of the queued insertions may come first: its timer joins heap, id set and log, and the timerfd stays in time |
| Timers.TimerQueue.CancelInLoop | netpoll/net/inner/timer_queue.cc:229-232 | only the id is forgotten; for a timer not inserted yet nothing changes |
| Timers.CancelLost | netpoll/net/inner/timer_queue.cc:191-232 | for every due timer another thread has made: a cancel that comes before its insertion is lost, and the timer runs after it |
| Timers.TimerQueue.Insert | netpoll/net/inner/timer_queue.cc:234-244 | says whether the timer is earlier than all others |
| Timers.TimerQueue.ResetAfterFork | netpoll/net/inner/timer_queue.cc:160-177 | the new timerfd is in time |
| Timers.ArmedInTime | netpoll/net/inner/timer_queue.cc:28-38 | the timespec is well formed, never less than 100 us, and reaches the expiry to the microsecond but not beyond it |
| Timers.GoodRun | netpoll/net/inner/timer.cc:30-34 | running a waiting live timer keeps the log in order |
| Timers.GoodReset | netpoll/net/inner/timer_queue.cc:284-296 | restarting, forgetting or dropping a timer that had its turn keeps the invariant |
| Pollers.EpollPoller.UpdateChannel | netpoll/net/inner/poller/epoll_poller.cc:117-161 | the wanted map changes at this descriptor alone; the descriptor leaves the kernel set exactly by an update without events of an added channel; every call meets the precondition that the kernel is not asked to add what it has nor to change or delete what it has not |
| Pollers.EpollPoller.RemoveChannel | netpoll/net/inner/poller/epoll_poller.cc:162-178 | the descriptor leaves the wanted map and the kernel set |
| Pollers.EpollPoller.WatchExact | netpoll/net/inner/poller/epoll_poller.cc:117-195 | the kernel watches a descriptor for some events if and only if they are wanted |
| Pollers.KQueue.UpdateChannel | netpoll/net/inner/poller/kqueue.cc:95-129 | the same wanted map; every call meets the precondition that filters are added only when absent and deleted only when present |
| Pollers.KQueue.RemoveChannel | netpoll/net/inner/poller/kqueue.cc:130-145 | the descriptor leaves the wanted map and all its filters go |
| Pollers.KQueue.Update | netpoll/net/inner/poller/kqueue.cc:147-184 | sending only the difference leaves exactly the filters of the enabled events |
| Pollers.KQueue.ResetAfterFork | netpoll/net/inner/poller/kqueue.cc:29-41 | the new kqueue holds exactly the filters wanted before |
| Pollers.KQueue.FiltersExact | netpoll/net/inner/poller/kqueue.cc:147-184 | the read filter is set if and only if input or urgent data is wanted, the write filter if and only if output is |
| Pollers.PollPoller.UpdateChannel | netpoll/net/inner/poller/poll_poller.cc:70-106 | the same wanted map; indices stay dense and right; a channel is muted exactly by an update without events that is not its first |
| Pollers.PollPoller.RemoveChannel | netpoll/net/inner/poller/poll_poller.cc:108-132 | swap-remove keeps indices dense and right; the index of the removed channel is not reset |
| Pollers.PollPoller.WatchExact | netpoll/net/inner/poller/poll_poller.cc:70-132 | poll() is asked to watch a descriptor for some events if and only if they are wanted |
| CloseHandshake.StepInv | netpoll/net/channel.cc:41-82 | every step of the loops, short of a report that closes twice, keeps the invariant and meets the asserts: established once, erased while in the set, removed only when disabled, registered and not waiting to be dispatched |
| CloseHandshake.ClosesOnce | netpoll/net/tcp_server.cc:147-173 | in every run without a report that closes twice each connection fires its close callback, leaves the set and has its channel removed at most once and in that order; when no function is queued, a closed connection has gone all the way and any other is established and watched |
| CloseHandshake.TwiceExactly | netpoll/net/channel.cc:51-73 | how often a report on an enabled channel fires the close callback, told from the report: once for a hang-up without input, once for a read that finds the end; and the connection is closed if and only if one of them holds |
| CloseHandshake.StatusLaw | netpoll/net/inner/tcp_connection_impl.cc:274-348 | every step does to the status and the close callback of a connection exactly this: a closing report or forceClose on an open connection closes it and fires once, shutdown makes Connected Disconnecting, establishing makes it Connected, and nothing else changes either |
| CloseHandshake.ForcedCloses | netpoll/net/inner/tcp_connection_impl.cc:337-348 | a forceClose from another thread is never lost: whatever the stage of the connection and the run after, it is closed once its loop has run its functions, and destroyed and out of the set once all loops have |
| CloseHandshake.OnceExactly | netpoll/net/channel.cc:41-82 | the condition of ClosesOnce is exact: throughout a run no connection fires its close callback twice if and only if the run has no such report on an enabled channel |
| CloseHandshake.ClosedTwice | netpoll/net/channel.cc:51-73 | a run from the start, with one connection, in which the callback fires twice |
| CloseHandshake.ClosedOk | netpoll/net/inner/tcp_connection_impl.cc:274-287 | closing an open connection keeps the invariant, and it was in the set |
| CloseHandshake.ErasedOk | netpoll/net/tcp_server.cc:147-162 | erasing a closed connection and queueing its destruction keeps the invariant |
| CloseHandshake.DestroyedOk | netpoll/net/inner/tcp_connection_impl.cc:309-320 | destroying an erased connection, outside the dispatch, keeps the invariant |
| CloseHandshake.RunFuncOk | netpoll/net/eventloop.cc:291-309 | whatever function comes out of the queue finds its connection in the right stage |

## Left out

- Timing wheel: tick intervals other than 1.0, float rounding, inserts made while a tick is under way on a wheel of
  several queues, and the destructor of the wheel.
- Atomics are sequentially consistent steps; counters and clocks are unbounded integers; ids and addresses are not
  reused.
- RbTree.Tree.DelDouble: the successor is unlinked first and put in the place of the deleted node after, where the code
  interleaves these pointer writes; the resulting links, colours and parents are the same.
- Wepoll: `user_data`, `port_wait` with its time-outs, and the critical section are not modelled; the tree is a map here
  and proved on its own in RbTree.dfy; what the system answers is a parameter.
- The intrusive list operations of wepoll are sequences; group and socket queues are moved as values.
- Output path: list nodes and streams are values (a stream is the finite list of chunks its callback will return), the
  high-water mark callback, sending a file where `sendfile` is not available, and Windows are left out.
- OutputPath.Connection.SendFile: the range must not be empty and unnamed, which the code asserts; opening the file and
  reading its size are parameters.
- Wheel buckets are sets of entries; that an object is destroyed when its last bucket lets go is modelled as such.
- Timer priorities: the two priority slots are only assigned when already set, so they stay empty and are not modelled;
  the heap is a map whose top is any earliest timer; reading the clock and setting the timerfd is one instant.
- Pollers: waiting and filling the list of active channels.
- Close handshake: only `send` writes, so nothing enables a channel after its close; user callbacks appear as the
  `forceClose` and `shutdown` calls they make; TcpServer::stop is a series of such calls.
- MessageBuffer: `findCRLF`, `hasWritten`, `unwrite`, moving and swapping between buffers.
- Chat: JSON, base64 and the request handlers; a message is a byte string shorter than 2^64.
- Connector, TcpClient, Acceptor, Socket, InetAddress, Resolver, ConcurrentTaskQueue, signal handling, the HTTP example
  and the logging library: thin wrappers, or easy next to what is here.
