// The sending side of a connection: a list of buffers, files and streams drained by partial writes.
module OutputPath {
  import opened Bytes
  import opened Common

  datatype WriteResult = Wrote(n: nat) | WouldBlock | Fatal

  // What the kernel is ready to do with one call: take so many bytes, take all, ask to wait, fail.
  datatype Answer = Take(n: nat) | All | Block | Fail

  // The outcome of a call that offers `len` bytes.
  function Reply(a: Answer, len: nat, closed: bool): (r: WriteResult)
    ensures r.Wrote? ==> r.n <= len
  {
    if closed || a.Fail? then Fatal
    else if a.Block? then WouldBlock
    else Wrote(if a.All? || a.n > len then len else a.n)
  }

  // The kernel side of the socket; `answers` is all it will ever do, one entry a call.
  class Socket {
    const answers: nat -> Answer
    var calls: nat
    var wire: Bytes          // every byte taken so far
    var writeClosed: bool

    constructor (answers: nat -> Answer)
      ensures wire == [] && !writeClosed && calls == 0 && this.answers == answers
    {
      this.answers := answers;
      wire, writeClosed, calls := [], false, 0;
    }

    // What the next call meets.
    function Next(): Answer
      reads this
    {
      answers(calls)
    }

    // The socket takes everything it is offered.
    ghost predicate Greedy()
      reads this
    {
      !writeClosed && forall k :: answers(k) == All
    }

    ghost predicate NeverFails() { forall k :: !answers(k).Fail? }

    method Write(data: Bytes) returns (r: WriteResult)
      modifies this`wire, this`calls
      ensures r == Reply(old(Next()), |data|, writeClosed) && calls == old(calls) + 1
      ensures wire == old(wire) + (if r.Wrote? then data[..r.n] else [])
    {
      r := Reply(answers(calls), |data|, writeClosed);
      calls := calls + 1;
      if r.Wrote? { wire := wire + data[..r.n]; }
    }

    // sendfile(): takes up to `count` bytes of the file from `offset` on; none at or after its end.
    method SendFile(content: Bytes, offset: nat, count: nat) returns (r: WriteResult)
      modifies this`wire, this`calls
      ensures r == Reply(old(Next()), |Slice(content, offset, count)|, writeClosed) && calls == old(calls) + 1
      ensures wire == old(wire) + (if r.Wrote? then Slice(content, offset, count)[..r.n] else [])
    {
      r := Write(Slice(content, offset, count));
    }
  }

  // The part of a file of `count` bytes from `offset`, as far as the file reaches.
  function Slice(content: Bytes, offset: nat, count: nat): Bytes
  {
    if offset >= |content| then []
    else if offset + count >= |content| then content[offset..]
    else content[offset..offset + count]
  }

  datatype Node =
    | Buffer(bytes: Bytes)
    | File(content: Bytes, offset: nat, toSend: nat)
    | Stream(chunks: seq<Bytes>, more: bool)     // what the callback will still deliver

  predicate IsFile(n: Node) { !n.Buffer? }

  // The callback ends the stream with its first empty delivery.
  function StreamBytes(chunks: seq<Bytes>): Bytes
  {
    if chunks == [] || chunks[0] == [] then [] else chunks[0] + StreamBytes(chunks[1..])
  }

  function Rest(n: Node): Bytes
  {
    match n
    case Buffer(bytes) => bytes
    case File(content, offset, toSend) => Slice(content, offset, toSend)
    case Stream(chunks, more) => if more then StreamBytes(chunks) else []
  }

  function Flat(list: seq<Node>): Bytes
  {
    if list == [] then [] else Rest(list[0]) + Flat(list[1..])
  }

  lemma {:induction false} FlatAppend(a: seq<Node>, n: Node)
    ensures Flat(a + [n]) == Flat(a) + Rest(n)
  {
    if a == [] {
      assert [n][1..] == [];
    } else {
      assert (a + [n])[1..] == a[1..] + [n];
      FlatAppend(a[1..], n);
    }
  }

  // How many bytes of a buffer or file go out with one call.
  function Moves(a: Answer, n: Node, closed: bool): nat
  {
    var r := Reply(a, |Rest(n)|, closed);
    if r.Wrote? then r.n else 0
  }

  // What is left of a node that goes out by sendfile().
  function FilePart(n: Node): nat { if n.File? then |Rest(n)| else 0 }

  // How many of the pending bytes are bytes of files.
  function FileRest(list: seq<Node>): nat
  {
    if list == [] then 0 else FilePart(list[0]) + FileRest(list[1..])
  }

  lemma {:induction false} FileRestAppend(a: seq<Node>, n: Node)
    ensures FileRest(a + [n]) == FileRest(a) + FilePart(n)
  {
    if a == [] {
      assert [n][1..] == [];
    } else {
      assert (a + [n])[1..] == a[1..] + [n];
      FileRestAppend(a[1..], n);
    }
  }

  // An empty buffer at the end.
  lemma FlatOpened(list: seq<Node>)
    ensures Flat(list + [Buffer([])]) == Flat(list) && Flat([]) == []
    ensures FileRest(list + [Buffer([])]) == FileRest(list) && FileRest([]) == 0
  {
    FlatAppend(list, Buffer([]));
    FileRestAppend(list, Buffer([]));
  }

  lemma FlatGrowLast(list: seq<Node>, data: Bytes)
    requires list != [] && list[|list| - 1].Buffer?
    ensures Flat(list[|list| - 1 := Buffer(list[|list| - 1].bytes + data)]) == Flat(list) + data
    ensures FileRest(list[|list| - 1 := Buffer(list[|list| - 1].bytes + data)]) == FileRest(list)
  {
    var a, last := list[..|list| - 1], list[|list| - 1];
    assert list == a + [last];
    assert list[|list| - 1 := Buffer(last.bytes + data)] == a + [Buffer(last.bytes + data)];
    FlatAppend(a, last);
    FlatAppend(a, Buffer(last.bytes + data));
    FileRestAppend(a, last);
    FileRestAppend(a, Buffer(last.bytes + data));
  }

  lemma SliceDrop(content: Bytes, offset: nat, count: nat, n: nat)
    requires n <= |Slice(content, offset, count)|
    ensures n <= count
    ensures Slice(content, offset, count) == Slice(content, offset, count)[..n] + Slice(content, offset + n, count - n)
    ensures |Slice(content, offset, count)| == n + |Slice(content, offset + n, count - n)|
  {
  }

  lemma Regroup(a: Bytes, b: Bytes, c: Bytes)
    ensures a + (b + c) == (a + b) + c
  {
  }

  // Bytes `x` go from the head of what is pending to the wire.
  lemma Moved(w: Bytes, x: Bytes, y: Bytes, f: Bytes)
    ensures w + ([] + ((x + y) + f)) == (w + x) + ([] + (y + f))
    ensures w + ((x + y) + f) == (w + x) + (y + f)
  {
  }

  // Bytes `x` go from the front node to the staging buffer.
  lemma Staged(w: Bytes, x: Bytes, y: Bytes, f: Bytes)
    ensures w + ([] + ((x + y) + f)) == w + (x + (y + f))
  {
  }

  lemma SliceLength(content: Bytes, offset: nat, count: nat)
    ensures |Slice(content, offset, count)| <= count
    ensures Slice(content, offset, count) != [] ==> offset + |Slice(content, offset, count)| <= |content|
  {
  }

  lemma FileRests(f: Node, f': Node)
    requires f.File? && f'.File?
    ensures Rest(f) == Slice(f.content, f.offset, f.toSend) && Rest(f') == Slice(f'.content, f'.offset, f'.toSend)
    ensures FilePart(f) == |Rest(f)| && FilePart(f') == |Rest(f')|
  {
  }

  lemma StreamRests(chunks: seq<Bytes>, chunk: Bytes, later: seq<Bytes>)
    requires chunk == (if chunks == [] then [] else chunks[0]) && later == (if chunks == [] then [] else chunks[1..])
    ensures Rest(Stream(chunks, true)) == chunk + Rest(Stream(later, |chunk| > 0))
  {
  }

  lemma FlatFront(list: seq<Node>)
    requires list != []
    ensures Flat(list) == Rest(list[0]) + Flat(list[1..])
    ensures FileRest(list) == FilePart(list[0]) + FileRest(list[1..])
  {
  }

  class Connection {
    const socket: Socket
    var status: Status
    var writing: bool            // interest in write events
    var list: seq<Node>
    var staging: Bytes           // fetched from the stream in front, not yet written
    var bytesSent: nat
    ghost var accepted: Bytes    // everything the connection undertook to send, in order
    ghost var bySendfile: nat    // bytes sendfile() took
    ghost var fromFiles: nat     // bytes of files among those accepted

    constructor (socket: Socket)
      requires socket.wire == [] && !socket.writeClosed
      ensures Valid() && this.socket == socket && status == Connecting && accepted == [] && list == []
      ensures bytesSent == 0 && fromFiles == 0
    {
      this.socket := socket;
      status, writing, list, staging, bytesSent, accepted := Connecting, false, [], [], 0, [];
      bySendfile, fromFiles := 0, 0;
    }

    ghost function Pending(): Bytes
      reads this
    {
      staging + Flat(list)
    }

    ghost predicate Valid()
      reads this, socket
    {
      && socket.wire + Pending() == accepted
      && (writing ==> list != [])
      && (staging != [] ==> list != [] && list[0].Stream? && list[0].more)
      && (status != Disconnected && list != [] && !writing ==> IsFile(list[0]))
      && (socket.writeClosed ==> status == Disconnecting || status == Disconnected)
      && bytesSent + bySendfile == |socket.wire| && bySendfile + FileRest(list) == fromFiles
    }

    // The file in front can never be finished.
    ghost predicate Stuck()
      reads this
    {
      list != [] && Overlong(list[0])
    }

    method WriteInLoop(data: Bytes) returns (r: WriteResult)
      modifies this`bytesSent, socket`wire, socket`calls
      ensures r == Reply(old(socket.Next()), |data|, socket.writeClosed) && socket.calls == old(socket.calls) + 1
      ensures r.Wrote? ==> socket.wire == old(socket.wire) + data[..r.n] && bytesSent == old(bytesSent) + r.n
      ensures !r.Wrote? ==> socket.wire == old(socket.wire) && bytesSent == old(bytesSent)
    {
      r := socket.Write(data);
      if r.Wrote? && r.n > 0 { bytesSent := bytesSent + r.n; }
    }

    // Writes at once when nothing waits, queues the rest. The data is given up when the connection is not connected
    // or the socket fails.
    method SendInLoop(data: Bytes) returns (kept: bool)
      requires Valid()
      modifies this`writing, this`list, this`bytesSent, this`accepted, socket`wire, socket`calls
      ensures Valid() && accepted == old(accepted) + (if kept then data else [])
      ensures kept <==>
        old(status) == Connected && (old(list) != [] || !Reply(old(socket.Next()), |data|, socket.writeClosed).Fatal?)
      ensures kept && old(list) != [] && data != [] ==> writing
      ensures kept && old(list) == [] ==>
        var r := Reply(old(socket.Next()), |data|, socket.writeClosed);
        var n := if r.Wrote? then r.n else 0;
        && socket.wire == old(socket.wire) + data[..n]
        && (if n == |data| then list == [] else writing && list == [Buffer(data[n..])])
      ensures !kept ==> socket.wire == old(socket.wire) && list == old(list) && writing == old(writing)
      ensures old(list) != [] ==> socket.wire == old(socket.wire)
      ensures old(list) != [] && IsFile(old(list)[0]) ==> list != [] && list[0] == old(list)[0]
    {
      hide Flat, FileRest, Rest, Slice, Reply;
      if status != Connected { return false; }
      var sent: int := 0;
      if !writing && list == [] {
        sent := WriteFirst(data);
        if sent < 0 { return false; }
      }
      assert data == data[..sent] + data[sent..];
      Regroup(old(accepted), data[..sent], data[sent..]);
      if |data| - sent > 0 { QueueRest(data[sent..]); }
      kept := true;
    }

    // The direct write; -1 when the socket fails.
    method WriteFirst(data: Bytes) returns (sent: int)
      requires Valid() && list == []
      modifies this`bytesSent, this`accepted, socket`wire, socket`calls
      ensures Valid() && -1 <= sent <= |data| && accepted == old(accepted) + (if sent < 0 then [] else data[..sent])
      ensures socket.wire == old(socket.wire) + (if sent < 0 then [] else data[..sent])
      ensures socket.wire == accepted
      ensures sent == match Reply(old(socket.Next()), |data|, socket.writeClosed)
                      case Wrote(n) => n
                      case WouldBlock => 0
                      case Fatal => -1
    {
      var r := WriteInLoop(data);
      sent := match r case Wrote(n) => n case WouldBlock => 0 case Fatal => -1;
      accepted := accepted + (if sent < 0 then [] else data[..sent]);
    }

    // What the direct write left joins the list.
    method QueueRest(rest: Bytes)
      requires Valid() && status == Connected
      modifies this`writing, this`list, this`accepted
      ensures Valid() && accepted == old(accepted) + rest && writing && (old(list) == [] ==> list == [Buffer(rest)])
      ensures old(list) != [] && IsFile(old(list)[0]) ==> list != [] && list[0] == old(list)[0]
    {
      hide Flat, FileRest, Rest;
      FlatOpened([]);
      Regroup(staging, Flat(list), rest);
      Regroup(socket.wire, Pending(), rest);
      Queue(rest);
      accepted := accepted + rest;
      if !writing { writing := true; }
    }

    // Appends to the last buffer, opening a new one after a file.
    method Queue(data: Bytes)
      modifies this`list
      ensures Flat(list) == Flat(old(list)) + data && FileRest(list) == FileRest(old(list))
      ensures list != [] && (old(list) != [] ==> Kind(list[0]) == Kind(old(list)[0]))
      ensures old(list) != [] && IsFile(old(list)[0]) ==> list[0] == old(list)[0]
      ensures old(list) <= list || (old(list) != [] && |list| == |old(list)|)
      ensures old(list) == [] ==> list == [Buffer(data)]
    {
      hide Flat, FileRest, Rest;
      if list == [] || IsFile(list[|list| - 1]) {
        FlatOpened(list);
        list := list + [Buffer([])];
      }
      FlatGrowLast(list, data);
      assert [] + data == data;
      list := list[|list| - 1 := Buffer(list[|list| - 1].bytes + data)];
    }

    // Replaces the node in front.
    method SetFront(n: Node)
      requires list != []
      modifies this`list
      ensures list == [n] + old(list)[1..] && Flat(list) == Rest(n) + Flat(old(list)[1..])
      ensures FileRest(list) == FilePart(n) + FileRest(old(list)[1..])
    {
      list := list[0 := n];
      assert list[1..] == old(list)[1..];
    }

    // Linux: one sendfile() call for the file in front.
    method SendFileRange() returns (r: WriteResult)
      requires Valid() && list != [] && list[0].File?
      modifies this`writing, this`list, this`bySendfile, socket`wire, socket`calls
      ensures Valid() && |list| == |old(list)| && list[1..] == old(list)[1..] && list[0].File?
      ensures list[0].content == old(list)[0].content
      ensures list[0].offset + list[0].toSend == old(list)[0].offset + old(list)[0].toSend
      ensures !r.Wrote? || (r.n == 0 && old(list)[0].toSend > 0) ==>
        list == old(list) && socket.wire == old(socket.wire)
      ensures writing == match r
                         case Wrote(n) => old(writing) || n > 0 || old(list)[0].toSend == 0
                         case WouldBlock => old(writing)
                         case Fatal => false
      ensures Overlong(list[0]) == Overlong(old(list)[0])
      ensures socket.wire + Rest(list[0]) == old(socket.wire) + Rest(old(list)[0])
      ensures r.Wrote? ==> list[0].offset == old(list)[0].offset + r.n
      ensures r == Reply(old(socket.Next()), |Rest(old(list)[0])|, socket.writeClosed)
      ensures bySendfile - old(bySendfile) == |socket.wire| - |old(socket.wire)|
      ensures |socket.wire| - |old(socket.wire)| == Moves(old(socket.Next()), old(list)[0], socket.writeClosed)
    {
      hide Flat, FileRest, FilePart, Rest, Slice, Reply;
      var f := list[0];
      FileRests(f, f);
      r := socket.SendFile(f.content, f.offset, f.toSend);
      if !r.Wrote? {
        if r.Fatal? && writing { writing := false; }
        return;
      }
      if r.n < f.toSend && r.n == 0 { return; }
      Shrink(r.n);
      Moved(old(socket.wire), Rest(f)[..r.n], Rest(list[0]), Flat(list[1..]));
      Regroup(old(socket.wire), Rest(f)[..r.n], Rest(list[0]));
      bySendfile := bySendfile + r.n;
      if !writing { writing := true; }
    }

    // The first `n` bytes of the file in front are gone.
    method Shrink(n: nat)
      requires list != [] && list[0].File? && n <= |Rest(list[0])|
      modifies this`list
      ensures n <= old(list)[0].toSend
      ensures var f := old(list)[0]; list == [File(f.content, f.offset + n, f.toSend - n)] + old(list)[1..]
      ensures Rest(old(list)[0]) == Rest(old(list)[0])[..n] + Rest(list[0])
      ensures Flat(old(list)) == (Rest(old(list)[0])[..n] + Rest(list[0])) + Flat(list[1..])
      ensures Flat(list) == Rest(list[0]) + Flat(list[1..])
      ensures FileRest(old(list)) == n + FileRest(list)
      ensures Overlong(list[0]) == Overlong(old(list)[0])
    {
      hide Flat, FileRest, FilePart, Rest, Slice;
      var f := list[0];
      FileRests(f, f);
      SliceDrop(f.content, f.offset, f.toSend, n);
      SliceLength(f.content, f.offset, f.toSend);
      var f' := File(f.content, f.offset + n, f.toSend - n);
      FileRests(f, f');
      FlatFront(list);
      SetFront(f');
      assert list[1..] == old(list)[1..];
    }

    // Gets the next chunk from the callback of the stream in front.
    method Fetch()
      requires Valid() && list != [] && list[0].Stream? && list[0].more && staging == []
      modifies this`list, this`staging
      ensures Valid() && |list| == |old(list)| && list[1..] == old(list)[1..] && list[0].Stream?
      ensures staging == [] <==> !list[0].more
      ensures staging != [] ==> |list[0].chunks| < |old(list)[0].chunks|
    {
      hide Flat, FileRest, Rest, StreamBytes;
      var s := list[0];
      var chunk := if s.chunks == [] then [] else s.chunks[0];
      var later := if s.chunks == [] then [] else s.chunks[1..];
      var s' := Stream(later, |chunk| > 0);
      StreamRests(s.chunks, chunk, later);
      FlatFront(list);
      Staged(socket.wire, chunk, Rest(s'), Flat(list[1..]));
      SetFront(s');
      staging := chunk;
    }

    // One write from the staging buffer.
    method WriteStaged() returns (r: WriteResult)
      requires Valid() && staging != []
      modifies this`staging, this`bytesSent, socket`wire, socket`calls
      ensures Valid() && r == Reply(old(socket.Next()), |old(staging)|, socket.writeClosed)
      ensures socket.calls == old(socket.calls) + 1
      ensures staging == if r.Wrote? then old(staging)[r.n..] else old(staging)
    {
      hide Flat, FileRest, Rest;
      ghost var wire := socket.wire;
      r := WriteInLoop(staging);
      if r.Wrote? {
        assert staging == staging[..r.n] + staging[r.n..];
        Moved(wire, staging[..r.n], staging[r.n..], Flat(list));
        staging := staging[r.n..];
      }
    }

    // Writes chunk after chunk until the socket is full or the stream ends.
    method SendStreamChunks()
      requires Valid() && list != [] && list[0].Stream?
      modifies this`writing, this`list, this`staging, this`bytesSent, socket`wire, socket`calls
      ensures Valid() && |list| == |old(list)| && list[1..] == old(list)[1..] && list[0].Stream?
      ensures !writing <==>
        && !old(writing) && socket.calls > old(socket.calls)
        && (socket.writeClosed || socket.answers(socket.calls - 1).Fail?)
      ensures !FrontDone() ==>
        socket.calls > old(socket.calls) && (socket.writeClosed || !socket.answers(socket.calls - 1).All?)
      ensures socket.Greedy() ==> writing && FrontDone()
    {
      hide Flat, FileRest, Rest;
      while list[0].more || staging != []
        invariant Valid() && |list| == |old(list)| && list[1..] == old(list)[1..] && list[0].Stream?
        invariant writing == old(writing) && socket.calls >= old(socket.calls)
        invariant socket.calls > old(socket.calls) ==> !socket.writeClosed && !socket.answers(socket.calls - 1).Fail?
        decreases |list[0].chunks|, |staging|, list[0].more
      {
        if staging == [] { Fetch(); }
        if staging == [] { break; }
        var size := |staging|;
        var r := WriteStaged();
        if r.Wrote? {
          if r.n < size {
            if !writing { writing := true; }
            return;
          }
        } else {
          if r.Fatal? { return; }
          break;
        }
      }
      if !writing { writing := true; }
    }

    method SendFileInLoop()
      requires Valid() && list != [] && IsFile(list[0])
      modifies this`writing, this`list, this`staging, this`bytesSent, this`bySendfile, socket`wire, socket`calls
      ensures Valid() && |list| == |old(list)| && list[1..] == old(list)[1..] && Kind(list[0]) == Kind(old(list)[0])
      ensures list[0].File? ==> Overlong(list[0]) == Overlong(old(list)[0])
      ensures list[0].File? ==> socket.wire + Rest(list[0]) == old(socket.wire) + Rest(old(list)[0])
      ensures bySendfile - old(bySendfile) == if list[0].File? then |socket.wire| - |old(socket.wire)| else 0
      ensures old(writing) ==>
        (!writing <==> list[0].File? && (socket.writeClosed || old(socket.Next()).Fail?))
      ensures list[0].File? && !old(writing) ==>
        (writing <==>
           var r := Reply(old(socket.Next()), |Rest(old(list)[0])|, socket.writeClosed);
           r.Wrote? && (r.n > 0 || old(list)[0].toSend == 0))
      ensures list[0].File? ==>
        |socket.wire| - |old(socket.wire)| == Moves(old(socket.Next()), old(list)[0], socket.writeClosed)
      ensures socket.Greedy() && !Overlong(old(list)[0]) ==> writing && FrontDone()
      ensures list[0].File? && Reply(old(socket.Next()), |Rest(old(list)[0])|, socket.writeClosed).WouldBlock? ==>
        list == old(list) && writing == old(writing) && socket.wire == old(socket.wire)
    {
      hide Slice, Flat, FileRest, Rest;
      if list[0].File? {
        RangeWhole(list[0]);
        var _ := SendFileRange();
      } else {
        SendStreamChunks();
      }
    }

    // Writes from the buffer in front.
    method SendBuffer()
      requires Valid() && list != [] && list[0].Buffer?
      modifies this`list, this`bytesSent, socket`wire, socket`calls
      ensures Valid() && |list| == |old(list)| && list[1..] == old(list)[1..] && list[0].Buffer?
      ensures socket.Greedy() ==> FrontDone()
      ensures |socket.wire| - |old(socket.wire)| == Moves(old(socket.Next()), old(list)[0], socket.writeClosed)
    {
      FlatFront(list);
      hide Flat, FileRest;
      var bytes := list[0].bytes;
      var r := WriteInLoop(bytes);
      if r.Wrote? {
        assert bytes == bytes[..r.n] + bytes[r.n..];
        Moved(old(socket.wire), bytes[..r.n], bytes[r.n..], Flat(list[1..]));
        SetFront(Buffer(bytes[r.n..]));
      }
    }

    method SendNext()
      requires Valid() && list != []
      modifies this`writing, this`list, this`staging, this`bytesSent, this`bySendfile, socket`wire, socket`calls
      ensures Valid() && |list| == |old(list)| && list[1..] == old(list)[1..]
      ensures list[0].File? ==> socket.wire + Rest(list[0]) == old(socket.wire) + Rest(old(list)[0])
      ensures Kind(list[0]) == Kind(old(list)[0])
      ensures Overlong(list[0]) == Overlong(old(list)[0])
      ensures bySendfile - old(bySendfile) == if list[0].File? then |socket.wire| - |old(socket.wire)| else 0
      ensures old(writing) ==>
        (!writing <==> list[0].File? && (socket.writeClosed || old(socket.Next()).Fail?))
      ensures !list[0].Stream? ==>
        |socket.wire| - |old(socket.wire)| == Moves(old(socket.Next()), old(list)[0], socket.writeClosed)
      ensures socket.Greedy() && old(writing) && !Overlong(old(list)[0]) ==> writing && FrontDone()
    {
      if !IsFile(list[0]) { SendBuffer(); } else { SendFileInLoop(); }
    }

    predicate FrontDone()
      requires list != []
      reads this
    {
      match list[0]
      case Buffer(bytes) => |bytes| <= 0
      case File(_, _, toSend) => toSend <= 0
      case Stream(_, more) => !more
    }

    lemma OneDone()
      requires Valid() && |list| == 1 && FrontDone()
      ensures Pending() == [] && FileRest(list) == 0
    {
      assert Rest(list[0]) == [] && list[1..] == [];
      FlatFront(list);
    }

    // A write event.
    method HandleWrite()
      requires Valid()
      modifies this`writing, this`list, this`staging, this`bytesSent, this`bySendfile, socket
      ensures Valid()
      ensures !old(writing) ==> socket.wire == old(socket.wire) && list == old(list) && !writing
      ensures socket.writeClosed ==>
        old(socket.writeClosed) || (status == Disconnecting && socket.wire == accepted && list == [])
      ensures old(writing) && !old(FrontDone()) ==> |list| == |old(list)|
      ensures old(writing) && old(FrontDone()) ==> |list| == |old(list)| - 1 && (list == [] ==> !writing)
      ensures old(writing) && list == [] && status == Disconnecting ==> socket.writeClosed
      ensures old(Stuck()) ==> Stuck() && socket.wire + Rest(list[0]) == old(socket.wire + Rest(list[0]))
      ensures bySendfile - old(bySendfile) ==
        if list != [] && list[0].File? then |socket.wire| - |old(socket.wire)| else 0
      ensures old(writing) && list != [] ==>
        (!writing <==> list[0].File? && (old(socket.writeClosed) || old(socket.Next()).Fail?))
      ensures old(writing) && list != [] && !list[0].Stream? ==>
        var front := if old(FrontDone()) then old(list)[1] else old(list)[0];
        |socket.wire| - |old(socket.wire)| == Moves(old(socket.Next()), front, old(socket.writeClosed))
      ensures HasOverlong(list) == HasOverlong(old(list))
      ensures old(writing) && old(socket.Greedy()) && !HasOverlong(list) ==>
        list == [] || (writing && FrontDone() && socket.Greedy())
    {
      hide Flat, FileRest, Rest, Slice, Moves, Reply, HasOverlong, Overlong;
      if !writing { return; }
      assert list != [];
      if FrontDone() {
        DoneWhole(list[0]);
        OverlongFront(list);
        PopFront();
        if list == [] {
          FlatOpened([]);
          writing := false;
          if status == Disconnecting { socket.writeClosed := true; }
        } else {
          Proceed();
        }
      } else {
        Proceed();
      }
    }

    // Sends from the node in front, with write interest on.
    method Proceed()
      requires Valid() && list != [] && writing
      modifies this`writing, this`list, this`staging, this`bytesSent, this`bySendfile, socket`wire, socket`calls
      ensures Valid() && |list| == |old(list)|
      ensures bySendfile - old(bySendfile) == if list[0].File? then |socket.wire| - |old(socket.wire)| else 0
      ensures !writing <==> list[0].File? && (socket.writeClosed || old(socket.Next()).Fail?)
      ensures !list[0].Stream? ==>
        |socket.wire| - |old(socket.wire)| == Moves(old(socket.Next()), old(list)[0], socket.writeClosed)
      ensures old(Stuck()) ==> Stuck() && socket.wire + Rest(list[0]) == old(socket.wire + Rest(list[0]))
      ensures HasOverlong(list) == HasOverlong(old(list))
      ensures socket.Greedy() && !HasOverlong(list) ==> writing && FrontDone()
    {
      hide Flat, FileRest, Rest, Slice, Moves, Reply;
      OverlongFront(list);
      SendNext();
      OverlongFront(list);
    }

    lemma DoneWhole(n: Node)
      requires list != [] && FrontDone() && n == list[0]
      ensures !Overlong(n)
    {
    }

    // A file or a stream joins the list; it is started at once when it is alone.
    method SendNode(node: Node)
      requires Valid() && IsFile(node) && (node.Stream? ==> node.more)
      modifies this`writing, this`list, this`staging, this`bytesSent, this`bySendfile, this`accepted
      modifies this`fromFiles, socket`wire, socket`calls
      ensures Valid() && accepted == old(accepted) + Rest(node)
      ensures |list| == |old(list)| + 1 && (old(list) != [] ==> list == old(list) + [node] && writing == old(writing))
      ensures old(list) != [] ==> socket.wire == old(socket.wire)
      ensures Overlong(list[|list| - 1]) == Overlong(node)
      ensures bySendfile - old(bySendfile) == if list[0].File? then |socket.wire| - |old(socket.wire)| else 0
      ensures fromFiles == old(fromFiles) + FilePart(node)
      ensures old(list) == [] && node.File? ==>
        && |socket.wire| - |old(socket.wire)| == Moves(old(socket.Next()), node, socket.writeClosed)
        && (writing <==>
              var r := Reply(old(socket.Next()), |Rest(node)|, socket.writeClosed);
              r.Wrote? && (r.n > 0 || node.toSend == 0))
      ensures old(list) == [] && socket.Greedy() && !Overlong(node) ==> FrontDone()
      ensures old(list) == [] && node.File? &&
              Reply(old(socket.Next()), |Rest(node)|, socket.writeClosed).WouldBlock? ==>
        list == [node] && writing == old(writing) && socket.wire == old(socket.wire)
    {
      hide Flat, FileRest, Slice, StreamBytes, Reply;
      FlatAppend(list, node);
      FileRestAppend(list, node);
      Regroup(staging, Flat(list), Rest(node));
      Regroup(socket.wire, Pending(), Rest(node));
      list := list + [node];
      accepted := accepted + Rest(node);
      fromFiles := fromFiles + FilePart(node);
      if |list| == 1 { SendFileInLoop(); }
    }

    // sendFile(name, offset, length): a length of 0 stands for the size of the file, whatever the offset.
    method SendFile(content: Bytes, offset: nat, length: nat)
      requires Valid() && (length > 0 || |content| > 0)
      modifies this`writing, this`list, this`staging, this`bytesSent, this`bySendfile, this`accepted
      modifies this`fromFiles, socket`wire, socket`calls
      ensures Valid()
      ensures accepted == old(accepted) + Slice(content, offset, if length == 0 then |content| else length)
      ensures old(list) != [] ==> list != [] && list[0] == old(list)[0] && socket.wire == old(socket.wire)
      ensures |list| == |old(list)| + 1 && fromFiles - old(fromFiles) == |accepted| - |old(accepted)|
      ensures old(list) == [] && socket.Greedy() && !Overlong(list[|list| - 1]) ==> FrontDone()
      ensures Overlong(list[|list| - 1]) <==> offset + (if length == 0 then |content| else length) > |content|
      ensures old(list) == [] &&
              Reply(old(socket.Next()), |accepted| - |old(accepted)|, socket.writeClosed).WouldBlock? ==>
        writing == old(writing) && socket.wire == old(socket.wire)
    {
      var len := if length == 0 then |content| else length;
      SendNode(File(content, offset, len));
    }

    method SendStream(chunks: seq<Bytes>)
      requires Valid()
      modifies this`writing, this`list, this`staging, this`bytesSent, this`bySendfile, this`accepted
      modifies this`fromFiles, socket`wire, socket`calls
      ensures Valid() && accepted == old(accepted) + StreamBytes(chunks) && fromFiles == old(fromFiles)
      ensures old(list) != [] ==> list != [] && list[0] == old(list)[0] && socket.wire == old(socket.wire)
    {
      SendNode(Stream(chunks, true));
    }

    method ConnectEstablished()
      requires Valid() && status == Connecting
      modifies this`status
      ensures Valid() && status == Connected
    {
      status := Connected;
    }

    method HandleClose()
      requires Valid()
      modifies this`status, this`writing
      ensures Valid() && status == Disconnected && !writing
    {
      status := Disconnected;
      writing := false;
    }

    method ForceClose()
      requires Valid()
      modifies this`status, this`writing
      ensures Valid()
      ensures Open(old(status)) ==> status == Disconnected && !writing
      ensures !Open(old(status)) ==> status == old(status) && writing == old(writing)
    {
      if Open(status) {
        status := Disconnecting;
        HandleClose();
      }
    }

    // Closes the sending direction, at once when no write interest is registered, else when the list runs empty.
    method Shutdown()
      requires Valid()
      modifies this`status, socket`writeClosed
      ensures Valid()
      ensures old(status) == Connected ==> status == Disconnecting
      ensures old(status) != Connected ==> status == old(status) && socket.writeClosed == old(socket.writeClosed)
      ensures old(status) == Connected ==> socket.writeClosed == (old(socket.writeClosed) || !writing)
      ensures socket.writeClosed && !old(socket.writeClosed) && socket.wire != accepted <==>
        old(status) == Connected && !writing && Pending() != []
      ensures old(status) == Connected && !writing && Pending() != [] ==> IsFile(list[0])
    {
      if status == Connected {
        status := Disconnecting;
        if !writing { socket.writeClosed := true; }
      }
    }

    method PopFront()
      requires list != [] && FrontDone()
      requires staging != [] ==> list[0].Stream? && list[0].more
      modifies this`list
      ensures list == old(list)[1..] && Flat(list) == Flat(old(list)) && FileRest(list) == FileRest(old(list))
      ensures staging == []
    {
      assert Rest(list[0]) == [];
      list := list[1..];
    }
  }

  // A range that reaches beyond the end of its file.
  predicate Overlong(n: Node) { n.File? && n.toSend > 0 && n.offset + n.toSend > |n.content| }

  // A range that is not overlong is one the file can fill.
  lemma RangeWhole(f: Node)
    requires f.File?
    ensures |Rest(f)| == f.toSend <==> !Overlong(f)
  {
  }

  ghost predicate HasOverlong(list: seq<Node>) { exists i :: 0 <= i < |list| && Overlong(list[i]) }

  lemma OverlongFront(list: seq<Node>)
    requires list != []
    ensures HasOverlong(list) <==> Overlong(list[0]) || HasOverlong(list[1..])
  {
    if i :| 0 <= i < |list| && Overlong(list[i]) && i > 0 { assert Overlong(list[1..][i - 1]); }
    if i :| 0 <= i < |list[1..]| && Overlong(list[1..][i]) { assert Overlong(list[i + 1]); }
  }

  function Kind(n: Node): nat { match n case Buffer(_) => 0 case File(_, _, _) => 1 case Stream(_, _) => 2 }

  // ---- whole runs ----

  datatype Op =
    | Establish
    | SendOp(data: Bytes)
    | SendFileOp(content: Bytes, offset: nat, length: nat)
    | SendStreamOp(chunks: seq<Bytes>)
    | WriteEvent
    | ShutdownOp
    | ForceCloseOp

  // What an operation asks to send.
  function Payload(op: Op): Bytes
  {
    match op
    case SendOp(data) => data
    case SendFileOp(content, offset, length) =>
      if length == 0 then Slice(content, offset, |content|) else Slice(content, offset, length)
    case SendStreamOp(chunks) => StreamBytes(chunks)
    case _ => []
  }

  // The payloads of the operations that were not given up, in order.
  function Accepted(ops: seq<Op>, kept: seq<bool>): Bytes
    requires |ops| == |kept|
  {
    if ops == [] then []
    else Accepted(ops[..|ops| - 1], kept[..|ops| - 1]) + (if kept[|ops| - 1] then Payload(ops[|ops| - 1]) else [])
  }

  // The status of a connection after a run.
  function Stage(start: Status, ops: seq<Op>): Status
  {
    if ops == [] then start
    else
      var before := Stage(start, ops[..|ops| - 1]);
      match ops[|ops| - 1]
      case Establish => if before == Connecting then Connected else before
      case ShutdownOp => if before == Connected then Disconnecting else before
      case ForceCloseOp => if Open(before) then Disconnected else before
      case _ => before
  }

  // How many bytes of files the operations of a run ask to send.
  function FileBytes(ops: seq<Op>): nat
  {
    if ops == [] then 0
    else FileBytes(ops[..|ops| - 1]) + (if ops[|ops| - 1].SendFileOp? then |Payload(ops[|ops| - 1])| else 0)
  }

  lemma {:induction false} NoFileBytes(ops: seq<Op>)
    requires forall i | 0 <= i < |ops| :: !ops[i].SendFileOp?
    ensures FileBytes(ops) == 0
  {
    if ops != [] { NoFileBytes(ops[..|ops| - 1]); }
  }

  // Whatever the socket does, the wire carries a prefix of what was accepted and the rest is still pending.
  // The count of bytes sent leaves out exactly the bytes of files that have gone out.
  method Run(c: Connection, ops: seq<Op>) returns (kept: seq<bool>)
    requires c.Valid() && c.accepted == [] && c.list == []
    requires forall i | 0 <= i < |ops| && ops[i].SendFileOp? :: ops[i].length > 0 || |ops[i].content| > 0
    modifies c, c.socket
    ensures c.Valid() && |kept| == |ops|
    ensures c.socket.wire + c.Pending() == Accepted(ops, kept)
    ensures c.writing ==> c.list != []
    ensures c.status == Stage(old(c.status), ops)
    ensures KeptOk(old(c.status), ops, kept, c.socket.NeverFails())
    ensures c.bytesSent + (FileBytes(ops) - FileRest(c.list)) == |c.socket.wire| && FileRest(c.list) <= FileBytes(ops)
    ensures (forall i | 0 <= i < |ops| :: !ops[i].SendFileOp?) ==> c.bytesSent == |c.socket.wire|
  {
    hide Flat, FileRest, Rest, Slice, StreamBytes, Payload, KeptOk, Stage;
    FlatOpened([]);
    StageStart(c.status, c.socket.NeverFails());
    kept := [];
    for n := 0 to |ops|
      invariant c.Valid() && |kept| == n
      invariant c.accepted == Accepted(ops[..n], kept) && c.fromFiles == FileBytes(ops[..n])
      invariant c.status == Stage(old(c.status), ops[..n])
      invariant KeptOk(old(c.status), ops[..n], kept, c.socket.NeverFails())
    {
      assert ops[..n + 1] == ops[..n] + [ops[n]] && ops[..n + 1][..n] == ops[..n];
      StageNext(old(c.status), ops[..n], ops[n]);
      var k := RunOp(c, ops[n]);
      KeptMore(old(c.status), ops[..n], kept, ops[n], k, c.socket.NeverFails());
      assert (kept + [k])[..n] == kept;
      kept := kept + [k];
    }
    assert ops[..|ops|] == ops;
    if forall i | 0 <= i < |ops| :: !ops[i].SendFileOp? { NoFileBytes(ops); }
  }

  // Files and streams are always taken; data only by a connected connection, and by every one if the socket never
  // fails.
  ghost predicate KeptOk(start: Status, ops: seq<Op>, kept: seq<bool>, sure: bool)
  {
    && |kept| == |ops|
    && (forall i | 0 <= i < |ops| && !ops[i].SendOp? :: kept[i])
    && (forall i | 0 <= i < |ops| && ops[i].SendOp? && kept[i] :: Stage(start, ops[..i]) == Connected)
    && (sure ==> forall i | 0 <= i < |ops| && ops[i].SendOp? && Stage(start, ops[..i]) == Connected :: kept[i])
  }

  lemma KeptMore(start: Status, ops: seq<Op>, kept: seq<bool>, op: Op, k: bool, sure: bool)
    requires KeptOk(start, ops, kept, sure) && (!op.SendOp? ==> k)
    requires op.SendOp? && k ==> Stage(start, ops) == Connected
    requires sure && op.SendOp? && Stage(start, ops) == Connected ==> k
    ensures KeptOk(start, ops + [op], kept + [k], sure)
  {
    hide Stage;
    forall i | 0 <= i <= |ops| ensures (ops + [op])[..i] == ops[..i] {}
    assert ops[..|ops|] == ops;
  }

  lemma StageStart(start: Status, sure: bool)
    ensures Stage(start, []) == start && KeptOk(start, [], [], sure)
  {
  }

  lemma StageNext(start: Status, ops: seq<Op>, op: Op)
    ensures Stage(start, ops + [op]) == Stage(Stage(start, ops), [op])
  {
    assert (ops + [op])[..|ops|] == ops && [op][..0] == [];
  }

  method RunOp(c: Connection, op: Op) returns (kept: bool)
    requires c.Valid() && (op.SendFileOp? ==> op.length > 0 || |op.content| > 0)
    modifies c, c.socket
    ensures c.Valid() && c.accepted == old(c.accepted) + (if kept then Payload(op) else [])
    ensures !op.SendOp? ==> kept
    ensures c.fromFiles == old(c.fromFiles) + (if op.SendFileOp? then |Payload(op)| else 0)
    ensures op.SendOp? ==>
      (kept <==>
         && old(c.status) == Connected
         && (old(c.list) != [] || !Reply(old(c.socket.Next()), |op.data|, old(c.socket.writeClosed)).Fatal?))
    ensures c.status == Stage(old(c.status), [op])
    ensures old(c.Stuck()) ==> c.Stuck() && c.socket.wire + Rest(c.list[0]) == old(c.socket.wire + Rest(c.list[0]))
  {
    hide Flat, FileRest, Rest, Slice, StreamBytes;
    kept := true;
    match op
    case Establish => if c.status == Connecting { c.ConnectEstablished(); }
    case SendOp(data) => kept := c.SendInLoop(data);
    case SendFileOp(content, offset, length) => c.SendFile(content, offset, length);
    case SendStreamOp(chunks) => c.SendStream(chunks);
    case WriteEvent => c.HandleWrite();
    case ShutdownOp => c.Shutdown();
    case ForceCloseOp => c.ForceClose();
  }

  // `n` write events on a socket that takes all it is offered: two for each node empty the list, if and only if no file
  // range reaches beyond the end of its file.
  method Drain(c: Connection, n: nat)
    requires c.Valid() && c.writing && c.socket.Greedy()
    modifies c, c.socket
    ensures c.Valid() && c.accepted == old(c.accepted)
    ensures HasOverlong(old(c.list)) ==> c.list != []
    ensures !HasOverlong(old(c.list)) && n >= 2 * |old(c.list)| ==> c.list == [] && c.socket.wire == c.accepted
  {
    hide Flat, FileRest, Rest, HasOverlong, Overlong;
    FlatOpened([]);
    ghost var size := |c.list|;
    for k := 0 to n
      invariant c.Valid() && c.accepted == old(c.accepted) && HasOverlong(c.list) == HasOverlong(old(c.list))
      invariant !HasOverlong(c.list) ==> c.list == [] || (c.writing && c.socket.Greedy())
      invariant !HasOverlong(c.list) && c.list != [] ==> 2 * |c.list| - (if c.FrontDone() then 1 else 0) <= 2 * size - k
    {
      c.HandleWrite();
    }
    SomeOverlong(c.list);
  }

  lemma SomeOverlong(list: seq<Node>)
    ensures HasOverlong(list) ==> list != []
  {
  }

  // A file whose first sendfile() has to wait leaves write interest off, and shutdown then closes the sending side with
  // the whole range unsent.
  method StalledShutdown(content: Bytes, offset: nat, length: nat, answers: nat -> Answer) returns (c: Connection)
    requires length > 0 && answers(0) == Block
    ensures fresh(c) && c.Valid() && c.socket.writeClosed && c.socket.wire == []
    ensures c.accepted == Slice(content, offset, length)
  {
    hide Flat, FileRest, Rest, Slice, StreamBytes, Overlong, IsFile;
    var socket := new Socket(answers);
    c := new Connection(socket);
    c.ConnectEstablished();
    c.SendFile(content, offset, length);
    c.Shutdown();
  }

  // For instance a file of one byte.
  method StalledByte() returns (c: Connection)
    ensures c.socket.writeClosed && c.socket.wire != c.accepted
  {
    c := StalledShutdown([0], 0, 1, _ => Block);
  }

  // A file the socket takes at once is on the wire and not counted.
  method Uncounted(content: Bytes, offset: nat, length: nat) returns (c: Connection)
    requires length > 0 && offset + length <= |content|
    ensures fresh(c) && c.Valid() && c.socket.wire == content[offset..offset + length] && c.bytesSent == 0
  {
    hide Flat, FileRest, Rest, StreamBytes;
    var socket := new Socket(_ => All);
    c := new Connection(socket);
    c.ConnectEstablished();
    c.SendFile(content, offset, length);
    c.OneDone();
    assert c.socket.wire + [] == c.socket.wire;
  }

  // Behind a range that reaches beyond the end of its file nothing is ever sent.
  method RunStuck(c: Connection, ops: seq<Op>)
    requires c.Valid() && c.Stuck()
    requires forall i | 0 <= i < |ops| && ops[i].SendFileOp? :: ops[i].length > 0 || |ops[i].content| > 0
    modifies c, c.socket
    ensures c.Valid() && c.Stuck()
    ensures c.socket.wire + Rest(c.list[0]) == old(c.socket.wire + Rest(c.list[0]))
  {
    for n := 0 to |ops|
      invariant c.Valid() && c.Stuck()
      invariant c.socket.wire + Rest(c.list[0]) == old(c.socket.wire + Rest(c.list[0]))
    {
      var _ := RunOp(c, ops[n]);
    }
  }
}
