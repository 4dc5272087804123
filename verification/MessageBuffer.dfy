// The growing byte buffer every connection reads from and writes to.
module MessageBuffers {
  import opened Bytes

  const OFFSET: nat := 8       // kBufferOffset: room kept in front
  const EXTRA: nat := 8192     // the stack buffer of readFd

  // `s` with `src` written over it at `at`.
  function Splice(s: Bytes, at: nat, src: Bytes): (r: Bytes)
    requires at + |src| <= |s|
    ensures |r| == |s|
  {
    s[..at] + src + s[at + |src|..]
  }

  // memcpy() and memmove()
  method CopyIn(dst: array<Byte>, at: nat, src: Bytes)
    requires at + |src| <= dst.Length
    modifies dst
    ensures dst[..] == Splice(old(dst[..]), at, src)
  {
    ghost var s := dst[..];
    var i := 0;
    while i < |src|
      invariant i <= |src|
      invariant forall k | 0 <= k < dst.Length :: dst[k] == if at <= k < at + i then src[k - at] else s[k]
    {
      dst[at + i] := src[i];
      i := i + 1;
    }
    forall k | 0 <= k < dst.Length ensures dst[k] == Splice(s, at, src)[k] {}
  }

  lemma Appended(s: Bytes, lo: nat, at: nat, src: Bytes)
    requires lo <= at && at + |src| <= |s|
    ensures Splice(s, at, src)[lo..at + |src|] == s[lo..at] + src
  {
  }

  lemma Prepended(s: Bytes, at: nat, src: Bytes, hi: nat)
    requires at + |src| <= hi <= |s|
    ensures Splice(s, at, src)[at..hi] == src + s[at + |src|..hi]
  {
  }

  lemma Shifted(s: Bytes, lo: nat, hi: nat, src: Bytes)
    requires lo <= hi && hi + |src| <= |s|
    ensures Splice(Splice(s, lo + |src|, s[lo..hi]), lo, src)[lo..hi + |src|] == src + s[lo..hi]
  {
    var n := |src|;
    var s1 := Splice(s, lo + n, s[lo..hi]);
    Prepended(s1, lo, src, hi + n);
    Appended(s, lo + n, lo + n, s[lo..hi]);
    assert s[lo + n..lo + n] == [];
    assert lo + n + |s[lo..hi]| == hi + n;
  }

  class MessageBuffer {
    var data: array<Byte>
    var head: nat
    var tail: nat
    var initCap: nat
    ghost var copied: nat      // bytes moved because the storage was replaced

    ghost predicate Valid()
      reads this
    {
      head <= tail <= data.Length && data.Length == initCap + OFFSET && initCap >= 8
    }

    ghost function Contents(): Bytes
      requires Valid()
      reads this, data
    {
      data[head..tail]
    }

    ghost predicate Cheap()
      reads this
    {
      copied < data.Length
    }

    constructor (len: nat)
      ensures head == tail == OFFSET && data.Length == len + OFFSET && initCap == len && copied == 0 && fresh(data)
      ensures len >= 8 ==> Valid() && Contents() == [] && Cheap()
    {
      head, tail, initCap, copied := OFFSET, OFFSET, len, 0;
      data := new Byte[len + OFFSET];
    }

    function ReadableBytes(): nat
      requires Valid()
      reads this
    {
      tail - head
    }

    function WritableBytes(): nat
      requires Valid()
      reads this
    {
      data.Length - tail
    }

    method EnsureWritableBytes(len: nat)
      requires Valid()
      modifies this, data
      ensures Valid() && Contents() == old(Contents()) && WritableBytes() >= len
      ensures data == old(data) || fresh(data)
      ensures old(Cheap()) ==> Cheap()
      ensures data.Length >= old(data.Length)
      ensures old(WritableBytes()) >= len ==> data == old(data) && head == old(head) && tail == old(tail)
      ensures old(WritableBytes()) < len && data == old(data) ==> old(head) > OFFSET && head == OFFSET
      ensures data == old(data) <==> old(WritableBytes()) >= len || old(head + WritableBytes()) >= len + OFFSET
      ensures data != old(data) ==>
        data.Length == OFFSET + Max(2 * old(data.Length), OFFSET + old(ReadableBytes()) + len)
      decreases if WritableBytes() >= len then 0 else 1, 0
    {
      hide Splice;
      if WritableBytes() >= len { return; }
      if head + WritableBytes() >= len + OFFSET {
        ghost var s := data[..];
        var kept := data[head..tail];
        CopyIn(data, OFFSET, kept);
        Appended(s, OFFSET, OFFSET, kept);
        tail := OFFSET + (tail - head);
        head := OFFSET;
        return;
      }
      var needed := OFFSET + ReadableBytes() + len;
      var newLen := if data.Length * 2 > needed then data.Length * 2 else needed;
      var grown := new MessageBuffer(newLen);
      grown.PushBackBuffer(this);
      copied := copied + ReadableBytes();
      data, head, tail, initCap := grown.data, grown.head, grown.tail, grown.initCap;
    }

    method PushBackBuffer(buf: MessageBuffer)
      requires Valid() && buf.Valid()
      modifies this, data
      ensures Valid() && Contents() == old(Contents()) + old(buf.Contents())
      ensures data == old(data) || fresh(data)
      ensures data.Length >= old(data.Length)
      ensures old(Cheap()) ==> Cheap()
      ensures old(WritableBytes()) >= old(buf.ReadableBytes()) ==>
        data == old(data) && head == old(head) && tail == old(tail) + old(buf.ReadableBytes())
      decreases if WritableBytes() >= buf.ReadableBytes() then 0 else 1, 2
    {
      PushBack(buf.data[buf.head..buf.tail]);
    }

    method PushBack(bytes: Bytes)
      requires Valid()
      modifies this, data
      ensures Valid() && Contents() == old(Contents()) + bytes
      ensures data == old(data) || fresh(data)
      ensures data.Length >= old(data.Length)
      ensures old(Cheap()) ==> Cheap()
      ensures old(WritableBytes()) >= |bytes| ==> data == old(data) && head == old(head) && tail == old(tail) + |bytes|
      decreases if WritableBytes() >= |bytes| then 0 else 1, 1
    {
      EnsureWritableBytes(|bytes|);
      Fill(bytes);
    }

    // Writes into the free room.
    method Fill(bytes: Bytes)
      requires Valid() && |bytes| <= WritableBytes()
      modifies this`tail, data
      ensures Valid() && tail == old(tail) + |bytes| && Contents() == old(Contents()) + bytes
    {
      hide Splice;
      ghost var s := data[..];
      CopyIn(data, tail, bytes);
      Appended(s, head, tail, bytes);
      tail := tail + |bytes|;
    }

    method PushFront(bytes: Bytes)
      requires Valid()
      modifies this, data
      ensures Valid() && Contents() == bytes + old(Contents())
      ensures data == old(data) || fresh(data)
      ensures initCap >= old(initCap)
      ensures |bytes| <= old(head) ==> data == old(data) && tail == old(tail)
      ensures data == old(data) <==> |bytes| <= old(head) || |bytes| <= old(WritableBytes())
    {
      hide Splice;
      var n := |bytes|;
      ghost var s := data[..];
      if head >= n {
        CopyIn(data, head - n, bytes);
        Prepended(s, head - n, bytes, tail);
        head := head - n;
        return;
      }
      if n <= WritableBytes() {
        ShiftIn(bytes);
        return;
      }
      GrowFront(bytes);
    }

    // The storage is replaced by one of the least capacity that is no smaller and fits.
    method GrowFront(bytes: Bytes)
      requires Valid()
      modifies this
      ensures Valid() && fresh(data) && Contents() == bytes + old(Contents())
      ensures initCap ==
        if |bytes| + old(ReadableBytes()) < old(initCap) then old(initCap) else |bytes| + old(ReadableBytes())
    {
      var n := |bytes|;
      var newLen := if n + ReadableBytes() < initCap then initCap else n + ReadableBytes();
      var grown := new MessageBuffer(newLen);
      grown.PushBack(bytes);
      grown.PushBackBuffer(this);
      copied := copied + ReadableBytes();
      data, head, tail, initCap := grown.data, grown.head, grown.tail, grown.initCap;
    }

    // The contents move back and the room they leave takes `bytes`; the moved range may overlap itself.
    method ShiftIn(bytes: Bytes)
      requires Valid() && |bytes| <= WritableBytes()
      modifies this`tail, data
      ensures Valid() && tail == old(tail) + |bytes| && Contents() == bytes + old(Contents())
    {
      hide Splice;
      var n := |bytes|;
      ghost var s := data[..];
      var kept := data[head..tail];
      CopyIn(data, head + n, kept);
      CopyIn(data, head, bytes);
      Shifted(s, head, tail, bytes);
      tail := tail + n;
    }

    // Stays usable exactly when the capacity asked for at construction was at least 8; below, the storage shrinks under
    // the write position.
    method RetrieveAll()
      requires head <= tail <= data.Length && data.Length == initCap + OFFSET
      modifies this`data, this`head, this`tail
      ensures head == tail == OFFSET
      ensures Valid() <==> initCap >= 8
      ensures tail <= data.Length <==> initCap >= 8
      ensures initCap >= 8 ==> data == old(data)
    {
      if data.Length > initCap * 2 {
        var shrunk := new Byte[initCap];
        CopyIn(shrunk, 0, data[..initCap]);
        data := shrunk;
      }
      head, tail := OFFSET, OFFSET;
    }

    method Retrieve(len: nat)
      requires Valid()
      modifies this`data, this`head, this`tail
      ensures Valid() && data == old(data)
      ensures Contents() == if len < |old(Contents())| then old(Contents())[len..] else []
    {
      if len >= ReadableBytes() {
        RetrieveAll();
        return;
      }
      head := head + len;
    }

    method Read(len: nat) returns (bytes: Bytes)
      requires Valid()
      modifies this`data, this`head, this`tail
      ensures Valid() && data == old(data)
      ensures bytes + Contents() == old(Contents())
      ensures |bytes| == if len < |old(Contents())| then len else |old(Contents())|
    {
      var n := if len > ReadableBytes() then ReadableBytes() else len;
      bytes := data[head..head + n];
      Retrieve(n);
    }

    // readv() into the free room and, when that is short, a stack buffer; `available` is what the kernel holds.
    method ReadFd(available: Bytes, fails: bool) returns (n: int)
      requires Valid()
      modifies this, data
      ensures Valid() && (data == old(data) || fresh(data))
      ensures fails <==> n < 0
      ensures !fails ==> n == Min(|available|, Room(old(WritableBytes())))
      ensures Contents() == old(Contents()) + (if fails then [] else available[..n])
      ensures old(Cheap()) ==> Cheap()
    {
      var writable := WritableBytes();
      if fails { return -1; }
      n := Min(|available|, Room(writable));
      var direct := Min(n, writable);
      Fill(available[..direct]);
      if n > writable {
        PushBack(available[direct..n]);
        assert available[..direct] + available[direct..n] == available[..n];
      }
    }

    method PushBackInt(v: nat, width: nat)
      requires Valid() && v < Range(width)
      modifies this, data
      ensures Valid() && Contents() == old(Contents()) + BigEndian(v, width)
      ensures data == old(data) || fresh(data)
    {
      ReversalIsNetworkOrder(v, width);
      PushBack(Reversed(LittleEndian(v, width)));
    }

    method PushFrontInt(v: nat, width: nat)
      requires Valid() && v < Range(width)
      modifies this, data
      ensures Valid() && Contents() == BigEndian(v, width) + old(Contents())
      ensures data == old(data) || fresh(data)
      ensures width <= old(head) ==> data == old(data)
    {
      ReversalIsNetworkOrder(v, width);
      PushFront(Reversed(LittleEndian(v, width)));
    }

    method ReadInt(width: nat) returns (v: nat)
      requires Valid() && width <= |Contents()|
      modifies this`data, this`head, this`tail
      ensures Valid() && data == old(data)
      ensures v < Range(width) && BigEndian(v, width) + Contents() == old(Contents())
    {
      hide BigEndian, FromBigEndian, Range;
      var b := data[head..head + width];
      FromBigEndianRoundTrip(b);
      v := FromBigEndian(b);
      Retrieve(width);
    }
  }

  function Max(a: int, b: int): int { if a <= b then b else a }

  function Min(a: int, b: int): int { if a <= b then a else b }

  function Room(writable: nat): nat { if writable < EXTRA then writable + EXTRA else writable }
}
