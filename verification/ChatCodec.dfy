// The chat example's framing: an 8-byte big-endian length, then that many bytes, over a stream cut anywhere.
module ChatCodec {
  import opened Bytes
  import opened MessageBuffers

  const HEADER: nat := 8

  // What Context::Send puts on the wire.
  function Encode(m: Bytes): Bytes { BigEndian(|m|, HEADER) + m }

  function EncodeAll(ms: seq<Bytes>): Bytes { if ms == [] then [] else Encode(ms[0]) + EncodeAll(ms[1..]) }

  predicate Sendable(ms: seq<Bytes>) { forall i | 0 <= i < |ms| :: |ms[i]| < Range(HEADER) }

  function Flat(fragments: seq<Bytes>): Bytes { if fragments == [] then [] else fragments[0] + Flat(fragments[1..]) }

  // A stream that holds no complete frame.
  predicate Partial(s: Bytes) { |s| < HEADER || |s| < HEADER + FromBigEndian(s[..HEADER]) }

  // The frames of a stream, and what is left over.
  function Frames(s: Bytes): (seq<Bytes>, Bytes)
    decreases |s|
  {
    if Partial(s) then ([], s) else
      var end := HEADER + FromBigEndian(s[..HEADER]);
      var (ms, rest) := Frames(s[end..]);
      ([s[HEADER..end]] + ms, rest)
  }

  lemma FirstFrame(m: Bytes, s: Bytes)
    requires |m| < Range(HEADER)
    ensures !Partial(Encode(m) + s) && Frames(Encode(m) + s) == ([m] + Frames(s).0, Frames(s).1)
  {
    var t := Encode(m) + s;
    BigEndianRoundTrip(|m|, HEADER);
    assert t[..HEADER] == BigEndian(|m|, HEADER);
    assert t[HEADER..HEADER + |m|] == m;
    assert t[HEADER + |m|..] == s;
  }

  // Every stream has one reading: frames followed by an incomplete one.
  lemma {:induction false} FramesUnique(ms: seq<Bytes>, rest: Bytes)
    requires Sendable(ms) && Partial(rest)
    ensures Frames(EncodeAll(ms) + rest) == (ms, rest)
  {
    hide Encode, Partial;
    if ms == [] {
      assert EncodeAll(ms) + rest == rest;
    } else {
      FramesUnique(ms[1..], rest);
      hide Frames;
      FirstFrame(ms[0], EncodeAll(ms[1..]) + rest);
      EncodedFirst(ms, rest);
      assert ms == [ms[0]] + ms[1..];
    }
  }

  lemma EncodedFirst(ms: seq<Bytes>, rest: Bytes)
    requires ms != []
    ensures EncodeAll(ms) + rest == Encode(ms[0]) + (EncodeAll(ms[1..]) + rest)
  {
    hide Encode;
  }

  // And is nothing but its frames and the rest, for any bytes whatever.
  lemma {:induction false} FramesComplete(s: Bytes)
    ensures var (ms, rest) := Frames(s); Sendable(ms) && Partial(rest) && EncodeAll(ms) + rest == s
    decreases |s|
  {
    if Partial(s) {
      assert EncodeAll([]) + s == s;
    } else {
      var end := HEADER + FromBigEndian(s[..HEADER]);
      FramesComplete(s[end..]);
      FromBigEndianRoundTrip(s[..HEADER]);
      Framed(s, end, Frames(s[end..]).0, Frames(s[end..]).1);
    }
  }

  lemma Framed(s: Bytes, end: nat, ms: seq<Bytes>, rest: Bytes)
    requires HEADER <= end <= |s| && s[..HEADER] == BigEndian(end - HEADER, HEADER) && EncodeAll(ms) + rest == s[end..]
    ensures EncodeAll([s[HEADER..end]] + ms) + rest == s
  {
    hide BigEndian, EncodeAll;
    var m := s[HEADER..end];
    assert s == Encode(m) + s[end..];
    assert ([m] + ms)[0] == m && ([m] + ms)[1..] == ms;
    EncodedFirst([m] + ms, rest);
  }

  lemma {:induction false} EncodeAppend(ms: seq<Bytes>, m: Bytes)
    ensures EncodeAll(ms + [m]) == EncodeAll(ms) + Encode(m)
  {
    if ms == [] {
      assert ms + [m] == [m] && [m][1..] == [];
      assert EncodeAll([m]) == Encode(m) + EncodeAll([]);
    } else {
      EncodeAppend(ms[1..], m);
      assert (ms + [m])[1..] == ms[1..] + [m];
    }
  }

  lemma Grouped(a: Bytes, b: Bytes, c: Bytes, d: Bytes)
    ensures a + (b + (c + d)) == a + (b + c) + d
  {
  }

  lemma Longer(a: Bytes, b: Bytes, i: nat, n: nat)
    requires i + n <= |b|
    ensures a + b[..i] + b[i..][..n] == a + b[..i + n]
  {
  }

  lemma Moved(a: Bytes, b: Bytes, c: Bytes, d: Bytes)
    ensures a + (b + c) + d == a + b + (c + d)
  {
  }

  datatype ParseState = GetLength | GetBody | ParseOk

  class Context {
    var state: ParseState
    var length: nat
    var text: Bytes

    constructor ()
      ensures Valid() && state == GetLength && Held() == []
    {
      state, length, text := GetLength, 0, [];
    }

    ghost predicate Valid()
      reads this
    {
      && length < Range(HEADER)
      && match state
         case GetLength => text == []
         case GetBody => |text| <= length
         case ParseOk => |text| == length
    }

    // The bytes taken from the buffer for the message under way.
    ghost function Held(): Bytes
      reads this
    {
      if state == GetLength then [] else BigEndian(length, HEADER) + text
    }

    function ExpectedLength(): nat
      requires Valid() && state == GetBody
      reads this
    {
      length - |text|
    }

    method ProcessCodec(buffer: MessageBuffer)
      requires Valid() && buffer.Valid()
      modifies this, buffer`data, buffer`head, buffer`tail
      ensures Valid() && buffer.Valid() && buffer.data == old(buffer.data)
      ensures Held() + buffer.Contents() == old(Held() + buffer.Contents())
      ensures state == GetLength ==> |buffer.Contents()| < HEADER
      ensures state == GetBody ==> buffer.Contents() == [] && |text| < length
    {
      ghost var all := Held() + buffer.Contents();
      while true
        invariant Valid() && buffer.Valid() && buffer.data == old(buffer.data)
        invariant Held() + buffer.Contents() == all
        decreases match state case GetLength => 2 case GetBody => 1 case ParseOk => 0
      {
        match state
        case GetLength =>
          if buffer.ReadableBytes() < HEADER { return; }
          TakeLength(buffer);
        case GetBody =>
          var more := TakeBody(buffer);
          if !more { return; }
        case ParseOk =>
          return;
      }
    }

    method TakeLength(buffer: MessageBuffer)
      requires Valid() && buffer.Valid() && state == GetLength && |buffer.Contents()| >= HEADER
      modifies this, buffer`data, buffer`head, buffer`tail
      ensures Valid() && state == GetBody && buffer.Valid() && buffer.data == old(buffer.data)
      ensures Held() + buffer.Contents() == old(Held() + buffer.Contents())
    {
      ghost var c := buffer.Contents();
      length := buffer.ReadInt(HEADER);
      state := GetBody;
      assert [] + c == c;
      assert Held() == BigEndian(length, HEADER);
    }

    method TakeBody(buffer: MessageBuffer) returns (more: bool)
      requires Valid() && buffer.Valid() && state == GetBody
      modifies this, buffer`data, buffer`head, buffer`tail
      ensures Valid() && buffer.Valid() && buffer.data == old(buffer.data)
      ensures Held() + buffer.Contents() == old(Held() + buffer.Contents())
      ensures if more then state == ParseOk else state == GetBody && buffer.Contents() == [] && |text| < length
    {
      ghost var text0, c := text, buffer.Contents();
      var t;
      if buffer.ReadableBytes() < ExpectedLength() {
        more := false;
        t := buffer.Read(buffer.ReadableBytes());
      } else {
        more := true;
        t := buffer.Read(ExpectedLength());
        state := ParseOk;
      }
      text := text + t;
      Moved(BigEndian(length, HEADER), text0, t, buffer.Contents());
    }

    method GetText() returns (t: Bytes)
      requires Valid() && state == ParseOk
      modifies this
      ensures Valid() && state == GetLength && t == old(text) && Encode(t) == old(Held()) && |t| < Range(HEADER)
    {
      t := text;
      state, text := GetLength, [];
    }
  }

  // One connection of the chat server.
  class Session {
    const ctx: Context
    const buffer: MessageBuffer
    var requests: seq<Bytes>     // what onRequest has been handed
    ghost var fed: Bytes         // every byte received

    ghost predicate Valid()
      reads this, ctx, buffer, buffer.data
    {
      && ctx.Valid() && buffer.Valid() && Sendable(requests)
      && EncodeAll(requests) + (ctx.Held() + buffer.Contents()) == fed
    }

    // Nothing complete is left in the buffer.
    ghost predicate Idle()
      requires Valid()
      reads this, ctx, buffer, buffer.data
    {
      && (ctx.state == GetLength ==> |buffer.Contents()| < HEADER)
      && (ctx.state == GetBody ==> buffer.Contents() == [] && |ctx.text| < ctx.length)
      && ctx.state != ParseOk
    }

    constructor ()
      ensures Valid() && Idle() && fed == [] && requests == [] && fresh(ctx) && fresh(buffer) && fresh(buffer.data)
    {
      ctx := new Context();
      buffer := new MessageBuffer(2048);
      requests, fed := [], [];
    }

    // onMessage: parse, hand over, and parse again while bytes are left.
    method OnMessage()
      requires Valid()
      modifies this`requests, ctx, buffer`data, buffer`head, buffer`tail
      ensures Valid() && Idle() && buffer.data == old(buffer.data)
    {
      hide EncodeAll, Encode, Range, BigEndian, Sendable;
      while true
        invariant Valid() && buffer.data == old(buffer.data)
        decreases |ctx.Held() + buffer.Contents()|
      {
        ctx.ProcessCodec(buffer);
        if ctx.state != ParseOk { return; }
        Hand();
        if buffer.ReadableBytes() == 0 { return; }
      }
    }

    // One readable event: readFd, then onMessage.
    method ReadOnce(available: Bytes) returns (n: int)
      requires Valid() && available != []
      modifies this, ctx, buffer, buffer.data
      ensures 0 < n <= |available| && Valid() && Idle() && fed == old(fed) + available[..n]
      ensures buffer.data == old(buffer.data) || fresh(buffer.data)
    {
      hide EncodeAll, Encode, Range, BigEndian, Sendable;
      ghost var c := buffer.Contents();
      n := buffer.ReadFd(available, false);
      Grouped(EncodeAll(requests), ctx.Held(), c, available[..n]);
      fed := fed + available[..n];
      OnMessage();
    }

    method Receive(bytes: Bytes)
      requires Valid() && Idle()
      modifies this, ctx, buffer, buffer.data
      ensures Valid() && Idle() && fed == old(fed) + bytes
      ensures buffer.data == old(buffer.data) || fresh(buffer.data)
    {
      hide EncodeAll, Encode, Range, BigEndian, Sendable;
      var i := 0;
      assert bytes[..0] == [];
      while i < |bytes|
        invariant 0 <= i <= |bytes| && Valid() && Idle() && fed == old(fed) + bytes[..i]
        invariant buffer.data == old(buffer.data) || fresh(buffer.data)
      {
        var n := ReadOnce(bytes[i..]);
        Longer(old(fed), bytes, i, n);
        i := i + n;
      }
      assert bytes[..i] == bytes;
    }

    // onRequest(conn, ctx.getText())
    method Hand()
      requires Valid() && ctx.state == ParseOk
      modifies this`requests, ctx
      ensures Valid() && ctx.state == GetLength
      ensures |ctx.Held() + buffer.Contents()| < |old(ctx.Held() + buffer.Contents())|
    {
      hide EncodeAll, Range, BigEndian;
      Handed(requests, ctx.Held(), buffer.Contents(), ctx.text);
      var text := ctx.GetText();
      requests := requests + [text];
    }
  }

  // Bytes arrive in any pieces; each is read, possibly in several goes, and parsed.
  method Serve(fragments: seq<Bytes>) returns (requests: seq<Bytes>)
    ensures requests == Frames(Flat(fragments)).0
  {
    hide EncodeAll, Encode, Range, BigEndian, Sendable, Frames;
    var session := new Session();
    var i := 0;
    while i < |fragments|
      invariant i <= |fragments| && session.Valid() && session.Idle()
      invariant fresh(session) && fresh(session.ctx) && fresh(session.buffer) && fresh(session.buffer.data)
      invariant session.fed + Flat(fragments[i..]) == Flat(fragments)
    {
      FlatNext(session.fed, fragments, i);
      session.Receive(fragments[i]);
      i := i + 1;
    }
    assert session.fed == Flat(fragments);
    IdlePartial(session);
    requests := session.requests;
  }

  lemma FlatNext(a: Bytes, fragments: seq<Bytes>, i: nat)
    requires i < |fragments|
    ensures a + fragments[i] + Flat(fragments[i + 1..]) == a + Flat(fragments[i..])
  {
  }

  lemma IdlePartial(session: Session)
    requires session.Valid() && session.Idle()
    ensures session.requests == Frames(session.fed).0
  {
    var ctx := session.ctx;
    var rest := ctx.Held() + session.buffer.Contents();
    if ctx.state == GetBody {
      BigEndianRoundTrip(ctx.length, HEADER);
      assert rest[..HEADER] == BigEndian(ctx.length, HEADER);
    }
    FramesUnique(session.requests, rest);
  }

  // However the wire cuts the encodings of any messages, the server is handed exactly those messages.
  lemma RoundTrip(ms: seq<Bytes>, fragments: seq<Bytes>)
    requires Sendable(ms) && Flat(fragments) == EncodeAll(ms)
    ensures Frames(Flat(fragments)) == (ms, [])
  {
    FramesUnique(ms, []);
    assert EncodeAll(ms) + [] == EncodeAll(ms);
  }

  // Context::Send
  method Send(m: Bytes) returns (wire: Bytes)
    requires |m| < Range(HEADER)
    ensures wire == Encode(m) && Frames(wire) == ([m], [])
  {
    hide BigEndian, FromBigEndian;
    var buffer := new MessageBuffer(2048);
    buffer.PushFrontInt(|m|, HEADER);
    buffer.PushBack(m);
    wire := buffer.data[buffer.head..buffer.tail];
    FirstFrame(m, []);
    assert Encode(m) + [] == Encode(m);
    assert Partial([]) && [m] + [] == [m];
  }

  lemma Handed(ms: seq<Bytes>, held: Bytes, rest: Bytes, m: Bytes)
    requires held == Encode(m)
    ensures EncodeAll(ms + [m]) + ([] + rest) == EncodeAll(ms) + (held + rest)
  {
    EncodeAppend(ms, m);
  }
}
