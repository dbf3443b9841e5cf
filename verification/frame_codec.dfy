/**
 The wire format of `internal/protocol/types.go`: a seven-byte header and a payload, written to
 a stream that may stop at any byte and read from one that may deliver in any chunks.
 */
module FrameCodec {
  import opened GoStrings

  type Bytes = seq<byte>

  const MAGIC_1: byte := 0xAB
  const MAGIC_2: byte := 0xCD
  const HEADER_SIZE := 7
  const MAX_PAYLOAD := 0x10_0000

  datatype Result<T, E> = Ok(value: T) | Err(error: E)

  datatype Frame = Frame(kind: byte, payload: Bytes)

  /** How a stream ends: the peer closed it, or the connection failed. */
  datatype End = Closed | Failed

  datatype ReadFault = EOF | UnexpectedEOF | ConnectionError

  datatype DecodeError = BadHeader(fault: ReadFault) | BadMagic | TooLarge | BadPayload(fault: ReadFault)

  datatype EncodeError = Unmarshallable | Oversized | WriteFailed

  // ---- the format --------------------------------------------------------------

  function Header(kind: byte, length: nat): (h: Bytes)
    ensures |h| == HEADER_SIZE
  {
    [MAGIC_1, MAGIC_2, kind,
     (length / 0x100_0000 % 0x100) as byte, (length / 0x1_0000 % 0x100) as byte,
     (length / 0x100 % 0x100) as byte, (length % 0x100) as byte]
  }

  /** `binary.BigEndian.Uint32`. */
  function BigEndian(b: Bytes): nat
    requires |b| == 4
  {
    b[0] as nat * 0x100_0000 + b[1] as nat * 0x1_0000 + b[2] as nat * 0x100 + b[3] as nat
  }

  function Layout(f: Frame): Bytes {
    Header(f.kind, |f.payload|) + f.payload
  }

  predicate Fits(f: Frame) {
    |f.payload| <= MAX_PAYLOAD
  }

  /** How `io.ReadFull` fails when the stream ends after `got` bytes, fewer than it needs. */
  function Fault(got: nat, end: End): ReadFault {
    if end.Failed? then ConnectionError else if got == 0 then EOF else UnexpectedEOF
  }

  /** What `Decode` makes of a stream that ends after `s`, and the bytes it leaves unread. */
  function Parsed(s: Bytes, end: End): (Result<Frame, DecodeError>, Bytes) {
    if |s| < HEADER_SIZE then (Err(BadHeader(Fault(|s|, end))), [])
    else
      var body := s[HEADER_SIZE..];
      if s[0] != MAGIC_1 || s[1] != MAGIC_2 then (Err(BadMagic), body)
      else
        var length := BigEndian(s[3..7]);
        if length > MAX_PAYLOAD then (Err(TooLarge), body)
        else if |body| < length then (Err(BadPayload(Fault(|body|, end))), [])
        else (Ok(Frame(s[2], body[..length])), body[length..])
  }

  // ---- streams -------------------------------------------------------------------

  /** An `io.Reader` over a connection: each read takes from one chunk; after the last comes its end. */
  class Source {
    var chunks: seq<Bytes>
    const end: End

    constructor (chunks: seq<Bytes>, end: End)
      ensures this.chunks == chunks && this.end == end
    {
      this.chunks, this.end := chunks, end;
    }

    function Remaining(): Bytes
      reads this
    {
      Flat(chunks)
    }

    /** `r.Read(buf[from:])`. */
    method Read(buf: array<byte>, from: nat) returns (n: nat, ended: bool)
      requires from < buf.Length
      modifies this, buf
      ensures from + n <= buf.Length
      ensures old(Remaining()) == buf[from..from + n] + Remaining()
      ensures buf[..from] == old(buf[..from])
      ensures ended ==> n == 0 && Remaining() == []
      ensures !ended ==> n > 0 || |chunks| < old(|chunks|)
      ensures |chunks| <= old(|chunks|)
    {
      if chunks == [] {
        return 0, true;
      }
      var c := chunks[0];
      n := if |c| <= buf.Length - from then |c| else buf.Length - from;
      ended := false;
      forall i | 0 <= i < n {
        buf[from + i] := c[i];
      }
      if n == |c| {
        assert buf[from..from + n] == c;
        chunks := chunks[1..];
      } else {
        assert buf[from..from + n] == c[..n];
        assert c == c[..n] + c[n..];
        chunks := [c[n..]] + chunks[1..];
      }
    }

    /** `io.ReadFull(r, buf)`: loops over short reads until the buffer is full or the stream ends. */
    method ReadFull(buf: array<byte>) returns (fate: Fate)
      modifies this, buf
      ensures var s := old(Remaining());
              if |s| >= buf.Length then
                fate == Full && buf[..] == s[..buf.Length] && Remaining() == s[buf.Length..]
              else
                fate == Short(Fault(|s|, end)) && Remaining() == []
    {
      var n := 0;
      while n < buf.Length
        invariant n <= buf.Length
        invariant old(Remaining()) == buf[..n] + Remaining()
        decreases buf.Length - n, |chunks|
      {
        var k, ended := Read(buf, n);
        assert buf[..n + k] == buf[..n] + buf[n..n + k];
        n := n + k;
        if ended {
          assert old(Remaining()) == buf[..n];
          return Short(Fault(n, end));
        }
      }
      assert buf[..] == buf[..n];
      fate := Full;
    }
  }

  datatype Fate = Full | Short(fault: ReadFault)

  function Flat(chunks: seq<Bytes>): Bytes {
    if chunks == [] then [] else chunks[0] + Flat(chunks[1..])
  }

  /** An `io.Writer` over a connection that takes `room` more bytes and then fails. */
  class Sink {
    var out: Bytes
    var room: nat

    constructor (room: nat)
      ensures out == [] && this.room == room
    {
      out, this.room := [], room;
    }

    method Write(p: Bytes) returns (ok: bool)
      modifies this
      ensures ok == (|p| <= old(room))
      ensures ok ==> out == old(out) + p && room == old(room) - |p|
      ensures !ok ==> out == old(out) + p[..old(room)] && room == 0
    {
      ok := |p| <= room;
      if ok {
        out, room := out + p, room - |p|;
      } else {
        out, room := out + p[..room], 0;
      }
    }
  }

  // ---- Encode and Decode -------------------------------------------------------------

  /** `data` is what marshalling the payload gave.  A failed write leaves a strict prefix of the frame. */
  method Encode(w: Sink, kind: byte, data: Result<Bytes, ()>) returns (r: Result<(), EncodeError>)
    modifies w
    ensures r.Ok? ==> data.Ok? && Fits(Frame(kind, data.value))
                      && w.out == old(w.out) + Layout(Frame(kind, data.value))
    ensures r == Err(WriteFailed) ==> data.Ok? && old(w.room) < |Layout(Frame(kind, data.value))|
                                      && w.out == old(w.out) + Layout(Frame(kind, data.value))[..old(w.room)]
    ensures r == Err(Unmarshallable) <==> data.Err?
    ensures r == Err(Oversized) <==> data.Ok? && !Fits(Frame(kind, data.value))
    ensures r.Err? && r.error != WriteFailed ==> w.out == old(w.out)
  {
    if data.Err? {
      return Err(Unmarshallable);
    }
    var payload := data.value;
    if |payload| > MAX_PAYLOAD {
      return Err(Oversized);
    }
    var hdr := Header(kind, |payload|);
    ghost var f := Frame(kind, payload);
    var ok := w.Write(hdr);
    if !ok {
      assert Layout(f)[..old(w.room)] == hdr[..old(w.room)];
      return Err(WriteFailed);
    }
    ok := w.Write(payload);
    if !ok {
      assert Layout(f)[..old(w.room)] == hdr + payload[..old(w.room) - |hdr|];
      return Err(WriteFailed);
    }
    r := Ok(());
  }

  /** However the stream is cut into chunks, the outcome is that of parsing its bytes. */
  method Decode(r: Source) returns (res: Result<Frame, DecodeError>)
    modifies r
    ensures (res, r.Remaining()) == Parsed(old(r.Remaining()), r.end)
  {
    var hdr := new byte[HEADER_SIZE];
    ghost var s := r.Remaining();
    var fate := r.ReadFull(hdr);
    if fate.Short? {
      return Err(BadHeader(fate.fault));
    }
    if hdr[0] != MAGIC_1 || hdr[1] != MAGIC_2 {
      return Err(BadMagic);
    }
    var kind := hdr[2];
    var length := BigEndian(hdr[3..7]);
    assert hdr[3..7] == s[3..7];
    if length > MAX_PAYLOAD {
      return Err(TooLarge);
    }
    var payload := new byte[length];
    fate := r.ReadFull(payload);
    if fate.Short? {
      return Err(BadPayload(fate.fault));
    }
    res := Ok(Frame(kind, payload[..]));
  }

  // ---- round trip and canonical form ---------------------------------------------------

  lemma LengthRoundTrip(kind: byte, length: nat)
    requires length < 0x1_0000_0000
    ensures BigEndian(Header(kind, length)[3..7]) == length
  {
    var a, b, c := length / 0x100_0000, length / 0x1_0000, length / 0x100;
    assert b / 0x100 == a && c / 0x100 == b;
  }

  lemma ParseOfLayout(f: Frame, rest: Bytes, end: End)
    requires Fits(f)
    ensures Parsed(Layout(f) + rest, end) == (Ok(f), rest)
  {
    var s := Layout(f) + rest;
    LengthRoundTrip(f.kind, |f.payload|);
    assert s[3..7] == Header(f.kind, |f.payload|)[3..7];
    assert s[HEADER_SIZE..] == f.payload + rest;
  }

  /** Bytes that decode are the encoding of what they decode to: there is no second spelling. */
  lemma ParseIsCanonical(s: Bytes, end: End)
    requires Parsed(s, end).0.Ok?
    ensures Fits(Parsed(s, end).0.value)
    ensures s == Layout(Parsed(s, end).0.value) + Parsed(s, end).1
  {
    var (f, rest) := (Parsed(s, end).0.value, Parsed(s, end).1);
    var d := s[3..7];
    var length := BigEndian(d);
    DigitsOf(d);
    assert s[..HEADER_SIZE] == Header(f.kind, length);
    assert s == s[..HEADER_SIZE] + s[HEADER_SIZE..];
  }

  lemma DigitsOf(d: Bytes)
    requires |d| == 4
    ensures var n := BigEndian(d);
            n / 0x100_0000 % 0x100 == d[0] as int && n / 0x1_0000 % 0x100 == d[1] as int
            && n / 0x100 % 0x100 == d[2] as int && n % 0x100 == d[3] as int
  {
    var n := BigEndian(d);
    assert n / 0x100 == d[0] as nat * 0x1_0000 + d[1] as nat * 0x100 + d[2] as nat;
    assert n / 0x1_0000 == d[0] as nat * 0x100 + d[1] as nat;
    assert n / 0x100_0000 == d[0] as nat;
  }

  /** A stream cut inside a frame never decodes: the reader reports which part is missing. */
  lemma CutFrameIsAnError(f: Frame, n: nat, end: End)
    requires Fits(f) && n < |Layout(f)|
    ensures Parsed(Layout(f)[..n], end).0 ==
            Err(if n < HEADER_SIZE then BadHeader(Fault(n, end)) else BadPayload(Fault(n - HEADER_SIZE, end)))
    ensures Parsed(Layout(f)[..n], end).1 == []
  {
    var s := Layout(f)[..n];
    if n >= HEADER_SIZE {
      LengthRoundTrip(f.kind, |f.payload|);
      assert s[..HEADER_SIZE] == Header(f.kind, |f.payload|);
      assert s[3..7] == s[..HEADER_SIZE][3..7];
    }
  }

  // ---- streams of frames -----------------------------------------------------------------

  function Stream(fs: seq<Frame>): Bytes {
    if fs == [] then [] else Layout(fs[0]) + Stream(fs[1..])
  }

  /** Read frames until the first error, as both read loops do. */
  function ReadLoop(s: Bytes, end: End): (fs: seq<Frame>)
    decreases |s|
  {
    match Parsed(s, end)
    case (Ok(f), rest) => [f] + ReadLoop(rest, end)
    case (Err(_), _) => []
  }

  /** A stream of frames cut anywhere inside the next one reads back as exactly those frames. */
  lemma {:induction false} StreamRoundTrip(fs: seq<Frame>, next: Frame, n: nat, end: End)
    requires forall f :: f in fs ==> Fits(f)
    requires Fits(next) && n < |Layout(next)|
    ensures ReadLoop(Stream(fs) + Layout(next)[..n], end) == fs
  {
    var tail := Layout(next)[..n];
    if fs == [] {
      CutFrameIsAnError(next, n, end);
      assert Stream(fs) + tail == tail;
    } else {
      StreamRoundTrip(fs[1..], next, n, end);
      FirstFrame(fs, tail, end);
    }
  }

  /** The first read of a stream of frames takes the first frame, and leaves the others. */
  lemma FirstFrame(fs: seq<Frame>, rest: Bytes, end: End)
    requires fs != [] && Fits(fs[0])
    ensures Parsed(Stream(fs) + rest, end) == (Ok(fs[0]), Stream(fs[1..]) + rest)
  {
    var later := Stream(fs[1..]) + rest;
    FirstBytes(fs, rest, later);
    ParseOfLayout(fs[0], later, end);
  }

  lemma FirstBytes(fs: seq<Frame>, rest: Bytes, later: Bytes)
    requires fs != [] && later == Stream(fs[1..]) + rest
    ensures Stream(fs) + rest == Layout(fs[0]) + later
  {
    Regroup(Layout(fs[0]), Stream(fs[1..]), rest);
  }

  lemma Regroup(a: Bytes, b: Bytes, c: Bytes)
    ensures (a + b) + c == a + (b + c)
  {
  }

  /** A reader that has taken all of `fs` from the stream stands exactly behind its bytes. */
  lemma {:induction false} ReadsConsumeExactly(fs: seq<Frame>, rest: Bytes, end: End)
    requires forall f :: f in fs ==> Fits(f)
    ensures AfterReads(Stream(fs) + rest, |fs|, end) == rest
  {
    if fs == [] {
      assert Stream(fs) + rest == rest;
    } else {
      FirstFrame(fs, rest, end);
      ReadsConsumeExactly(fs[1..], rest, end);
    }
  }

  function AfterReads(s: Bytes, n: nat, end: End): Bytes
    decreases n
  {
    if n == 0 then s else AfterReads(Parsed(s, end).1, n - 1, end)
  }

  /** What a read loop gets is what some writer sent: the bytes it used are those frames' encoding. */
  lemma {:induction false} ReadLoopIsCanonical(s: Bytes, end: End)
    ensures forall f :: f in ReadLoop(s, end) ==> Fits(f)
    ensures Stream(ReadLoop(s, end)) <= s
    decreases |s|
  {
    if Parsed(s, end).0.Ok? {
      ParseIsCanonical(s, end);
      ReadLoopIsCanonical(Parsed(s, end).1, end);
    }
  }

  // ---- byte by byte -----------------------------------------------------------------------

  /** The bytes of a frame. */
  lemma FrameBytes(f: Frame)
    requires Fits(f)
    ensures var s, n := Layout(f), |f.payload|;
            && |s| == 7 + n && s[0] == 0xAB && s[1] == 0xCD && s[2] == f.kind
            && s[3] as int == 0 && s[4] as int == n / 65536 && s[5] as int == n / 256 % 256 && s[6] as int == n % 256
            && s[7..] == f.payload
  {
  }

  /** The declared length, spelled out. */
  function Declared(s: Bytes): nat
    requires |s| >= 7
  {
    s[3] as nat * 16777216 + s[4] as nat * 65536 + s[5] as nat * 256 + s[6] as nat
  }

  /** Which outcome for which bytes: the first check that fails decides. */
  lemma OutcomeExactlyWhen(s: Bytes, end: End)
    ensures var r := Parsed(s, end).0;
            && (r.Err? && r.error.BadHeader? <==> |s| < 7)
            && (r == Err(BadMagic) <==> |s| >= 7 && (s[0] != 0xAB || s[1] != 0xCD))
            && (r == Err(TooLarge) <==> |s| >= 7 && s[0] == 0xAB && s[1] == 0xCD && Declared(s) > 1048576)
            && (r.Err? && r.error.BadPayload? <==>
                  |s| >= 7 && s[0] == 0xAB && s[1] == 0xCD && |s| < 7 + Declared(s) && Declared(s) <= 1048576)
            && (r.Ok? ==> r.value.kind == s[2] && r.value.payload == s[7..7 + Declared(s)])
            && Parsed(s, end).1 ==
                 if r.Ok? then s[7 + Declared(s)..] else if r.error.BadMagic? || r.error.TooLarge? then s[7..] else []
    ensures Parsed(s, end).0.Err? && (Parsed(s, end).0.error.BadHeader? || Parsed(s, end).0.error.BadPayload?) ==>
              var fault, part := Parsed(s, end).0.error.fault, if |s| < 7 then s else s[7..];
              && (fault.ConnectionError? <==> end.Failed?)
              && (fault.EOF? <==> end.Closed? && part == [])
  {
  }

  /** The error at which a read loop stops. */
  function LastError(s: Bytes, end: End): DecodeError
    decreases |s|
  {
    match Parsed(s, end)
    case (Ok(_), rest) => LastError(rest, end)
    case (Err(e), _) => e
  }

  /**
   A read loop stops at a plain end of file exactly when the stream was closed between frames: all its bytes
   are the frames that were read.
   */
  lemma {:induction false} CleanEndExactlyWhen(s: Bytes, end: End)
    ensures LastError(s, end) == BadHeader(EOF) <==> end.Closed? && s == Stream(ReadLoop(s, end))
    decreases |s|
  {
    OutcomeExactlyWhen(s, end);
    if Parsed(s, end).0.Ok? {
      var rest := Parsed(s, end).1;
      ParseIsCanonical(s, end);
      CleanEndExactlyWhen(rest, end);
      var head := Layout(Parsed(s, end).0.value);
      assert s == head + Stream(ReadLoop(rest, end)) ==> rest == Stream(ReadLoop(rest, end)) by {
        assert (head + rest)[|head|..] == rest;
        assert (head + Stream(ReadLoop(rest, end)))[|head|..] == Stream(ReadLoop(rest, end));
      }
    }
  }
}
