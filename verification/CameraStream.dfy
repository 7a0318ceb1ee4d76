/** The camera's length-framed byte stream: FillBuffer, ReadLoop, and the framing they decode. */
module CameraStream {

  newtype byte = x: int | 0 <= x < 256

  const HEADER := 16

  /** BitConverter.ToInt32 on a little-endian machine. */
  function ToInt32(b: seq<byte>): int
    requires |b| >= 4
  {
    var u := b[0] as int + 0x100 * b[1] as int + 0x1_0000 * b[2] as int + 0x100_0000 * b[3] as int;
    if u >= 0x8000_0000 then u - 0x1_0000_0000 else u
  }

  /** The frames in a byte sequence: a non-positive size is a header on its own; a cut frame is no frame. */
  function Frames(data: seq<byte>): seq<seq<byte>>
    decreases |data|
  {
    if |data| < HEADER then [] else
      var size := ToInt32(data);
      var rest := data[HEADER..];
      if size <= 0 then Frames(rest)
      else if |rest| < size then []
      else [rest[..size]] + Frames(rest[size..])
  }

  /** A network stream over fixed bytes; `splits` says how many bytes each read may deliver. */
  class ByteStream {
    const data: seq<byte>
    var pos: nat
    var splits: seq<nat>

    constructor (data: seq<byte>, splits: seq<nat>)
      ensures Valid() && this.data == data && pos == 0
    {
      this.data := data;
      this.splits := splits;
      pos := 0;
    }

    predicate Valid()
      reads this
    {
      pos <= |data|
    }

    /** ReadAsync(buffer[offset..]): some of the waiting bytes, at least one unless the stream has ended. */
    method Read(buffer: array<byte>, offset: nat) returns (read: nat)
      requires Valid() && offset < buffer.Length
      modifies this`pos, this`splits, buffer
      ensures Valid() && pos == old(pos) + read && read <= buffer.Length - offset
      ensures read == 0 <==> old(pos) == |data|
      ensures buffer[..offset] == old(buffer[..offset])
      ensures buffer[offset..offset + read] == data[old(pos)..pos]
    {
      var waiting, room := |data| - pos, buffer.Length - offset;
      var offered := if splits == [] || splits[0] == 0 then waiting else splits[0];
      if splits != [] { splits := splits[1..]; }
      read := if waiting < room then waiting else room;
      if offered < read { read := offered; }
      forall i | 0 <= i < read { buffer[offset + i] := data[pos + i]; }
      pos := pos + read;
    }
  }

  /** A cancellation token: it may be looked at `patience` times before it is found cancelled, then for good. */
  class Token {
    var patience: nat

    constructor (patience: nat)
      ensures this.patience == patience
    {
      this.patience := patience;
    }

    /** The loop's own check, or the one a read makes: a cancelled read throws. */
    method Cancelled() returns (cancelled: bool)
      modifies this
      ensures cancelled <==> old(patience) == 0
      ensures patience == if cancelled then 0 else old(patience) - 1
    {
      cancelled := patience == 0;
      if !cancelled { patience := patience - 1; }
    }
  }

  /** How filling a buffer ends: the last two are EndOfStreamException and OperationCanceledException. */
  datatype Fill = Full | StreamEnded | ReadCancelled

  /** FillBuffer: read until the buffer is full. */
  method FillBuffer(stream: ByteStream, buffer: array<byte>, ct: Token) returns (r: Fill)
    requires stream.Valid()
    modifies stream`pos, stream`splits, buffer, ct
    ensures stream.Valid() && ct.patience <= old(ct.patience)
    ensures r.Full? ==> stream.pos == old(stream.pos) + buffer.Length && buffer[..] == stream.data[old(stream.pos)..stream.pos]
    ensures r.StreamEnded? ==> old(stream.pos) + buffer.Length > |stream.data|
    ensures r.ReadCancelled? ==> ct.patience == 0
  {
    ghost var start := stream.pos;
    var offset := 0;
    while offset < buffer.Length
      invariant stream.Valid() && offset <= buffer.Length && stream.pos == start + offset
      invariant buffer[..offset] == stream.data[start..stream.pos] && ct.patience <= old(ct.patience)
    {
      ghost var done := buffer[..offset];
      var cancelled := ct.Cancelled();
      if cancelled { return ReadCancelled; }
      var read := stream.Read(buffer, offset);
      if read == 0 { return StreamEnded; }
      assert buffer[..offset + read] == done + buffer[offset..offset + read];
      assert stream.data[start..stream.pos] == stream.data[start..start + offset] + stream.data[start + offset..stream.pos];
      offset := offset + read;
    }
    assert buffer[..] == buffer[..offset];
    r := Full;
  }

  /**
   * ReadLoop: emit every frame until the stream ends or the token is cancelled, between frames or inside
   * a read.  However the reads split the bytes, the frames are those of the whole byte sequence, and
   * after a cancellation its first ones.
   */
  method ReadLoop(stream: ByteStream, ct: Token) returns (frames: seq<seq<byte>>, ended: bool)
    requires stream.Valid()
    modifies stream`pos, stream`splits, ct
    ensures stream.Valid()
    ensures ended ==> frames == Frames(stream.data[old(stream.pos)..])
    ensures frames <= Frames(stream.data[old(stream.pos)..])
    ensures !ended ==> ct.patience == 0
  {
    hide Frames, ToInt32;
    ghost var all := Frames(stream.data[stream.pos..]);
    var headerBuffer := new byte[HEADER];
    frames := [];
    while true
      invariant stream.Valid() && fresh(headerBuffer) && headerBuffer.Length == HEADER
      invariant all == frames + Frames(stream.data[stream.pos..])
      decreases ct.patience
    {
      var cancelled := ct.Cancelled();
      if cancelled { return frames, false; }
      ghost var rest := stream.data[stream.pos..];
      FramesStep(rest);
      var fill := FillBuffer(stream, headerBuffer, ct);
      if fill != Full { return frames, fill == StreamEnded; }
      HeaderRead(stream.data, stream.pos - HEADER, headerBuffer[..]);
      var frameSize := ToInt32(headerBuffer[..]);
      if frameSize <= 0 { continue; }
      var jpegBuffer := new byte[frameSize];
      fill := FillBuffer(stream, jpegBuffer, ct);
      if fill != Full { return frames, fill == StreamEnded; }
      PayloadRead(stream.data, stream.pos - frameSize - HEADER, jpegBuffer[..]);
      frames := frames + [jpegBuffer[..]];
    }
  }

  /** What a filled header buffer says of the rest of the stream. */
  lemma {:induction false} HeaderRead(data: seq<byte>, start: nat, header: seq<byte>)
    requires start + HEADER <= |data| && header == data[start..start + HEADER]
    ensures |header| == HEADER && ToInt32(header) == ToInt32(data[start..]) && data[start..][HEADER..] == data[start + HEADER..]
  {
  }

  lemma {:induction false} PayloadRead(data: seq<byte>, start: nat, payload: seq<byte>)
    requires start + HEADER + |payload| <= |data| && payload == data[start + HEADER..start + HEADER + |payload|]
    ensures data[start..][HEADER..][..|payload|] == payload
    ensures data[start..][HEADER..][|payload|..] == data[start + HEADER + |payload|..]
  {
  }

  /** The frames of a byte sequence, one header at a time. */
  lemma {:induction false} FramesStep(data: seq<byte>)
    ensures |data| < HEADER ==> Frames(data) == []
    ensures |data| >= HEADER ==>
      var size, rest := ToInt32(data), data[HEADER..];
      Frames(data) == if size <= 0 then Frames(rest) else if |rest| < size then [] else [rest[..size]] + Frames(rest[size..])
  {
  }

  // ---------------------------------------------------------------- framing

  /** A payload behind its header: the little-endian size and twelve further bytes. */
  function Frame(payload: seq<byte>, tail: seq<byte>): (f: seq<byte>)
    requires |payload| < 0x8000_0000 && |tail| == HEADER - 4
    ensures |f| == HEADER + |payload| && ToInt32(f) == |payload| && f[HEADER..] == payload
  {
    var n := |payload|;
    var size := [(n % 0x100) as byte, (n / 0x100 % 0x100) as byte, (n / 0x1_0000 % 0x100) as byte, (n / 0x100_0000) as byte];
    LittleEndian(n);
    size + tail + payload
  }

  lemma {:induction false} LittleEndian(n: nat)
    requires n < 0x8000_0000
    ensures n % 0x100 + 0x100 * (n / 0x100 % 0x100) + 0x1_0000 * (n / 0x1_0000 % 0x100) + 0x100_0000 * (n / 0x100_0000) == n
  {
    assert n / 0x1_0000 == n / 0x100 / 0x100 && n / 0x100_0000 == n / 0x1_0000 / 0x100;
  }

  /** What a stream carries: a frame, or a header on its own whose size is not positive. */
  datatype Piece = Framed(payload: seq<byte>, tail: seq<byte>) | Idle(header: seq<byte>)

  /** The size in a header is not positive: it is zero, or its top bit is set. */
  predicate NoSize(header: seq<byte>)
    requires |header| >= 4
  {
    header[3] >= 0x80 || (header[0] == 0 && header[1] == 0 && header[2] == 0 && header[3] == 0)
  }

  predicate Sendable(p: Piece) {
    match p
    case Framed(payload, tail) => 0 < |payload| < 0x8000_0000 && |tail| == HEADER - 4
    case Idle(header) => |header| == 16 && NoSize(header)
  }

  function Bytes(p: Piece): seq<byte>
    requires Sendable(p)
  {
    match p
    case Framed(payload, tail) => Frame(payload, tail)
    case Idle(header) => header
  }

  function Sent(ps: seq<Piece>): seq<byte>
    requires forall p | p in ps :: Sendable(p)
  {
    if ps == [] then []
    else
      assert Sendable(ps[0]);
      Bytes(ps[0]) + Sent(ps[1..])
  }

  function Payloads(ps: seq<Piece>): seq<seq<byte>> {
    if ps == [] then [] else (if ps[0].Framed? then [ps[0].payload] else []) + Payloads(ps[1..])
  }

  /** Nothing, or the beginning of a frame that was cut off. */
  ghost predicate CutOff(cut: seq<byte>) {
    |cut| < 16 || exists f: Piece :: f.Framed? && Sendable(f) && |cut| < |Bytes(f)| && cut == Bytes(f)[..|cut|]
  }

  lemma {:induction false} CutIsNoFrame(cut: seq<byte>)
    requires CutOff(cut)
    ensures Frames(cut) == []
  {
    if |cut| >= 16 {
      var f: Piece :| f.Framed? && Sendable(f) && |cut| < |Bytes(f)| && cut == Bytes(f)[..|cut|];
      assert ToInt32(cut) == ToInt32(Bytes(f));
    }
  }

  lemma {:induction false} IdleSize(header: seq<byte>)
    requires |header| >= 4
    ensures NoSize(header) <==> ToInt32(header) <= 0
  {
  }

  /**
   * A stream of framed non-empty payloads, whatever fills their headers and with idle headers anywhere
   * among them, decodes to exactly those payloads, even when its last frame is cut off.
   */
  lemma {:induction false} FramesRoundTrip(ps: seq<Piece>, cut: seq<byte>)
    requires (forall p | p in ps :: Sendable(p)) && CutOff(cut)
    ensures Frames(Sent(ps) + cut) == Payloads(ps)
    decreases |ps|
  {
    if ps == [] {
      CutIsNoFrame(cut);
      assert Sent(ps) + cut == cut;
    } else {
      assert Sendable(ps[0]);
      var first, more := Bytes(ps[0]), Sent(ps[1..]) + cut;
      assert Sent(ps) + cut == first + more;
      FramesRoundTrip(ps[1..], cut);
      hide Frames, ToInt32, Frame, CutOff;
      FirstPiece(ps[0], more);
    }
  }

  lemma {:induction false} FirstPiece(p: Piece, more: seq<byte>)
    requires Sendable(p)
    ensures Frames(Bytes(p) + more) == (if p.Framed? then [p.payload] else []) + Frames(more)
  {
    hide Frames, ToInt32, Frame;
    var first := Bytes(p);
    HeaderStable(first, more);
    FramesStep(first + more);
    if p.Framed? {
      assert (first + more)[HEADER..] == p.payload + more;
      CutStable(p.payload, more, |p.payload|);
    } else {
      IdleSize(first);
      assert (first + more)[HEADER..] == more;
    }
  }

  /** Frames already emitted stay as they are when more bytes arrive. */
  lemma {:induction false} FramesAreStable(a: seq<byte>, b: seq<byte>)
    ensures Frames(a) <= Frames(a + b)
    decreases |a|
  {
    hide ToInt32;
    if |a| >= HEADER {
      var rest := a[HEADER..];
      HeaderStable(a, b);
      if ToInt32(a) <= 0 { FramesAreStable(rest, b); }
      else if |rest| >= ToInt32(a) {
        CutStable(rest, b, ToInt32(a));
        FramesAreStable(rest[ToInt32(a)..], b);
      }
    }
  }

  lemma {:induction false} HeaderStable(a: seq<byte>, b: seq<byte>)
    requires |a| >= HEADER
    ensures ToInt32(a + b) == ToInt32(a) && (a + b)[HEADER..] == a[HEADER..] + b
  {
  }

  lemma {:induction false} CutStable(rest: seq<byte>, b: seq<byte>, size: nat)
    requires size <= |rest|
    ensures (rest + b)[..size] == rest[..size] && (rest + b)[size..] == rest[size..] + b
  {
  }
}
