/**
 The plaintext frame of an enterprise WeChat message: 16 random bytes, a big-endian length,
 the message, a receiver id, and padding to a multiple of 32 in the style of section 6.3 of
 RFC 5652.
 */
module Framing {
  import opened Wrappers
  import opened Utf8

  datatype FrameError =
    | Empty
    | BadPaddingValue(pad: nat)
    | PaddingTooLong(pad: nat, length: nat)
    | BadPaddingByte(position: nat)
    | TooShort(length: nat)
    | BadLength(length: nat, available: nat)
    | NotUtf8

  const BLOCK: nat := 32
  const HEADER: nat := 20

  function FromBigEndian(b: seq<Byte>): (n: nat)
    requires |b| == 4
    ensures n < 0x1_0000_0000
    ensures n == (b[0] as int) * 0x100_0000 + (b[1] as int) * 0x1_0000 + (b[2] as int) * 0x100 + b[3]
  {
    var b0: int, b1: int, b2: int, b3: int := b[0], b[1], b[2], b[3];
    ((b0 * 256 + b1) * 256 + b2) * 256 + b3
  }

  function ToBigEndian(n: nat): (b: seq<Byte>)
    requires n < 0x1_0000_0000
    ensures |b| == 4 && FromBigEndian(b) == n
  {
    var high, low := n / 0x1_0000, n % 0x1_0000;
    [high / 256, high % 256, low / 256, low % 256]
  }

  function Repeated(b: Byte, n: nat): (s: seq<Byte>)
    ensures |s| == n && forall i | 0 <= i < n :: s[i] == b
  {
    seq(n, _ => b)
  }

  /** A frame with its padding. */
  function Frame(random: seq<Byte>, message: seq<Byte>, receiver: seq<Byte>, pad: Byte): seq<Byte>
    requires |message| < 0x1_0000_0000
  {
    random + ToBigEndian(|message|) + message + receiver + Repeated(pad, pad)
  }

  /** The padding that rounds a length up to whole blocks; never none. */
  function PadFor(length: nat): (pad: Byte)
    ensures 1 <= pad <= 32 && (length + pad) % 32 == 0
  {
    BLOCK - length % BLOCK
  }

  /** The shape of every accepted buffer. */
  ghost predicate IsFrameOf(buf: seq<Byte>, message: seq<Byte>) {
    exists random, receiver, pad: Byte ::
      |random| == 16 && |message| < 0x1_0000_0000 && 1 <= pad <= BLOCK && buf == Frame(random, message, receiver, pad)
  }

  /** A frame ends in its own padding value, and header and length field are where they belong. */
  lemma FrameParts(random: seq<Byte>, message: seq<Byte>, receiver: seq<Byte>, pad: Byte)
    requires |random| == 16 && |message| < 0x1_0000_0000 && 1 <= pad <= BLOCK
    ensures var buf := Frame(random, message, receiver, pad);
            var n := |buf| - pad;
            && n >= HEADER + |message| && buf[n..] == Repeated(pad, pad) && buf[|buf| - 1] == pad
            && FromBigEndian(buf[16..20]) == |message| && buf[HEADER..HEADER + |message|] == message
  {
    var head := random + ToBigEndian(|message|);
    var buf := Frame(random, message, receiver, pad);
    assert head[16..20] == ToBigEndian(|message|);
    assert buf[16..20] == head[16..20];
  }

  /** Conversely, a buffer with a fitting length field and a full run of padding is a frame. */
  lemma PartsMakeFrame(buf: seq<Byte>, pad: Byte)
    requires 1 <= pad <= BLOCK && |buf| >= pad + HEADER && buf[|buf| - pad..] == Repeated(pad, pad)
    requires |buf| - pad >= HEADER + FromBigEndian(buf[16..20])
    ensures IsFrameOf(buf, buf[HEADER..HEADER + FromBigEndian(buf[16..20])])
  {
    var length, n := FromBigEndian(buf[16..20]), |buf| - pad;
    var random, message, receiver := buf[..16], buf[HEADER..HEADER + length], buf[HEADER + length..n];
    BigEndianInverse(buf[16..20]);
    assert buf == buf[..16] + buf[16..20] + buf[20..20 + length] + buf[20 + length..n] + buf[n..];
    assert buf == Frame(random, message, receiver, pad);
  }

  lemma BigEndianInverse(b: seq<Byte>)
    requires |b| == 4
    ensures ToBigEndian(FromBigEndian(b)) == b
  {
    var n := FromBigEndian(b);
    var b0: int, b1: int, b2: int, b3: int := b[0], b[1], b[2], b[3];
    assert n == (b0 * 256 + b1) * 0x1_0000 + (b2 * 256 + b3);
    assert n / 0x1_0000 == b0 * 256 + b1 && n % 0x1_0000 == b2 * 256 + b3;
  }

  /** The buffer ends in as many equal bytes as the last one says. */
  predicate WellPadded(buf: seq<Byte>) {
    && buf != [] && 1 <= buf[|buf| - 1] <= BLOCK
    && var pad := buf[|buf| - 1];
       |buf| >= pad && buf[|buf| - pad..] == Repeated(pad, pad)
  }

  /** Everything a frame fixes, read off the buffer. */
  predicate LooksLikeFrame(buf: seq<Byte>) {
    && WellPadded(buf)
    && var size := |buf| - buf[|buf| - 1];
       size >= HEADER && size >= HEADER + FromBigEndian(buf[16..20])
  }

  /** A buffer is a frame exactly when it looks like one, and then of one message only. */
  lemma FramesAreRecognised(buf: seq<Byte>, message: seq<Byte>)
    ensures IsFrameOf(buf, message) <==>
              LooksLikeFrame(buf) && message == buf[HEADER..HEADER + FromBigEndian(buf[16..20])]
  {
    if IsFrameOf(buf, message) {
      FramesLookRight(buf, message);
    }
    if LooksLikeFrame(buf) {
      hide Frame, IsFrameOf, FromBigEndian;
      PartsMakeFrame(buf, buf[|buf| - 1]);
    }
  }

  lemma FramesLookRight(buf: seq<Byte>, message: seq<Byte>)
    requires IsFrameOf(buf, message)
    ensures LooksLikeFrame(buf) && message == buf[HEADER..HEADER + FromBigEndian(buf[16..20])]
  {
    var random, receiver, pad: Byte :|
      |random| == 16 && |message| < 0x1_0000_0000 && 1 <= pad <= BLOCK && buf == Frame(random, message, receiver, pad);
    FrameParts(random, message, receiver, pad);
    hide Frame, FromBigEndian, Repeated;
  }

  /** Unframing inverts framing, whatever the random bytes, the receiver and the padding length. */
  lemma FrameRoundTrip(random: seq<Byte>, message: seq<Byte>, receiver: seq<Byte>)
    requires |random| == 16 && |message| < 0x1_0000_0000
    ensures var pad := PadFor(HEADER + |message| + |receiver|);
            var buf := Frame(random, message, receiver, pad);
            && |buf| % 32 == 0 && LooksLikeFrame(buf)
            && buf[HEADER..HEADER + FromBigEndian(buf[16..20])] == message
  {
    var pad := PadFor(HEADER + |message| + |receiver|);
    FrameParts(random, message, receiver, pad);
  }

  lemma SliceOfPrefix(s: seq<Byte>, n: nat, i: nat, j: nat)
    requires i <= j <= n <= |s|
    ensures s[..n][i..j] == s[i..j]
  {
  }

  /** Removes padding and header; `wellFormed` is the library's UTF-8 check. */
  method Unframe(buf: seq<Byte>, wellFormed: seq<Byte> -> bool) returns (r: Result<seq<Byte>, FrameError>)
    ensures r.Ok? <==> LooksLikeFrame(buf) && wellFormed(buf[HEADER..HEADER + FromBigEndian(buf[16..20])])
    ensures r.Ok? ==> IsFrameOf(buf, r.value)
    ensures r == Err(NotUtf8) <==> LooksLikeFrame(buf) && !wellFormed(buf[HEADER..HEADER + FromBigEndian(buf[16..20])])
    ensures r == Err(Empty) <==> buf == []
    ensures r.Err? && r.error.BadPaddingValue? <==> buf != [] && !(1 <= buf[|buf| - 1] <= 32)
    // each other error names its cause
    ensures match r
            case Err(BadPaddingValue(pad)) => pad == buf[|buf| - 1]
            case Err(PaddingTooLong(pad, size)) => buf != [] && pad == buf[|buf| - 1] && size == |buf| && pad > size
            case Err(BadPaddingByte(position)) =>
              buf != [] && position < |buf| && |buf| - position <= buf[|buf| - 1] && buf[position] != buf[|buf| - 1]
            case Err(TooShort(size)) => WellPadded(buf) && size == |buf| - buf[|buf| - 1] && size < HEADER
            case Err(BadLength(length, available)) =>
              && WellPadded(buf) && available == |buf| - buf[|buf| - 1] - HEADER >= 0
              && length == FromBigEndian(buf[16..20]) && length > available
            case _ => true
  {
    if buf == [] {
      return Err(Empty);
    }
    var pad := buf[|buf| - 1];
    if pad == 0 || pad > BLOCK {
      return Err(BadPaddingValue(pad));
    }
    if pad > |buf| {
      return Err(PaddingTooLong(pad, |buf|));
    }
    for i := 0 to pad
      invariant forall j | |buf| - i <= j < |buf| :: buf[j] == pad
    {
      var idx := |buf| - 1 - i;
      if buf[idx] != pad {
        assert buf[|buf| - pad..][pad - 1 - i] != Repeated(pad, pad)[pad - 1 - i];
        return Err(BadPaddingByte(idx));
      }
    }
    var data := buf[..|buf| - pad];
    if |data| < HEADER {
      return Err(TooShort(|data|));
    }
    SliceOfPrefix(buf, |buf| - pad, 16, 20);
    var length := FromBigEndian(data[16..20]);
    if |data| < HEADER + length {
      return Err(BadLength(length, |data| - HEADER));
    }
    var message := data[HEADER..HEADER + length];
    SliceOfPrefix(buf, |buf| - pad, HEADER, HEADER + length);
    assert LooksLikeFrame(buf);
    FramesAreRecognised(buf, message);
    if !wellFormed(message) {
      return Err(NotUtf8);
    }
    return Ok(message);
  }
}
