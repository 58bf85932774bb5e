/**
  Byte stuffing, header, checksum and size limit of one wire frame.

  The functions say what a frame is; the methods are the loops that compute it.
 */
module FrameCodec {
  import opened Base

  const START: byte := 0x3e
  const END: byte := 0x3c
  const ESCAPE: byte := 0x3d
  const ESCAPED_60: byte := 0x2c
  const ESCAPED_61: byte := 0x2d
  const ESCAPED_62: byte := 0x2e
  const MAX_FRAME_SIZE := 2048
  const MIN_BODY_SIZE := 7

  predicate Reserved(b: byte) {
    b == START || b == END || b == ESCAPE
  }

  /** No frame delimiter occurs in the bytes; escape bytes may. */
  ghost predicate MarkerFree(bytes: seq<byte>) {
    forall i :: 0 <= i < |bytes| ==> bytes[i] != START && bytes[i] != END
  }

  // ---------------------------------------------------------------- byte stuffing

  function EscapeByte(b: byte): seq<byte> {
    if b == END then [ESCAPE, ESCAPED_60]
    else if b == ESCAPE then [ESCAPE, ESCAPED_61]
    else if b == START then [ESCAPE, ESCAPED_62]
    else [b]
  }

  function Escape(data: seq<byte>): seq<byte> {
    if data == [] then [] else EscapeByte(data[0]) + Escape(data[1..])
  }

  function UnescapeCode(code: byte): Option<byte> {
    if code == ESCAPED_60 then Some(END)
    else if code == ESCAPED_61 then Some(ESCAPE)
    else if code == ESCAPED_62 then Some(START)
    else None
  }

  function Prepend(prefix: seq<byte>, rest: Option<seq<byte>>): Option<seq<byte>> {
    match rest
    case None => None
    case Some(bytes) => Some(prefix + bytes)
  }

  /** None is the exception for a dangling or unknown escape pair. */
  function Unescape(data: seq<byte>): Option<seq<byte>> {
    if data == [] then Some([])
    else if data[0] != ESCAPE then Prepend([data[0]], Unescape(data[1..]))
    else if |data| < 2 then None
    else
      match UnescapeCode(data[1])
      case None => None
      case Some(b) => Prepend([b], Unescape(data[2..]))
  }

  /** How many bytes of data need an escape pair. */
  function ReservedCount(data: seq<byte>): nat {
    if data == [] then 0 else (if Reserved(data[0]) then 1 else 0) + ReservedCount(data[1..])
  }

  lemma {:induction false} EscapeConcat(a: seq<byte>, b: seq<byte>)
    ensures Escape(a + b) == Escape(a) + Escape(b)
  {
    if a == [] {
      assert a + b == b;
    } else {
      assert (a + b)[1..] == a[1..] + b;
      EscapeConcat(a[1..], b);
    }
  }

  lemma {:induction false} EscapeSize(data: seq<byte>)
    ensures |Escape(data)| == |data| + ReservedCount(data)
    ensures ReservedCount(data) <= |data|
  {
    if data != [] {
      EscapeSize(data[1..]);
    }
  }

  lemma {:induction false} EscapeIsMarkerFree(data: seq<byte>)
    ensures MarkerFree(Escape(data))
  {
    if data != [] {
      EscapeIsMarkerFree(data[1..]);
    }
  }

  /** Unescaping undoes escaping, whatever follows the escaped bytes. */
  lemma {:induction false} UnescapeAfterEscape(data: seq<byte>, tail: seq<byte>)
    ensures Unescape(Escape(data) + tail) == Prepend(data, Unescape(tail))
  {
    if data == [] {
      assert Escape(data) + tail == tail;
      PrependTwice([], [], Unescape(tail));
    } else {
      var rest := Escape(data[1..]) + tail;
      assert Escape(data) + tail == EscapeByte(data[0]) + rest;
      UnescapeHead(data[0], rest);
      UnescapeAfterEscape(data[1..], tail);
      PrependTwice([data[0]], data[1..], Unescape(tail));
      assert [data[0]] + data[1..] == data;
    }
  }

  lemma UnescapeHead(b: byte, rest: seq<byte>)
    ensures Unescape(EscapeByte(b) + rest) == Prepend([b], Unescape(rest))
  {
    var e := EscapeByte(b);
    assert (e + rest)[|e|..] == rest;
  }

  /** Escaping undoes unescaping on every marker-free string that unescapes at all: the form is canonical. */
  lemma {:induction false} EscapeAfterUnescape(body: seq<byte>)
    requires MarkerFree(body) && Unescape(body).Some?
    ensures Escape(Unescape(body).value) == body
    decreases |body|
  {
    if body != [] {
      var k := if body[0] == ESCAPE then 2 else 1;
      EscapeAfterUnescape(body[k..]);
      var u := Unescape(body).value;
      assert u[1..] == Unescape(body[k..]).value;
      assert body == body[..k] + body[k..];
      assert EscapeByte(u[0]) == body[..k];
    }
  }

  lemma RoundTrip(data: seq<byte>)
    ensures Unescape(Escape(data)) == Some(data)
  {
    UnescapeAfterEscape(data, []);
    assert Escape(data) + [] == Escape(data);
    assert data + [] == data;
  }

  method EscapeBytes(data: seq<byte>) returns (result: seq<byte>)
    ensures result == Escape(data)
  {
    result := [];
    for i := 0 to |data|
      invariant result == Escape(data[..i])
    {
      EscapeConcat(data[..i], [data[i]]);
      assert data[..i + 1] == data[..i] + [data[i]];
      assert Escape([data[i]]) == EscapeByte(data[i]);
      match data[i] {
        case 0x3c => result := result + [ESCAPE, ESCAPED_60];
        case 0x3d => result := result + [ESCAPE, ESCAPED_61];
        case 0x3e => result := result + [ESCAPE, ESCAPED_62];
        case b => result := result + [b];
      }
    }
    assert data[..|data|] == data;
  }

  method UnescapeBytes(data: seq<byte>) returns (r: Result<seq<byte>>)
    ensures r == match Unescape(data) case None => Err(InvalidFrame) case Some(u) => Ok(u)
  {
    var result: seq<byte> := [];
    var i := 0;
    ghost var rest := data;
    PrependTwice([], [], Unescape(data));
    while i < |data|
      invariant 0 <= i <= |data| && rest == data[i..]
      invariant Unescape(data) == Prepend(result, Unescape(rest))
    {
      var curr := data[i];
      if curr == ESCAPE {
        if i + 1 >= |data| {
          return Err(InvalidFrame);
        }
        i := i + 1;
        var code := data[i];
        var plain: byte;
        match code {
          case 0x2c => plain := END;
          case 0x2d => plain := ESCAPE;
          case 0x2e => plain := START;
          case _ => return Err(InvalidFrame);
        }
        PrependTwice(result, [plain], Unescape(rest[2..]));
        result := result + [plain];
        rest := rest[2..];
      } else {
        PrependTwice(result, [curr], Unescape(rest[1..]));
        result := result + [curr];
        rest := rest[1..];
      }
      i := i + 1;
    }
    assert result + [] == result;
    return Ok(result);
  }

  lemma PrependTwice(a: seq<byte>, b: seq<byte>, rest: Option<seq<byte>>)
    ensures Prepend(a, Prepend(b, rest)) == Prepend(a + b, rest)
    ensures Prepend([], rest) == rest
  {
    if rest.Some? {
      assert [] + rest.value == rest.value;
      assert a + (b + rest.value) == (a + b) + rest.value;
    }
  }

  // ---------------------------------------------------------------- checksum

  function Sum(data: seq<byte>): nat {
    if data == [] then 0 else data[0] + Sum(data[1..])
  }

  function Checksum(data: seq<byte>): byte {
    Sum(data) % 256
  }

  lemma {:induction false} SumConcat(a: seq<byte>, b: seq<byte>)
    ensures Sum(a + b) == Sum(a) + Sum(b)
  {
    if a == [] {
      assert a + b == b;
    } else {
      assert (a + b)[1..] == a[1..] + b;
      SumConcat(a[1..], b);
    }
  }

  method CalculateChecksum(data: seq<byte>) returns (accumulator: byte)
    ensures accumulator == Checksum(data)
  {
    accumulator := 0;
    for i := 0 to |data|
      invariant accumulator == Checksum(data[..i])
    {
      assert data[..i + 1] == data[..i] + [data[i]];
      SumConcat(data[..i], [data[i]]);
      assert Sum([data[i]]) == data[i];
      accumulator := (accumulator + data[i]) % 256;
    }
    assert data[..|data|] == data;
  }

  // ---------------------------------------------------------------- frame layout

  function BigEndian(n: nat): seq<byte> {
    [n / 0x100_0000 % 256, n / 0x1_0000 % 256, n / 0x100 % 256, n % 256]
  }

  function FromBigEndian(b0: byte, b1: byte, b2: byte, b3: byte): nat {
    b0 * 0x100_0000 + b1 * 0x1_0000 + b2 * 0x100 + b3
  }

  lemma BigEndianRoundTrip(n: nat)
    requires n < 0x1_0000_0000
    ensures var b := BigEndian(n); FromBigEndian(b[0], b[1], b[2], b[3]) == n
  {
    Shifts(n);
    var upper := n / 0x100;
    var high := upper / 0x100;
    var top := high / 0x100;
    assert n == upper * 0x100 + n % 0x100 && upper == high * 0x100 + upper % 0x100;
    assert high == top * 0x100 + high % 0x100 && top % 256 == top;
  }

  /** Shifting by bytes, one at a time. */
  lemma Shifts(n: nat)
    ensures n / 0x1_0000 == n / 0x100 / 0x100 && n / 0x100_0000 == n / 0x100 / 0x100 / 0x100
  {
  }

  lemma LowByte(upper: nat, low: byte)
    ensures (upper * 0x100 + low) / 0x100 == upper && (upper * 0x100 + low) % 0x100 == low
  {
  }

  lemma BigEndianInverse(b0: byte, b1: byte, b2: byte, b3: byte)
    ensures FromBigEndian(b0, b1, b2, b3) < 0x1_0000_0000
    ensures BigEndian(FromBigEndian(b0, b1, b2, b3)) == [b0, b1, b2, b3]
  {
    var high := b0 * 0x100 + b1;
    var upper := high * 0x100 + b2;
    assert FromBigEndian(b0, b1, b2, b3) == upper * 0x100 + b3;
    Shifts(upper * 0x100 + b3);
    LowByte(upper, b3);
    LowByte(high, b2);
    LowByte(b0, b1);
  }

  /** Type, sequence, big-endian payload length, payload. */
  function Covered(f: Frame): seq<byte> {
    [f.kind, f.sequence] + BigEndian(|f.payload|) + f.payload
  }

  /** The bytes between the delimiters before stuffing: everything the checksum covers, then the checksum. */
  function Core(f: Frame): seq<byte> {
    Covered(f) + [Checksum(Covered(f))]
  }

  function Encode(f: Frame): Result<seq<byte>> {
    if |Escape(Core(f))| + 2 > MAX_FRAME_SIZE then Err(InvalidFrame)
    else Ok([START] + Escape(Core(f)) + [END])
  }

  /** Interprets unstuffed bytes; anything after the checksum is ignored. */
  function ParseBody(u: seq<byte>): Result<Frame> {
    if |u| < MIN_BODY_SIZE then Err(InvalidFrame)
    else
      var n := FromBigEndian(u[2], u[3], u[4], u[5]);
      if |u| < 6 + n + 1 then Err(InvalidFrame)
      else if u[6 + n] != Checksum(u[..6 + n]) then Err(InvalidChecksum)
      else Ok(Frame(u[0], u[1], u[6..6 + n]))
  }

  function DecodeBody(body: seq<byte>): Result<Frame> {
    match Unescape(body)
    case None => Err(InvalidFrame)
    case Some(u) => ParseBody(u)
  }

  function Decode(wire: seq<byte>): Result<Frame> {
    if |wire| < 2 || wire[0] != START || wire[|wire| - 1] != END then Err(InvalidFrame)
    else DecodeBody(wire[1..|wire| - 1])
  }

  method EncodeFrame(f: Frame) returns (r: Result<seq<byte>>)
    ensures r == Encode(f)
  {
    var toEscape: seq<byte> := [f.kind];
    toEscape := toEscape + [f.sequence];
    var size := |f.payload|;
    toEscape := toEscape + [size / 0x100_0000 % 256];
    toEscape := toEscape + [size / 0x1_0000 % 256];
    toEscape := toEscape + [size / 0x100 % 256];
    toEscape := toEscape + [size % 256];
    toEscape := toEscape + f.payload;
    assert toEscape == Covered(f);
    var checksum := CalculateChecksum(toEscape);
    toEscape := toEscape + [checksum];
    var escaped := EscapeBytes(toEscape);
    if |escaped| + 2 > MAX_FRAME_SIZE {
      return Err(InvalidFrame);
    }
    return Ok([START] + escaped + [END]);
  }

  method ParseBytes(u: seq<byte>) returns (r: Result<Frame>)
    ensures r == ParseBody(u)
  {
    if |u| < MIN_BODY_SIZE {
      return Err(InvalidFrame);
    }
    var dataSize := FromBigEndian(u[2], u[3], u[4], u[5]);
    if |u| < 6 + dataSize + 1 {
      return Err(InvalidFrame);
    }
    var expected := u[6 + dataSize];
    var actual := CalculateChecksum(u[..6 + dataSize]);
    if expected != actual {
      return Err(InvalidChecksum);
    }
    return Ok(Frame(u[0], u[1], u[6..6 + dataSize]));
  }

  method DecodeBodyBytes(body: seq<byte>) returns (r: Result<Frame>)
    ensures r == DecodeBody(body)
  {
    var unescaped := UnescapeBytes(body);
    if unescaped.Err? {
      return Err(unescaped.error);
    }
    r := ParseBytes(unescaped.value);
  }

  method DecodeFrame(wire: seq<byte>) returns (r: Result<Frame>)
    ensures r == Decode(wire)
  {
    if |wire| < 2 {
      return Err(InvalidFrame);
    }
    if wire[0] != START || wire[|wire| - 1] != END {
      return Err(InvalidFrame);
    }
    r := DecodeBodyBytes(wire[1..|wire| - 1]);
  }

  // ---------------------------------------------------------------- properties

  /** Unstuffed bytes parse to f exactly when they are f's core followed by anything. */
  lemma ParseBodyIffCore(u: seq<byte>, f: Frame)
    ensures ParseBody(u) == Ok(f) <==>
            |f.payload| < 0x1_0000_0000 && Core(f) <= u
  {
    ParsedCore(u, f);
    if |f.payload| < 0x1_0000_0000 && Core(f) <= u {
      assert u == Core(f) + u[|Core(f)|..];
      ParseCore(f, u[|Core(f)|..]);
    }
  }

  lemma ParsedCore(u: seq<byte>, f: Frame)
    ensures ParseBody(u) == Ok(f) ==> |f.payload| < 0x1_0000_0000 && Core(f) <= u
  {
    if ParseBody(u) == Ok(f) {
      var n := FromBigEndian(u[2], u[3], u[4], u[5]);
      BigEndianInverse(u[2], u[3], u[4], u[5]);
      assert Covered(f) == u[..6 + n];
      assert Core(f) == u[..6 + n + 1];
    }
  }

  lemma ParseCore(f: Frame, tail: seq<byte>)
    requires |f.payload| < 0x1_0000_0000
    ensures ParseBody(Core(f) + tail) == Ok(f)
  {
    var u, n := Core(f) + tail, |f.payload|;
    var b := BigEndian(n);
    BigEndianRoundTrip(n);
    assert u[2] == b[0] && u[3] == b[1] && u[4] == b[2] && u[5] == b[3];
    assert u[..6 + n] == Covered(f);
    assert u[6..6 + n] == f.payload;
  }

  /**
    Canonical decoding: a delimiter-free body decodes to f exactly when it is the one stuffed form of f
    followed by a well-formed stuffed tail, which is ignored.
   */
  lemma CanonicalDecoding(body: seq<byte>, f: Frame)
    requires MarkerFree(body)
    ensures DecodeBody(body) == Ok(f) <==>
            && |f.payload| < 0x1_0000_0000
            && Escape(Core(f)) <= body
            && Unescape(body[|Escape(Core(f))|..]).Some?
  {
    if DecodeBody(body) == Ok(f) {
      var u := Unescape(body).value;
      ParseBodyIffCore(u, f);
      EscapeAfterUnescape(body);
      var tail := u[|Core(f)|..];
      assert u == Core(f) + tail;
      EscapeConcat(Core(f), tail);
      assert body[|Escape(Core(f))|..] == Escape(tail);
      RoundTrip(tail);
    }
    if |f.payload| < 0x1_0000_0000 && Escape(Core(f)) <= body && Unescape(body[|Escape(Core(f))|..]).Some? {
      var tail := body[|Escape(Core(f))|..];
      assert body == Escape(Core(f)) + tail;
      UnescapeAfterEscape(Core(f), tail);
      ParseBodyIffCore(Unescape(body).value, f);
    }
  }

  /** The exact size rule: seven fixed bytes, two delimiters and one extra byte for every reserved byte. */
  lemma EncodeSizeRule(f: Frame)
    ensures Encode(f).Ok? <==> |f.payload| + 9 + ReservedCount(Core(f)) <= MAX_FRAME_SIZE
    ensures |f.payload| <= 1016 ==> Encode(f).Ok?
    ensures Encode(f).Ok? ==> |Encode(f).value| == |f.payload| + 9 + ReservedCount(Core(f))
  {
    EscapeSize(Core(f));
  }

  /** What an encoded frame looks like on the wire, and that its body decodes back. */
  lemma EncodedShape(f: Frame)
    requires Encode(f).Ok?
    ensures var w := Encode(f).value;
            && w == [START] + Escape(Core(f)) + [END]
            && |w| <= MAX_FRAME_SIZE
            && MarkerFree(Escape(Core(f)))
            && DecodeBody(Escape(Core(f))) == Ok(f)
  {
    EscapeIsMarkerFree(Core(f));
    EncodeSizeRule(f);
    assert Escape(Core(f))[|Escape(Core(f))|..] == [];
    CanonicalDecoding(Escape(Core(f)), f);
  }

  lemma DecodeEncode(f: Frame)
    requires Encode(f).Ok?
    ensures Decode(Encode(f).value) == Ok(f)
  {
    EncodedShape(f);
    var w := Encode(f).value;
    assert w[1..|w| - 1] == Escape(Core(f));
  }

  lemma SumUpdate(u: seq<byte>, i: nat, x: byte)
    requires i < |u|
    ensures Sum(u[i := x]) == Sum(u) - u[i] + x
  {
    SumConcat(u[..i], u[i..]);
    SumConcat(u[..i], [x] + u[i + 1..]);
    assert u == u[..i] + u[i..];
    assert u[i := x] == u[..i] + ([x] + u[i + 1..]);
    assert u[i..][1..] == u[i + 1..];
    assert ([x] + u[i + 1..])[1..] == u[i + 1..];
  }

  /**
    Changing one byte other than the length field: inside the frame it is always caught by the checksum,
    in the ignored tail it never matters.
   */
  lemma SingleByteCorruption(u: seq<byte>, i: nat, x: byte)
    requires ParseBody(u).Ok?
    requires i < |u| && !(2 <= i < 6) && x != u[i]
    ensures ParseBody(u[i := x]) ==
            if i <= 6 + |ParseBody(u).value.payload| then Err(InvalidChecksum) else ParseBody(u)
  {
    var n := |ParseBody(u).value.payload|;
    var v := u[i := x];
    if i < 6 + n {
      SumUpdate(u[..6 + n], i, x);
      assert v[..6 + n] == u[..6 + n][i := x];
      assert v[6 + n] == Sum(u[..6 + n]) % 256;
      ModularDistinct(Sum(u[..6 + n]), u[i], x);
    } else {
      assert v[..6 + n] == u[..6 + n];
    }
    if i > 6 + n {
      assert v[6..6 + n] == u[6..6 + n];
    }
  }

  lemma ModularDistinct(s: int, a: byte, b: byte)
    requires a != b
    ensures (s - a + b) % 256 != s % 256
  {
  }

  /** Unstuffing a cut stuffed string either fails or yields a prefix of the original, cut at the same place. */
  lemma {:induction false} UnescapePrefix(data: seq<byte>, n: nat)
    requires n < |Escape(data)|
    ensures Unescape(Escape(data)[..n]).Some? ==>
              Unescape(Escape(data)[..n]).value < data
    decreases |data|
  {
    var e := EscapeByte(data[0]);
    var cut := Escape(data)[..n];
    if n >= |e| {
      assert cut == e + Escape(data[1..])[..n - |e|];
      assert cut[|e|..] == Escape(data[1..])[..n - |e|];
      UnescapePrefix(data[1..], n - |e|);
      if Unescape(cut).Some? {
        var rest := Unescape(cut[|e|..]).value;
        assert Unescape(cut).value == [data[0]] + rest;
        assert data == [data[0]] + data[1..];
      }
    } else if n == 1 {
      assert cut == [ESCAPE];
    }
  }

  /** Every proper prefix of a stuffed body is rejected, never mistaken for a shorter frame. */
  lemma TruncationIsRejected(f: Frame, n: nat)
    requires |f.payload| < 0x1_0000_0000
    requires n < |Escape(Core(f))|
    ensures DecodeBody(Escape(Core(f))[..n]) == Err(InvalidFrame)
  {
    var cut := Escape(Core(f))[..n];
    UnescapePrefix(Core(f), n);
    if Unescape(cut).Some? {
      var u := Unescape(cut).value;
      if |u| >= MIN_BODY_SIZE {
        var b := BigEndian(|f.payload|);
        BigEndianRoundTrip(|f.payload|);
        assert u == Core(f)[..|u|];
        assert u[2] == b[0] && u[3] == b[1] && u[4] == b[2] && u[5] == b[3];
      }
    }
  }
}
