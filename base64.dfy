/**
 * MIME base64 (section 6.8 of RFC 2045) as Python 2 applies it to a `str`:
 * `s.encode("base64")` is `base64.encodestring`, which cuts the input into
 * chunks of 57 bytes and writes each as one 76-character line followed by a
 * newline; `s.decode("base64")` is `binascii.a2b_base64`.
 *
 * The encoder is given in full. The decoder is given in full on canonical
 * single-line input (what the encoder produces), where it is the exact
 * inverse of the encoder; on any other input Python's decoder is lenient in
 * ways this model does not describe, so that part is a parameter.
 */
module Base64 {
  import opened Wrappers
  import opened PyStr

  /** `base64.MAXBINSIZE`: the number of input bytes written per line. */
  const MAX_BIN_SIZE: nat := 57

  /** The base64 alphabet character for a 6-bit value. */
  function Char6(n: nat): (c: Byte)
    requires n < 64
    ensures !IsSpace(c) && c != '='
  {
    if n < 26 then (65 + n) as char
    else if n < 52 then (97 + n - 26) as char
    else if n < 62 then (48 + n - 52) as char
    else if n == 62 then '+'
    else '/'
  }

  /** The 6-bit value of a base64 alphabet character; `None` for any other byte. */
  function Value6(c: char): (v: Option<nat>)
    ensures v.Some? ==> v.value < 64
  {
    if 'A' <= c <= 'Z' then Some(c as int - 65)
    else if 'a' <= c <= 'z' then Some(c as int - 97 + 26)
    else if '0' <= c <= '9' then Some(c as int - 48 + 52)
    else if c == '+' then Some(62)
    else if c == '/' then Some(63)
    else None
  }

  lemma Value6OfChar6(n: nat)
    requires n < 64
    ensures Value6(Char6(n)) == Some(n)
  {
  }

  lemma Char6OfValue6(c: char)
    requires Value6(c).Some?
    ensures Char6(Value6(c).value) == c
  {
  }

  /** Three bytes as four alphabet characters. */
  function EncodeGroup(b0: Byte, b1: Byte, b2: Byte): (q: Bytes)
    ensures |q| == 4
  {
    var x0, x1, x2 := b0 as int, b1 as int, b2 as int;
    [Char6(x0 / 4), Char6((x0 % 4) * 16 + x1 / 16), Char6((x1 % 16) * 4 + x2 / 64), Char6(x2 % 64)]
  }

  /**
   * `binascii.b2a_base64(b)` without its trailing newline: groups of three
   * bytes, the last group padded with `=`.
   */
  function EncodeLine(b: Bytes): (s: Bytes)
    ensures |s| == 4 * ((|b| + 2) / 3)
    ensures forall i | 0 <= i < |s| :: !IsSpace(s[i])
    decreases |b|
  {
    if |b| == 0 then []
    else if |b| == 1 then
      var x0 := b[0] as int;
      [Char6(x0 / 4), Char6((x0 % 4) * 16), '=', '=']
    else if |b| == 2 then
      var x0, x1 := b[0] as int, b[1] as int;
      [Char6(x0 / 4), Char6((x0 % 4) * 16 + x1 / 16), Char6((x1 % 16) * 4), '=']
    else
      EncodeGroup(b[0], b[1], b[2]) + EncodeLine(b[3..])
  }

  /** Four alphabet characters (no padding) as three bytes. */
  function DecodeGroup(q: Bytes): (r: Option<Bytes>)
    requires |q| == 4
    ensures r.Some? ==> |r.value| == 3
  {
    var v0, v1, v2, v3 := Value6(q[0]), Value6(q[1]), Value6(q[2]), Value6(q[3]);
    if v0.None? || v1.None? || v2.None? || v3.None? then None
    else
      var y0, y1, y2, y3 := v0.value, v1.value, v2.value, v3.value;
      Some([(y0 * 4 + y1 / 16) as char, ((y1 % 16) * 16 + y2 / 4) as char, ((y2 % 4) * 64 + y3) as char])
  }

  /**
   * The last group of a line: `xx==` holds one byte, `xxx=` two, `xxxx`
   * three. Bits past the encoded bytes must be zero (canonical form).
   */
  function DecodeFinalGroup(q: Bytes): (r: Option<Bytes>)
    requires |q| == 4
    ensures r.Some? ==> 1 <= |r.value| <= 3
  {
    var v0, v1, v2 := Value6(q[0]), Value6(q[1]), Value6(q[2]);
    if q[2] == '=' && q[3] == '=' then
      if v0.None? || v1.None? || v1.value % 16 != 0 then None
      else Some([(v0.value * 4 + v1.value / 16) as char])
    else if q[3] == '=' then
      if v0.None? || v1.None? || v2.None? || v2.value % 4 != 0 then None
      else Some([(v0.value * 4 + v1.value / 16) as char, ((v1.value % 16) * 16 + v2.value / 4) as char])
    else
      DecodeGroup(q)
  }

  /** Strict decoding of one canonical base64 line. */
  function DecodeLine(s: Bytes): (r: Option<Bytes>)
    ensures r.Some? ==> |s| == 4 * ((|r.value| + 2) / 3)
    decreases |s|
  {
    if |s| == 0 then Some([])
    else if |s| < 4 then None
    else if |s| == 4 then DecodeFinalGroup(s)
    else
      match DecodeGroup(s[..4])
      case None => None
      case Some(g) =>
        match DecodeLine(s[4..])
        case None => None
        case Some(rest) => Some(g + rest)
  }

  lemma GroupRoundTrip(b0: Byte, b1: Byte, b2: Byte)
    ensures DecodeGroup(EncodeGroup(b0, b1, b2)) == Some([b0, b1, b2])
  {
    var x0, x1, x2 := b0 as int, b1 as int, b2 as int;
    var y0, y1, y2, y3 := x0 / 4, (x0 % 4) * 16 + x1 / 16, (x1 % 16) * 4 + x2 / 64, x2 % 64;
    Value6OfChar6(y0);
    Value6OfChar6(y1);
    Value6OfChar6(y2);
    Value6OfChar6(y3);
    assert y1 / 16 == x0 % 4 && y1 % 16 == x1 / 16;
    assert y2 / 4 == x1 % 16 && y2 % 4 == x2 / 64;
  }

  lemma GroupCanonical(q: Bytes)
    requires |q| == 4 && DecodeGroup(q).Some?
    ensures var g := DecodeGroup(q).value; |g| == 3 && EncodeGroup(g[0], g[1], g[2]) == q
  {
    var y0, y1, y2, y3 := Value6(q[0]).value, Value6(q[1]).value, Value6(q[2]).value, Value6(q[3]).value;
    Char6OfValue6(q[0]);
    Char6OfValue6(q[1]);
    Char6OfValue6(q[2]);
    Char6OfValue6(q[3]);
    var x0, x1, x2 := y0 * 4 + y1 / 16, (y1 % 16) * 16 + y2 / 4, (y2 % 4) * 64 + y3;
    assert x0 / 4 == y0 && x0 % 4 == y1 / 16;
    assert x1 / 16 == y1 % 16 && x1 % 16 == y2 / 4;
    assert x2 / 64 == y2 % 4 && x2 % 64 == y3;
  }

  /** Decoding inverts encoding: `a2b_base64(b2a_base64(b)) == b`. */
  lemma {:induction false} DecodeEncodeLine(b: Bytes)
    ensures DecodeLine(EncodeLine(b)) == Some(b)
    decreases |b|
  {
    if |b| == 1 {
      var x0 := b[0] as int;
      Value6OfChar6(x0 / 4);
      Value6OfChar6((x0 % 4) * 16);
      assert ((x0 % 4) * 16) / 16 == x0 % 4 && ((x0 % 4) * 16) % 16 == 0;
      assert [b[0]] == b;
    } else if |b| == 2 {
      var x0, x1 := b[0] as int, b[1] as int;
      Value6OfChar6(x0 / 4);
      Value6OfChar6((x0 % 4) * 16 + x1 / 16);
      Value6OfChar6((x1 % 16) * 4);
      assert [b[0], b[1]] == b;
    } else if |b| >= 3 {
      var s := EncodeLine(b);
      GroupRoundTrip(b[0], b[1], b[2]);
      assert [b[0], b[1], b[2]] + b[3..] == b;
      if |b| == 3 {
        assert s == EncodeGroup(b[0], b[1], b[2]);
        assert [b[0], b[1], b[2]] == b;
      } else {
        assert s[..4] == EncodeGroup(b[0], b[1], b[2]);
        assert s[4..] == EncodeLine(b[3..]);
        DecodeEncodeLine(b[3..]);
      }
    }
  }

  /** Only canonical encodings decode: whatever decodes re-encodes to the same text. */
  lemma {:induction false} EncodeDecodeLine(s: Bytes)
    requires DecodeLine(s).Some?
    ensures EncodeLine(DecodeLine(s).value) == s
    decreases |s|
  {
    if |s| == 4 {
      if s[2] == '=' && s[3] == '=' {
        var y0, y1 := Value6(s[0]).value, Value6(s[1]).value;
        Char6OfValue6(s[0]);
        Char6OfValue6(s[1]);
        var x0 := y0 * 4 + y1 / 16;
        assert x0 / 4 == y0 && (x0 % 4) * 16 == y1;
      } else if s[3] == '=' {
        var y0, y1, y2 := Value6(s[0]).value, Value6(s[1]).value, Value6(s[2]).value;
        Char6OfValue6(s[0]);
        Char6OfValue6(s[1]);
        Char6OfValue6(s[2]);
        var x0, x1 := y0 * 4 + y1 / 16, (y1 % 16) * 16 + y2 / 4;
        assert x0 / 4 == y0 && (x0 % 4) * 16 + x1 / 16 == y1;
        assert (x1 % 16) * 4 == y2;
      } else {
        GroupCanonical(s);
        var g := DecodeGroup(s).value;
        assert g[3..] == [];
      }
    } else if |s| > 4 {
      GroupCanonical(s[..4]);
      var g := DecodeGroup(s[..4]).value;
      EncodeDecodeLine(s[4..]);
      var rest := DecodeLine(s[4..]).value;
      assert (g + rest)[3..] == rest;
      assert s[..4] + s[4..] == s;
    }
  }

  /** `min(|b|, 57)`: the size of the first chunk `encodestring` writes. */
  function ChunkSize(b: Bytes): (n: nat)
    ensures n <= |b| && n <= MAX_BIN_SIZE
    ensures |b| > 0 ==> n > 0
  {
    if |b| < MAX_BIN_SIZE then |b| else MAX_BIN_SIZE
  }

  /**
   * `base64.encodestring(b)`, which is what `b.encode("base64")` returns:
   * one line per chunk of 57 input bytes, each line ending in a newline.
   */
  function EncodeString(b: Bytes): (r: Bytes)
    ensures |b| == 0 <==> r == []
    ensures |b| > 0 ==> r[|r| - 1] == '\n'
    ensures 1 <= |b| <= MAX_BIN_SIZE ==> r == EncodeLine(b) + "\n"
    decreases |b|
  {
    if |b| == 0 then []
    else
      var n := ChunkSize(b);
      assert |b| <= MAX_BIN_SIZE ==> b[..n] == b && b[n..] == [];
      EncodeLine(b[..n]) + "\n" + EncodeString(b[n..])
  }

  /** The lines of `EncodeString(b)`, without their newlines. */
  function Lines(b: Bytes): (lines: seq<Bytes>)
    ensures AllWords(lines)
    decreases |b|
  {
    if |b| == 0 then []
    else
      var n := ChunkSize(b);
      [EncodeLine(b[..n])] + Lines(b[n..])
  }

  /** The encoding is the lines joined by newlines, with one more newline at the end. */
  lemma {:induction false} EncodeStringLines(b: Bytes)
    requires |b| > 0
    ensures EncodeString(b) == JoinLines(Lines(b)) + "\n"
    decreases |b|
  {
    var n := ChunkSize(b);
    if |b| > n {
      EncodeStringLines(b[n..]);
      assert Lines(b)[1..] == Lines(b[n..]);
    }
  }

  /**
   * `b.encode("base64").strip()` is a single line exactly when `b` has from
   * 1 to 57 bytes; longer inputs keep inner newlines, and the empty input
   * encodes to the empty string.
   */
  lemma StrippedEncoding(b: Bytes)
    ensures Strip(EncodeString(b)) == JoinLines(Lines(b))
    ensures |Lines(b)| == 1 <==> 1 <= |b| <= MAX_BIN_SIZE
    ensures 1 <= |b| <= MAX_BIN_SIZE ==> Lines(b) == [EncodeLine(b)]
  {
    if |b| > 0 {
      EncodeStringLines(b);
      StripJoinLinesNewline(Lines(b));
      assert b[..ChunkSize(b)] == b || |b| > MAX_BIN_SIZE;
    }
  }

  /**
   * `t.decode("base64")`: the canonical decoding when `t` is a canonical
   * single-line encoding, otherwise whatever the lenient decoder `lenient`
   * (Python's `a2b_base64` on non-canonical input) yields; `None` stands for
   * `binascii.Error`.
   */
  function Decode(lenient: Bytes -> Option<Bytes>, t: Bytes): (r: Option<Bytes>)
    ensures DecodeLine(t).Some? ==> r == DecodeLine(t)
  {
    match DecodeLine(t)
    case Some(b) => Some(b)
    case None => lenient(t)
  }

  /** Decoding a line the encoder wrote gives back its bytes, whatever the lenient part does. */
  lemma DecodeOfEncodeLine(lenient: Bytes -> Option<Bytes>, b: Bytes)
    ensures Decode(lenient, EncodeLine(b)) == Some(b)
  {
    DecodeEncodeLine(b);
  }
}
