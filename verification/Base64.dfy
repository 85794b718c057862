/** Base 64 as in section 4 of RFC 4648, decoded strictly: whole quadruples, padding only at the very end.
    Bits of a padded quadruple that carry no data are ignored, as the decoder in use does. */
module Base64 {
  import opened Common

  type byte = n: int | 0 <= n < 256

  type sextet = n: int | 0 <= n < 64

  function CharOf(v: sextet): char {
    if v < 26 then ('A' as int + v) as char
    else if v < 52 then ('a' as int + (v - 26)) as char
    else if v < 62 then ('0' as int + (v - 52)) as char
    else if v == 62 then '+' else '/'
  }

  predicate InAlphabet(c: char) {
    'A' <= c <= 'Z' || 'a' <= c <= 'z' || '0' <= c <= '9' || c == '+' || c == '/'
  }

  function ValueOf(c: char): sextet
    requires InAlphabet(c)
  {
    if 'A' <= c <= 'Z' then c as int - 'A' as int
    else if 'a' <= c <= 'z' then c as int - 'a' as int + 26
    else if '0' <= c <= '9' then c as int - '0' as int + 52
    else if c == '+' then 62 else 63
  }

  lemma CharRoundTrip(v: sextet)
    ensures InAlphabet(CharOf(v)) && ValueOf(CharOf(v)) == v && CharOf(v) != '='
  {
  }

  function One(x: byte): (q: string)
    ensures |q| == 4
  {
    [CharOf(x / 4), CharOf(x % 4 * 16), '=', '=']
  }

  function Two(x: byte, y: byte): (q: string)
    ensures |q| == 4
  {
    [CharOf(x / 4), CharOf(x % 4 * 16 + y / 16), CharOf(y % 16 * 4), '=']
  }

  function Three(x: byte, y: byte, z: byte): (q: string)
    ensures |q| == 4
  {
    [CharOf(x / 4), CharOf(x % 4 * 16 + y / 16), CharOf(y % 16 * 4 + z / 64), CharOf(z % 64)]
  }

  function Encode(b: seq<byte>): string {
    if b == [] then ""
    else if |b| == 1 then One(b[0])
    else if |b| == 2 then Two(b[0], b[1])
    else Three(b[0], b[1], b[2]) + Encode(b[3..])
  }

  /** One quadruple; only the last one of a text may be padded. */
  function Quad(q: string, last: bool): Option<seq<byte>>
    requires |q| == 4
  {
    if !InAlphabet(q[0]) || !InAlphabet(q[1]) then None
    else
      var b0 := ValueOf(q[0]) * 4 + ValueOf(q[1]) / 16;
      if q[2] == '=' && q[3] == '=' && last then Some([b0])
      else if !InAlphabet(q[2]) then None
      else
        var b1 := ValueOf(q[1]) % 16 * 16 + ValueOf(q[2]) / 4;
        if q[3] == '=' && last then Some([b0, b1])
        else if !InAlphabet(q[3]) then None
        else Some([b0, b1, ValueOf(q[2]) % 4 * 64 + ValueOf(q[3])])
  }

  function Decode(s: string): Option<seq<byte>> {
    if s == "" then Some([])
    else if |s| < 4 then None
    else
      var head := Quad(s[..4], |s| == 4);
      var tail := Decode(s[4..]);
      if head.None? || tail.None? then None else Some(head.value + tail.value)
  }

  lemma FirstByte(x: byte, y: byte)
    ensures x / 4 * 4 + (x % 4 * 16 + y / 16) / 16 == x
  {
  }

  lemma SecondByte(x: byte, y: byte, z: byte)
    ensures (x % 4 * 16 + y / 16) % 16 * 16 + (y % 16 * 4 + z / 64) / 4 == y
  {
    assert (x % 4 * 16 + y / 16) % 16 == y / 16;
    assert (y % 16 * 4 + z / 64) / 4 == y % 16;
  }

  lemma ThirdByte(y: byte, z: byte)
    ensures (y % 16 * 4 + z / 64) % 4 * 64 + z % 64 == z
  {
    assert (y % 16 * 4 + z / 64) % 4 == z / 64;
  }

  lemma OneByte(x: byte)
    ensures Quad(One(x), true) == Some([x])
  {
    var s0, s1 := x / 4, x % 4 * 16;
    CharRoundTrip(s0);
    CharRoundTrip(s1);
    assert s0 * 4 + s1 / 16 == x;
    hide CharOf, ValueOf, InAlphabet;
  }

  lemma TwoBytes(x: byte, y: byte)
    ensures Quad(Two(x, y), true) == Some([x, y])
  {
    Pair(x / 4, x % 4 * 16 + y / 16, y % 16 * 4);
    FirstByte(x, y);
    SecondByte(x, y, 0);
    hide Quad, CharOf;
  }

  lemma Pair(s0: sextet, s1: sextet, s2: sextet)
    ensures Quad([CharOf(s0), CharOf(s1), CharOf(s2), '='], true) == Some([s0 * 4 + s1 / 16, s1 % 16 * 16 + s2 / 4])
  {
    CharRoundTrip(s0);
    CharRoundTrip(s1);
    CharRoundTrip(s2);
    hide CharOf, ValueOf, InAlphabet;
  }

  lemma ThreeBytes(x: byte, y: byte, z: byte, last: bool)
    ensures Quad(Three(x, y, z), last) == Some([x, y, z])
  {
    var s0, s1, s2, s3 := x / 4, x % 4 * 16 + y / 16, y % 16 * 4 + z / 64, z % 64;
    Triple(s0, s1, s2, s3, last);
    FirstByte(x, y);
    SecondByte(x, y, z);
    ThirdByte(y, z);
    hide Quad, CharOf;
  }

  lemma Triple(s0: sextet, s1: sextet, s2: sextet, s3: sextet, last: bool)
    ensures Quad([CharOf(s0), CharOf(s1), CharOf(s2), CharOf(s3)], last) == Some([s0 * 4 + s1 / 16, s1 % 16 * 16 + s2 / 4, s2 % 4 * 64 + s3])
  {
    CharRoundTrip(s0);
    CharRoundTrip(s1);
    CharRoundTrip(s2);
    CharRoundTrip(s3);
    hide CharOf, ValueOf, InAlphabet;
  }

  lemma QuadRoundTrip(b: seq<byte>)
    requires 1 <= |b|
    ensures |Encode(b)| >= 4 && (|b| <= 3 <==> |Encode(b)| == 4)
    ensures Quad(Encode(b)[..4], |b| <= 3) == Some(if |b| <= 3 then b else b[..3])
    ensures |b| > 3 ==> Encode(b)[4..] == Encode(b[3..])
  {
    hide Quad, One, Two, Three;
    if |b| == 1 {
      OneByte(b[0]);
      assert b == [b[0]] && Encode(b)[..4] == Encode(b);
    } else if |b| == 2 {
      TwoBytes(b[0], b[1]);
      assert b == [b[0], b[1]] && Encode(b)[..4] == Encode(b);
    } else {
      ThreeBytes(b[0], b[1], b[2], |b| == 3);
      assert b[..3] == [b[0], b[1], b[2]] && (|b| == 3 ==> b == b[..3]);
      assert Encode(b)[..4] == Three(b[0], b[1], b[2]);
    }
  }

  /** Decoding what was encoded gives the bytes back. */
  lemma {:induction false} RoundTrip(b: seq<byte>)
    ensures Decode(Encode(b)) == Some(b)
    decreases |b|
  {
    if b != [] {
      QuadRoundTrip(b);
      if |b| > 3 {
        hide Quad, One, Two, Three;
        RoundTrip(b[3..]);
        assert b == b[..3] + b[3..];
      } else {
        assert Encode(b)[4..] == "" && b + [] == b;
      }
    }
  }

  lemma {:induction false} EncodedLength(b: seq<byte>)
    ensures |Encode(b)| == (|b| + 2) / 3 * 4
    decreases |b|
  {
    hide One, Two, Three;
    if |b| >= 3 {
      EncodedLength(b[3..]);
      assert (|b| + 2) / 3 == (|b[3..]| + 2) / 3 + 1;
    }
  }

  lemma {:induction false} DecodedLength(s: string)
    ensures Decode(s).Some? ==> |s| % 4 == 0 && |s| / 4 * 3 - 2 <= |Decode(s).value| <= |s| / 4 * 3
    decreases |s|
  {
    if |s| >= 4 {
      DecodedLength(s[4..]);
      if Decode(s).Some? {
        assert |s| / 4 == |s[4..]| / 4 + 1;
        assert |s| > 4 ==> |Quad(s[..4], false).value| == 3;
      }
    }
  }

  /** The length test made before decoding: it admits every artifact of at most `max` bytes, and whatever it
      admits decodes to at most `max + 2` bytes. */
  lemma PrecheckBounds(max: nat, b: seq<byte>, s: string)
    ensures |b| <= max ==> |Encode(b)| <= (max + 2) / 3 * 4
    ensures |s| <= (max + 2) / 3 * 4 && Decode(s).Some? ==> |Decode(s).value| <= max + 2
  {
    EncodedLength(b);
    DecodedLength(s);
  }
}
