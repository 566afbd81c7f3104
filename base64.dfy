/** The base64 alphabet and codec of section 4 of RFC 4648, as used to carry
    uploaded images (`base64.b64decode` in the source). The decoder is the
    strict one: every character must come from the alphabet and padding may
    only end the last quantum. */
module Base64 {
  import opened Common

  predicate IsAlphabetChar(c: char)
  {
    ('A' <= c <= 'Z') || ('a' <= c <= 'z') || ('0' <= c <= '9') || c == '+' || c == '/'
  }

  /** Table 1 of RFC 4648: the character that encodes the 6-bit value `v`. */
  function CharOf(v: nat): (c: char)
    requires v < 64
    ensures IsAlphabetChar(c)
  {
    if v < 26 then ('A' as int + v) as char
    else if v < 52 then ('a' as int + (v - 26)) as char
    else if v < 62 then ('0' as int + (v - 52)) as char
    else if v == 62 then '+'
    else '/'
  }

  /** The inverse of Table 1. */
  function ValueOf(c: char): (v: nat)
    requires IsAlphabetChar(c)
    ensures v < 64 && CharOf(v) == c
  {
    if 'A' <= c <= 'Z' then c as int - 'A' as int
    else if 'a' <= c <= 'z' then c as int - 'a' as int + 26
    else if '0' <= c <= '9' then c as int - '0' as int + 52
    else if c == '+' then 62
    else 63
  }

  lemma ValueOfCharOf(v: nat)
    requires v < 64
    ensures ValueOf(CharOf(v)) == v
  {
  }

  function EncodeTriple(x: byte, y: byte, z: byte): string
  {
    [CharOf(x / 4), CharOf((x % 4) * 16 + y / 16), CharOf((y % 16) * 4 + z / 64), CharOf(z % 64)]
  }

  /** Encoding with `=` padding for a final group of one or two bytes. */
  function Encode(b: seq<byte>): (s: string)
    ensures |s| % 4 == 0
    ensures |s| == 4 * ((|b| + 2) / 3)
    decreases |b|
  {
    if |b| == 0 then ""
    else if |b| == 1 then [CharOf(b[0] / 4), CharOf((b[0] % 4) * 16), '=', '=']
    else if |b| == 2 then [CharOf(b[0] / 4), CharOf((b[0] % 4) * 16 + b[1] / 16), CharOf((b[1] % 16) * 4), '=']
    else
      assert (|b| + 2) / 3 == (|b[3..]| + 2) / 3 + 1;
      EncodeTriple(b[0], b[1], b[2]) + Encode(b[3..])
  }

  predicate IsFullQuantum(q: string)
  {
    |q| == 4 && IsAlphabetChar(q[0]) && IsAlphabetChar(q[1]) && IsAlphabetChar(q[2]) && IsAlphabetChar(q[3])
  }

  function DecodeFull(q: string): seq<byte>
    requires IsFullQuantum(q)
  {
    var c0, c1, c2, c3 := ValueOf(q[0]), ValueOf(q[1]), ValueOf(q[2]), ValueOf(q[3]);
    [c0 * 4 + c1 / 16, (c1 % 16) * 16 + c2 / 4, (c2 % 4) * 64 + c3]
  }

  /** The last quantum: four characters, or one or two of them replaced by `=` padding. */
  function DecodeLast(q: string): Option<seq<byte>>
    requires |q| == 4
  {
    if IsFullQuantum(q) then Some(DecodeFull(q))
    else if IsAlphabetChar(q[0]) && IsAlphabetChar(q[1]) && IsAlphabetChar(q[2]) && q[3] == '=' then
      var c0, c1, c2 := ValueOf(q[0]), ValueOf(q[1]), ValueOf(q[2]);
      Some([c0 * 4 + c1 / 16, (c1 % 16) * 16 + c2 / 4])
    else if IsAlphabetChar(q[0]) && IsAlphabetChar(q[1]) && q[2] == '=' && q[3] == '=' then
      var c0, c1 := ValueOf(q[0]), ValueOf(q[1]);
      Some([c0 * 4 + c1 / 16])
    else None
  }

  function Decode(s: string): (r: Option<seq<byte>>)
    ensures r.Some? ==> |s| % 4 == 0
    decreases |s|
  {
    if |s| == 0 then Some([])
    else if |s| < 4 then None
    else if |s| == 4 then DecodeLast(s)
    else if !IsFullQuantum(s[..4]) then None
    else
      match Decode(s[4..])
      case None => None
      case Some(rest) => Some(DecodeFull(s[..4]) + rest)
  }

  /** Decoding four alphabet characters gives back the 6-bit values they encode, regrouped into bytes. */
  lemma DecodeFullOfValues(q: string, c0: nat, c1: nat, c2: nat, c3: nat)
    requires c0 < 64 && c1 < 64 && c2 < 64 && c3 < 64
    requires q == [CharOf(c0), CharOf(c1), CharOf(c2), CharOf(c3)]
    ensures IsFullQuantum(q)
    ensures DecodeFull(q) == [c0 * 4 + c1 / 16, (c1 % 16) * 16 + c2 / 4, (c2 % 4) * 64 + c3]
  {
    ValueOfCharOf(c0);
    ValueOfCharOf(c1);
    ValueOfCharOf(c2);
    ValueOfCharOf(c3);
  }

  lemma DecodeEncodeTriple(x: byte, y: byte, z: byte)
    ensures IsFullQuantum(EncodeTriple(x, y, z))
    ensures DecodeFull(EncodeTriple(x, y, z)) == [x, y, z]
  {
    var c0, c1, c2, c3 := x / 4, (x % 4) * 16 + y / 16, (y % 16) * 4 + z / 64, z % 64;
    DecodeFullOfValues(EncodeTriple(x, y, z), c0, c1, c2, c3);
    Regroup(x, y, z);
  }

  /** Cutting three bytes into four 6-bit values and regrouping them gives the bytes back. */
  lemma Regroup(x: byte, y: byte, z: byte)
    ensures var c0, c1, c2, c3 := x / 4, (x % 4) * 16 + y / 16, (y % 16) * 4 + z / 64, z % 64;
            c0 * 4 + c1 / 16 == x && (c1 % 16) * 16 + c2 / 4 == y && (c2 % 4) * 64 + c3 == z
  {
    var a, b, c, d := x % 4, y / 16, y % 16, z / 64;
    assert ((a * 16 + b) / 16 == a) && ((a * 16 + b) % 16 == b);
    assert ((c * 4 + d) / 4 == c) && ((c * 4 + d) % 4 == d);
  }

  lemma DecodeEncodeOne(x: byte)
    ensures Decode(Encode([x])) == Some([x])
  {
    ValueOfCharOf(x / 4);
    ValueOfCharOf((x % 4) * 16);
  }

  lemma DecodeEncodeTwo(x: byte, y: byte)
    ensures Decode(Encode([x, y])) == Some([x, y])
  {
    var c0, c1, c2 := x / 4, (x % 4) * 16 + y / 16, (y % 16) * 4;
    ValueOfCharOf(c0);
    ValueOfCharOf(c1);
    ValueOfCharOf(c2);
    var q := Encode([x, y]);
    assert q == [CharOf(c0), CharOf(c1), CharOf(c2), '='];
    assert c1 / 16 == x % 4 && c1 % 16 == y / 16;
    assert c2 / 4 == y % 16;
    assert DecodeLast(q) == Some([c0 * 4 + c1 / 16, (c1 % 16) * 16 + c2 / 4]);
  }

  lemma DecodeAppendQuantum(q: string, t: string)
    requires IsFullQuantum(q) && |t| > 0
    ensures Decode(q + t) == match Decode(t)
                             case None => None
                             case Some(r) => Some(DecodeFull(q) + r)
  {
    var s := q + t;
    assert s[..4] == q;
    assert s[4..] == t;
  }

  /** Decoding inverts encoding on every byte string. */
  lemma {:induction false} DecodeEncode(b: seq<byte>)
    ensures Decode(Encode(b)) == Some(b)
    decreases |b|
  {
    if |b| == 1 {
      assert b == [b[0]];
      DecodeEncodeOne(b[0]);
    } else if |b| == 2 {
      assert b == [b[0], b[1]];
      DecodeEncodeTwo(b[0], b[1]);
    } else if |b| >= 3 {
      var q := EncodeTriple(b[0], b[1], b[2]);
      DecodeEncodeTriple(b[0], b[1], b[2]);
      assert b == [b[0], b[1], b[2]] + b[3..];
      if |b| == 3 {
        assert Encode(b) == q;
        assert DecodeLast(q) == Some(DecodeFull(q));
        assert b == [b[0], b[1], b[2]];
      } else {
        DecodeEncode(b[3..]);
        DecodeAppendQuantum(q, Encode(b[3..]));
      }
    }
  }
}
