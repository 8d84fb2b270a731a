/**
 The unpadded base64url text of a byte string (section 5 of RFC 4648), the lenient decoder of the
 runtime, and the strict acceptance that the quote code builds from the two.
 */
module Base64Url {
  newtype Byte = x: int | 0 <= x < 256

  newtype Sextet = x: int | 0 <= x < 64

  type Bytes = seq<Byte>

  function Char(n: Sextet): char {
    if n < 26 then ('A' as int + n as int) as char
    else if n < 52 then ('a' as int + n as int - 26) as char
    else if n < 62 then ('0' as int + n as int - 52) as char
    else if n == 62 then '-' else '_'
  }

  /** The lenient decoder also knows the two characters of the ordinary alphabet. */
  predicate Recognised(c: char) {
    'A' <= c <= 'Z' || 'a' <= c <= 'z' || '0' <= c <= '9' || c == '-' || c == '_' || c == '+' || c == '/'
  }

  function Value(c: char): Sextet
    requires Recognised(c)
  {
    if 'A' <= c <= 'Z' then (c as int - 'A' as int) as Sextet
    else if 'a' <= c <= 'z' then (c as int - 'a' as int + 26) as Sextet
    else if '0' <= c <= '9' then (c as int - '0' as int + 52) as Sextet
    else if c == '-' || c == '+' then 62 else 63
  }

  lemma ValueOfChar(n: Sextet)
    ensures Recognised(Char(n)) && Value(Char(n)) == n
  {
  }

  // ---- encoding --------------------------------------------------------------------------------------------------

  /** The four sextets of three bytes x, y, z. */
  function First(x: Byte): Sextet {
    (x as int / 4) as Sextet
  }

  function Second(x: Byte, y: Byte): Sextet {
    (x as int % 4 * 16 + y as int / 16) as Sextet
  }

  function Third(y: Byte, z: Byte): Sextet {
    (y as int % 16 * 4 + z as int / 64) as Sextet
  }

  function Fourth(z: Byte): Sextet {
    (z as int % 64) as Sextet
  }

  function Sextets(b: Bytes): seq<Sextet> {
    if b == [] then []
    else if |b| == 1 then [First(b[0]), Second(b[0], 0)]
    else if |b| == 2 then [First(b[0]), Second(b[0], b[1]), Third(b[1], 0)]
    else [First(b[0]), Second(b[0], b[1]), Third(b[1], b[2]), Fourth(b[2])] + Sextets(b[3..])
  }

  function Text(s: seq<Sextet>): string {
    if s == [] then [] else [Char(s[0])] + Text(s[1..])
  }

  function Encode(b: Bytes): string {
    Text(Sextets(b))
  }

  // ---- decoding ---------------------------------------------------------------------------------------------------

  /** Unrecognised characters are skipped. */
  function Scan(t: string): seq<Sextet> {
    if t == [] then [] else (if Recognised(t[0]) then [Value(t[0])] else []) + Scan(t[1..])
  }

  /** The three bytes of four sextets. */
  function High(s: Sextet, t: Sextet): Byte {
    (s as int * 4 + t as int / 16) as Byte
  }

  function Middle(t: Sextet, u: Sextet): Byte {
    (t as int % 16 * 16 + u as int / 4) as Byte
  }

  function Low(u: Sextet, v: Sextet): Byte {
    (u as int % 4 * 64 + v as int) as Byte
  }

  /** Whole bytes are taken; bits that do not complete one are dropped. */
  function Pack(s: seq<Sextet>): Bytes {
    if |s| < 2 then []
    else if |s| == 2 then [High(s[0], s[1])]
    else if |s| == 3 then [High(s[0], s[1]), Middle(s[1], s[2])]
    else [High(s[0], s[1]), Middle(s[1], s[2]), Low(s[2], s[3])] + Pack(s[4..])
  }

  function Decode(t: string): Bytes {
    Pack(Scan(t))
  }

  lemma {:induction false} ScanText(s: seq<Sextet>)
    ensures Scan(Text(s)) == s
  {
    if s != [] {
      ValueOfChar(s[0]);
      ScanText(s[1..]);
      assert Text(s)[1..] == Text(s[1..]);
    }
  }

  /** The six-bit parts of neighbouring bytes fit together again. */
  lemma PartsFit(x: Byte, y: Byte, z: Byte)
    ensures High(First(x), Second(x, y)) == x
    ensures Middle(Second(x, y), Third(y, z)) == y
    ensures Low(Third(y, z), Fourth(z)) == z
  {
    var carried, middle := x as int % 4, y as int % 16;
    assert (carried * 16 + y as int / 16) / 16 == carried && (carried * 16 + y as int / 16) % 16 == y as int / 16;
    assert (middle * 4 + z as int / 64) / 4 == middle && (middle * 4 + z as int / 64) % 4 == z as int / 64;
  }

  lemma {:induction false} PackSextets(b: Bytes)
    ensures Pack(Sextets(b)) == b
  {
    hide First, Second, Third, Fourth, High, Middle, Low;
    if |b| >= 3 {
      PackSextets(b[3..]);
      PartsFit(b[0], b[1], b[2]);
      assert Sextets(b)[4..] == Sextets(b[3..]);
      assert b == [b[0], b[1], b[2]] + b[3..];
    } else if |b| == 2 {
      PartsFit(b[0], b[1], 0);
      assert b == [b[0], b[1]];
    } else if |b| == 1 {
      PartsFit(b[0], 0, 0);
      assert b == [b[0]];
    }
  }

  lemma DecodeEncode(b: Bytes)
    ensures Decode(Encode(b)) == b
  {
    ScanText(Sextets(b));
    PackSextets(b);
  }

  /** The strict check: re-encoding what was decoded gives the text back. */
  predicate Canonical(t: string) {
    Encode(Decode(t)) == t
  }

  /** Exactly one text is accepted for each byte string: its encoding. */
  lemma OneTextPerBytes(t: string, b: Bytes)
    ensures Canonical(t) && Decode(t) == b <==> t == Encode(b)
  {
    DecodeEncode(b);
  }

  /** The URL-safe alphabet in its order, and the two characters of the ordinary one that the decoder reads as well. */
  lemma AlphabetInOrder(n: Sextet)
    ensures Char(0) == 'A' && Char(26) == 'a' && Char(52) == '0' && Char(62) == '-' && Char(63) == '_'
    ensures n != 25 && n != 51 && n < 61 ==> Char(n + 1) as int == Char(n) as int + 1
    ensures Recognised('+') && Value('+') == 62 && Recognised('/') && Value('/') == 63
  {
  }

  /** Three bytes and their four characters are one number of 24 bits. */
  lemma SameBits(x: Byte, y: Byte, z: Byte)
    ensures ((First(x) as int * 64 + Second(x, y) as int) * 64 + Third(y, z) as int) * 64 + Fourth(z) as int ==
            (x as int * 256 + y as int) * 256 + z as int
  {
    var a, b, c, d := x as int / 4, x as int % 4, y as int / 16, y as int % 16;
    assert x as int == 4 * a + b && y as int == 16 * c + d;
    assert z as int == 64 * (z as int / 64) + z as int % 64;
  }

  /** Four characters for three bytes, two or three for a remainder of one or two, and no padding. */
  lemma {:induction false} EncodedLength(b: Bytes)
    ensures |Encode(b)| == |b| / 3 * 4 + if |b| % 3 == 0 then 0 else |b| % 3 + 1
  {
    TextLength(Sextets(b));
    SextetsLength(b);
  }

  lemma {:induction false} TextLength(s: seq<Sextet>)
    ensures |Text(s)| == |s|
  {
    if s != [] {
      TextLength(s[1..]);
    }
  }

  lemma {:induction false} SextetsLength(b: Bytes)
    ensures |Sextets(b)| == |b| / 3 * 4 + if |b| % 3 == 0 then 0 else |b| % 3 + 1
  {
    hide First, Second, Third, Fourth;
    if |b| >= 3 {
      SextetsLength(b[3..]);
    }
  }
}
