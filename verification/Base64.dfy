// Base64 as Python's base64 module does it: the encoder of RFC 4648 section
// 4, the strict decoder behind b64decode(validate=True), and
// base64_util.is_base64_encoded.
module Base64 {
  import opened Wrappers

  type Byte = x: int | 0 <= x < 256

  type Sextet = x: int | 0 <= x < 64

  function Char(x: Sextet): (c: char)
    ensures Code(c) == Some(x)
  {
    if x < 26 then 'A' + x as char
    else if x < 52 then 'a' + (x - 26) as char
    else if x < 62 then '0' + (x - 52) as char
    else if x == 62 then '+'
    else '/'
  }

  // The value of an alphabet character; None for any other.
  function Code(c: char): Option<Sextet> {
    if 'A' <= c <= 'Z' then Some(c as int - 'A' as int)
    else if 'a' <= c <= 'z' then Some(c as int - 'a' as int + 26)
    else if '0' <= c <= '9' then Some(c as int - '0' as int + 52)
    else if c == '+' then Some(62)
    else if c == '/' then Some(63)
    else None
  }

  lemma CodeIsChar(c: char)
    requires Code(c).Some?
    ensures Char(Code(c).value) == c && c != '='
  {
  }

  // The four characters of three bytes, and the three bytes of four characters.
  function S0(x: Byte): Sextet { x / 4 }

  function S1(x: Byte, y: Byte): Sextet { x % 4 * 16 + y / 16 }

  function S2(y: Byte, z: Byte): Sextet { y % 16 * 4 + z / 64 }

  function S3(z: Byte): Sextet { z % 64 }

  function B0(a: Sextet, b: Sextet): Byte { a * 4 + b / 16 }

  function B1(b: Sextet, c: Sextet): Byte { b % 16 * 16 + c / 4 }

  function B2(c: Sextet, d: Sextet): Byte { c % 4 * 64 + d }

  lemma BytesBack(x: Byte, y: Byte, z: Byte)
    ensures B0(S0(x), S1(x, y)) == x && B1(S1(x, y), S2(y, z)) == y && B2(S2(y, z), S3(z)) == z
  {
  }

  lemma SextetsBack(a: Sextet, b: Sextet, c: Sextet, d: Sextet)
    ensures S0(B0(a, b)) == a && S1(B0(a, b), B1(b, c)) == b && S2(B1(b, c), B2(c, d)) == c && S3(B2(c, d)) == d
  {
  }

  // Leftover bits are lost.
  lemma LeftoverBits(a: Sextet, b: Sextet, c: Sextet)
    ensures S1(B0(a, b), 0) == b <==> b % 16 == 0
    ensures S2(B1(b, c), 0) == c <==> c % 4 == 0
  {
    assert B0(a, b) % 4 == b / 16 && b == b / 16 * 16 + b % 16;
    assert B1(b, c) % 16 == c / 4 && c == c / 4 * 4 + c % 4;
  }

  lemma NoLeftoverBits(x: Byte)
    ensures S1(x, 0) % 16 == 0 && S2(x, 0) % 4 == 0
  {
  }

  // b64encode
  function Encode(b: seq<Byte>): string
    decreases |b|
  {
    if |b| == 0 then ""
    else if |b| == 1 then [Char(S0(b[0])), Char(S1(b[0], 0)), '=', '=']
    else if |b| == 2 then [Char(S0(b[0])), Char(S1(b[0], b[1])), Char(S2(b[1], 0)), '=']
    else [Char(S0(b[0])), Char(S1(b[0], b[1])), Char(S2(b[1], b[2])), Char(S3(b[2]))] + Encode(b[3..])
  }

  // RFC 4648 section 4, table 1, by the ASCII codes.
  predicate Stands(c: char, x: int) {
    || (0 <= x < 26 && c as int == 65 + x)
    || (26 <= x < 52 && c as int == 97 + (x - 26))
    || (52 <= x < 62 && c as int == 48 + (x - 52))
    || (x == 62 && c as int == 43)
    || (x == 63 && c as int == 47)
  }

  // The characters are the base-64 digits of the number three bytes make.
  ghost predicate Spells(s: string, number: int)
    requires |s| >= 4
  {
    exists k, l, m, n ::
      && Stands(s[0], k) && Stands(s[1], l) && Stands(s[2], m) && Stands(s[3], n)
      && number == k * 262144 + l * 4096 + m * 64 + n
  }

  // Every three bytes are spelled by four characters.
  lemma EncodesNumbers(b: seq<Byte>)
    requires |b| >= 3
    ensures |Encode(b)| >= 4 && Encode(b)[4..] == Encode(b[3..])
    ensures Spells(Encode(b), b[0] as int * 65536 + b[1] as int * 256 + b[2] as int)
  {
    var x, y, z := b[0], b[1], b[2];
    DigitsOf(x, y, z);
    var s := Encode(b);
    assert Stands(s[0], S0(x)) && Stands(s[1], S1(x, y)) && Stands(s[2], S2(y, z)) && Stands(s[3], S3(z));
    hide *;
  }

  lemma DigitsOf(x: Byte, y: Byte, z: Byte)
    ensures x as int * 65536 + y as int * 256 + z as int
         == S0(x) as int * 262144 + S1(x, y) as int * 4096 + S2(y, z) as int * 64 + S3(z) as int
  {
  }

  // At the end missing bytes count as zero, and "=" stands for their characters.
  lemma EncodesEnds(x: Byte, y: Byte)
    ensures Encode([x]) == Encode([x, 0, 0])[..2] + "==" && Encode([x, y]) == Encode([x, y, 0])[..3] + "="
  {
    assert [x, 0, 0][3..] == [] && [x, y, 0][3..] == [];
  }

  predicate Letters(s: string) {
    forall i :: 0 <= i < |s| ==> Code(s[i]).Some?
  }

  function Group(a: Sextet, b: Sextet, c: Sextet, d: Sextet): seq<Byte> {
    [B0(a, b), B1(b, c), B2(c, d)]
  }

  // The strict decoder from a group boundary on; "started" once a group was
  // read. It ignores leftover bits, and padding after a complete group.
  function DecodeFrom(s: string, started: bool): Option<seq<Byte>>
    decreases |s|
  {
    if s == "" then Some([])
    else if |s| >= 4 && Letters(s[..4]) then
      match DecodeFrom(s[4..], true)
      case None => None
      case Some(rest) => Some(Group(Code(s[0]).value, Code(s[1]).value, Code(s[2]).value, Code(s[3]).value) + rest)
    else if |s| == 4 && Letters(s[..2]) && s[2..] == "==" then
      Some(Group(Code(s[0]).value, Code(s[1]).value, 0, 0)[..1])
    else if |s| == 4 && Letters(s[..3]) && s[3..] == "=" then
      Some(Group(Code(s[0]).value, Code(s[1]).value, Code(s[2]).value, 0)[..2])
    else if started && forall i :: 0 <= i < |s| ==> s[i] == '=' then Some([])
    else None
  }

  // b64decode(s, validate=True); None where it raises
  function Decode(s: string): Option<seq<Byte>> { DecodeFrom(s, false) }

  // is_base64_encoded
  predicate IsBase64Encoded(s: string) {
    Decode(s).Some? && Encode(Decode(s).value) == s
  }

  // The canonical form of RFC 4648 section 3.5: whole groups, padding only in
  // the last one, and no bits left over.
  predicate Canonical(s: string)
    decreases |s|
  {
    if s == "" then true
    else if |s| < 4 then false
    else if Letters(s[..4]) then Canonical(s[4..])
    else
      && |s| == 4 && Letters(s[..2]) && s[3] == '='
      && (if s[2] == '=' then Code(s[1]).value % 16 == 0 else Code(s[2]).Some? && Code(s[2]).value % 4 == 0)
  }

  // The three shapes of a group.
  lemma WholeGroup(a: Sextet, b: Sextet, c: Sextet, d: Sextet, rest: string, started: bool)
    requires DecodeFrom(rest, true).Some?
    ensures DecodeFrom([Char(a), Char(b), Char(c), Char(d)] + rest, started)
         == Some(Group(a, b, c, d) + DecodeFrom(rest, true).value)
  {
    var s := [Char(a), Char(b), Char(c), Char(d)] + rest;
    assert s[..4] == [Char(a), Char(b), Char(c), Char(d)] && s[4..] == rest;
  }

  lemma OnePad(a: Sextet, b: Sextet, c: Sextet, started: bool)
    ensures DecodeFrom([Char(a), Char(b), Char(c), '='], started) == Some(Group(a, b, c, 0)[..2])
  {
    var s := [Char(a), Char(b), Char(c), '='];
    assert s[..4][3] == '=' && s[2..][0] == Char(c) && Char(c) != '=';
    assert s[3..] == "=" && s[..3] == [Char(a), Char(b), Char(c)];
  }

  lemma TwoPads(a: Sextet, b: Sextet, started: bool)
    ensures DecodeFrom([Char(a), Char(b), '=', '='], started) == Some(Group(a, b, 0, 0)[..1])
  {
    var s := [Char(a), Char(b), '=', '='];
    assert s[..4][2] == '=' && s[2..] == "==" && s[..2] == [Char(a), Char(b)];
  }

  // Decoding what was encoded gives the bytes back.
  lemma {:induction false} RoundTrip(b: seq<Byte>, started: bool)
    ensures DecodeFrom(Encode(b), started) == Some(b)
    decreases |b|
  {
    hide S0, S1, S2, S3, B0, B1, B2, DecodeFrom, Char;
    if |b| == 0 {
      EmptyDecodes(started);
    } else if |b| == 1 {
      TwoPads(S0(b[0]), S1(b[0], 0), started);
      BytesBack(b[0], 0, 0);
      assert Group(S0(b[0]), S1(b[0], 0), 0, 0)[..1] == [b[0]] == b;
    } else if |b| == 2 {
      OnePad(S0(b[0]), S1(b[0], b[1]), S2(b[1], 0), started);
      BytesBack(b[0], b[1], 0);
      assert Group(S0(b[0]), S1(b[0], b[1]), S2(b[1], 0), 0)[..2] == [b[0], b[1]] == b;
    } else {
      RoundTrip(b[3..], true);
      WholeGroup(S0(b[0]), S1(b[0], b[1]), S2(b[1], b[2]), S3(b[2]), Encode(b[3..]), started);
      BytesBack(b[0], b[1], b[2]);
      assert b == [b[0], b[1], b[2]] + b[3..];
    }
  }

  lemma EmptyDecodes(started: bool)
    ensures DecodeFrom("", started) == Some([])
  {
  }

  lemma Chars(s: string)
    requires Letters(s)
    ensures forall i :: 0 <= i < |s| ==> Char(Code(s[i]).value) == s[i]
  {
    forall i | 0 <= i < |s| ensures Char(Code(s[i]).value) == s[i] { CodeIsChar(s[i]); }
  }

  // A canonical text decodes to bytes that encode to it.
  lemma {:induction false} CanonicalDecodes(s: string, started: bool)
    requires Canonical(s)
    ensures DecodeFrom(s, started).Some? && Encode(DecodeFrom(s, started).value) == s
    decreases |s|
  {
    hide S0, S1, S2, S3, B0, B1, B2, DecodeFrom, Char, Code;
    if s == "" {
      EmptyDecodes(started);
    } else if Letters(s[..4]) {
      Chars(s[..4]);
      var a, b, c, d := Code(s[..4][0]).value, Code(s[..4][1]).value, Code(s[..4][2]).value, Code(s[..4][3]).value;
      CanonicalDecodes(s[4..], true);
      WholeGroup(a, b, c, d, s[4..], started);
      SextetsBack(a, b, c, d);
      assert s == [Char(a), Char(b), Char(c), Char(d)] + s[4..];
      assert (Group(a, b, c, d) + DecodeFrom(s[4..], true).value)[3..] == DecodeFrom(s[4..], true).value;
    } else {
      Chars(s[..2]);
      var a, b := Code(s[..2][0]).value, Code(s[..2][1]).value;
      if s[2] == '=' {
        TwoPads(a, b, started);
        SextetsBack(a, b, 0, 0);
        LeftoverBits(a, b, 0);
        assert s == [Char(a), Char(b), '=', '='];
      } else {
        CodeIsChar(s[2]);
        var c := Code(s[2]).value;
        OnePad(a, b, c, started);
        SextetsBack(a, b, c, 0);
        LeftoverBits(a, b, c);
        assert s == [Char(a), Char(b), Char(c), '='];
      }
    }
  }

  lemma {:induction false} EncodedIsCanonical(b: seq<Byte>)
    ensures Canonical(Encode(b))
    decreases |b|
  {
    hide S0, S1, S2, S3, Char;
    var s := Encode(b);
    if |b| == 1 || |b| == 2 {
      assert s[..4][3] == '=';
      assert Letters(s[..2]);
      NoLeftoverBits(b[0]);
      NoLeftoverBits(b[|b| - 1]);
    } else if |b| > 2 {
      EncodedIsCanonical(b[3..]);
      assert s[4..] == Encode(b[3..]);
    }
  }

  // Detection is exact: a text is taken for Base64 if and only if it is what
  // the encoder makes of some bytes, if and only if it is canonical.
  lemma DetectionIsExact(s: string)
    ensures IsBase64Encoded(s) <==> exists b :: Encode(b) == s
    ensures IsBase64Encoded(s) <==> Canonical(s)
  {
    forall b | Encode(b) == s ensures IsBase64Encoded(s) && Canonical(s) {
      RoundTrip(b, false);
      EncodedIsCanonical(b);
    }
    if Canonical(s) { CanonicalDecodes(s, false); }
  }

  // No text with a character outside the alphabet decodes, nor is it taken
  // for Base64: a JSON object never is.
  lemma {:induction false} ForeignNeverDecodes(s: string, started: bool, i: nat)
    requires i < |s| && Code(s[i]).None? && s[i] != '='
    ensures DecodeFrom(s, started).None?
    decreases |s|
  {
    if |s| >= 4 && Letters(s[..4]) {
      assert forall k :: 0 <= k < 4 ==> Code(s[..4][k]).Some? && s[..4][k] == s[k];
      ForeignNeverDecodes(s[4..], true, i - 4);
    } else if |s| == 4 {
      assert s[..2] + s[2..] == s && s[..3] + s[3..] == s;
    }
  }
}
