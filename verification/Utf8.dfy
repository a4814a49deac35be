// UTF-8 as str.encode and strict bytes.decode do it (RFC 3629).
module Utf8 {
  import opened Wrappers
  import opened Base64

  // The bytes of one character.
  function EncodeChar(c: char): (b: seq<Byte>)
    ensures |b| > 0
  {
    var n := c as int;
    if n < 0x80 then [n]
    else if n < 0x800 then [0xC0 + n / 64, 0x80 + n % 64]
    else if n < 0x10000 then [0xE0 + n / 4096, 0x80 + n / 64 % 64, 0x80 + n % 64]
    else [0xF0 + n / 262144, 0x80 + n / 4096 % 64, 0x80 + n / 64 % 64, 0x80 + n % 64]
  }

  function EncodeText(s: string): seq<Byte> {
    if s == "" then [] else EncodeChar(s[0]) + EncodeText(s[1..])
  }

  predicate Continues(b: Byte) { 0x80 <= b < 0xC0 }

  // The payload of a lead byte and of a continuation byte.
  function Lead(b: Byte, mark: int): int { b - mark }

  function Low(b: Byte): int { b - 0x80 }

  // The character at the front and its length, if the bytes start with one in
  // its shortest form.
  function First(b: seq<Byte>): (r: Option<(char, nat)>)
    requires b != []
    ensures r.Some? ==> 0 < r.value.1 <= |b|
  {
    var x := b[0];
    if x < 0x80 then Some((x as char, 1))
    else if 0xC2 <= x < 0xE0 then
      if |b| >= 2 && Continues(b[1]) then Some(((Lead(x, 0xC0) * 64 + Low(b[1])) as char, 2)) else None
    else if 0xE0 <= x < 0xF0 then
      if |b| >= 3 && Continues(b[1]) && Continues(b[2]) then
        var n := Lead(x, 0xE0) * 4096 + Low(b[1]) * 64 + Low(b[2]);
        if n < 0x800 || 0xD800 <= n < 0xE000 then None else Some((n as char, 3))
      else None
    else if 0xF0 <= x < 0xF5 then
      if |b| >= 4 && Continues(b[1]) && Continues(b[2]) && Continues(b[3]) then
        var n := Lead(x, 0xF0) * 262144 + Low(b[1]) * 4096 + Low(b[2]) * 64 + Low(b[3]);
        if n < 0x10000 || n >= 0x110000 then None else Some((n as char, 4))
      else None
    else None
  }

  function DecodeText(b: seq<Byte>): Option<string>
    decreases |b|
  {
    if b == [] then Some("")
    else
      match First(b)
      case None => None
      case Some((c, n)) =>
        (match DecodeText(b[n..])
         case None => None
         case Some(rest) => Some([c] + rest))
  }

  lemma Quotient4096(n: int, q: int, r: int)
    requires n == 4096 * q + r && 0 <= r < 4096
    ensures n / 4096 == q
  {
  }

  lemma Quotient262144(n: int, q: int, r: int)
    requires n == 262144 * q + r && 0 <= r < 262144
    ensures n / 262144 == q
  {
  }

  // A number in base 64.
  lemma Digits(n: nat)
    ensures n == n / 64 * 64 + n % 64
    ensures n / 64 == n / 4096 * 64 + n / 64 % 64
    ensures n / 4096 == n / 262144 * 64 + n / 4096 % 64
  {
    var q, r := n / 64, n % 64;
    var q1, r1 := q / 64, q % 64;
    var q2, r2 := q1 / 64, q1 % 64;
    assert n == 64 * q + r && q == 64 * q1 + r1 && q1 == 64 * q2 + r2;
    Quotient4096(n, q1, 64 * r1 + r);
    Quotient262144(n, q2, 4096 * r2 + 64 * r1 + r);
  }

  lemma FirstIsEncoded(c: char, rest: seq<Byte>)
    ensures First(EncodeChar(c) + rest) == Some((c, |EncodeChar(c)|))
  {
    Digits(c as int);
  }

  // Decoding what was encoded gives the text back.
  lemma {:induction false} TextRoundTrip(s: string)
    ensures DecodeText(EncodeText(s)) == Some(s)
    decreases |s|
  {
    if s != "" {
      FirstIsEncoded(s[0], EncodeText(s[1..]));
      TextRoundTrip(s[1..]);
      assert s == [s[0]] + s[1..];
      assert (EncodeChar(s[0]) + EncodeText(s[1..]))[|EncodeChar(s[0])|..] == EncodeText(s[1..]);
    }
  }
}
