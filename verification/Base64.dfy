/** Unpadded base64url as the transport writes and reads it (section 5 of RFC 4648). */
module Base64 {
  import opened Options

  newtype Byte = x: int | 0 <= x < 256
  newtype Sextet = x: int | 0 <= x < 64

  function Char(s: Sextet): char {
    if s < 26 then 'A' + s as char
    else if s < 52 then 'a' + (s - 26) as char
    else if s < 62 then '0' + (s - 52) as char
    else if s == 62 then '-' else '_'
  }

  /** The decoder maps "-_" onto "+/" first, so it takes both spellings. */
  function Value(c: char): Option<Sextet> {
    if 'A' <= c <= 'Z' then Some((c as int - 'A' as int) as Sextet)
    else if 'a' <= c <= 'z' then Some((c as int - 'a' as int + 26) as Sextet)
    else if '0' <= c <= '9' then Some((c as int - '0' as int + 52) as Sextet)
    else if c == '-' || c == '+' then Some(62)
    else if c == '_' || c == '/' then Some(63)
    else None
  }

  lemma ValueOfChar(s: Sextet)
    ensures Value(Char(s)) == Some(s) && Char(s) != '=' && Char(s) != '.'
  {
  }

  function Quad(a: Byte, b: Byte, c: Byte): (t: string)
    ensures |t| == 4
  {
    [Char((a / 4) as Sextet), Char(((a % 4) as int * 16 + (b / 16) as int) as Sextet),
     Char(((b % 16) as int * 4 + (c / 64) as int) as Sextet), Char((c % 64) as Sextet)]
  }

  /** `urlsafe_b64encode(...).rstrip("=")`. */
  function Encode(bytes: seq<Byte>): string {
    if |bytes| == 0 then ""
    else if |bytes| == 1 then Quad(bytes[0], 0, 0)[..2]
    else if |bytes| == 2 then Quad(bytes[0], bytes[1], 0)[..3]
    else Quad(bytes[0], bytes[1], bytes[2]) + Encode(bytes[3..])
  }

  function Padding(n: nat): string {
    if n % 4 == 0 then "" else if n % 4 == 1 then "===" else if n % 4 == 2 then "==" else "="
  }

  function First(p: Sextet, q: Sextet): Byte { (p as int * 4 + q as int / 16) as Byte }

  function Second(q: Sextet, r: Sextet): Byte { ((q as int % 16) * 16 + r as int / 4) as Byte }

  function Third(r: Sextet, s: Sextet): Byte { ((r as int % 4) * 64 + s as int) as Byte }

  /** Strict decoding of a padded text: padding only ends the text, anything else is an error. */
  function DecodePadded(text: string): Option<seq<Byte>> {
    if |text| == 0 then Some([])
    else if |text| < 4 then None
    else
      var p, q, r, s := Value(text[0]), Value(text[1]), Value(text[2]), Value(text[3]);
      if p.None? || q.None? then None
      else if |text| == 4 && text[2..] == "==" then Some([First(p.value, q.value)])
      else if r.None? then None
      else if |text| == 4 && text[3] == '=' then Some([First(p.value, q.value), Second(q.value, r.value)])
      else if s.None? then None
      else
        var rest := DecodePadded(text[4..]);
        if rest.None? then None
        else Some([First(p.value, q.value), Second(q.value, r.value), Third(r.value, s.value)] + rest.value)
  }

  function Decode(text: string): Option<seq<Byte>> {
    DecodePadded(text + Padding(|text|))
  }

  lemma QuadDecodes(a: Byte, b: Byte, c: Byte)
    ensures var p, q := (a / 4) as Sextet, ((a % 4) as int * 16 + (b / 16) as int) as Sextet;
            var r, s := ((b % 16) as int * 4 + (c / 64) as int) as Sextet, (c % 64) as Sextet;
            First(p, q) == a && Second(q, r) == b && Third(r, s) == c
  {
  }

  /** Four characters that read back as three bytes. */
  predicate Reads(t: string, a: Byte, b: Byte, c: Byte) {
    |t| == 4 && NoSeparator(t) && t[2] != '=' && t[3] != '=' &&
    Value(t[0]).Some? && Value(t[1]).Some? && Value(t[2]).Some? && Value(t[3]).Some? &&
    First(Value(t[0]).value, Value(t[1]).value) == a &&
    Second(Value(t[1]).value, Value(t[2]).value) == b &&
    Third(Value(t[2]).value, Value(t[3]).value) == c
  }

  predicate NoSeparator(text: string) {
    forall i | 0 <= i < |text| :: text[i] != '.'
  }

  lemma QuadReads(a: Byte, b: Byte, c: Byte)
    ensures Reads(Quad(a, b, c), a, b, c)
  {
    ValueOfChar((a / 4) as Sextet);
    ValueOfChar(((a % 4) as int * 16 + (b / 16) as int) as Sextet);
    ValueOfChar(((b % 16) as int * 4 + (c / 64) as int) as Sextet);
    ValueOfChar((c % 64) as Sextet);
    QuadDecodes(a, b, c);
  }

  lemma FullQuadDecodes(t: string, a: Byte, b: Byte, c: Byte, tail: string, rest: seq<Byte>)
    requires Reads(t, a, b, c) && DecodePadded(tail) == Some(rest)
    ensures DecodePadded(t + tail) == Some([a, b, c] + rest)
  {
    hide Value, First, Second, Third;
    var text := t + tail;
    assert text[4..] == tail;
    assert text[2..] != "==" by { assert text[2..][0] == text[2]; }
  }

  lemma OneByteDecodes(t: string, a: Byte, b: Byte, c: Byte)
    requires Reads(t, a, b, c)
    ensures DecodePadded(t[..2] + "==") == Some([a])
  {
    hide Value, First, Second, Third;
    var text := t[..2] + "==";
    assert text[2..] == "==";
  }

  lemma TwoBytesDecode(t: string, a: Byte, b: Byte, c: Byte)
    requires Reads(t, a, b, c)
    ensures DecodePadded(t[..3] + "=") == Some([a, b])
  {
    hide Value, First, Second, Third;
    var text := t[..3] + "=";
    assert text[2..] != "==" by { assert text[2..][0] == text[2]; }
  }

  /** Any bytes survive the trip. */
  lemma {:induction false} RoundTrip(bytes: seq<Byte>)
    ensures Decode(Encode(bytes)) == Some(bytes)
  {
    hide Reads, Quad, DecodePadded;
    if |bytes| == 0 {
      DecodesEmpty();
    } else if |bytes| == 1 {
      QuadReads(bytes[0], 0, 0);
      OneByteDecodes(Quad(bytes[0], 0, 0), bytes[0], 0, 0);
      assert [bytes[0]] == bytes;
    } else if |bytes| == 2 {
      QuadReads(bytes[0], bytes[1], 0);
      TwoBytesDecode(Quad(bytes[0], bytes[1], 0), bytes[0], bytes[1], 0);
      assert [bytes[0], bytes[1]] == bytes;
    } else {
      RoundTrip(bytes[3..]);
      var rest := Encode(bytes[3..]);
      var quad := Quad(bytes[0], bytes[1], bytes[2]);
      QuadReads(bytes[0], bytes[1], bytes[2]);
      FullQuadDecodes(quad, bytes[0], bytes[1], bytes[2], rest + Padding(|rest|), bytes[3..]);
      assert (quad + rest) + Padding(|rest|) == quad + (rest + Padding(|rest|));
      assert bytes == [bytes[0], bytes[1], bytes[2]] + bytes[3..];
    }
  }

  lemma DecodesEmpty()
    ensures Decode("") == Some([])
  {
  }

  /** The text never contains the cursor's field separator, and grows by a third. */
  lemma {:induction false} EncodedShape(bytes: seq<Byte>)
    ensures NoSeparator(Encode(bytes)) && 3 * |Encode(bytes)| <= 4 * |bytes| + 2
  {
    hide Value, First, Second, Third, Quad;
    if |bytes| >= 1 {
      QuadReads(bytes[0], if |bytes| > 1 then bytes[1] else 0, if |bytes| > 2 then bytes[2] else 0);
    }
    if |bytes| >= 3 { EncodedShape(bytes[3..]); }
  }
}
