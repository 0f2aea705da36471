/** Base64 with the URL alphabet and no padding (section 5 of RFC 4648), and the roster cursors made with it. */
module Base64 {
  import opened Wrappers

  /** A string of bytes: every character is below 256. */
  predicate Bytes(s: string) {
    forall i :: 0 <= i < |s| ==> s[i] as int < 256
  }

  // -------- digits --------

  function Digit(v: nat): char
    requires v < 64
  {
    if v < 26 then ('A' as int + v) as char
    else if v < 52 then ('a' as int + v - 26) as char
    else if v < 62 then ('0' as int + v - 52) as char
    else if v == 62 then '-'
    else '_'
  }

  function Index(c: char): Option<nat> {
    if 'A' <= c <= 'Z' then Some(c as int - 'A' as int)
    else if 'a' <= c <= 'z' then Some(c as int - 'a' as int + 26)
    else if '0' <= c <= '9' then Some(c as int - '0' as int + 52)
    else if c == '-' then Some(62)
    else if c == '_' then Some(63)
    else None
  }

  lemma DigitIndex(v: nat)
    requires v < 64
    ensures Index(Digit(v)) == Some(v)
  {
  }

  // -------- encoding --------

  function Byte(s: string, i: nat): (b: nat)
    requires i < |s|
    ensures b < 256
  {
    s[i] as int % 256
  }

  // Three bytes are four digits of six bits.
  function First(a: nat): nat { a / 4 }
  function Second(a: nat, b: nat): nat { a % 4 * 16 + b / 16 }
  function Third(b: nat, c: nat): nat { b % 16 * 4 + c / 64 }
  function Fourth(c: nat): nat { c % 64 }

  lemma Sextets(a: nat, b: nat, c: nat)
    requires a < 256 && b < 256 && c < 256
    ensures First(a) < 64 && Second(a, b) < 64 && Third(b, c) < 64 && Fourth(c) < 64
  {
  }

  function Text(v: nat): char {
    if v < 64 then Digit(v) else 'A'
  }

  function Encode(raw: string): string {
    if |raw| == 0 then ""
    else if |raw| == 1 then [Text(First(Byte(raw, 0))), Text(Second(Byte(raw, 0), 0))]
    else if |raw| == 2 then
      [Text(First(Byte(raw, 0))), Text(Second(Byte(raw, 0), Byte(raw, 1))), Text(Third(Byte(raw, 1), 0))]
    else
      [Text(First(Byte(raw, 0))), Text(Second(Byte(raw, 0), Byte(raw, 1))), Text(Third(Byte(raw, 1), Byte(raw, 2))),
       Text(Fourth(Byte(raw, 2)))] + Encode(raw[3..])
  }

  lemma TextIndex(v: nat)
    ensures Index(Text(v)).Some?
    ensures v < 64 ==> Index(Text(v)) == Some(v)
  {
    if v < 64 { DigitIndex(v); }
  }

  lemma {:induction false} EncodeLength(raw: string)
    ensures |Encode(raw)| == (4 * |raw| + 2) / 3
  {
    if |raw| > 2 { EncodeLength(raw[3..]); }
  }

  lemma {:induction false} EncodeDigits(raw: string)
    ensures forall i :: 0 <= i < |Encode(raw)| ==> Index(Encode(raw)[i]).Some?
  {
    forall v: nat ensures Index(Text(v)).Some? { TextIndex(v); }
    hide Text, Index;
    if |raw| > 2 {
      EncodeDigits(raw[3..]);
      var tail := Encode(raw[3..]);
      forall i | 0 <= i < |Encode(raw)| ensures Index(Encode(raw)[i]).Some? {
        if i >= 4 { assert Encode(raw)[i] == tail[i - 4]; }
      }
    }
  }

  // -------- decoding --------

  /** A decoder that skips line breaks and ignores the bits a last digit has too many. */
  function Decode(text: string): Option<string> {
    DecodeDigits(WithoutBreaks(text))
  }

  function WithoutBreaks(text: string): string {
    if |text| == 0 then ""
    else if text[0] == '\r' || text[0] == '\n' then WithoutBreaks(text[1..])
    else [text[0]] + WithoutBreaks(text[1..])
  }

  function Octet(n: int): char {
    (n % 256) as char
  }

  // Four digits are three bytes again.
  function High(v: nat, w: nat): char { Octet(v * 4 + w / 16) }
  function Middle(w: nat, x: nat): char { Octet(w % 16 * 16 + x / 4) }
  function Low(x: nat, y: nat): char { Octet(x % 4 * 64 + y) }

  lemma OctetSame(n: nat)
    requires n < 256
    ensures Octet(n) == n as char
  {
  }

  lemma HighOctet(a: nat, b: nat)
    requires a < 256 && b < 256
    ensures High(First(a), Second(a, b)) == a as char
  {
    OctetSame(a);
    hide Octet;
    var q, r, t := a / 4, a % 4, b / 16;
    assert a == 4 * q + r && t < 16;
    assert (r * 16 + t) / 16 == r;
    assert First(a) * 4 + Second(a, b) / 16 == a;
  }

  lemma MiddleOctet(a: nat, b: nat, c: nat)
    requires a < 256 && b < 256 && c < 256
    ensures Middle(Second(a, b), Third(b, c)) == b as char
  {
    OctetSame(b);
    hide Octet;
    var r, t, u, v := a % 4, b / 16, b % 16, c / 64;
    assert b == 16 * t + u && t < 16 && v < 4;
    assert (r * 16 + t) % 16 == t;
    assert (u * 4 + v) / 4 == u;
    assert Second(a, b) % 16 * 16 + Third(b, c) / 4 == b;
  }

  lemma LowOctet(b: nat, c: nat)
    requires b < 256 && c < 256
    ensures Low(Third(b, c), Fourth(c)) == c as char
  {
    OctetSame(c);
    hide Octet;
    var u, v, w := b % 16, c / 64, c % 64;
    assert c == 64 * v + w && v < 4;
    assert (u * 4 + v) % 4 == v;
    assert Third(b, c) % 4 * 64 + Fourth(c) == c;
  }

  function DecodeDigits(text: string): Option<string> {
    if |text| == 0 then Some("")
    else if |text| == 1 || Index(text[0]).None? || Index(text[1]).None? then None
    else
      var v, w := Index(text[0]).value, Index(text[1]).value;
      if |text| == 2 then Some([High(v, w)])
      else if Index(text[2]).None? then None
      else
        var x := Index(text[2]).value;
        if |text| == 3 then Some([High(v, w), Middle(w, x)])
        else if Index(text[3]).None? then None
        else
          match DecodeDigits(text[4..])
          case None => None
          case Some(rest) => Some([High(v, w), Middle(w, x), Low(x, Index(text[3]).value)] + rest)
  }

  lemma {:induction false} NoBreaks(text: string)
    requires forall i :: 0 <= i < |text| ==> Index(text[i]).Some?
    ensures WithoutBreaks(text) == text
  {
    if |text| > 0 { NoBreaks(text[1..]); }
  }

  lemma ByteChar(raw: string, i: nat)
    requires i < |raw| && Bytes(raw)
    ensures Byte(raw, i) as char == raw[i]
  {
  }

  lemma {:induction false} DecodeEncode(raw: string)
    requires Bytes(raw)
    ensures DecodeDigits(Encode(raw)) == Some(raw)
  {
    if |raw| == 0 {
    } else {
      var a := Byte(raw, 0);
      var b := if |raw| > 1 then Byte(raw, 1) else 0;
      var c := if |raw| > 2 then Byte(raw, 2) else 0;
      Sextets(a, b, c);
      HighOctet(a, b);
      MiddleOctet(a, b, c);
      LowOctet(b, c);
      TextIndex(First(a));
      TextIndex(Second(a, b));
      TextIndex(Third(b, c));
      TextIndex(Fourth(c));
      ByteChar(raw, 0);
      if |raw| > 1 { ByteChar(raw, 1); }
      if |raw| > 2 {
        ByteChar(raw, 2);
        DecodeEncode(raw[3..]);
        assert Encode(raw)[4..] == Encode(raw[3..]);
      }
      hide First, Second, Third, Fourth, High, Middle, Low, Text, Index, Byte, Bytes;
      DecodeGroup(raw, Encode(raw), a, b, c);
    }
  }

  /** One group, given that its digits read back. */
  lemma {:induction false} DecodeGroup(raw: string, text: string, a: nat, b: nat, c: nat)
    requires |raw| > 0 && text == Encode(raw) && a == Byte(raw, 0)
    requires |raw| > 1 ==> b == Byte(raw, 1)
    requires |raw| <= 1 ==> b == 0
    requires |raw| > 2 ==> c == Byte(raw, 2) && DecodeDigits(text[4..]) == Some(raw[3..])
    requires |raw| <= 2 ==> c == 0
    requires Index(Text(First(a))) == Some(First(a)) && Index(Text(Second(a, b))) == Some(Second(a, b))
    requires Index(Text(Third(b, c))) == Some(Third(b, c)) && Index(Text(Fourth(c))) == Some(Fourth(c))
    requires High(First(a), Second(a, b)) == raw[0]
    requires |raw| > 1 ==> Middle(Second(a, b), Third(b, c)) == raw[1]
    requires |raw| > 2 ==> Low(Third(b, c), Fourth(c)) == raw[2]
    requires |raw| > 2 ==> |text| >= 4
    ensures DecodeDigits(text) == Some(raw)
  {
    hide First, Second, Third, Fourth, High, Middle, Low, Text, Index, Byte;
    if |raw| == 1 {
      assert raw == [raw[0]];
    } else if |raw| == 2 {
      assert raw == [raw[0], raw[1]];
    } else {
      assert raw == [raw[0], raw[1], raw[2]] + raw[3..];
    }
  }

  lemma {:induction false} RoundTrip(raw: string)
    requires Bytes(raw)
    ensures Decode(Encode(raw)) == Some(raw)
  {
    EncodeDigits(raw);
    NoBreaks(Encode(raw));
    DecodeEncode(raw);
  }

}
