/** The bytes of a roster frame: UTF-8, JSON strings as the server prints them, and the frame around them. */
module RosterText {
  import opened Base64

  // -------- UTF-8 (section 4 of RFC 3629) --------

  predicate Between(s: string, i: nat, low: int, high: int) {
    i < |s| && low <= s[i] as int <= high
  }

  /** How many bytes the first character of `s` takes; 0 when they are not a character. */
  function Width(s: string): (w: nat)
    ensures w <= |s| && w <= 4
  {
    if |s| == 0 then 0
    else if Between(s, 0, 0, 0x7F) then 1
    else if Between(s, 0, 0xC2, 0xDF) && Between(s, 1, 0x80, 0xBF) then 2
    else if Between(s, 0, 0xE0, 0xEF) && Between(s, 1, 0x80, 0xBF) && Between(s, 2, 0x80, 0xBF)
            && (s[0] as int == 0xE0 ==> Between(s, 1, 0xA0, 0xBF))
            && (s[0] as int == 0xED ==> Between(s, 1, 0x80, 0x9F)) then 3
    else if Between(s, 0, 0xF0, 0xF4) && Between(s, 1, 0x80, 0xBF) && Between(s, 2, 0x80, 0xBF)
            && Between(s, 3, 0x80, 0xBF)
            && (s[0] as int == 0xF0 ==> Between(s, 1, 0x90, 0xBF))
            && (s[0] as int == 0xF4 ==> Between(s, 1, 0x80, 0x8F)) then 4
    else 0
  }

  predicate ValidUTF8(s: string) {
    |s| == 0 || (Width(s) > 0 && ValidUTF8(s[Width(s)..]))
  }

  lemma {:induction false} ValidIsBytes(s: string)
    requires ValidUTF8(s)
    ensures Bytes(s)
  {
    if |s| > 0 {
      var w := Width(s);
      ValidIsBytes(s[w..]);
      forall i | 0 <= i < |s| ensures s[i] as int < 256 {
        if i >= w { assert s[i] == s[w..][i - w]; }
      }
    }
  }

  // -------- JSON strings --------

  function Hex(n: nat): char
    requires n < 16
  {
    if n < 10 then ('0' as int + n) as char else ('a' as int + n - 10) as char
  }

  /** The two hexadecimal digits of a byte below 256, after `\u00`. */
  function Escape(n: nat): string {
    ['\\', 'u', '0', '0', Hex(n / 16 % 16), Hex(n % 16)]
  }

  /** One character as the server's encoder prints it inside a string; angle brackets and ampersands are escaped. */
  function Piece(c: string): string {
    if |c| == 1 then
      var n := c[0] as int;
      if c[0] == '"' || c[0] == '\\' then ['\\', c[0]]
      else if n == 8 then "\\b"
      else if n == 9 then "\\t"
      else if n == 10 then "\\n"
      else if n == 12 then "\\f"
      else if n == 13 then "\\r"
      else if n < 0x20 || c[0] == '<' || c[0] == '>' || c[0] == '&' then Escape(n)
      else c
    else if |c| == 3 && c[0] as int == 0xE2 && c[1] as int == 0x80 && (c[2] as int == 0xA8 || c[2] as int == 0xA9) then
      ['\\', 'u', '2', '0', '2', if c[2] as int == 0xA8 then '8' else '9']
    else c
  }

  /** Bytes that are not a character are replaced one by one. */
  function Escaped(s: string): string {
    if |s| == 0 then ""
    else if Width(s) == 0 then "\\ufffd" + Escaped(s[1..])
    else Piece(s[..Width(s)]) + Escaped(s[Width(s)..])
  }

  function Quote(s: string): string {
    "\"" + Escaped(s) + "\""
  }

  lemma PieceBound(c: string)
    requires |c| > 0
    ensures |Piece(c)| <= 6 * |c|
  {
  }

  /** At most six bytes for one. */
  lemma {:induction false} EscapedBound(s: string)
    ensures |Escaped(s)| <= 6 * |s|
  {
    if |s| > 0 {
      var w := Width(s);
      EscapedBound(s[if w == 0 then 1 else w..]);
      if w > 0 { PieceBound(s[..w]); }
    }
  }

  predicate Plain(c: char) {
    0x20 <= c as int < 0x7F && c != '"' && c != '\\' && c != '<' && c != '>' && c != '&'
  }

  lemma {:induction false} PlainUnescaped(s: string)
    requires forall i :: 0 <= i < |s| ==> Plain(s[i])
    ensures Escaped(s) == s
  {
    if |s| > 0 {
      PlainUnescaped(s[1..]);
      assert Width(s) == 1;
      assert s[..1] == [s[0]];
      assert s == [s[0]] + s[1..];
    }
  }

  // -------- the frame --------

  const HEAD: string := "{\"v\":1,\"type\":\"roster\",\"request_id\":"
  const MIDDLE: string := ",\"payload\":{\"peers\":["
  const TAIL: string := "]}}"
  const CURSOR_FIELD: string := "],\"next_cursor\":"
  const CLOSE: string := "}}"

  function PeerText(address: string): string {
    "{\"address\":" + (Quote(address) + "}")
  }

  /** The peers, separated by commas. */
  function PeersText(addresses: seq<string>): string {
    if |addresses| == 0 then ""
    else if |addresses| == 1 then PeerText(addresses[0])
    else PeersText(addresses[..|addresses| - 1]) + "," + PeerText(addresses[|addresses| - 1])
  }

  function RosterFrame(requestID: string, addresses: seq<string>, cursor: string): string {
    HEAD + Quote(requestID) + MIDDLE + PeersText(addresses) +
      (if |cursor| == 0 then TAIL else CURSOR_FIELD + Quote(cursor) + CLOSE)
  }
}
