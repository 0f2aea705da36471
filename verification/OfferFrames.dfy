/**
 The frame of an offer, and when it outgrows the frame limit.  The encoder compacts the raw body and escapes `<`, `>`,
 `&` and the two line separators in it, so a body within its own limit need not make a frame within the frame limit.
 */
module OfferFrames {
  import opened RosterText
  import opened RosterPage

  const MAX_BODY_BYTES: nat := 256 * 1024
  const MAX_FRAME_BYTES: nat := 512 * 1024

  // -------- the body inside a frame --------

  predicate Mark(c: char) {
    c == '<' || c == '>' || c == '&'
  }

  predicate Space(c: char) {
    c == ' ' || c == '\t' || c == '\n' || c == '\r'
  }

  /** A line or paragraph separator, three bytes of UTF-8. */
  predicate Separator(raw: string) {
    |raw| > 2 && raw[0] as int == 0xE2 && raw[1] as int == 0x80 && (raw[2] as int == 0xA8 || raw[2] as int == 0xA9)
  }

  /** The raw body as the frame's encoder writes it. */
  function Compacted(raw: string, inString: bool): string {
    if |raw| == 0 then ""
    else if !inString then (if Space(raw[0]) then "" else [raw[0]]) + Compacted(raw[1..], raw[0] == '"')
    else if raw[0] == '\\' && |raw| > 1 then raw[..2] + Compacted(raw[2..], true)
    else if Mark(raw[0]) then Escape(raw[0] as int) + Compacted(raw[1..], true)
    else if Separator(raw) then Piece(raw[..3]) + Compacted(raw[3..], true)
    else [raw[0]] + Compacted(raw[1..], raw[0] != '"')
  }

  /** How many characters of a body grow or go: marks and separators in strings, spaces outside them. */
  datatype Counts = Counts(marks: nat, separators: nat, spaces: nat)

  function Count(raw: string, inString: bool): Counts {
    if |raw| == 0 then Counts(0, 0, 0)
    else if !inString then
      var c := Count(raw[1..], raw[0] == '"');
      if Space(raw[0]) then c.(spaces := c.spaces + 1) else c
    else if raw[0] == '\\' && |raw| > 1 then Count(raw[2..], true)
    else if Mark(raw[0]) then
      var c := Count(raw[1..], true);
      c.(marks := c.marks + 1)
    else if Separator(raw) then
      var c := Count(raw[3..], true);
      c.(separators := c.separators + 1)
    else Count(raw[1..], raw[0] != '"')
  }

  /** Each mark costs five bytes more, each separator three, and each space is saved. */
  lemma {:induction false} CompactedLength(raw: string, inString: bool)
    ensures var c := Count(raw, inString);
      |Compacted(raw, inString)| == |raw| + 5 * c.marks + 3 * c.separators - c.spaces
  {
    if |raw| > 0 {
      if !inString { CompactedLength(raw[1..], raw[0] == '"'); }
      else if raw[0] == '\\' && |raw| > 1 { CompactedLength(raw[2..], true); }
      else if Mark(raw[0]) { CompactedLength(raw[1..], true); }
      else if Separator(raw) { CompactedLength(raw[3..], true); }
      else { CompactedLength(raw[1..], raw[0] != '"'); }
    }
  }

  // -------- the frame --------

  const DELIVERY_ID_OPEN: string := "{\"v\":1,\"type\":\"message\",\"payload\":{\"delivery_id\":"
  const MESSAGE_ID_OPEN: string := ",\"message_id\":"
  const FROM_OPEN: string := ",\"from\":"
  const TO_OPEN: string := ",\"to\":"
  const BODY_OPEN: string := ",\"body\":"
  const RE_OPEN: string := ",\"re\":"
  const CLOSING: string := "}}"

  function ReText(re: string): string {
    if |re| == 0 then "" else RE_OPEN + Quote(re)
  }

  function OfferFrame(deliveryID: string, messageID: string, from: string, to: string, raw: string, re: string): string
  {
    DELIVERY_ID_OPEN + Quote(deliveryID) + MESSAGE_ID_OPEN + Quote(messageID) + FROM_OPEN + Quote(from) + TO_OPEN +
      Quote(to)
    + BODY_OPEN + Compacted(raw, false) + ReText(re) + CLOSING
  }

  /** Everything in the frame but the body. */
  function Overhead(deliveryID: string, messageID: string, from: string, to: string, re: string): nat {
    |DELIVERY_ID_OPEN| + |Quote(deliveryID)| + |MESSAGE_ID_OPEN| + |Quote(messageID)| + |FROM_OPEN| + |Quote(from)| +
      |TO_OPEN|
    + |Quote(to)| + |BODY_OPEN| + |ReText(re)| + |CLOSING|
  }

  /** The frame is within its limit exactly when the body, with what its marks and separators add, is. */
  lemma {:induction false} OfferFits(deliveryID: string, messageID: string, from: string, to: string, raw: string,
    re: string)
    ensures var c := Count(raw, false);
      |OfferFrame(deliveryID, messageID, from, to, raw, re)| <= MAX_FRAME_BYTES <==>
      Overhead(deliveryID, messageID, from, to, re) + |raw| + 5 * c.marks + 3 * c.separators <= MAX_FRAME_BYTES +
        c.spaces
  {
    CompactedLength(raw, false);
    hide Quote, Compacted, Count, ReText;
  }

  lemma LiteralLengths()
    ensures |DELIVERY_ID_OPEN| == 49 && |MESSAGE_ID_OPEN| == 14 && |FROM_OPEN| == 8 && |TO_OPEN| == 6
    ensures |BODY_OPEN| == 8 && |RE_OPEN| == 6 && |CLOSING| == 2
  {
  }

  /**
   Between legal addresses a body within its limit is offered unless its marks and separators add over 208 000 bytes.
   */
  lemma {:induction false} OrdinaryBodyFits(deliveryID: string, messageID: string, from: string, to: string,
    raw: string, re: string)
    requires |deliveryID| <= 36 && |messageID| <= 36 && |re| <= 36 && Legal(from) && Legal(to)
    requires |raw| <= MAX_BODY_BYTES && 5 * Count(raw, false).marks + 3 * Count(raw, false).separators <= 208_000
    ensures |OfferFrame(deliveryID, messageID, from, to, raw, re)| <= MAX_FRAME_BYTES
  {
    OfferFits(deliveryID, messageID, from, to, raw, re);
    EscapedBound(deliveryID);
    EscapedBound(messageID);
    EscapedBound(from);
    EscapedBound(to);
    EscapedBound(re);
    LiteralLengths();
    hide OfferFrame, Escaped, Count;
  }

  function Repeat(n: nat): string {
    seq(n, i => '<')
  }

  lemma {:induction false} RepeatCounts(n: nat)
    ensures Count(Repeat(n) + "\"", true) == Counts(n, 0, 0)
  {
    var raw := Repeat(n) + "\"";
    if n > 0 {
      assert raw[0] == '<' && raw[1..] == Repeat(n - 1) + "\"";
      RepeatCounts(n - 1);
    } else {
      assert raw == "\"" && raw[1..] == "";
    }
  }

  /** A string of angle brackets, exactly at the body limit, makes a frame over the frame limit, whoever sends it. */
  lemma {:induction false} BracketsOutgrowTheFrame(deliveryID: string, messageID: string, from: string, to: string,
    re: string)
    ensures var raw := "\"" + Repeat(MAX_BODY_BYTES - 2) + "\"";
      |raw| == MAX_BODY_BYTES && |OfferFrame(deliveryID, messageID, from, to, raw, re)| > MAX_FRAME_BYTES
  {
    var raw := "\"" + Repeat(MAX_BODY_BYTES - 2) + "\"";
    assert raw[0] == '"' && raw[1..] == Repeat(MAX_BODY_BYTES - 2) + "\"";
    RepeatCounts(MAX_BODY_BYTES - 2);
    OfferFits(deliveryID, messageID, from, to, raw, re);
    hide OfferFrame, Quote, Repeat;
  }
}
