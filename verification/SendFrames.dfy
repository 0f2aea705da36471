/** The frame a send is written as, and why both ends accept it. */
module SendFrames {
  import opened Utf16
  import opened Wrappers
  import opened JSONTree
  import opened JSONTreeLaws
  import opened BoundedEncoders
  import Recogniser
  import CanonicalText
  import JSONInspection

  const MAX_ADDRESS_BYTES: nat := 4389
  const MAX_SEND_BODY_BYTES: nat := 262_144
  const MAX_FRAME_BYTES: nat := 512 * 1024

  // -------- the frame --------

  /** A literal of the source. */
  function Units(s: string): (t: Text)
    ensures |t| == |s|
  {
    seq(|s|, i requires 0 <= i < |s| => if (s[i] as int) < 0x10000 then s[i] as int else 0)
  }

  const VERSION: Text := Units("{\"v\":1")
  const TYPE: Text := Units(",\"type\":\"send\"")
  const REQUEST_ID_OPEN: Text := Units(",\"request_id\":")
  const PAYLOAD_OPEN: Text := Units(",\"payload\":")
  const MESSAGE_ID_OPEN: Text := Units("{\"message_id\":")
  const TO_OPEN: Text := Units(",\"to\":")
  const BODY_OPEN: Text := Units(",\"body\":")
  const RE_OPEN: Text := Units(",\"re\":")
  const END: Text := [0x7D]

  function PayloadEnd(re: Option<Text>): Text {
    if re.Some? then RE_OPEN + (Quote(re.value) + END) else END
  }

  function PayloadText(messageID: Text, to: Text, encodedBody: Text, re: Option<Text>): Text {
    MESSAGE_ID_OPEN + (Quote(messageID) + (TO_OPEN + (Quote(to) + (BODY_OPEN + (encodedBody + PayloadEnd(re))))))
  }

  function SendFrame(requestID: Text, messageID: Text, to: Text, encodedBody: Text, re: Option<Text>): Text {
    VERSION + (TYPE +
      (REQUEST_ID_OPEN + (Quote(requestID) + (PAYLOAD_OPEN + (PayloadText(messageID, to, encodedBody, re) + END)))))
  }

  predicate ValidAddress(to: Text) {
    |to| > 0 && ValidText(to) && UTF8Length(to) <= MAX_ADDRESS_BYTES
  }

  predicate ValidBody(body: Value) {
    body.Object? || (body.String? && ValidText(body.text))
  }

  predicate LowerHex(u: Unit) {
    0x30 <= u <= 0x39 || 0x61 <= u <= 0x66
  }

  /** A version 7 UUID in canonical lower case. */
  predicate IsUUIDv7(t: Text) {
    && |t| == 36 && t[14] == 0x37 && t[19] in [0x38, 0x39, 0x61, 0x62]
    && (forall i :: 0 <= i < 36 ==> if i == 8 || i == 13 || i == 18 || i == 23 then t[i] == 0x2D else LowerHex(t[i]))
  }

  predicate ValidArguments(to: Text, body: Value, re: Option<Text>) {
    ValidAddress(to) && ValidBody(body) && (re.Some? ==> IsUUIDv7(re.value))
  }

  datatype Prepared = Frame(text: Text) | InvalidArguments | BodyTooLarge

  /**
   The frame of a send, or why it is refused before anything is written. With the identifiers the client generates,
   only the arguments themselves and the size of the body decide.
   */
  method PrepareSend(to: Text, body: Value, re: Option<Text>, requestID: Text, messageID: Text) returns (r: Prepared)
    ensures r.Frame? <==>
      (ValidArguments(to, body, re) && Sendable(body, 0) && UTF8Length(Canonical(body)) <= MAX_SEND_BODY_BYTES &&
      UTF8Length(SendFrame(requestID, messageID, to, Canonical(body), re)) <= MAX_FRAME_BYTES)
    ensures r.Frame? ==> r.text == SendFrame(requestID, messageID, to, Canonical(body), re)
    ensures r == BodyTooLarge ==> ValidArguments(to, body, re)
    ensures ValidArguments(to, body, re) && Sendable(body, 0) ==>
      (r == BodyTooLarge <==> UTF8Length(Canonical(body)) > MAX_SEND_BODY_BYTES)
    ensures IsUUIDv7(requestID) && IsUUIDv7(messageID) && ValidArguments(to, body, re) && Sendable(body, 0) ==>
      r.Frame? || r.BodyTooLarge?
  {
    hide Canonical, Sendable, SendFrame, UTF8Length, ValidAddress, ValidBody, IsUUIDv7;
    if !ValidAddress(to) || !ValidBody(body) || (re.Some? && !IsUUIDv7(re.value)) {
      return InvalidArguments;
    }
    var encodedBody := CanonicalCompactJSON(body, MAX_SEND_BODY_BYTES);
    match encodedBody {
      case Rejected(failure) =>
        return if failure == MaximumBytes then BodyTooLarge else InvalidArguments;
      case Encoded(text) =>
        var frame := SendFrame(requestID, messageID, to, text, re);
        if UTF8Length(frame) > MAX_FRAME_BYTES {
          if IsUUIDv7(requestID) && IsUUIDv7(messageID) { GeneratedFits(to, body, re, requestID, messageID); }
          return InvalidArguments;
        }
        r := Frame(frame);
    }
  }

  // -------- it never outgrows the frame limit --------

  lemma {:induction false} EscapedBound(t: Text)
    requires ValidText(t)
    ensures UTF8Length(Escaped(t)) <= 6 * UTF8Length(t)
  {
    if |t| > 0 {
      EscapedStep(t);
      EscapedBound(t[Step(t)..]);
    }
  }

  lemma {:induction false} QuoteBound(t: Text, limit: nat)
    requires ValidText(t) && UTF8Length(t) <= limit
    ensures ValidText(Quote(t)) && UTF8Length(Quote(t)) <= 6 * limit + 2
  {
    EscapedBound(t);
    QuoteLength(t);
  }

  /** Text of at most so many bytes. */
  predicate Within(t: Text, limit: nat) {
    ValidText(t) && UTF8Length(t) <= limit
  }

  lemma LiteralWithin(s: string)
    requires forall i :: 0 <= i < |s| ==> s[i] as int < 0x80
    ensures Within(Units(s), |s|)
  {
    AsciiLength(Units(s));
  }

  lemma PayloadLiterals()
    ensures Within(MESSAGE_ID_OPEN, 14) && Within(TO_OPEN, 6)
  {
    hide Within, Units;
    LiteralWithin("{\"message_id\":");
    LiteralWithin(",\"to\":");
  }

  lemma EndWithin()
    ensures Within(END, 1)
  {
    AsciiLength(END);
  }

  lemma BodyLiterals()
    ensures Within(BODY_OPEN, 8) && Within(RE_OPEN, 6) && Within(END, 1)
  {
    EndWithin();
    hide Within, Units;
    LiteralWithin(",\"body\":");
    LiteralWithin(",\"re\":");
  }

  lemma FrameLiterals()
    ensures Within(VERSION, 6) && Within(TYPE, 14) && Within(REQUEST_ID_OPEN, 14) && Within(PAYLOAD_OPEN, 11)
  {
    hide Within, Units;
    LiteralWithin("{\"v\":1");
    LiteralWithin(",\"type\":\"send\"");
    LiteralWithin(",\"request_id\":");
    LiteralWithin(",\"payload\":");
  }

  /** Bounds add up along a concatenation. */
  lemma {:induction false} Appended(a: Text, m: nat, b: Text, n: nat)
    requires Within(a, m) && Within(b, n)
    ensures Within(a + b, m + n)
  {
    Join(a, b);
  }

  /** A literal, a string and what follows them. */
  lemma {:induction false} PieceBound(literal: Text, k: nat, t: Text, limit: nat, rest: Text, n: nat)
    requires Within(literal, k) && Within(t, limit) && Within(rest, n)
    ensures Within(literal + (Quote(t) + rest), k + 6 * limit + 2 + n)
  {
    QuoteBound(t, limit);
    Join(Quote(t), rest);
    Join(literal, Quote(t) + rest);
  }

  lemma {:induction false} EndBound(re: Option<Text>)
    requires re.Some? ==> Within(re.value, 36)
    ensures Within(PayloadEnd(re), 225)
  {
    BodyLiterals();
    hide Within, Quote, Units;
    if re.Some? { PieceBound(RE_OPEN, 6, re.value, 36, END, 1); } else { WithinMore(END, 1, 225); }
  }

  lemma WithinMore(t: Text, m: nat, n: nat)
    requires Within(t, m) && m <= n
    ensures Within(t, n)
  {
  }

  lemma {:induction false} PayloadBound(messageID: Text, to: Text, encodedBody: Text, re: Option<Text>)
    requires Within(to, MAX_ADDRESS_BYTES) && Within(encodedBody, MAX_SEND_BODY_BYTES)
    requires Within(messageID, 36) && (re.Some? ==> Within(re.value, 36))
    ensures Within(PayloadText(messageID, to, encodedBody, re), 288_951)
  {
    EndBound(re);
    PayloadLiterals();
    BodyLiterals();
    hide Within, Quote, PayloadEnd;
    var last := BODY_OPEN + (encodedBody + PayloadEnd(re));
    Appended(encodedBody, MAX_SEND_BODY_BYTES, PayloadEnd(re), 225);
    Appended(BODY_OPEN, 8, encodedBody + PayloadEnd(re), MAX_SEND_BODY_BYTES + 225);
    PieceBound(TO_OPEN, 6, to, MAX_ADDRESS_BYTES, last, MAX_SEND_BODY_BYTES + 233);
    PieceBound(MESSAGE_ID_OPEN, 14, messageID, 36, TO_OPEN + (Quote(to) + last), MAX_SEND_BODY_BYTES + 26_575);
  }

  /** Once the body is within its own limit the frame is within the frame limit, so the last check never refuses. */
  lemma {:induction false} FrameAlwaysFits(to: Text, body: Value, re: Option<Text>, requestID: Text, messageID: Text)
    requires ValidAddress(to) && Sendable(body, 0) && UTF8Length(Canonical(body)) <= MAX_SEND_BODY_BYTES
    requires Within(requestID, 36) && Within(messageID, 36) && (re.Some? ==> Within(re.value, 36))
    ensures UTF8Length(SendFrame(requestID, messageID, to, Canonical(body), re)) <= MAX_FRAME_BYTES
  {
    CanonicalLength(body);
    var payload := PayloadText(messageID, to, Canonical(body), re);
    PayloadBound(messageID, to, Canonical(body), re);
    BodyLiterals();
    FrameLiterals();
    hide UTF8Length, ValidText, Quote, PayloadText, Canonical, Sendable;
    Appended(payload, 288_951, END, 1);
    Appended(PAYLOAD_OPEN, 11, payload + END, 288_952);
    var last := Quote(requestID) + (PAYLOAD_OPEN + (payload + END));
    PieceBound(REQUEST_ID_OPEN, 14, requestID, 36, PAYLOAD_OPEN + (payload + END), 288_963);
    Appended(TYPE, 14, REQUEST_ID_OPEN + last, 289_195);
    Appended(VERSION, 6, TYPE + (REQUEST_ID_OPEN + last), 289_209);
  }

  lemma {:induction false} UUIDWithin(t: Text)
    requires IsUUIDv7(t)
    ensures Within(t, 36)
  {
    AsciiLength(t);
  }

  lemma {:induction false} GeneratedFits(to: Text, body: Value, re: Option<Text>, requestID: Text, messageID: Text)
    requires IsUUIDv7(requestID) && IsUUIDv7(messageID) && ValidArguments(to, body, re)
    requires Sendable(body, 0) && UTF8Length(Canonical(body)) <= MAX_SEND_BODY_BYTES
    ensures UTF8Length(SendFrame(requestID, messageID, to, Canonical(body), re)) <= MAX_FRAME_BYTES
  {
    hide Within, IsUUIDv7, UTF8Length, Canonical, Sendable, SendFrame;
    UUIDWithin(requestID);
    UUIDWithin(messageID);
    if re.Some? { UUIDWithin(re.value); }
    FrameAlwaysFits(to, body, re, requestID, messageID);
  }

  // -------- it is the text of one tree --------

  const ONE: NumberText := [0x31]

  function ReField(re: Option<Text>): seq<Field> {
    if re.Some? then [Field(Units("re"), String(re.value))] else []
  }

  function Payload(messageID: Text, to: Text, body: Value, re: Option<Text>): Value {
    Object([Field(Units("message_id"), String(messageID)), Field(Units("to"), String(to)),
      Field(Units("body"), body)] + ReField(re))
  }

  function Envelope(requestID: Text, payload: Value): Value {
    Object([Field(Units("v"), Number(Some(ONE))), Field(Units("type"), String(Units("send"))),
            Field(Units("request_id"), String(requestID)), Field(Units("payload"), payload)])
  }

  predicate Plain(s: string) {
    forall i :: 0 <= i < |s| ==> 0x20 <= s[i] as int < 0x7F && s[i] != '"' && s[i] != '\\'
  }

  lemma {:induction false} PlainEscaped(s: string)
    requires Plain(s)
    ensures Escaped(Units(s)) == Units(s)
  {
    if |s| > 0 {
      PlainEscaped(s[1..]);
      assert Units(s)[1..] == Units(s[1..]);
      assert Units(s) == [Units(s)[0]] + Units(s)[1..];
    }
  }

  lemma UnitsJoin(a: string, b: string)
    ensures Units(a) + Units(b) == Units(a + b)
  {
  }

  lemma {:induction false} PlainQuote(s: string)
    requires Plain(s)
    ensures Quote(Units(s)) == Units("\"" + s + "\"")
  {
    PlainEscaped(s);
  }

  /** What opens a member: a mark, its name between quotes, and a colon. */
  function Opening(mark: char, name: string): string {
    [mark] + ("\"" + name + "\"") + ":"
  }

  lemma {:induction false} NameText(mark: char, name: string, rest: Text)
    requires Plain(name) && (mark as int) < 0x80
    ensures [mark as int] + (Quote(Units(name)) + ([0x3A] + rest)) == Units(Opening(mark, name)) + rest
  {
    PlainQuote(name);
    var quoted := "\"" + name + "\"";
    UnitsJoin([mark], quoted);
    UnitsJoin([mark] + quoted, ":");
    assert Units([mark]) == [mark as int] && Units(":") == [0x3A];
    hide Quote, Units;
    Recogniser.Regroup([mark as int], Units(quoted), [0x3A] + rest);
    Recogniser.Regroup([mark as int] + Units(quoted), [0x3A], rest);
  }

  /** The literals of the source are such openings. */
  lemma OpeningsPayload()
    ensures Units(Opening('{', "message_id")) == MESSAGE_ID_OPEN && Units(Opening(',', "to")) == TO_OPEN
    ensures Plain("message_id") && Plain("to")
  {
  }

  lemma OpeningsBody()
    ensures Units(Opening(',', "body")) == BODY_OPEN && Units(Opening(',', "re")) == RE_OPEN
    ensures Plain("body") && Plain("re")
  {
  }

  lemma OpeningsFrame()
    ensures Units(Opening('{', "v") + "1") == VERSION && Units(Opening(',', "type") + "\"send\"") == TYPE
    ensures Plain("v") && Plain("type") && Plain("send")
  {
  }

  lemma OpeningsRequest()
    ensures Units(Opening(',', "request_id")) == REQUEST_ID_OPEN && Units(Opening(',', "payload")) == PAYLOAD_OPEN
    ensures Plain("payload") && Plain("request_id")
  {
  }

  /** The text of an object, as its opening brace and the rest of it. */
  lemma {:induction false} ObjectOpens(fields: seq<Field>)
    ensures Print(Object(fields)) == [0x7B] + Recogniser.FieldsText(fields, false, [])
  {
    hide PrintFields;
  }

  function Named(name: string, value: Value, others: seq<Field>): seq<Field> {
    [Field(Units(name), value)] + others
  }

  /** The text of these members from the first on, at the end of a payload or a frame. */
  function Rest(fields: seq<Field>): Text {
    Recogniser.FieldsText(fields, true, [])
  }

  lemma NoRest()
    ensures Rest([]) == END
  {
  }

  /** One member as a literal, its value and what follows. */
  lemma {:induction false} MemberText(name: string, value: Value, others: seq<Field>)
    requires Plain(name)
    ensures Print(Object(Named(name, value, others))) == Units(Opening('{', name)) + (Print(value) + Rest(others))
    ensures Rest(Named(name, value, others)) == Units(Opening(',', name)) + (Print(value) + Rest(others))
  {
    var fields := Named(name, value, others);
    assert fields[1..] == others;
    ObjectOpens(fields);
    Recogniser.FieldsTextSplit(fields, []);
    hide Print, Quote, Units, Opening, Recogniser.FieldsText;
    NameText('{', name, Print(value) + Rest(others));
    NameText(',', name, Print(value) + Rest(others));
  }

  lemma {:induction false} PayloadEndPrinted(re: Option<Text>)
    ensures Rest(ReField(re)) == PayloadEnd(re)
  {
    NoRest();
    OpeningsBody();
    if re.Some? {
      MemberText("re", String(re.value), []);
      assert ReField(re) == Named("re", String(re.value), []);
    }
    hide Rest, Units, Opening;
  }

  lemma {:induction false} PayloadPrinted(messageID: Text, to: Text, body: Value, re: Option<Text>)
    ensures Print(Payload(messageID, to, body, re)) == PayloadText(messageID, to, Print(body), re)
  {
    var third := Named("body", body, ReField(re));
    var second := Named("to", String(to), third);
    assert Print(String(to)) == Quote(to) && Print(String(messageID)) == Quote(messageID);
    assert Payload(messageID, to, body, re) == Object(Named("message_id", String(messageID), second));
    assert PayloadText(messageID, to, Print(body), re) ==
      MESSAGE_ID_OPEN + (Quote(messageID) + (TO_OPEN + (Quote(to) + (BODY_OPEN + (Print(body) + PayloadEnd(re))))));
    hide *;
    OpeningsPayload();
    OpeningsBody();
    PayloadEndPrinted(re);
    MemberText("body", body, ReField(re));
    MemberText("to", String(to), third);
    MemberText("message_id", String(messageID), second);
  }

  lemma {:induction false} EnvelopePrinted(requestID: Text, payload: Value)
    ensures Print(Envelope(requestID, payload)) == VERSION +
      (TYPE + (REQUEST_ID_OPEN + (Quote(requestID) + (PAYLOAD_OPEN + (Print(payload) + END)))))
  {
    var fourth := Named("payload", payload, []);
    var third := Named("request_id", String(requestID), fourth);
    var second := Named("type", String(Units("send")), third);
    assert Envelope(requestID, payload) == Object(Named("v", Number(Some(ONE)), second));
    ScalarsPrinted(requestID);
    hide *;
    OpeningsFrame();
    OpeningsRequest();
    NoRest();
    MemberText("payload", payload, []);
    MemberText("request_id", String(requestID), fourth);
    MemberText("type", String(Units("send")), third);
    MemberText("v", Number(Some(ONE)), second);
    Glue(Opening('{', "v"), "1", Rest(second));
    Glue(Opening(',', "type"), "\"send\"", Rest(third));
  }

  lemma ScalarsPrinted(requestID: Text)
    ensures Print(Number(Some(ONE))) == Units("1") && Print(String(requestID)) == Quote(requestID)
    ensures Print(String(Units("send"))) == Units("\"send\"")
  {
    PlainQuote("send");
    assert "\"" + "send" + "\"" == "\"send\"";
  }

  /** The frame is the compact text of the envelope, with the body's members sorted. */
  lemma {:induction false} FrameIsPrinted(requestID: Text, messageID: Text, to: Text, body: Value, re: Option<Text>)
    ensures SendFrame(requestID, messageID, to, Canonical(body), re) ==
      Print(Envelope(requestID, Payload(messageID, to, Sorted(body), re)))
  {
    PayloadPrinted(messageID, to, Sorted(body), re);
    EnvelopePrinted(requestID, Payload(messageID, to, Sorted(body), re));
    hide Print, PayloadText, Payload;
  }

  /** Two literals in a row are one literal. */
  lemma Glue(a: string, b: string, rest: Text)
    ensures Units(a) + (Units(b) + rest) == Units(a + b) + rest
  {
    UnitsJoin(a, b);
    hide Units;
    Recogniser.Regroup(Units(a), Units(b), rest);
  }

  // -------- both ends accept it --------

  lemma {:induction false} DepthStep(fields: seq<Field>)
    ensures |fields| == 0 ==> FieldsDepth(fields) == 0
    ensures |fields| > 0 ==> FieldsDepth(fields) == Larger(Depth(fields[0].value), FieldsDepth(fields[1..]))
  {
  }

  lemma {:induction false} EnvelopeShape(requestID: Text, payload: Value)
    requires Recogniser.Printable(payload) && payload.Object?
    ensures var e := Envelope(requestID, payload);
      && Depth(e) == Depth(payload) + 1 && (Unambiguous(e) <==> Unambiguous(payload)) && Recogniser.Printable(e)
      && !JSONInspection.RepeatsRequestID(e)
  {
    var e := Envelope(requestID, payload);
    NamesDiffer();
    DepthStep(e.fields);
    DepthStep(e.fields[1..]);
    DepthStep(e.fields[1..][1..]);
    DepthStep(e.fields[1..][1..][1..]);
    DepthStep(e.fields[1..][1..][1..][1..]);
    assert e.fields[3].value == payload;
    JSONInspection.RepeatsNameIs(e.fields, JSONInspection.REQUEST_ID, false);
    hide FieldsDepth, Units, JSONInspection.RepeatsName;
  }

  lemma {:induction false} PayloadShape(messageID: Text, to: Text, body: Value, re: Option<Text>)
    requires Recogniser.Printable(body)
    ensures var p := Payload(messageID, to, body, re);
      Depth(p) == Depth(body) + 1 && (Unambiguous(p) <==> Unambiguous(body)) && Recogniser.Printable(p)
  {
    var p := Payload(messageID, to, body, re);
    NamesDiffer();
    DepthStep(p.fields);
    DepthStep(p.fields[1..]);
    DepthStep(p.fields[1..][1..]);
    DepthStep(p.fields[1..][1..][1..]);
    if re.Some? { DepthStep(p.fields[1..][1..][1..][1..]); }
    assert p.fields[2].value == body;
    hide FieldsDepth, Units;
  }

  lemma NamesDiffer()
    ensures |Units("v")| == 1 && |Units("type")| == 4 && |Units("request_id")| == 10 && |Units("payload")| == 7
    ensures |Units("message_id")| == 10 && |Units("to")| == |Units("re")| == 2 && |Units("body")| == 4
    ensures Units("to")[0] == 0x74 && Units("re")[0] == 0x72
  {
  }

  /**
   For every body the client may be given: its frame is one printed tree, and both recognisers accept that frame exactly
   when the body nests at most 62 containers deep, which is the client's own limit.
   */
  lemma {:induction false} FramePasses(requestID: Text, messageID: Text, to: Text, body: Value, re: Option<Text>)
    requires Clean(body) && Unambiguous(body)
    ensures var frame := SendFrame(requestID, messageID, to, Canonical(body), re);
      var tree := Envelope(requestID, Payload(messageID, to, Sorted(body), re));
      && frame == Print(tree)
      && (Recogniser.Accepts(frame) <==> Depth(body) <= MAX_BODY_CONTAINER_DEPTH)
      && (Depth(tree) <= JSONInspection.MAX_NESTING <==> Depth(body) <= MAX_BODY_CONTAINER_DEPTH)
      && tree.Object? && Unambiguous(tree) && !JSONInspection.RepeatsRequestID(tree)
  {
    SortKeeps(body);
    CanonicalText.CleanPrintable(Sorted(body));
    FrameIsPrinted(requestID, messageID, to, body, re);
    PayloadShape(messageID, to, Sorted(body), re);
    EnvelopeShape(requestID, Payload(messageID, to, Sorted(body), re));
    Recogniser.PrintedAccepted(Envelope(requestID, Payload(messageID, to, Sorted(body), re)));
  }
}
