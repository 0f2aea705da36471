/** The values that cross module boundaries: sessions, sends and their settled responses. */
module Messages {
  import opened Wrappers

  /** A decoded JSON value.  Number text keeps its spelling, as a decoder told to keep numbers does. */
  datatype JSON =
    | Null
    | Bool(b: bool)
    | Number(text: string)
    | String(text: string)
    | Array(items: seq<JSON>)
    | Object(members: map<string, JSON>)

  /** One authenticated session.  The server compares sessions by pointer, so `token` is that identity. */
  datatype Session = Session(token: nat, route: string, address: string)

  /** Primary key of the dedupe ledger. */
  datatype Key = Key(sender: Session, messageID: string)

  /** A decoded send; `re` is None when the member is absent. */
  datatype SendPayload = SendPayload(messageID: string, to: string, re: Option<string>, body: JSON)

  /** One client send as the reader sees it: its own request ID and the logical payload. */
  datatype Operation = Operation(requestID: string, send: SendPayload)

  /** The seven result codes a send can settle with. */
  datatype Code =
    | Received
    | AckTimeout
    | Offline
    | RecipientDisconnected
    | MessageIDConflict
    | BodyTooLarge
    | SenderCapacity

  datatype Response = Response(code: Code, messageID: string, deliveryID: string, senderRoute: string,
    recipientRoute: string)
}
