/** One roster page: how long its frame is, which prefix it holds, and the cursor that continues it. */
module RosterPage {
  import opened Wrappers
  import opened Base64
  import opened RosterText

  const MAX_ADDRESS_BYTES: nat := 4096 + 1 + 255 + 1 + 36
  const MAX_CURSOR_BYTES: nat := 5856
  const MAX_ROSTER_FRAME_BYTES: nat := 48 * 1024
  const CURSOR_PREFIX: string := "cur_"

  predicate Legal(address: string) {
    0 < |address| <= MAX_ADDRESS_BYTES && ValidUTF8(address)
  }

  function Cursor(address: string): string {
    CURSOR_PREFIX + Encode(address)
  }

  // -------- cursors --------

  /** The address a list request continues after; no cursor at all continues after nothing. */
  function DecodeListCursor(cursor: Option<string>): Result<string> {
    match cursor
    case None => Success("")
    case Some(c) =>
      if |c| <= |CURSOR_PREFIX| || |c| > MAX_CURSOR_BYTES || c[..4] != CURSOR_PREFIX
        then Failure("invalid list payload")
      else
        match Decode(c[4..])
        case None => Failure("invalid list payload")
        case Some(raw) =>
          if |raw| == 0 || |raw| > MAX_ADDRESS_BYTES || !ValidUTF8(raw) || Cursor(raw) != c
            then Failure("invalid list payload")
          else Success(raw)
  }

  /** The server accepts exactly the cursors it would itself emit for a legal address, and reads the address back. */
  lemma {:induction false} CursorsExact(c: string, address: string)
    requires |address| > 0
    ensures DecodeListCursor(Some(c)) == Success(address) <==> Legal(address) && c == Cursor(address)
  {
    if Legal(address) && c == Cursor(address) {
      ValidIsBytes(address);
      RoundTrip(address);
      EncodeLength(address);
      assert c[..4] == CURSOR_PREFIX && c[4..] == Encode(address);
    }
  }

  lemma {:induction false} CursorBound(address: string)
    requires Legal(address)
    ensures 4 < |Cursor(address)| <= MAX_CURSOR_BYTES
    ensures |Quote(Cursor(address))| == |Cursor(address)| + 2
  {
    EncodeLength(address);
    EncodeDigits(address);
    var c := Cursor(address);
    forall i | 0 <= i < |c| ensures Plain(c[i]) {
      if i >= 4 { assert c[i] == Encode(address)[i - 4]; }
    }
    PlainUnescaped(c);
  }

  lemma CursorLonger(address: string)
    ensures |Cursor(address)| >= 4
  {
  }

  // -------- pages --------

  datatype Page = Page(peers: seq<string>, nextCursor: string)

  /** The first `k` addresses, with the cursor of the last of them, make a frame within the limit. */
  predicate Fits(requestID: string, addresses: seq<string>, k: nat) {
    0 < k <= |addresses| && |RosterFrame(requestID, addresses[..k], Cursor(addresses[k - 1]))| <= MAX_ROSTER_FRAME_BYTES
  }

  predicate AllFit(requestID: string, addresses: seq<string>) {
    |RosterFrame(requestID, addresses, "")| <= MAX_ROSTER_FRAME_BYTES
  }

  ghost predicate AllLegal(addresses: seq<string>) {
    forall i :: 0 <= i < |addresses| ==> Legal(addresses[i])
  }

  /** The page of these addresses: all of them if they fit, or else the longest prefix that fits with its own cursor. */
  ghost predicate IsPage(requestID: string, addresses: seq<string>, page: Page) {
    if AllFit(requestID, addresses) then page == Page(addresses, "")
    else
      && Fits(requestID, addresses, |page.peers|) && |page.peers| < |addresses|
      && page.peers == addresses[..|page.peers|] && page.nextCursor == Cursor(addresses[|page.peers| - 1])
      && forall k: nat :: |page.peers| < k < |addresses| ==> !Fits(requestID, addresses, k)
  }

  // -------- sizes --------

  lemma PeersTextLength(addresses: seq<string>, i: nat)
    requires i < |addresses|
    ensures |PeersText(addresses[..i + 1])| == |PeersText(addresses[..i])| + (if i > 0 then 1 else 0) +
      |PeerText(addresses[i])|
  {
    assert addresses[..i + 1][..i] == addresses[..i];
  }

  lemma FrameLength(requestID: string, addresses: seq<string>, cursor: string)
    ensures |RosterFrame(requestID, addresses, cursor)| ==
      |HEAD| + |Quote(requestID)| + |MIDDLE| + |PeersText(addresses)|
      + (if |cursor| == 0 then |TAIL| else |CURSOR_FIELD| + |Quote(cursor)| + |CLOSE|)
  {
  }

  /** A legal address prints in at most six bytes for one, and its own frame. */
  lemma {:induction false} PeerTextBound(address: string)
    ensures |PeerText(address)| <= 6 * |address| + 15
  {
    EscapedBound(address);
  }

  lemma LiteralLengths()
    ensures |HEAD| == 36 && |MIDDLE| == 21 && |TAIL| == 3 && |CURSOR_FIELD| == 16 && |CLOSE| == 2
  {
  }

  /** One legal address always fits, even with its cursor. */
  lemma {:induction false} OneFits(requestID: string, addresses: seq<string>)
    requires |addresses| > 0 && Legal(addresses[0]) && |requestID| <= 36
    ensures Fits(requestID, addresses, 1)
    ensures |addresses| == 1 ==> AllFit(requestID, addresses)
  {
    var a := addresses[0];
    assert addresses[..1] == [a];
    CursorBound(a);
    PeerTextBound(a);
    EscapedBound(requestID);
    LiteralLengths();
    FrameLength(requestID, [a], Cursor(a));
    FrameLength(requestID, [a], "");
    if |addresses| == 1 { assert addresses == [a]; }
  }

  lemma {:induction false} NoneFits(requestID: string)
    requires |requestID| <= 36
    ensures AllFit(requestID, [])
  {
    EscapedBound(requestID);
    LiteralLengths();
    FrameLength(requestID, [], "");
  }

  /** With legal addresses and an ordinary request ID there is always a page, and it makes progress. */
  lemma {:induction false} SomethingFits(requestID: string, addresses: seq<string>)
    requires AllLegal(addresses) && |requestID| <= 36
    ensures AllFit(requestID, addresses) || (|addresses| > 1 && Fits(requestID, addresses, 1))
  {
    if |addresses| == 0 {
      assert addresses == [];
      NoneFits(requestID);
    } else {
      OneFits(requestID, addresses);
    }
  }

  /** The sizes of the pieces, and those before the first and after the last peer. */
  method RosterFrameSizeParts(requestID: string) returns (prefix: nat, noCursorSuffix: nat)
    ensures forall addresses: seq<string> ::
      |RosterFrame(requestID, addresses, "")| == prefix + |PeersText(addresses)| + noCursorSuffix
    ensures prefix == |HEAD| + |Quote(requestID)| + |MIDDLE|
  {
    var encodedRequestID := Quote(requestID);
    prefix := |HEAD| + |encodedRequestID| + |MIDDLE|;
    noCursorSuffix := |TAIL|;
  }

  /** The printed size of every address, or None when one is not legal. */
  method MeasurePeers(addresses: seq<string>) returns (sizes: Option<array<nat>>)
    ensures sizes.Some? <==> AllLegal(addresses)
    ensures sizes.Some? ==>
      fresh(sizes.value) && sizes.value.Length == |addresses| && Measured(addresses, sizes.value[..])
  {
    hide PeerText, ValidUTF8;
    var peerSizes := new nat[|addresses|];
    for i := 0 to |addresses|
      invariant forall j :: 0 <= j < i ==> Legal(addresses[j]) && peerSizes[j] == |PeerText(addresses[j])|
    {
      if !Legal(addresses[i]) {
        return None;
      }
      peerSizes[i] := |PeerText(addresses[i])|;
    }
    return Some(peerSizes);
  }

  ghost predicate Measured(addresses: seq<string>, sizes: seq<nat>) {
    |sizes| == |addresses| && forall j :: 0 <= j < |sizes| ==> sizes[j] == |PeerText(addresses[j])|
  }

  method TotalSize(addresses: seq<string>, peerSizes: array<nat>) returns (allPeerBytes: nat)
    requires Measured(addresses, peerSizes[..])
    ensures allPeerBytes == |PeersText(addresses)|
  {
    assert addresses[..0] == [] && |PeersText([])| == 0;
    hide PeersText, PeerText;
    allPeerBytes := 0;
    for i := 0 to |addresses|
      invariant allPeerBytes == |PeersText(addresses[..i])|
    {
      PeersTextLength(addresses, i);
      allPeerBytes := allPeerBytes + peerSizes[i];
      if i > 0 {
        allPeerBytes := allPeerBytes + 1;
      }
    }
    assert addresses[..|addresses|] == addresses;
  }

  lemma FitsSize(requestID: string, addresses: seq<string>, index: nat)
    requires index < |addresses|
    ensures Fits(requestID, addresses, index + 1) <==>
      |HEAD| + |Quote(requestID)| + |MIDDLE| + |PeersText(addresses[..index + 1])|
      + (|CURSOR_FIELD| + |Quote(Cursor(addresses[index]))| + |CLOSE|) <= MAX_ROSTER_FRAME_BYTES
  {
    CursorLonger(addresses[index]);
    FrameLength(requestID, addresses[..index + 1], Cursor(addresses[index]));
  }

  /** Among the first `index` prefixes, `longest` is the longest that fits; 0 when none does. */
  ghost predicate Best(requestID: string, addresses: seq<string>, longest: nat, index: nat) {
    && longest <= index
    && (longest > 0 ==> Fits(requestID, addresses, longest))
    && (forall k: nat :: longest < k <= index ==> !Fits(requestID, addresses, k))
  }

  lemma BestNext(requestID: string, addresses: seq<string>, longest: nat, index: nat)
    requires Best(requestID, addresses, longest, index)
    ensures Best(requestID, addresses, if Fits(requestID, addresses, index + 1) then index + 1 else longest, index + 1)
  {
    hide Fits;
  }

  /** A longer prefix may fit where a shorter one does not: its cursor may be shorter.  So every one is tried. */
  method LongestPrefix(requestID: string, addresses: seq<string>, peerSizes: array<nat>, prefix: nat)
    returns (longest: nat)
    requires |addresses| > 0 && Measured(addresses, peerSizes[..]) && prefix == |HEAD| + |Quote(requestID)| + |MIDDLE|
    ensures Best(requestID, addresses, longest, |addresses| - 1)
  {
    assert addresses[..0] == [] && |PeersText([])| == 0;
    hide PeersText, PeerText, RosterFrame, Quote, Cursor, Fits;
    longest := 0;
    var prefixPeerBytes := 0;
    assert Best(requestID, addresses, 0, 0);
    hide Best;
    for index := 0 to |addresses| - 1
      invariant prefixPeerBytes == |PeersText(addresses[..index])|
      invariant Best(requestID, addresses, longest, index)
    {
      PeersTextLength(addresses, index);
      if index > 0 {
        prefixPeerBytes := prefixPeerBytes + 1;
      }
      prefixPeerBytes := prefixPeerBytes + peerSizes[index];
      var cursor := Cursor(addresses[index]);
      var cursorSuffix := |CURSOR_FIELD| + |Quote(cursor)| + |CLOSE|;
      FitsSize(requestID, addresses, index);
      BestNext(requestID, addresses, longest, index);
      if prefix + prefixPeerBytes + cursorSuffix <= MAX_ROSTER_FRAME_BYTES {
        longest := index + 1;
      }
    }
  }

  /** Adds up sizes as the source does; what it decides is what the frame's own length decides. */
  method BuildRosterPage(requestID: string, addresses: seq<string>) returns (r: Result<Page>)
    ensures !AllLegal(addresses) ==> r.Failure?
    ensures AllLegal(addresses) && r.Success? ==> IsPage(requestID, addresses, r.value)
    ensures AllLegal(addresses) && r.Failure? ==> !AllFit(requestID, addresses) && forall k: nat :: k < |addresses| ==>
      !Fits(requestID, addresses, k)
    ensures AllLegal(addresses) && |requestID| <= 36 ==> r.Success? && (|addresses| > 0 ==> |r.value.peers| > 0)
  {
    if AllLegal(addresses) && |requestID| <= 36 { SomethingFits(requestID, addresses); }
    hide RosterFrame, PeersText, PeerText, Quote, Encode, Cursor, AllLegal, Fits, IsPage;
    var peerSizes := MeasurePeers(addresses);
    if peerSizes.None? {
      return Failure("registry supplied an invalid authenticated address");
    }
    var prefix, noCursorSuffix := RosterFrameSizeParts(requestID);
    var allPeerBytes := TotalSize(addresses, peerSizes.value);
    if prefix + allPeerBytes + noCursorSuffix <= MAX_ROSTER_FRAME_BYTES {
      WholeIsPage(requestID, addresses);
      return Success(Page(addresses, ""));
    }
    if |addresses| == 0 {
      return Failure("no authenticated address fits the roster frame ceiling");
    }
    var longest := LongestPrefix(requestID, addresses, peerSizes.value, prefix);
    if longest == 0 {
      NoZeroFit(requestID, addresses);
      return Failure("no authenticated address fits the roster frame ceiling");
    }
    var lastAddress := addresses[longest - 1];
    PrefixIsPage(requestID, addresses, longest);
    return Success(Page(addresses[..longest], Cursor(lastAddress)));
  }

  lemma NoZeroFit(requestID: string, addresses: seq<string>)
    ensures !Fits(requestID, addresses, 0)
  {
  }

  lemma WholeIsPage(requestID: string, addresses: seq<string>)
    requires AllFit(requestID, addresses)
    ensures IsPage(requestID, addresses, Page(addresses, ""))
  {
  }

  lemma PrefixIsPage(requestID: string, addresses: seq<string>, longest: nat)
    requires 0 < longest < |addresses| && Fits(requestID, addresses, longest) && !AllFit(requestID, addresses)
    requires forall k: nat :: longest < k < |addresses| ==> !Fits(requestID, addresses, k)
    ensures IsPage(requestID, addresses, Page(addresses[..longest], Cursor(addresses[longest - 1])))
  {
    hide Fits, AllFit, Cursor;
  }
}
