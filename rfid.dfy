/**
 * The card handling of rfid_functions.cpp. The reader is reduced to an
 * optional UID: None when no new card is present or its serial cannot be
 * read, otherwise the UID's bytes.
 */
module Rfid {
  import opened Text
  import opened Optional
  import opened Config
  import opened Firmware
  import opened ServoActions

  type Byte = x: int | 0 <= x < 256

  // ---------------------------------------------------------------------
  // The UID encoding
  // ---------------------------------------------------------------------

  /** The lower-case hexadecimal digit String(b, HEX) uses for a nibble. */
  function HexChar(d: int): (c: char)
    requires 0 <= d < 16
  {
    if d < 10 then ('0' as int + d) as char else ('a' as int + d - 10) as char
  }

  /** String(b, HEX): lower-case hexadecimal without leading zeros. */
  function ArduinoHex(b: Byte): (r: string)
    ensures |r| == if b < 0x10 then 1 else 2
    ensures r[|r| - 1] == HexChar(b % 16)
  {
    if b < 0x10 then [HexChar(b)] else [HexChar(b / 16), HexChar(b % 16)]
  }

  /** The two characters a byte stands for: high nibble, then low nibble. */
  function HexPair(b: Byte): (r: string)
  {
    [HexChar(b / 16), HexChar(b % 16)]
  }

  /** The "0" put before a byte below 0x10 makes every byte exactly two characters. */
  lemma PaddedHex(b: Byte)
    ensures (if b < 0x10 then "0" else "") + ArduinoHex(b) == HexPair(b)
  {
  }

  /**
   * The UID as the loop builds it: two lower-case hexadecimal characters per
   * byte, in byte order.
   */
  function HexEncode(uid: seq<Byte>): (r: string)
    ensures |r| == 2 * |uid|
  {
    if uid == [] then []
    else HexEncode(uid[..|uid| - 1]) + HexPair(uid[|uid| - 1])
  }

  /** Byte k of the UID is characters 2k and 2k + 1 of its encoding. */
  lemma {:induction false} HexEncodeAt(uid: seq<Byte>, k: int)
    requires 0 <= k < |uid|
    ensures HexEncode(uid)[2 * k] == HexChar(uid[k] / 16)
    ensures HexEncode(uid)[2 * k + 1] == HexChar(uid[k] % 16)
  {
    var n := |uid|;
    if k < n - 1 {
      HexEncodeAt(uid[..n - 1], k);
    }
  }

  /** The encoding loop shared by both handlers. */
  method EncodeUid(uid: seq<Byte>) returns (uidString: string)
    ensures uidString == HexEncode(uid)
  {
    uidString := "";
    var i := 0;
    while i < |uid|
      invariant 0 <= i <= |uid|
      invariant uidString == HexEncode(uid[..i])
    {
      PaddedHex(uid[i]);
      if uid[i] < 0x10 {
        uidString := uidString + "0";
      }
      uidString := uidString + ArduinoHex(uid[i]);
      assert uid[..i + 1][..i] == uid[..i];
      i := i + 1;
    }
    assert uid[..i] == uid;
  }

  // ---------------------------------------------------------------------
  // Decoding, the partner of the encoding
  // ---------------------------------------------------------------------

  /** The value of a hexadecimal digit of either case. */
  function HexValue(c: char): (r: Option<int>)
    ensures r.Some? ==> 0 <= r.value < 16
    ensures r.Some? ==> HexChar(r.value) == LowerChar(c)
  {
    if '0' <= c <= '9' then Some(c as int - '0' as int)
    else if 'a' <= c <= 'f' then Some(c as int - 'a' as int + 10)
    else if 'A' <= c <= 'F' then Some(c as int - 'A' as int + 10)
    else None
  }

  lemma HexValueOfHexChar(d: int)
    requires 0 <= d < 16
    ensures HexValue(HexChar(d)) == Some(d)
  {
  }

  /** Pairs of hexadecimal digits back to bytes; None for an odd length or a non-digit. */
  function HexDecode(s: string): (r: Option<seq<Byte>>)
    ensures r.Some? ==> |s| == 2 * |r.value|
  {
    if |s| < 2 then (if s == [] then Some([]) else None)
    else
      var hi := HexValue(s[|s| - 2]);
      var lo := HexValue(s[|s| - 1]);
      var rest := HexDecode(s[..|s| - 2]);
      if hi.Some? && lo.Some? && rest.Some? then Some(rest.value + [hi.value * 16 + lo.value]) else None
  }

  /** Decoding an encoded UID gives the UID back. */
  lemma {:induction false} DecodeOfEncode(uid: seq<Byte>)
    ensures HexDecode(HexEncode(uid)) == Some(uid)
  {
    if uid != [] {
      var front := uid[..|uid| - 1];
      DecodeOfEncode(front);
      DecodeOfEncodeStep(front, uid[|uid| - 1]);
      assert front + [uid[|uid| - 1]] == uid;
    }
  }

  /** The induction step: one more byte decodes from the two characters it adds. */
  lemma DecodeOfEncodeStep(front: seq<Byte>, b: Byte)
    requires HexDecode(HexEncode(front)) == Some(front)
    ensures HexDecode(HexEncode(front + [b])) == Some(front + [b])
  {
    var uid := front + [b];
    var s := HexEncode(uid);
    assert uid[..|uid| - 1] == front;
    assert s == HexEncode(front) + HexPair(b);
    assert s[..|s| - 2] == HexEncode(front);
    assert s[|s| - 2] == HexChar(b / 16) && s[|s| - 1] == HexChar(b % 16);
    HexValueOfHexChar(b / 16);
    HexValueOfHexChar(b % 16);
    assert (b / 16) * 16 + b % 16 == b;
  }

  /** Two hexadecimal digits make a byte whose pair is their lower-case form. */
  lemma PairOfDigits(c1: char, c2: char)
    requires HexValue(c1).Some? && HexValue(c2).Some?
    ensures 0 <= HexValue(c1).value * 16 + HexValue(c2).value < 256
    ensures HexPair(HexValue(c1).value * 16 + HexValue(c2).value) == Lower([c1, c2])
  {
    var b := HexValue(c1).value * 16 + HexValue(c2).value;
    assert b / 16 == HexValue(c1).value && b % 16 == HexValue(c2).value;
  }

  /** Whatever decodes encodes back to its lower-case form. */
  lemma {:induction false} EncodeOfDecode(s: string)
    requires HexDecode(s).Some?
    ensures HexEncode(HexDecode(s).value) == Lower(s)
  {
    if s != [] {
      var n := |s|;
      var front := s[..n - 2];
      var tail := s[n - 2..];
      EncodeOfDecode(front);
      PairOfDigits(s[n - 2], s[n - 1]);
      assert tail == [s[n - 2], s[n - 1]];
      var b: Byte := HexValue(s[n - 2]).value * 16 + HexValue(s[n - 1]).value;
      var u := HexDecode(s).value;
      assert u == HexDecode(front).value + [b];
      assert u[..|u| - 1] == HexDecode(front).value;
      assert HexEncode(u) == Lower(front) + Lower(tail);
      LowerAppend(front, tail);
      assert front + tail == s;
    }
  }

  /** Different UIDs never share an encoding. */
  lemma HexEncodeInjective(u: seq<Byte>, v: seq<Byte>)
    requires HexEncode(u) == HexEncode(v)
    ensures u == v
  {
    DecodeOfEncode(u);
    DecodeOfEncode(v);
  }

  // ---------------------------------------------------------------------
  // The upper-case form: Base16 of section 8 of RFC 4648
  // ---------------------------------------------------------------------

  const Base16Alphabet := "0123456789ABCDEF"

  /** Base16 encoding: each byte as two symbols of the alphabet, high nibble first. */
  function Base16(uid: seq<Byte>): (r: string)
    ensures |r| == 2 * |uid|
  {
    seq(2 * |uid|, i requires 0 <= i < 2 * |uid| =>
      Base16Alphabet[if i % 2 == 0 then uid[i / 2] / 16 else uid[i / 2] % 16])
  }

  lemma UpperHexChar(d: int)
    requires 0 <= d < 16
    ensures UpperChar(HexChar(d)) == Base16Alphabet[d]
    ensures LowerChar(Base16Alphabet[d]) == HexChar(d)
  {
    if d < 10 {
      assert Base16Alphabet[d] == ('0' as int + d) as char;
    } else {
      assert Base16Alphabet[d] == ('A' as int + d - 10) as char;
    }
  }

  /** Base16 of a UID, symbol by symbol: byte k gives symbols 2k and 2k + 1. */
  lemma Base16At(uid: seq<Byte>, k: int)
    requires 0 <= k < |uid|
    ensures Base16(uid)[2 * k] == Base16Alphabet[uid[k] / 16]
    ensures Base16(uid)[2 * k + 1] == Base16Alphabet[uid[k] % 16]
  {
    assert (2 * k) / 2 == k && (2 * k + 1) / 2 == k && (2 * k + 1) % 2 == 1;
  }

  /** toUpperCase on the encoding gives the Base16 encoding of the UID. */
  lemma UpperIsBase16(uid: seq<Byte>)
    ensures Upper(HexEncode(uid)) == Base16(uid)
  {
    var e := HexEncode(uid);
    forall i | 0 <= i < 2 * |uid|
      ensures Upper(e)[i] == Base16(uid)[i]
    {
      var k := i / 2;
      HexEncodeAt(uid, k);
      Base16At(uid, k);
      UpperHexChar(uid[k] / 16);
      UpperHexChar(uid[k] % 16);
      assert i == 2 * k || i == 2 * k + 1;
    }
  }

  /** Lower-casing the authentication output gives back the lower-case encoding. */
  lemma LowerOfBase16(uid: seq<Byte>)
    ensures Lower(Base16(uid)) == HexEncode(uid)
  {
    var e := HexEncode(uid);
    forall i | 0 <= i < 2 * |uid|
      ensures Lower(Base16(uid))[i] == e[i]
    {
      var k := i / 2;
      HexEncodeAt(uid, k);
      Base16At(uid, k);
      UpperHexChar(uid[k] / 16);
      UpperHexChar(uid[k] % 16);
      assert i == 2 * k || i == 2 * k + 1;
    }
  }

  /** The administrator's card 04 96 C7 2B encodes to the configured key "0496c72b". */
  lemma AdminCardAuthorized()
    ensures HexEncode([0x04, 0x96, 0xC7, 0x2B]) == "0496c72b"
    ensures HexEncode([0x04, 0x96, 0xC7, 0x2B]) in AuthorizedUids
    ensures AuthorizedUids[HexEncode([0x04, 0x96, 0xC7, 0x2B])] == "Admin"
  {
    var u1: seq<Byte> := [0x04];
    var u2: seq<Byte> := [0x04, 0x96];
    var u3: seq<Byte> := [0x04, 0x96, 0xC7];
    var u4: seq<Byte> := [0x04, 0x96, 0xC7, 0x2B];
    assert u1[..0] == [] && u2[..1] == u1 && u3[..2] == u2 && u4[..3] == u3;
    assert HexEncode(u1) == "04";
    assert HexEncode(u2) == "0496";
    assert HexEncode(u3) == "0496c7";
    assert HexEncode(u4) == "0496c72b";
    assert "0496c72b" in AuthorizedUids && AuthorizedUids["0496c72b"] == "Admin";
  }

  // ---------------------------------------------------------------------
  // The handlers
  // ---------------------------------------------------------------------

  const AuthPrefix := "Card detected for auth! UID:"
  const ScanPrefix := "Card detected! UID: "
  const ScannedTitle := "Card Scanned!"

  /**
   * handleAuthenticationScan: a card's UID goes out in Base16 after the
   * prefix, which ends without a space; nothing else on the board changes.
   */
  method HandleAuthenticationScan(b: Board, card: Option<seq<Byte>>)
    modifies b
    ensures card.None? ==> b.serialOut == old(b.serialOut)
    ensures card.Some? ==> b.serialOut == old(b.serialOut) + AuthPrefix + Line(Base16(card.value))
    ensures b.currentAngle == old(b.currentAngle) && b.position == old(b.position) && b.writes == old(b.writes)
    ensures b.PanelState() == old(b.PanelState()) && b.clock == old(b.clock)
  {
    if card.Some? {
      b.Print(AuthPrefix);
      var uidString := EncodeUid(card.value);
      uidString := Upper(uidString);
      UpperIsBase16(card.value);
      b.Println(uidString);
    }
  }

  /** What handleRfid leaves on the serial line for a card it acts on. */
  function ScanOutput(uid: seq<Byte>): string
  {
    ScanPrefix + Line(HexEncode(uid)) + Line("Executing nod sequence...") + Line("Nod sequence complete.")
  }

  /** The serial report of a card: the prefix, then the lower-case UID on its own line. */
  method ReportCard(b: Board, uid: seq<Byte>) returns (uidString: string)
    modifies b
    ensures uidString == HexEncode(uid)
    ensures b.serialOut == old(b.serialOut) + ScanPrefix + Line(uidString)
    ensures b.currentAngle == old(b.currentAngle) && b.position == old(b.position) && b.writes == old(b.writes)
    ensures b.PanelState() == old(b.PanelState()) && b.clock == old(b.clock)
  {
    b.Print(ScanPrefix);
    uidString := EncodeUid(uid);
    b.Println(uidString);
  }

  /** The card screen: RFID_DETECTED, its timer started, the title and the UID on the LCD. */
  method ShowCard(b: Board, uidText: string)
    modifies b
    ensures b.PanelState() == Panel(RfidDetected, ScannedTitle, "UID: " + uidText, old(b.actionDisplayStartTime), b.clock)
    ensures b.currentAngle == old(b.currentAngle) && b.position == old(b.position) && b.writes == old(b.writes)
    ensures b.serialOut == old(b.serialOut) && b.clock == old(b.clock)
  {
    b.displayState := RfidDetected;
    b.rfidDisplayStartTime := b.clock;
    b.lcdTop := ScannedTitle;
    b.lcdBottom := "UID: " + uidText;
  }

  lemma ScanOutputAfter(before: string, uid: seq<Byte>)
    ensures before + ScanPrefix + Line(HexEncode(uid)) + Line("Executing nod sequence...") + Line("Nod sequence complete.")
            == before + ScanOutput(uid)
  {
  }

  /**
   * handleRfid as written: when no card is on display and a card is read, it
   * prints the lower-case UID, sets RFID_DETECTED with the card screen, and
   * nods once; the nod's displayActionStatus then replaces both the screen and
   * the state, so the board ends in EXECUTING_ACTION showing the nod.
   */
  method HandleRfid(b: Board, card: Option<seq<Byte>>)
    requires b.Valid()
    modifies b
    ensures b.Valid()
    ensures old(b.displayState) == RfidDetected || card.None? ==>
              && b.serialOut == old(b.serialOut) && b.writes == old(b.writes)
              && b.currentAngle == old(b.currentAngle) && b.PanelState() == old(b.PanelState())
    ensures old(b.displayState) != RfidDetected && card.Some? ==>
              && b.serialOut == old(b.serialOut) + ScanOutput(card.value)
              && b.writes == old(b.writes) + NodTrace(1) && b.currentAngle == NodCenter
              && b.PanelState() == ActionPanel("Action: Nod", "Times: " + IntToString(1), b.clock, b.clock)
    ensures b.clock == old(b.clock)
  {
    if b.displayState != RfidDetected && card.Some? {
      var uidString := ReportCard(b, card.value);
      uidString := Upper(uidString);
      ShowCard(b, uidString);
      ExecuteNod(b, 1);
      ScanOutputAfter(old(b.serialOut), card.value);
    }
  }

  /**
   * handleRfid with the nod given before the card screen is set up: the
   * board ends in RFID_DETECTED showing the card's upper-case UID, with the
   * timer of that screen started.
   */
  method HandleRfidCorrected(b: Board, card: Option<seq<Byte>>)
    requires b.Valid()
    modifies b
    ensures b.Valid()
    ensures old(b.displayState) == RfidDetected || card.None? ==>
              && b.serialOut == old(b.serialOut) && b.writes == old(b.writes)
              && b.currentAngle == old(b.currentAngle) && b.PanelState() == old(b.PanelState())
    ensures old(b.displayState) != RfidDetected && card.Some? ==>
              && b.serialOut == old(b.serialOut) + ScanOutput(card.value)
              && b.writes == old(b.writes) + NodTrace(1) && b.currentAngle == NodCenter
              && b.PanelState() == Panel(RfidDetected, ScannedTitle, "UID: " + Base16(card.value), b.clock, b.clock)
    ensures b.clock == old(b.clock)
  {
    if b.displayState != RfidDetected && card.Some? {
      var uidString := ReportCard(b, card.value);
      uidString := Upper(uidString);
      UpperIsBase16(card.value);
      ExecuteNod(b, 1);
      ShowCard(b, uidString);
      ScanOutputAfter(old(b.serialOut), card.value);
    }
  }

  /**
   * As written, the card screen is gone as soon as handleRfid returns, so a
   * card read again at once is handled again: a second serial report and a
   * second nod.
   */
  method RescanAsWritten(b: Board, uid: seq<Byte>)
    requires b.Valid() && b.displayState != RfidDetected
    modifies b
    ensures b.displayState == ExecutingAction && b.lcdTop != ScannedTitle
    ensures b.serialOut == old(b.serialOut) + ScanOutput(uid) + ScanOutput(uid)
    ensures b.writes == old(b.writes) + NodTrace(1) + NodTrace(1)
  {
    HandleRfid(b, Some(uid));
    HandleRfid(b, Some(uid));
    assert LcdLine("Action: Nod") == "Action: Nod";
  }

  /** Corrected, the card stays on display and a card read again at once is ignored. */
  method RescanCorrected(b: Board, uid: seq<Byte>)
    requires b.Valid() && b.displayState != RfidDetected
    modifies b
    ensures b.displayState == RfidDetected && b.lcdTop == ScannedTitle
    ensures b.serialOut == old(b.serialOut) + ScanOutput(uid)
    ensures b.writes == old(b.writes) + NodTrace(1)
  {
    HandleRfidCorrected(b, Some(uid));
    HandleRfidCorrected(b, Some(uid));
  }
}
