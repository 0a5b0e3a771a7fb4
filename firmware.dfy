/**
 * The firmware's globals (config.h) and the primitives the actions use: the
 * servo, the serial line, the LCD's two lines and the display state set by
 * displayActionStatus. Delays are not modelled, so the millisecond clock does
 * not advance during an action.
 */
module Firmware {
  import opened Text
  import opened Config

  datatype DisplayState =
    | WelcomeSequence
    | AwaitingAuth
    | AuthFailure
    | Idle
    | Thinking
    | ExecutingAction
    | ShuttingDown
    | RfidDetected

  /** Arduino's constrain(x, lo, hi). */
  function Constrain(x: int, lo: int, hi: int): (r: int)
    ensures lo <= hi ==> lo <= r <= hi
    ensures lo <= x <= hi ==> r == x
    ensures x < lo ==> r == lo
    ensures lo <= x && hi < x ==> r == hi
  {
    if x < lo then lo else if x > hi then hi else x
  }

  /** String::substring(0, 16): at most the first sixteen characters. */
  function LcdLine(s: string): (r: string)
    ensures |r| <= 16
    ensures |s| <= 16 ==> r == s
    ensures |s| > 16 ==> |r| == 16
    ensures r == s[..|r|]
  {
    if |s| <= 16 then s else s[..16]
  }

  /** What Serial.println sends: the text and a carriage return and line feed. */
  function Line(s: string): string
  {
    s + "\r\n"
  }

  /**
   * What the display shows and the two timers that govern it: the display
   * state, the LCD's two lines, and when the current action and RFID
   * screens started.
   */
  datatype Panel = Panel(state: DisplayState, top: string, bottom: string, actionStart: int, rfidStart: int)

  /** The panel displayActionStatus leaves: both lines cut to sixteen columns, the action timer at `now`. */
  function ActionPanel(line1: string, line2: string, now: int, rfidStart: int): (p: Panel)
    ensures p.state == ExecutingAction && p.actionStart == now && p.rfidStart == rfidStart
    ensures p.top == LcdLine(line1) && p.bottom == LcdLine(line2)
    ensures |p.top| <= 16 && |p.bottom| <= 16
  {
    Panel(ExecutingAction, LcdLine(line1), LcdLine(line2), now, rfidStart)
  }

  /** Every position in the list is a valid servo angle. */
  predicate AllInRange(positions: seq<int>)
  {
    forall i :: 0 <= i < |positions| ==> InRange(positions[i])
  }

  class Board {
    var currentAngle: int
    var position: int        // the last position written to the servo, what myservo.read() gives
    var writes: seq<int>     // every position written to the servo, in order
    var displayState: DisplayState
    var lcdTop: string
    var lcdBottom: string
    var actionDisplayStartTime: int
    var rfidDisplayStartTime: int
    var clock: int           // millis()
    var serialOut: string    // everything written to the serial line

    function PanelState(): Panel
      reads this
    {
      Panel(displayState, lcdTop, lcdBottom, actionDisplayStartTime, rfidDisplayStartTime)
    }

    /** The servo has only ever been driven to valid angles, and the last one is where it stands. */
    predicate Valid()
      reads this
    {
      && InRange(currentAngle) && InRange(position) && AllInRange(writes)
      && (writes != [] ==> position == writes[|writes| - 1])
    }

    constructor(now: int)
      ensures Valid()
      ensures currentAngle == InitialAngle && position == InitialAngle && writes == []
      ensures displayState == WelcomeSequence && clock == now && serialOut == []
    {
      currentAngle := InitialAngle;
      position := InitialAngle;
      writes := [];
      displayState := WelcomeSequence;
      lcdTop := [];
      lcdBottom := [];
      actionDisplayStartTime := 0;
      rfidDisplayStartTime := 0;
      clock := now;
      serialOut := [];
    }

    /** myservo.write for an angle in range. */
    method Write(angle: int)
      requires Valid() && InRange(angle)
      modifies this
      ensures Valid()
      ensures writes == old(writes) + [angle] && position == angle
      ensures currentAngle == old(currentAngle) && serialOut == old(serialOut)
      ensures PanelState() == old(PanelState()) && clock == old(clock)
    {
      writes := writes + [angle];
      position := angle;
    }

    method Print(s: string)
      modifies this
      ensures serialOut == old(serialOut) + s
      ensures currentAngle == old(currentAngle) && position == old(position) && writes == old(writes)
      ensures PanelState() == old(PanelState()) && clock == old(clock)
    {
      serialOut := serialOut + s;
    }

    method Println(s: string)
      modifies this
      ensures serialOut == old(serialOut) + Line(s)
      ensures currentAngle == old(currentAngle) && position == old(position) && writes == old(writes)
      ensures PanelState() == old(PanelState()) && clock == old(clock)
    {
      serialOut := serialOut + Line(s);
    }

    /**
     * displayActionStatus (display_functions.cpp): both lines cut to the
     * sixteen columns of the LCD, the action timer started, and the display
     * state switched to EXECUTING_ACTION.
     */
    method DisplayActionStatus(line1: string, line2: string)
      modifies this
      ensures PanelState() == ActionPanel(line1, line2, clock, old(rfidDisplayStartTime))
      ensures currentAngle == old(currentAngle) && position == old(position) && writes == old(writes)
      ensures serialOut == old(serialOut) && Valid() == old(Valid()) && clock == old(clock)
    {
      lcdTop := LcdLine(line1);
      lcdBottom := LcdLine(line2);
      actionDisplayStartTime := clock;
      displayState := ExecutingAction;
    }
  }

  /**
   * Arduino's random(lo, hi): a value from lo up to but excluding hi, or lo
   * itself when the range is empty. The choice is left open.
   */
  method Random(lo: int, hi: int) returns (r: int)
    ensures lo < hi ==> lo <= r < hi
    ensures hi <= lo ==> r == lo
  {
    if hi <= lo {
      r := lo;
    } else {
      r :| lo <= r < hi;
    }
  }
}
