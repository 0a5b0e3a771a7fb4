/**
 * The serial controller of src/arduino.py. The pyserial object is reduced to
 * a handle that is absent, open or closed; the port keeps the frames written
 * to it and the lines waiting to be read. Whether opening the port or a
 * write succeeds is an input of the operation.
 */
module Arduino {
  import opened Text
  import Llm

  /** The `ser` attribute: None, an open port, or a port that was closed. */
  datatype Handle = NoPort | Open | Closed

  /** The bytes written for a control command: stripped, then a newline. */
  function CommandFrame(command: string): string
  {
    Strip(command) + "\n"
  }

  /** max(minAngle, min(maxAngle, angle)), as set_angle computes it. */
  function Clamp(angle: int, minAngle: int, maxAngle: int): (r: int)
    ensures minAngle <= maxAngle ==> minAngle <= r <= maxAngle
    ensures minAngle <= angle <= maxAngle ==> r == angle
    ensures minAngle <= maxAngle && angle < minAngle ==> r == minAngle
    ensures minAngle <= maxAngle && angle > maxAngle ==> r == maxAngle
  {
    Llm.Max(minAngle, Llm.Min(maxAngle, angle))
  }

  lemma ClampIdempotent(angle: int, minAngle: int, maxAngle: int)
    requires minAngle <= maxAngle
    ensures Clamp(Clamp(angle, minAngle, maxAngle), minAngle, maxAngle) == Clamp(angle, minAngle, maxAngle)
  {
  }

  /** The frame of an angle is the frame send_command would write for its decimal text. */
  lemma AngleFrameIsCommandFrame(angle: int)
    ensures CommandFrame(IntToString(angle)) == IntToString(angle) + "\n"
  {
    StripOfIntToString(angle);
  }

  /** The lines a drain shows: each stripped, the empty ones dropped, in arrival order. */
  function Shown(lines: seq<string>): (r: seq<string>)
    ensures |r| <= |lines|
  {
    if lines == [] then []
    else
      var line := Strip(lines[0]);
      (if line != [] then [line] else []) + Shown(lines[1..])
  }

  /** One read of a drain: the first line is kept when it is not empty after stripping. */
  lemma ShownStep(kept: seq<string>, waiting: seq<string>)
    requires waiting != []
    ensures var line := Strip(waiting[0]);
            kept + Shown(waiting) == (if line != [] then kept + [line] else kept) + Shown(waiting[1..])
  {
    var line := Strip(waiting[0]);
    if line != [] {
      assert kept + ([line] + Shown(waiting[1..])) == (kept + [line]) + Shown(waiting[1..]);
    } else {
      assert [] + Shown(waiting[1..]) == Shown(waiting[1..]);
    }
  }

  /** Every line a drain shows is non-empty and has no space at either end. */
  lemma {:induction false} ShownIsClean(lines: seq<string>)
    ensures forall k :: 0 <= k < |Shown(lines)| ==> Shown(lines)[k] != [] && Strip(Shown(lines)[k]) == Shown(lines)[k]
  {
    if lines != [] {
      ShownIsClean(lines[1..]);
      StripIdempotent(lines[0]);
    }
  }

  /** Lines that are already stripped and non-empty are all shown, unchanged. */
  lemma {:induction false} ShownOfClean(lines: seq<string>)
    requires forall k :: 0 <= k < |lines| ==> lines[k] != [] && Strip(lines[k]) == lines[k]
    ensures Shown(lines) == lines
  {
    if lines != [] {
      ShownOfClean(lines[1..]);
      assert lines == [lines[0]] + lines[1..];
    }
  }

  class ArduinoController {
    var ser: Handle
    var written: seq<string>
    var inbox: seq<string>

    constructor()
      ensures ser == NoPort && written == [] && inbox == []
    {
      ser := NoPort;
      written := [];
      inbox := [];
    }

    predicate IsConnected()
      reads this
    {
      ser == Open
    }

    /**
     * Opens the port; the board's start-up lines are drained and discarded.
     * A port that cannot be opened leaves no handle at all, and so does a
     * read fault while draining (`readOk` false): the exception is caught and
     * the handle dropped although the port had opened.
     */
    method Connect(opens: bool, readOk: bool, greeting: seq<string>) returns (ok: bool)
      modifies this
      ensures ok == (opens && readOk) && ok == IsConnected()
      ensures ok ==> ser == Open && inbox == []
      ensures !ok ==> ser == NoPort
      ensures opens && !readOk ==> inbox == greeting
      ensures !opens ==> inbox == old(inbox)
      ensures written == old(written)
    {
      if opens {
        ser := Open;
        inbox := greeting;
        if !readOk {
          ser := NoPort;
          return false;
        }
        var _ := ClearInitialBuffer();
        return true;
      } else {
        ser := NoPort;
        return false;
      }
    }

    /** _clear_initial_buffer: drains the waiting lines when connected. */
    method ClearInitialBuffer() returns (shown: seq<string>)
      modifies this
      ensures IsConnected() == old(IsConnected()) && ser == old(ser) && written == old(written)
      ensures old(IsConnected()) ==> inbox == [] && shown == Shown(old(inbox))
      ensures !old(IsConnected()) ==> inbox == old(inbox) && shown == []
    {
      if !IsConnected() {
        return [];
      }
      shown := DrainLines();
    }

    /** _read_response: every waiting line is read; the non-empty ones are kept. */
    method ReadResponse() returns (responseLines: seq<string>)
      modifies this
      ensures inbox == [] && responseLines == Shown(old(inbox))
      ensures ser == old(ser) && written == old(written)
    {
      responseLines := DrainLines();
    }

    /** The `while in_waiting > 0` loop both drains share. */
    method DrainLines() returns (lines: seq<string>)
      modifies this
      ensures inbox == [] && lines == Shown(old(inbox))
      ensures ser == old(ser) && written == old(written)
    {
      lines := [];
      ghost var all := inbox;
      assert [] + Shown(inbox) == Shown(all);
      while |inbox| > 0
        invariant lines + Shown(inbox) == Shown(all)
        invariant ser == old(ser) && written == old(written)
        decreases |inbox|
      {
        ghost var waiting := inbox;
        ShownStep(lines, waiting);
        var line := ReadLine();
        if line != [] {
          lines := lines + [line];
        }
      }
    }

    /** ser.readline().decode().strip(): the first waiting line, stripped. */
    method ReadLine() returns (line: string)
      requires inbox != []
      modifies this
      ensures line == Strip(old(inbox)[0]) && inbox == old(inbox)[1..]
      ensures ser == old(ser) && written == old(written)
    {
      line := Strip(inbox[0]);
      inbox := inbox[1..];
    }

    /** send_command: refused when not connected; a failed write reports False. */
    method SendCommand(command: string, writeOk: bool) returns (ok: bool)
      modifies this
      ensures ok <==> old(IsConnected()) && writeOk
      ensures ok ==> written == old(written) + [CommandFrame(command)]
      ensures !ok ==> written == old(written)
      ensures ser == old(ser) && inbox == old(inbox)
    {
      if !IsConnected() {
        return false;
      }
      if writeOk {
        written := written + [Strip(command) + "\n"];
        return true;
      }
      return false;
    }

    /**
     * set_angle: the angle is clamped into [minAngle, maxAngle] and written;
     * after a successful write the board's answer is drained. A read fault
     * while draining (`readOk` false) reports False although the frame has
     * already gone out; the port stays open.
     */
    method SetAngle(angle: int, minAngle: int, maxAngle: int, writeOk: bool, readOk: bool) returns (ok: bool)
      modifies this
      ensures ok <==> old(IsConnected()) && writeOk && readOk
      ensures old(IsConnected()) && writeOk ==>
                written == old(written) + [IntToString(Clamp(angle, minAngle, maxAngle)) + "\n"]
      ensures !(old(IsConnected()) && writeOk) ==> written == old(written)
      ensures ok ==> inbox == []
      ensures !ok ==> inbox == old(inbox)
      ensures ser == old(ser)
    {
      if !IsConnected() {
        return false;
      }
      var clampedAngle := Llm.Max(minAngle, Llm.Min(maxAngle, angle));
      if !writeOk {
        return false;
      }
      written := written + [IntToString(clampedAngle) + "\n"];
      if !readOk {
        return false;
      }
      var _ := ReadResponse();
      return true;
    }

    /** disconnect: closes an open port; on anything else it does nothing. */
    method Disconnect()
      modifies this
      ensures !IsConnected()
      ensures old(IsConnected()) ==> ser == Closed
      ensures !old(IsConnected()) ==> ser == old(ser)
      ensures written == old(written) && inbox == old(inbox)
    {
      if IsConnected() {
        ser := Closed;
      }
    }
  }

  /** Disconnecting twice leaves the controller as one disconnect does. */
  method DisconnectTwice(c: ArduinoController)
    modifies c
    ensures !c.IsConnected()
    ensures old(c.IsConnected()) ==> c.ser == Closed
    ensures !old(c.IsConnected()) ==> c.ser == old(c.ser)
    ensures c.written == old(c.written) && c.inbox == old(c.inbox)
  {
    c.Disconnect();
    ghost var once := c.ser;
    c.Disconnect();
    assert c.ser == once;
  }

  /**
   * After a failed connect, whether the port would not open or the drain
   * raised, nothing can be sent.
   */
  method SendAfterFailedConnect(c: ArduinoController, opens: bool, readOk: bool, greeting: seq<string>,
                                command: string, writeOk: bool) returns (ok: bool)
    requires !(opens && readOk)
    modifies c
    ensures !ok && c.written == old(c.written)
  {
    var _ := c.Connect(opens, readOk, greeting);
    ok := c.SendCommand(command, writeOk);
  }
}
