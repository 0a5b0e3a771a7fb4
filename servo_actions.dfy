/**
 * The motion actions of servo_actions.cpp. Each action is specified by the
 * list of positions it writes to the servo; the delays between writes and
 * the random delays of the shakes are not modelled.
 */
module ServoActions {
  import opened Text
  import opened Config
  import opened Firmware

  // ---------------------------------------------------------------------
  // The write traces
  // ---------------------------------------------------------------------

  /** `pattern` written `n` times over; nothing when n is zero or negative. */
  function Repeat(pattern: seq<int>, n: int): (r: seq<int>)
    ensures n <= 0 ==> r == []
    ensures forall i :: 0 <= i < |r| ==> r[i] in pattern
    decreases n
  {
    if n <= 0 then [] else Repeat(pattern, n - 1) + pattern
  }

  lemma {:induction false} RepeatLength(pattern: seq<int>, n: nat)
    ensures |Repeat(pattern, n)| == n * |pattern|
  {
    if n > 0 {
      RepeatLength(pattern, n - 1);
    }
  }

  /** The ascending sweep 0, 2, 4, ... : its first k positions. */
  function Ascending(k: nat): (r: seq<int>)
    ensures |r| == k
  {
    seq(k, i => MinAngle + 2 * i)
  }

  /** The descending sweep 180, 178, ... : its first k positions. */
  function Descending(k: nat): (r: seq<int>)
    ensures |r| == k
  {
    seq(k, i => MaxAngle - 2 * i)
  }

  /** Number of positions in each half of a sweep: 0..180 by steps of two. */
  const SweepHalf: nat := 91

  /** One sweep repetition: up from the minimum to the maximum, then back down. */
  function SweepCycle(): seq<int>
  {
    Ascending(SweepHalf) + Descending(SweepHalf)
  }

  function SpinTrace(times: int, startAngle: int): seq<int>
  {
    Repeat([MinAngle, MaxAngle], times) + [startAngle]
  }

  function SweepTrace(repetitions: int, startAngle: int): seq<int>
  {
    Repeat(SweepCycle(), repetitions) + [startAngle]
  }

  const NodCenter := 90
  const NodRange := 30

  function NodTrace(times: int): seq<int>
  {
    [NodCenter] + Repeat([NodCenter - NodRange, NodCenter + NodRange], times) + [NodCenter]
  }

  const ShakeCenter := 90
  const ShakeRange := 45

  /** The number of random positions of a shake of `times` (the loop runs times * 6 rounds). */
  function ShakeMoves(times: int): nat
  {
    if times * 6 > 0 then times * 6 else 0
  }

  /** A shake's writes: the center, the random positions within 45 of it, the center. */
  predicate ShakeTrace(trace: seq<int>, times: int)
  {
    && |trace| == ShakeMoves(times) + 2
    && trace[0] == ShakeCenter && trace[|trace| - 1] == ShakeCenter
    && forall i :: 0 < i < |trace| - 1 ==> ShakeCenter - ShakeRange <= trace[i] <= ShakeCenter + ShakeRange
  }

  // ---------------------------------------------------------------------
  // What the traces promise
  // ---------------------------------------------------------------------

  /** A spin drives the servo to valid angles only and ends where it started. */
  lemma SpinTraceSafe(times: int, startAngle: int)
    requires InRange(startAngle)
    ensures AllInRange(SpinTrace(times, startAngle))
    ensures SpinTrace(times, startAngle)[|SpinTrace(times, startAngle)| - 1] == startAngle
  {
  }

  /** Without repetitions a spin is only the restoring write. */
  lemma SpinNoTimes(times: int, startAngle: int)
    requires times <= 0
    ensures SpinTrace(times, startAngle) == [startAngle]
  {
  }

  /** Each sweep half visits the even angles of the range in order. */
  lemma SweepCycleShape()
    ensures |SweepCycle()| == 2 * SweepHalf
    ensures forall i :: 0 <= i < SweepHalf ==> SweepCycle()[i] == 2 * i
    ensures forall i :: 0 <= i < SweepHalf ==> SweepCycle()[SweepHalf + i] == MaxAngle - 2 * i
    ensures SweepCycle()[SweepHalf - 1] == MaxAngle && SweepCycle()[2 * SweepHalf - 1] == MinAngle
  {
  }

  /** Every position of a sweep cycle is an even angle in range. */
  lemma SweepCycleEvenInRange()
    ensures forall i :: 0 <= i < |SweepCycle()| ==> SweepCycle()[i] % 2 == 0 && InRange(SweepCycle()[i])
  {
    SweepCycleShape();
  }

  /**
   * A sweep writes only even angles in range before the restoring write, and
   * ends where it started.
   */
  lemma SweepTraceSafe(repetitions: int, startAngle: int)
    requires InRange(startAngle)
    ensures var t := SweepTrace(repetitions, startAngle);
            && (forall i :: 0 <= i < |t| - 1 ==> t[i] % 2 == 0 && InRange(t[i]))
            && t[|t| - 1] == startAngle && AllInRange(t)
  {
    SweepCycleEvenInRange();
    var t := SweepTrace(repetitions, startAngle);
    var r := Repeat(SweepCycle(), repetitions);
    forall i | 0 <= i < |t| - 1
      ensures t[i] % 2 == 0 && InRange(t[i])
    {
      assert t[i] == r[i];
      assert r[i] in SweepCycle();
    }
  }

  /** A nod starts and ends at the center and swings 30 degrees either way. */
  lemma NodTraceShape(times: int)
    ensures var t := NodTrace(times);
            && t[0] == 90 && t[|t| - 1] == 90 && AllInRange(t)
            && forall i :: 0 < i < |t| - 1 ==> t[i] == 60 || t[i] == 120
  {
    var t := NodTrace(times);
    var r := Repeat([60, 120], times);
    forall i | 0 < i < |t| - 1
      ensures t[i] == 60 || t[i] == 120
    {
      assert t[i] == r[i - 1];
      assert r[i - 1] in [60, 120];
    }
  }

  /** A shake stays within [45, 135], which lies inside the servo's range. */
  lemma ShakeTraceInRange(trace: seq<int>, times: int)
    requires ShakeTrace(trace, times)
    ensures AllInRange(trace)
  {
  }

  // ---------------------------------------------------------------------
  // The actions
  // ---------------------------------------------------------------------

  /** executeGoTo: the angle is constrained into range, adopted and written. */
  method ExecuteGoTo(b: Board, angle: int)
    requires b.Valid()
    modifies b
    ensures b.Valid()
    ensures b.currentAngle == Constrain(angle, MinAngle, MaxAngle)
    ensures b.writes == old(b.writes) + [b.currentAngle]
    ensures b.PanelState() == ActionPanel("Moving to Angle", IntToString(b.currentAngle) + " deg", b.clock,
                                          old(b.rfidDisplayStartTime))
    ensures b.serialOut == old(b.serialOut) + "Motor moved to: " + Line(IntToString(b.currentAngle))
    ensures b.clock == old(b.clock)
  {
    var target := Constrain(angle, MinAngle, MaxAngle);
    b.DisplayActionStatus("Moving to Angle", IntToString(target) + " deg");
    b.currentAngle := target;
    b.Write(b.currentAngle);
    b.Print("Motor moved to: ");
    b.Println(IntToString(b.currentAngle));
  }

  /**
   * The `for (i = 0; i < times; i++)` loop of executeSpin and executeNod:
   * the two positions written alternately, `times` times.
   */
  method Alternate(b: Board, low: int, high: int, times: int)
    requires b.Valid() && InRange(low) && InRange(high)
    modifies b
    ensures b.Valid()
    ensures b.writes == old(b.writes) + Repeat([low, high], times)
    ensures b.currentAngle == old(b.currentAngle) && b.serialOut == old(b.serialOut)
    ensures b.PanelState() == old(b.PanelState()) && b.clock == old(b.clock)
  {
    var i := 0;
    while i < times
      invariant b.Valid()
      invariant 0 <= i <= if times > 0 then times else 0
      invariant b.writes == old(b.writes) + Repeat([low, high], i)
      invariant b.currentAngle == old(b.currentAngle) && b.serialOut == old(b.serialOut)
      invariant b.PanelState() == old(b.PanelState()) && b.clock == old(b.clock)
    {
      ghost var before := b.writes;
      b.Write(low);
      b.Write(high);
      assert b.writes == before + [low, high];
      i := i + 1;
    }
  }

  /**
   * executeSpin: minimum and maximum alternately, `times` times, then back
   * to the position the servo held before; currentAngle becomes that position.
   */
  method ExecuteSpin(b: Board, times: int)
    requires b.Valid()
    modifies b
    ensures b.Valid()
    ensures b.writes == old(b.writes) + SpinTrace(times, old(b.position))
    ensures b.currentAngle == old(b.position) && b.position == old(b.position)
    ensures b.PanelState() == ActionPanel("Action: Spin", "Times: " + IntToString(times), b.clock,
                                          old(b.rfidDisplayStartTime))
    ensures b.serialOut == old(b.serialOut) + Line("Executing spin sequence...") + Line("Spin sequence complete.")
    ensures b.clock == old(b.clock)
  {
    b.DisplayActionStatus("Action: Spin", "Times: " + IntToString(times));
    ghost var panel := b.PanelState();
    b.Println("Executing spin sequence...");
    var startAngle := b.position;
    ghost var start := b.writes;
    Alternate(b, MinAngle, MaxAngle, times);
    b.Write(startAngle);
    SpinTraceAfter(start, times, startAngle);
    b.currentAngle := startAngle;
    b.Println("Spin sequence complete.");
    assert b.PanelState() == panel;
  }

  /** The writes of a spin, appended one piece at a time, make up its trace. */
  lemma SpinTraceAfter(start: seq<int>, times: int, startAngle: int)
    ensures start + Repeat([MinAngle, MaxAngle], times) + [startAngle] == start + SpinTrace(times, startAngle)
  {
  }

  /** The ascending half of a sweep: `for (pos = 0; pos <= 180; pos += 2)`. */
  method SweepUp(b: Board)
    requires b.Valid()
    modifies b
    ensures b.Valid()
    ensures b.writes == old(b.writes) + Ascending(SweepHalf)
    ensures b.currentAngle == old(b.currentAngle) && b.serialOut == old(b.serialOut)
    ensures b.PanelState() == old(b.PanelState()) && b.clock == old(b.clock)
  {
    var pos := MinAngle;
    while pos <= MaxAngle
      invariant b.Valid()
      invariant MinAngle <= pos <= MaxAngle + 2 && pos % 2 == 0
      invariant b.writes == old(b.writes) + Ascending(pos / 2)
      invariant b.currentAngle == old(b.currentAngle) && b.serialOut == old(b.serialOut)
      invariant b.PanelState() == old(b.PanelState()) && b.clock == old(b.clock)
    {
      b.Write(pos);
      assert Ascending(pos / 2 + 1) == Ascending(pos / 2) + [pos];
      pos := pos + 2;
    }
  }

  /** The descending half of a sweep: `for (pos = 180; pos >= 0; pos -= 2)`. */
  method SweepDown(b: Board)
    requires b.Valid()
    modifies b
    ensures b.Valid()
    ensures b.writes == old(b.writes) + Descending(SweepHalf)
    ensures b.currentAngle == old(b.currentAngle) && b.serialOut == old(b.serialOut)
    ensures b.PanelState() == old(b.PanelState()) && b.clock == old(b.clock)
  {
    var pos := MaxAngle;
    while pos >= MinAngle
      invariant b.Valid()
      invariant MinAngle - 2 <= pos <= MaxAngle && pos % 2 == 0
      invariant b.writes == old(b.writes) + Descending((MaxAngle - pos) / 2)
      invariant b.currentAngle == old(b.currentAngle) && b.serialOut == old(b.serialOut)
      invariant b.PanelState() == old(b.PanelState()) && b.clock == old(b.clock)
    {
      b.Write(pos);
      assert Descending((MaxAngle - pos) / 2 + 1) == Descending((MaxAngle - pos) / 2) + [pos];
      pos := pos - 2;
    }
  }

  /** An ascending and a descending pass after `i` cycles make `i + 1` cycles. */
  lemma SweepRoundStep(start: seq<int>, i: nat)
    ensures start + Repeat(SweepCycle(), i) + Ascending(SweepHalf) + Descending(SweepHalf)
            == start + Repeat(SweepCycle(), i + 1)
  {
  }

  /** The `repetitions` rounds of executeSweep, each one ascending and one descending pass. */
  method SweepRounds(b: Board, repetitions: int)
    requires b.Valid()
    modifies b
    ensures b.Valid()
    ensures b.writes == old(b.writes) + Repeat(SweepCycle(), repetitions)
    ensures b.currentAngle == old(b.currentAngle) && b.serialOut == old(b.serialOut)
    ensures b.PanelState() == old(b.PanelState()) && b.clock == old(b.clock)
  {
    var i := 0;
    while i < repetitions
      invariant b.Valid()
      invariant 0 <= i <= if repetitions > 0 then repetitions else 0
      invariant b.writes == old(b.writes) + Repeat(SweepCycle(), i)
      invariant b.currentAngle == old(b.currentAngle) && b.serialOut == old(b.serialOut)
      invariant b.PanelState() == old(b.PanelState()) && b.clock == old(b.clock)
    {
      SweepUp(b);
      SweepDown(b);
      SweepRoundStep(old(b.writes), i);
      i := i + 1;
    }
  }

  /**
   * executeSweep: `repetitions` full up-and-down sweeps by steps of two
   * degrees, then back to the starting position, which currentAngle takes.
   */
  method ExecuteSweep(b: Board, repetitions: int)
    requires b.Valid()
    modifies b
    ensures b.Valid()
    ensures b.writes == old(b.writes) + SweepTrace(repetitions, old(b.position))
    ensures b.currentAngle == old(b.position) && b.position == old(b.position)
    ensures b.PanelState() == ActionPanel("Action: Sweep", "Reps: " + IntToString(repetitions), b.clock,
                                          old(b.rfidDisplayStartTime))
    ensures b.serialOut == old(b.serialOut) + Line("Executing sweep sequence...") + Line("Sweep sequence complete.")
    ensures b.clock == old(b.clock)
  {
    b.DisplayActionStatus("Action: Sweep", "Reps: " + IntToString(repetitions));
    ghost var panel := b.PanelState();
    b.Println("Executing sweep sequence...");
    var startAngle := b.position;
    SweepRounds(b, repetitions);
    b.Write(startAngle);
    b.currentAngle := startAngle;
    b.Println("Sweep sequence complete.");
    assert b.PanelState() == panel;
  }

  /** executeNod: center, then 60 and 120 `times` times, then center; currentAngle becomes 90. */
  method ExecuteNod(b: Board, times: int)
    requires b.Valid()
    modifies b
    ensures b.Valid()
    ensures b.writes == old(b.writes) + NodTrace(times)
    ensures b.currentAngle == NodCenter && b.position == NodCenter
    ensures b.PanelState() == ActionPanel("Action: Nod", "Times: " + IntToString(times), b.clock,
                                          old(b.rfidDisplayStartTime))
    ensures b.serialOut == old(b.serialOut) + Line("Executing nod sequence...") + Line("Nod sequence complete.")
    ensures b.clock == old(b.clock)
  {
    b.DisplayActionStatus("Action: Nod", "Times: " + IntToString(times));
    ghost var panel := b.PanelState();
    b.Println("Executing nod sequence...");
    var center := NodCenter;
    var nodRange := NodRange;
    ghost var start := b.writes;
    b.Write(center);
    Alternate(b, center - nodRange, center + nodRange, times);
    b.Write(center);
    NodTraceAfter(start, times);
    b.currentAngle := center;
    b.Println("Nod sequence complete.");
    assert b.PanelState() == panel;
  }

  /** The writes of a nod, appended one piece at a time, make up its trace. */
  lemma NodTraceAfter(start: seq<int>, times: int)
    ensures start + [NodCenter] + Repeat([NodCenter - NodRange, NodCenter + NodRange], times) + [NodCenter]
            == start + NodTrace(times)
  {
  }

  /**
   * The motion both shakes share: the center, times * 6 random positions
   * from random(45, 136), and the center again.
   */
  method ShakeMotion(b: Board, times: int)
    requires b.Valid()
    modifies b
    ensures b.Valid()
    ensures |old(b.writes)| <= |b.writes| && b.writes[..|old(b.writes)|] == old(b.writes)
    ensures ShakeTrace(b.writes[|old(b.writes)|..], times)
    ensures b.currentAngle == old(b.currentAngle) && b.serialOut == old(b.serialOut)
    ensures b.PanelState() == old(b.PanelState()) && b.clock == old(b.clock)
  {
    var center := ShakeCenter;
    var shakeRange := ShakeRange;
    var shakeMovements := times * 6;
    b.Write(center);
    ghost var moves: seq<int> := [];
    var i := 0;
    while i < shakeMovements
      invariant b.Valid()
      invariant 0 <= i <= if shakeMovements > 0 then shakeMovements else 0
      invariant |moves| == i && b.writes == old(b.writes) + [center] + moves
      invariant forall k :: 0 <= k < |moves| ==> center - shakeRange <= moves[k] <= center + shakeRange
      invariant b.currentAngle == old(b.currentAngle) && b.serialOut == old(b.serialOut)
      invariant b.PanelState() == old(b.PanelState()) && b.clock == old(b.clock)
    {
      var randomAngle := Random(center - shakeRange, center + shakeRange + 1);
      b.Write(randomAngle);
      moves := moves + [randomAngle];
      i := i + 1;
    }
    b.Write(center);
    ShakeTraceOf(old(b.writes), moves, times);
  }

  /** The writes of a shake, split into the prefix, the center, the random moves and the center. */
  lemma ShakeTraceOf(before: seq<int>, moves: seq<int>, times: int)
    requires |moves| == ShakeMoves(times)
    requires forall k :: 0 <= k < |moves| ==> ShakeCenter - ShakeRange <= moves[k] <= ShakeCenter + ShakeRange
    ensures var w := before + [ShakeCenter] + moves + [ShakeCenter];
            w[..|before|] == before && ShakeTrace(w[|before|..], times)
  {
    var w := before + [ShakeCenter] + moves + [ShakeCenter];
    assert w[|before|..] == [ShakeCenter] + moves + [ShakeCenter];
  }

  /** executeShake: an announced shake that leaves the servo and currentAngle at 90. */
  method ExecuteShake(b: Board, times: int)
    requires b.Valid()
    modifies b
    ensures b.Valid()
    ensures |old(b.writes)| <= |b.writes| && b.writes[..|old(b.writes)|] == old(b.writes)
    ensures ShakeTrace(b.writes[|old(b.writes)|..], times)
    ensures b.currentAngle == ShakeCenter && b.position == ShakeCenter
    ensures b.PanelState() == ActionPanel("Action: Shake", "Times: " + IntToString(times), b.clock,
                                          old(b.rfidDisplayStartTime))
    ensures b.serialOut == old(b.serialOut) + Line("Executing chaotic shake sequence...") + Line("Shake sequence complete.")
    ensures b.clock == old(b.clock)
  {
    b.DisplayActionStatus("Action: Shake", "Times: " + IntToString(times));
    ghost var panel := b.PanelState();
    b.Println("Executing chaotic shake sequence...");
    ShakeMotion(b, times);
    b.currentAngle := ShakeCenter;
    b.Println("Shake sequence complete.");
    assert b.PanelState() == panel;
  }

  /**
   * executeShakeSilent: the same motion with no display, no serial output and
   * currentAngle left alone, although the servo ends at 90.
   */
  method ExecuteShakeSilent(b: Board, times: int)
    requires b.Valid()
    modifies b
    ensures b.Valid()
    ensures |old(b.writes)| <= |b.writes| && b.writes[..|old(b.writes)|] == old(b.writes)
    ensures ShakeTrace(b.writes[|old(b.writes)|..], times) && b.position == ShakeCenter
    ensures b.currentAngle == old(b.currentAngle) && b.serialOut == old(b.serialOut)
    ensures b.PanelState() == old(b.PanelState()) && b.clock == old(b.clock)
  {
    ShakeMotion(b, times);
  }
}
