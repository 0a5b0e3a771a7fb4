/**
 * The language-model side of command resolution in src/llm.py: the keyword
 * fast path, the reading of an angle out of the model's reply, and the
 * prompt sent to the model. The two HTTP helpers are not modelled; the model
 * appears elsewhere as an oracle that returns an optional reply.
 */
module Llm {
  import opened Text
  import opened Optional
  import opened Scan

  function Min(a: int, b: int): int { if a <= b then a else b }

  function Max(a: int, b: int): int { if a >= b then a else b }

  // ---------------------------------------------------------------------
  // parse_angle_from_llm_text
  // ---------------------------------------------------------------------

  /**
   * The angle in the model's reply: the value of the FIRST standalone number
   * of one to three digits, kept only when it lies in [minAngle, maxAngle].
   * An out-of-range first number is not clamped and not replaced by a later
   * number.
   */
  function ParseAngleFromLlmText(llmText: string, minAngle: int, maxAngle: int): (r: Option<int>)
    ensures llmText == [] ==> r == None
    ensures r.Some? ==> minAngle <= r.value <= maxAngle
    ensures r.Some? ==> exists g :: IsFirstNumber(llmText, g) && r.value == NumberValue(llmText, g)
    ensures r.Some? <==>
              exists g :: IsFirstNumber(llmText, g) && minAngle <= NumberValue(llmText, g) <= maxAngle
  {
    if llmText == [] then None
    else
      match FirstNumber(llmText)
      case None => None
      case Some(g) =>
        var angle := NumberValue(llmText, g);
        assert forall h :: IsFirstNumber(llmText, h) ==> h == g by {
          forall h | IsFirstNumber(llmText, h) ensures h == g { FirstNumberUnique(llmText, g, h); }
        }
        if minAngle <= angle <= maxAngle then Some(angle) else None
  }

  /** A reply that is just a number below 1000 gives that number exactly when it is in range. */
  lemma ParseAngleOfNumeral(n: nat, minAngle: int, maxAngle: int)
    requires n < 1000
    ensures ParseAngleFromLlmText(NatToString(n), minAngle, maxAngle) ==
            if minAngle <= n <= maxAngle then Some(n) else None
  {
    var s := NatToString(n);
    NatToStringShort(n);
    ShortNumeralIsFirstNumber(s);
    assert s[0..|s|] == s;
    DecimalOfNatToString(n);
  }

  /** A reply of exactly "145" gives 145 in the range 0..180. */
  lemma ParseAngleAccepts145()
    ensures ParseAngleFromLlmText("145", 0, 180) == Some(145)
  {
    ParseAngleOfNumeral(145, 0, 180);
    assert NatToString(145) == "145";
  }

  /** A reply of "200" is out of range and is refused, not clamped to 180. */
  lemma ParseAngleRefuses200()
    ensures ParseAngleFromLlmText("200", 0, 180) == None
  {
    ParseAngleOfNumeral(200, 0, 180);
    assert NatToString(200) == "200";
  }

  /** A number glued to letters is not a standalone number. */
  lemma ParseAngleIgnoresGluedDigits()
    ensures ParseAngleFromLlmText("abc123", 0, 180) == None
  {
    WordHasNoNumber("abc123");
  }

  /** Four digits in a row are not a standalone number of one to three digits. */
  lemma ParseAngleIgnoresLongNumbers()
    ensures ParseAngleFromLlmText("1234", 0, 180) == None
  {
    LongNumeralHasNoNumber("1234");
  }

  // ---------------------------------------------------------------------
  // parse_command_with_keywords
  // ---------------------------------------------------------------------

  /** "bit" or "slightly" marks a relative move by one step. */
  predicate Slight(lower: string)
  {
    Contains(lower, "bit") || Contains(lower, "slightly")
  }

  /** The in-range "set to N"/"move to N" target of the lowered input, if any. */
  function InRangeTarget(lower: string, minAngle: int, maxAngle: int): (r: Option<int>)
    ensures r.Some? ==> minAngle <= r.value <= maxAngle
    ensures r.Some? <==>
              exists t :: IsFirstTarget(lower, t) && minAngle <= TargetValue(lower, t) <= maxAngle
    ensures r.Some? ==> exists t :: IsFirstTarget(lower, t) && r.value == TargetValue(lower, t)
  {
    match FirstTarget(lower)
    case None => None
    case Some(t) =>
      assert forall u :: IsFirstTarget(lower, u) ==> u == t by {
        forall u | IsFirstTarget(lower, u) ensures u == t { FirstTargetUnique(lower, t, u); }
      }
      var n := TargetValue(lower, t);
      if minAngle <= n <= maxAngle then Some(n) else None
  }

  /**
   * The keyword fast path. An in-range explicit target wins; otherwise any
   * input containing "open" opens (by one step when "bit"/"slightly" is
   * present, else fully), and only input without "open" may close.
   */
  function ParseCommandWithKeywords(userInputRaw: string, currentAngle: int, minAngle: int, maxAngle: int,
                                    defaultStep: int): (r: Option<int>)
    ensures var lower := Lower(userInputRaw);
            InRangeTarget(lower, minAngle, maxAngle).Some? ==> r == InRangeTarget(lower, minAngle, maxAngle)
    ensures var lower := Lower(userInputRaw);
            r.None? <==> InRangeTarget(lower, minAngle, maxAngle).None?
                         && !Contains(lower, "open") && !Contains(lower, "close")
    ensures minAngle <= currentAngle <= maxAngle && defaultStep >= 0 && r.Some? ==>
              minAngle <= r.value <= maxAngle
  {
    var lower := Lower(userInputRaw);
    var target := InRangeTarget(lower, minAngle, maxAngle);
    if target.Some? then target
    else if Contains(lower, "open") then
      if Slight(lower) then Some(Min(maxAngle, currentAngle + defaultStep)) else Some(maxAngle)
    else if Contains(lower, "close") then
      if Slight(lower) then Some(Max(minAngle, currentAngle - defaultStep)) else Some(minAngle)
    else None
  }

  /**
   * Without an in-range target, "open" decides the answer even when "close"
   * is present as well: one step up with "bit"/"slightly", else the maximum.
   */
  lemma KeywordsOpenWins(userInputRaw: string, currentAngle: int, minAngle: int, maxAngle: int, defaultStep: int)
    requires InRangeTarget(Lower(userInputRaw), minAngle, maxAngle).None?
    requires Contains(Lower(userInputRaw), "open")
    ensures ParseCommandWithKeywords(userInputRaw, currentAngle, minAngle, maxAngle, defaultStep) ==
              if Slight(Lower(userInputRaw)) then Some(Min(maxAngle, currentAngle + defaultStep))
              else Some(maxAngle)
  {
  }

  /** "close" is consulted only when "open" is absent, symmetrically with "open". */
  lemma KeywordsClose(userInputRaw: string, currentAngle: int, minAngle: int, maxAngle: int, defaultStep: int)
    requires InRangeTarget(Lower(userInputRaw), minAngle, maxAngle).None?
    requires !Contains(Lower(userInputRaw), "open") && Contains(Lower(userInputRaw), "close")
    ensures ParseCommandWithKeywords(userInputRaw, currentAngle, minAngle, maxAngle, defaultStep) ==
              if Slight(Lower(userInputRaw)) then Some(Max(minAngle, currentAngle - defaultStep))
              else Some(minAngle)
  {
  }

  /** Lower-casing a digit-free input keeps it digit-free. */
  lemma LowerKeepsNoDigit(s: string)
    requires forall k :: 0 <= k < |s| ==> !IsDigit(s[k])
    ensures forall k :: 0 <= k < |Lower(s)| ==> !IsDigit(Lower(s)[k])
  {
  }

  /**
   * Digit-free input whose lower-cased form mentions "open" and "bit" opens
   * by one step, capped at the maximum, whatever the capitals.
   */
  lemma KeywordsOpenABitAnywhere(userInputRaw: string, currentAngle: int, minAngle: int, maxAngle: int,
                                 defaultStep: int)
    requires forall k :: 0 <= k < |userInputRaw| ==> !IsDigit(userInputRaw[k])
    requires Contains(Lower(userInputRaw), "open") && Contains(Lower(userInputRaw), "bit")
    ensures ParseCommandWithKeywords(userInputRaw, currentAngle, minAngle, maxAngle, defaultStep) ==
            Some(Min(maxAngle, currentAngle + defaultStep))
  {
    LowerKeepsNoDigit(userInputRaw);
    NoDigitNoTarget(Lower(userInputRaw));
    KeywordsOpenWins(userInputRaw, currentAngle, minAngle, maxAngle, defaultStep);
  }

  /** "open a bit" at 90 with step 15 moves to 105, without the model. */
  lemma KeywordsOpenABit()
    ensures ParseCommandWithKeywords("open a bit", 90, 0, 180, 15) == Some(105)
  {
    LowerOfLowered("open a bit");
    assert OccursAt("open a bit", "open", 0) && OccursAt("open a bit", "bit", 7);
    KeywordsOpenABitAnywhere("open a bit", 90, 0, 180, 15);
  }

  /**
   * Digit-free input whose lower-cased form mentions "close" but neither
   * "open" nor "bit"/"slightly" closes fully, whatever the capitals.
   */
  lemma KeywordsCloseFullyAnywhere(userInputRaw: string, currentAngle: int, minAngle: int, maxAngle: int,
                                   defaultStep: int)
    requires forall k :: 0 <= k < |userInputRaw| ==> !IsDigit(userInputRaw[k])
    requires Contains(Lower(userInputRaw), "close") && !Contains(Lower(userInputRaw), "open")
    requires !Slight(Lower(userInputRaw))
    ensures ParseCommandWithKeywords(userInputRaw, currentAngle, minAngle, maxAngle, defaultStep) == Some(minAngle)
  {
    LowerKeepsNoDigit(userInputRaw);
    NoDigitNoTarget(Lower(userInputRaw));
    KeywordsClose(userInputRaw, currentAngle, minAngle, maxAngle, defaultStep);
  }

  /** A plain "close" goes to the minimum whatever the current angle. */
  lemma KeywordsClosePlain(currentAngle: int)
    ensures ParseCommandWithKeywords("close", currentAngle, 0, 180, 15) == Some(0)
  {
    LowerOfLowered("close");
    assert OccursAt("close", "close", 0);
    MissingCharNotContained("close", "open", 1);
    MissingCharNotContained("close", "bit", 0);
    MissingCharNotContained("close", "slightly", 7);
    KeywordsCloseFullyAnywhere("close", currentAngle, 0, 180, 15);
  }

  // ---------------------------------------------------------------------
  // build_llm_prompt
  // ---------------------------------------------------------------------

  // The fixed wording of the prompt, line by line; the numbers and the
  // user's input are spliced in between.
  const RangeLine := "You are an AI assistant controlling a servo motor with a range of "
  const DegreesEnd := " degrees."
  const CurrentLine := "The current motor angle is "
  const MeaningLine := "0 degrees means 'fully closed'. 180 degrees means 'fully open'."
  const WantsLine := "The user wants to: \""
  const Quote := "\""
  const QuestionLine := "Based on the user's request and the current angle, what should the new target angle be?"
  const InitialLine := "If the user wants to return to the default or initial condition, assume "
  const StepLine := "If the user says \"a bit\" or \"slightly\", adjust by approximately "
  const OpenLine := "If the user says \"open\", unless specified otherwise, assume \"fully open\" ("
  const CloseLine := "If the user says \"close\", unless specified otherwise, assume \"fully closed\" ("
  const DegreesParenEnd := " degrees)."
  const RespondLine := "Respond ONLY with the integer number for the new target angle. For example: 90 or 0 or 180 or 15."
  const NoTextLine := "Do not add any other text, explanation, or punctuation. Just the number."
  const UserLine := "User: \""
  const CurrentAngleLine := "Current Angle: "
  const AnswerLine := "New Target Angle (JUST THE NUMBER):"

  /**
   * The fixed wording of the prompt both builders produce. Every line starts
   * with `indent`; the text begins with a newline and ends with a newline
   * followed by `indent` (the indentation of the closing triple quote).
   */
  function PromptWording(indent: string): (w: seq<string>)
    ensures |w| == 11
  {
    var nl := "\n" + indent;
    [ nl + RangeLine, " to ", DegreesEnd + nl + CurrentLine,
      DegreesEnd + nl + MeaningLine + nl + WantsLine,
      Quote + nl + QuestionLine + nl + InitialLine,
      DegreesEnd + nl + StepLine, DegreesEnd + nl + OpenLine,
      DegreesParenEnd + nl + CloseLine,
      DegreesParenEnd + nl + RespondLine + nl + NoTextLine + nl + UserLine,
      Quote + nl + CurrentAngleLine, nl + AnswerLine + nl ]
  }

  /** The values spliced into the wording, in the order the prompt states them. */
  function PromptValues(userInput: string, currentAngle: int, minAngle: int, maxAngle: int,
                        defaultStep: int, initialAngle: int): (v: seq<string>)
    ensures |v| == 10
  {
    [ IntToString(minAngle), IntToString(maxAngle), IntToString(currentAngle), userInput,
      IntToString(initialAngle), IntToString(defaultStep), IntToString(maxAngle),
      IntToString(minAngle), userInput, IntToString(currentAngle) ]
  }

  /**
   * The prompt text: it states the range, the current angle, the step and
   * the initial angle in decimal, and quotes the user's input verbatim.
   */
  function PromptText(indent: string, userInput: string, currentAngle: int, minAngle: int, maxAngle: int,
                      defaultStep: int, initialAngle: int): (r: string)
    ensures Contains(r, IntToString(currentAngle))
    ensures Contains(r, IntToString(minAngle)) && Contains(r, IntToString(maxAngle))
    ensures Contains(r, IntToString(defaultStep)) && Contains(r, IntToString(initialAngle))
    ensures Contains(r, userInput)
  {
    var values := PromptValues(userInput, currentAngle, minAngle, maxAngle, defaultStep, initialAngle);
    assert values[0] == IntToString(minAngle) && values[1] == IntToString(maxAngle);
    assert values[2] == IntToString(currentAngle) && values[3] == userInput;
    assert values[4] == IntToString(initialAngle) && values[5] == IntToString(defaultStep);
    Interleave(PromptWording(indent), values)
  }

  /** build_llm_prompt of src/llm.py: lines indented by eight spaces. */
  function BuildLlmPrompt(userInput: string, currentAngle: int, minAngle: int, maxAngle: int,
                          defaultStep: int, initialAngle: int): (r: string)
    ensures Contains(r, IntToString(currentAngle)) && Contains(r, userInput)
    ensures Contains(r, IntToString(minAngle)) && Contains(r, IntToString(maxAngle))
    ensures Contains(r, IntToString(defaultStep)) && Contains(r, IntToString(initialAngle))
  {
    PromptText("        ", userInput, currentAngle, minAngle, maxAngle, defaultStep, initialAngle)
  }
}
