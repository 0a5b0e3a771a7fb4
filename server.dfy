/**
 * The web server's command pipeline in main.py: its own keyword rules, the
 * reading of the model's reply with a keyword fallback, the prompt, and
 * process_user_command, which threads the global motor angle through the
 * serial sends.
 *
 * The serial port and the language model are oracles: each write attempt
 * comes with its outcome, and the model's raw reply is an optional string
 * (None when the HTTP request fails).
 */
module Server {
  import opened Text
  import opened Optional
  import opened Scan
  import Llm
  import opened Config

  // ---------------------------------------------------------------------
  // get_angle_command_from_keywords
  // ---------------------------------------------------------------------

  /** "bit" or "slightly" anywhere in the lowered input. */
  predicate Relative(lower: string)
  {
    Contains(lower, "bit") || Contains(lower, "slightly")
  }

  /** The phrases of the six rules, as `in` tests on the lowered input. */
  predicate OpenFully(lower: string)
  {
    Contains(lower, "open fully") || Contains(lower, "open all the way")
  }

  predicate CloseFully(lower: string)
  {
    Contains(lower, "close fully") || Contains(lower, "close all the way")
  }

  predicate OpenABit(lower: string)
  {
    Contains(lower, "open a bit") || Contains(lower, "open slightly")
  }

  predicate CloseABit(lower: string)
  {
    Contains(lower, "close a bit") || Contains(lower, "close slightly")
  }

  /**
   * The first of the six phrase rules that applies to the lowered input:
   * the two "fully" phrases, then the two relative phrases, then a bare
   * "open" or "close" without "bit"/"slightly".
   */
  function KeywordRule(lower: string, currentAngle: int): (r: Option<int>)
    ensures OpenFully(lower) ==> r == Some(MaxAngle)
    ensures !OpenFully(lower) && CloseFully(lower) ==> r == Some(MinAngle)
    ensures !OpenFully(lower) && !CloseFully(lower) && OpenABit(lower) ==>
              r == Some(Llm.Min(MaxAngle, currentAngle + DefaultStep))
    ensures !OpenFully(lower) && !CloseFully(lower) && !OpenABit(lower) && CloseABit(lower) ==>
              r == Some(Llm.Max(MinAngle, currentAngle - DefaultStep))
    ensures r.Some? ==> Contains(lower, "open") || Contains(lower, "close")
    ensures InRange(currentAngle) && r.Some? ==> InRange(r.value)
    ensures Contains(lower, "open") && !Relative(lower) ==>
              r == if !OpenFully(lower) && CloseFully(lower) then Some(MinAngle) else Some(MaxAngle)
    ensures !Contains(lower, "open") && Contains(lower, "close") && !Relative(lower) ==> r == Some(MinAngle)
    ensures Relative(lower) && !OpenFully(lower) && !CloseFully(lower) && !OpenABit(lower) && !CloseABit(lower) ==>
              r == None
  {
    PhraseWords();
    PhraseMentions(lower, "open fully", "open", 0);
    PhraseMentions(lower, "open all the way", "open", 0);
    PhraseMentions(lower, "close fully", "close", 0);
    PhraseMentions(lower, "close all the way", "close", 0);
    PhraseMentions(lower, "open a bit", "bit", 7);
    PhraseMentions(lower, "open slightly", "slightly", 5);
    PhraseMentions(lower, "close a bit", "bit", 8);
    PhraseMentions(lower, "close slightly", "slightly", 6);
    PhraseMentions(lower, "open a bit", "open", 0);
    PhraseMentions(lower, "open slightly", "open", 0);
    PhraseMentions(lower, "close a bit", "close", 0);
    PhraseMentions(lower, "close slightly", "close", 0);
    if OpenFully(lower) then Some(MaxAngle)
    else if CloseFully(lower) then Some(MinAngle)
    else if OpenABit(lower) then Some(Llm.Min(MaxAngle, currentAngle + DefaultStep))
    else if CloseABit(lower) then Some(Llm.Max(MinAngle, currentAngle - DefaultStep))
    else if Contains(lower, "open") && !Relative(lower) then Some(MaxAngle)
    else if Contains(lower, "close") && !Relative(lower) then Some(MinAngle)
    else None
  }

  /**
   * The keyword path of the server: the phrase rules run first and an
   * in-range "set to N"/"move to N" then overrides whatever they chose; an
   * out-of-range N leaves their choice in place.
   */
  function GetAngleCommandFromKeywords(userInputRaw: string, currentAngle: int): (r: Option<int>)
    ensures var lower := Lower(userInputRaw);
            Llm.InRangeTarget(lower, MinAngle, MaxAngle).Some? ==> r == Llm.InRangeTarget(lower, MinAngle, MaxAngle)
    ensures var lower := Lower(userInputRaw);
            Llm.InRangeTarget(lower, MinAngle, MaxAngle).None? ==> r == KeywordRule(lower, currentAngle)
    ensures InRange(currentAngle) && r.Some? ==> InRange(r.value)
  {
    var lower := Lower(userInputRaw);
    var rule := KeywordRule(lower, currentAngle);
    var target := Llm.InRangeTarget(lower, MinAngle, MaxAngle);
    if target.Some? then target else rule
  }

  /**
   * Without "bit"/"slightly" and without both "open" and "close", the
   * server's keyword path and the one of src/llm.py give the same answer.
   */
  lemma KeywordPathsAgree(userInputRaw: string, currentAngle: int)
    requires !Relative(Lower(userInputRaw))
    requires !(Contains(Lower(userInputRaw), "open") && Contains(Lower(userInputRaw), "close"))
    ensures GetAngleCommandFromKeywords(userInputRaw, currentAngle) ==
            Llm.ParseCommandWithKeywords(userInputRaw, currentAngle, MinAngle, MaxAngle, DefaultStep)
  {
    var lower := Lower(userInputRaw);
    PhraseWords();
    PhraseMentions(lower, "open fully", "open", 0);
    PhraseMentions(lower, "open all the way", "open", 0);
    PhraseMentions(lower, "close fully", "close", 0);
    PhraseMentions(lower, "close all the way", "close", 0);
    PhraseMentions(lower, "open a bit", "bit", 7);
    PhraseMentions(lower, "open slightly", "slightly", 5);
    PhraseMentions(lower, "close a bit", "bit", 8);
    PhraseMentions(lower, "close slightly", "slightly", 6);
  }

  /** Where each two-word phrase holds the word that decides between the two keyword paths. */
  lemma PhraseWords()
    ensures OccursAt("open fully", "open", 0) && OccursAt("open all the way", "open", 0)
    ensures OccursAt("close fully", "close", 0) && OccursAt("close all the way", "close", 0)
    ensures OccursAt("open a bit", "bit", 7) && OccursAt("open slightly", "slightly", 5)
    ensures OccursAt("close a bit", "bit", 8) && OccursAt("close slightly", "slightly", 6)
  {
  }

  /** A phrase found in the input brings along every word it contains. */
  lemma PhraseMentions(lower: string, phrase: string, word: string, at: nat)
    requires OccursAt(phrase, word, at)
    ensures Contains(lower, phrase) ==> Contains(lower, word)
  {
    if Contains(lower, phrase) {
      ContainsTransitive(lower, phrase, word);
    }
  }

  /**
   * "open bit" has "open" and "bit" but neither "open a bit" nor "open
   * slightly": the server finds no keyword, while src/llm.py opens by one step.
   */
  lemma OpenBitDiverges()
    ensures GetAngleCommandFromKeywords("open bit", 90) == None
    ensures Llm.ParseCommandWithKeywords("open bit", 90, MinAngle, MaxAngle, DefaultStep) == Some(105)
  {
    OpenBitServer();
    OpenBitLlm();
  }

  /** The server's keyword path finds nothing in "open bit". */
  lemma OpenBitServer()
    ensures GetAngleCommandFromKeywords("open bit", 90) == None
  {
    LowerOfLowered("open bit");
    NoDigitNoTarget("open bit");
    OpenBitMatchesNoRule();
  }

  /** src/llm.py opens "open bit" by one step. */
  lemma OpenBitLlm()
    ensures Llm.ParseCommandWithKeywords("open bit", 90, MinAngle, MaxAngle, DefaultStep) == Some(105)
  {
    LowerOfLowered("open bit");
    assert OccursAt("open bit", "open", 0) && OccursAt("open bit", "bit", 5);
    Llm.KeywordsOpenABitAnywhere("open bit", 90, MinAngle, MaxAngle, DefaultStep);
  }

  /**
   * Input holding "bit" but none of the letters c, f, a and s matches no
   * phrase rule: every phrase but "open" needs one of them, and "open" is
   * then relative.
   */
  lemma RelativeWithoutPhraseMatchesNoRule(lower: string, currentAngle: int)
    requires 'c' !in lower && 'f' !in lower && 'a' !in lower && 's' !in lower
    requires Contains(lower, "bit")
    ensures KeywordRule(lower, currentAngle) == None
  {
    MissingCharNotContained(lower, "open fully", 5);
    MissingCharNotContained(lower, "open all the way", 5);
    MissingCharNotContained(lower, "close fully", 0);
    MissingCharNotContained(lower, "close all the way", 0);
    MissingCharNotContained(lower, "open a bit", 5);
    MissingCharNotContained(lower, "open slightly", 5);
    MissingCharNotContained(lower, "close a bit", 0);
    MissingCharNotContained(lower, "close slightly", 0);
    MissingCharNotContained(lower, "close", 0);
  }

  /** No phrase rule fires on "open bit": it holds "bit" but not "a bit", and no "close". */
  lemma OpenBitMatchesNoRule()
    ensures KeywordRule("open bit", 90) == None
  {
    assert OccursAt("open bit", "bit", 5);
    RelativeWithoutPhraseMatchesNoRule("open bit", 90);
  }

  /**
   * Digit-free input whose lowered form holds "open a bit" or "open slightly"
   * and no "fully"/"all the way" phrase opens by one step, capped.
   */
  lemma ServerOpenABitAnywhere(userInputRaw: string, currentAngle: int)
    requires forall k :: 0 <= k < |userInputRaw| ==> !IsDigit(userInputRaw[k])
    requires OpenABit(Lower(userInputRaw)) && !OpenFully(Lower(userInputRaw)) && !CloseFully(Lower(userInputRaw))
    ensures GetAngleCommandFromKeywords(userInputRaw, currentAngle) == Some(Llm.Min(MaxAngle, currentAngle + DefaultStep))
  {
    Llm.LowerKeepsNoDigit(userInputRaw);
    NoDigitNoTarget(Lower(userInputRaw));
  }

  /**
   * Digit-free input whose lowered form holds "close a bit" or "close
   * slightly" and none of the four opening or fully phrases closes by one
   * step, floored.
   */
  lemma ServerCloseABitAnywhere(userInputRaw: string, currentAngle: int)
    requires forall k :: 0 <= k < |userInputRaw| ==> !IsDigit(userInputRaw[k])
    requires CloseABit(Lower(userInputRaw)) && !OpenABit(Lower(userInputRaw))
    requires !OpenFully(Lower(userInputRaw)) && !CloseFully(Lower(userInputRaw))
    ensures GetAngleCommandFromKeywords(userInputRaw, currentAngle) == Some(Llm.Max(MinAngle, currentAngle - DefaultStep))
  {
    Llm.LowerKeepsNoDigit(userInputRaw);
    NoDigitNoTarget(Lower(userInputRaw));
  }

  /** Without the letters f and w no "fully"/"all the way" phrase occurs. */
  lemma NoFullyPhrase(lower: string)
    requires 'f' !in lower && 'w' !in lower
    ensures !OpenFully(lower) && !CloseFully(lower)
  {
    MissingCharNotContained(lower, "open fully", 5);
    MissingCharNotContained(lower, "open all the way", 13);
    MissingCharNotContained(lower, "close fully", 6);
    MissingCharNotContained(lower, "close all the way", 14);
  }

  /** Without the letter p no relative "open" phrase occurs. */
  lemma NoOpenABitPhrase(lower: string)
    requires 'p' !in lower
    ensures !OpenABit(lower)
  {
    MissingCharNotContained(lower, "open a bit", 1);
    MissingCharNotContained(lower, "open slightly", 1);
  }

  /** "Open a bit" at 90 is lowered, matches the third rule and opens to 105. */
  lemma ServerOpenABit()
    ensures GetAngleCommandFromKeywords("Open a bit", 90) == Some(105)
  {
    var lower := "open a bit";
    assert 'f' !in lower && 'w' !in lower;
    assert forall k :: 0 <= k < |"Open a bit"| ==> !IsDigit("Open a bit"[k]);
    assert Lower("Open a bit") == lower;
    assert OccursAt(lower, "open a bit", 0);
    NoFullyPhrase(lower);
    ServerOpenABitAnywhere("Open a bit", 90);
  }

  /** "close slightly" at 10 matches the fourth rule and stops at the minimum. */
  lemma ServerCloseSlightly()
    ensures GetAngleCommandFromKeywords("close slightly", 10) == Some(0)
  {
    var lower := "close slightly";
    assert 'p' !in lower && 'f' !in lower && 'w' !in lower;
    assert forall k :: 0 <= k < |lower| ==> !IsDigit(lower[k]);
    LowerOfLowered(lower);
    assert OccursAt(lower, "close slightly", 0);
    NoFullyPhrase(lower);
    NoOpenABitPhrase(lower);
    ServerCloseABitAnywhere(lower, 10);
  }

  // ---------------------------------------------------------------------
  // parse_llm_response_for_angle
  // ---------------------------------------------------------------------

  /**
   * The keyword fallback used when the model's reply holds no usable angle:
   * "open" before "close" before "set to"/"move to". A fully/all-the-way open
   * and a plain open both give the maximum (symmetrically for close); the
   * "set to" rule takes the first standalone number of the input.
   */
  function Fallback(lower: string, currentAngle: int): (a: int)
    ensures InRange(currentAngle) ==> InRange(a)
  {
    if Contains(lower, "open") then
      if Relative(lower) then Llm.Min(MaxAngle, currentAngle + DefaultStep) else MaxAngle
    else if Contains(lower, "close") then
      if Relative(lower) then Llm.Max(MinAngle, currentAngle - DefaultStep) else MinAngle
    else if Contains(lower, "set to") || Contains(lower, "move to") then
      match Llm.ParseAngleFromLlmText(lower, MinAngle, MaxAngle)
      case Some(a) => a
      case None => currentAngle
    else currentAngle
  }

  /**
   * The angle in the model's reply, else the keyword fallback, which counts
   * only when it moves away from the current angle.
   */
  function ParseLlmResponseForAngle(llmText: string, userInputRaw: string, currentAngle: int): (r: Option<int>)
    ensures Llm.ParseAngleFromLlmText(llmText, MinAngle, MaxAngle).Some? ==>
              r == Llm.ParseAngleFromLlmText(llmText, MinAngle, MaxAngle)
    ensures Llm.ParseAngleFromLlmText(llmText, MinAngle, MaxAngle).None? && r.Some? ==>
              r.value != currentAngle && r.value == Fallback(Lower(userInputRaw), currentAngle)
    ensures Llm.ParseAngleFromLlmText(llmText, MinAngle, MaxAngle).None? ==>
              (r.Some? <==> Fallback(Lower(userInputRaw), currentAngle) != currentAngle)
    ensures InRange(currentAngle) && r.Some? ==> InRange(r.value)
  {
    var fromModel := Llm.ParseAngleFromLlmText(llmText, MinAngle, MaxAngle);
    if fromModel.Some? then fromModel
    else
      var newAngle := Fallback(Lower(userInputRaw), currentAngle);
      if newAngle != currentAngle then Some(newAngle) else None
  }

  /** "open" when the motor is already fully open gives no angle at all. */
  lemma FallbackOpenAtMaximum(llmText: string, userInputRaw: string)
    requires Llm.ParseAngleFromLlmText(llmText, MinAngle, MaxAngle).None?
    requires Contains(Lower(userInputRaw), "open")
    ensures ParseLlmResponseForAngle(llmText, userInputRaw, MaxAngle) == None
  {
  }

  /**
   * In the fallback "open" is consulted before "set to": an input with both
   * opens fully, whatever target it names.
   */
  lemma FallbackOpenBeforeSetTo(llmText: string, userInputRaw: string, currentAngle: int)
    requires Llm.ParseAngleFromLlmText(llmText, MinAngle, MaxAngle).None?
    requires Contains(Lower(userInputRaw), "open") && !Relative(Lower(userInputRaw))
    requires currentAngle != MaxAngle
    ensures ParseLlmResponseForAngle(llmText, userInputRaw, currentAngle) == Some(MaxAngle)
  {
  }

  /** With "open" the fallback opens by one step (capped) when relative, else fully. */
  lemma FallbackOpen(lower: string, currentAngle: int)
    requires Contains(lower, "open")
    ensures Fallback(lower, currentAngle) ==
            if Relative(lower) then Llm.Min(MaxAngle, currentAngle + DefaultStep) else MaxAngle
  {
  }

  /** Without "open" but with "close" the fallback closes by one step (floored) when relative, else fully. */
  lemma FallbackClose(lower: string, currentAngle: int)
    requires !Contains(lower, "open") && Contains(lower, "close")
    ensures Fallback(lower, currentAngle) ==
            if Relative(lower) then Llm.Max(MinAngle, currentAngle - DefaultStep) else MinAngle
  {
  }

  /**
   * Without "open" or "close" but with "set to"/"move to", the fallback takes
   * the first standalone number of the whole input, wherever it stands,
   * when it is a valid angle; otherwise the angle stays where it is.
   */
  lemma FallbackSetTo(lower: string, currentAngle: int)
    requires !Contains(lower, "open") && !Contains(lower, "close")
    requires Contains(lower, "set to") || Contains(lower, "move to")
    ensures Fallback(lower, currentAngle) ==
            match FirstNumber(lower)
            case Some(g) => if InRange(NumberValue(lower, g)) then NumberValue(lower, g) else currentAngle
            case None => currentAngle
  {
    match FirstNumber(lower)
    case None =>
    case Some(g) =>
      forall h | IsFirstNumber(lower, h) ensures h == g { FirstNumberUnique(lower, g, h); }
  }

  /** With none of the keywords the fallback keeps the current angle, so no angle results. */
  lemma FallbackNoKeyword(llmText: string, userInputRaw: string, currentAngle: int)
    requires Llm.ParseAngleFromLlmText(llmText, MinAngle, MaxAngle).None?
    requires var lower := Lower(userInputRaw);
             !Contains(lower, "open") && !Contains(lower, "close") &&
             !Contains(lower, "set to") && !Contains(lower, "move to")
    ensures ParseLlmResponseForAngle(llmText, userInputRaw, currentAngle) == None
  {
  }

  // ---------------------------------------------------------------------
  // build_llm_prompt
  // ---------------------------------------------------------------------

  /** The server's prompt: the same text as src/llm.py's, without indentation. */
  function BuildLlmPrompt(userInput: string, currentAngle: int): (r: string)
    ensures Contains(r, IntToString(currentAngle)) && Contains(r, userInput)
    ensures Contains(r, IntToString(MinAngle)) && Contains(r, IntToString(MaxAngle))
    ensures Contains(r, IntToString(DefaultStep)) && Contains(r, IntToString(InitialAngle))
  {
    Llm.PromptText("", userInput, currentAngle, MinAngle, MaxAngle, DefaultStep, InitialAngle)
  }

  // ---------------------------------------------------------------------
  // send_arduino_command and process_user_command, on values
  // ---------------------------------------------------------------------

  /** What happens to one write on the serial port. */
  datatype WriteOutcome =
    | Written
    | SerialFault(reconnected: bool)  // SerialException: the port is reopened, which may fail
    | OtherFault                      // any other exception: the port is left as it is

  /** The JSON answer of the request. */
  datatype Reply = Reply(success: bool, message: string, angle: int)

  /**
   * The server's globals: the motor angle, whether the port is open, the
   * frames written to it, and the prompts sent to the model.
   */
  datatype Session = Session(angle: int, connected: bool, sent: seq<string>, queries: seq<string>)

  const ThinkingStart := "THINKING_START"
  const IdleState := "IDLE_STATE"

  /** The bytes written for a command: the command without surrounding spaces, then a newline. */
  function Frame(command: string): string
  {
    Strip(command) + "\n"
  }

  /** The outcome of the n-th write of a request; writes past the list succeed. */
  function OutcomeAt(outcomes: seq<WriteOutcome>, n: nat): WriteOutcome
  {
    if n < |outcomes| then outcomes[n] else Written
  }

  /**
   * Whether the port is open after a write attempt: a serial fault leaves it
   * open only when reinitialize_arduino reopens it.
   */
  predicate PortAfter(s: Session, outcome: WriteOutcome)
  {
    s.connected && (outcome.SerialFault? ==> outcome.reconnected)
  }

  /**
   * send_arduino_command: refused without an open port; otherwise one frame
   * is written, or a serial fault reopens the port and the send fails.
   */
  function Send(s: Session, command: string, outcome: WriteOutcome): (r: (Session, bool))
    ensures r.1 <==> s.connected && outcome == Written
    ensures r.1 ==> r.0 == s.(sent := s.sent + [Frame(command)])
    ensures !r.1 ==> r.0.angle == s.angle && r.0.sent == s.sent && r.0.queries == s.queries
    ensures !s.connected ==> r.0 == s
    ensures r.0.connected == PortAfter(s, outcome)
  {
    if !s.connected then (s, false)
    else
      match outcome
      case Written => (s.(sent := s.sent + [Frame(command)]), true)
      case SerialFault(reconnected) => (s.(connected := reconnected), false)
      case OtherFault => (s, false)
  }

  /** The model's answer as send_to_ollama hands it on: stripped, or None on a failed request. */
  function ModelText(reply: Option<string>): Option<string>
  {
    match reply
    case None => None
    case Some(raw) => Some(Strip(raw))
  }

  /** The angle read from the model's answer, when there is a non-empty answer. */
  function ModelAngle(text: Option<string>, userInput: string, currentAngle: int): (r: Option<int>)
    ensures InRange(currentAngle) && r.Some? ==> InRange(r.value)
    ensures text.None? || text.value == [] ==> r.None?
    ensures text.Some? && text.value != [] ==> r == ParseLlmResponseForAngle(text.value, userInput, currentAngle)
  {
    if text.Some? && text.value != [] then ParseLlmResponseForAngle(text.value, userInput, currentAngle)
    else None
  }

  const DegreeSign := "°"

  /** The success message after a move; `origin` says which path chose the angle. */
  function MovedMessage(origin: string, target: int): string
  {
    origin + ": Motor moved to " + IntToString(target) + DegreeSign
  }

  /**
   * Sending the keyword angle (main.py:166-170): the angle is adopted only
   * when its frame is written.
   */
  function KeywordStep(s: Session, target: int, outcome: WriteOutcome): (r: (Session, Reply))
    ensures r.1.success <==> s.connected && outcome == Written
    ensures r.1.success ==> r.0.sent == s.sent + [Frame(IntToString(target))] && r.0.angle == target
    ensures !r.1.success ==> r.0.sent == s.sent && r.0.angle == s.angle
    ensures r.0.queries == s.queries && r.1.angle == r.0.angle
  {
    var (s1, ok) := Send(s, IntToString(target), outcome);
    if ok then (s1.(angle := target), Reply(true, MovedMessage("Keyword", target), target))
    else (s1, Reply(false, "Failed to send keyword command to Arduino", s1.angle))
  }

  /**
   * Sending the model's angle (main.py:184-190): on failure the board is
   * told to leave its thinking state with IDLE_STATE.
   */
  function ModelAngleStep(s: Session, target: int, outcome: WriteOutcome, idleOutcome: WriteOutcome)
    : (r: (Session, Reply))
    ensures r.1.success <==> s.connected && outcome == Written
    ensures r.1.success ==> r.0.sent == s.sent + [Frame(IntToString(target))] && r.0.angle == target
    ensures !r.1.success ==> r.0.angle == s.angle
    ensures !r.1.success ==>
              r.0.sent == if PortAfter(s, outcome) && idleOutcome == Written then s.sent + [Frame(IdleState)]
                          else s.sent
    ensures r.0.queries == s.queries && r.1.angle == r.0.angle
  {
    var (s1, ok) := Send(s, IntToString(target), outcome);
    if ok then (s1.(angle := target), Reply(true, MovedMessage("LLM", target), target))
    else
      var (s2, _) := Send(s1, IdleState, idleOutcome);
      (s2, Reply(false, "LLM determined angle, but failed to send to Arduino", s2.angle))
  }

  /** No angle from the model (main.py:191-194): IDLE_STATE, and an error. */
  function NoAngleStep(s: Session, idleOutcome: WriteOutcome): (r: (Session, Reply))
    ensures !r.1.success && r.0.angle == s.angle && r.0.queries == s.queries && r.1.angle == r.0.angle
    ensures s.connected && idleOutcome == Written ==> r.0.sent == s.sent + [Frame(IdleState)]
    ensures !(s.connected && idleOutcome == Written) ==> r.0.sent == s.sent
  {
    var (s1, _) := Send(s, IdleState, idleOutcome);
    (s1, Reply(false, "LLM could not determine a valid angle.", s1.angle))
  }

  /**
   * The model path once THINKING_START is written (main.py:177-194): the
   * prompt for the current angle is sent, and the answer decides the step.
   */
  function ModelPath(s: Session, userInput: string, reply: Option<string>, outcomes: seq<WriteOutcome>)
    : (r: (Session, Reply))
    ensures r.0.queries == s.queries + [BuildLlmPrompt(userInput, s.angle)]
    ensures r.1.angle == r.0.angle
    ensures r.1.success <==> ModelAngle(ModelText(reply), userInput, s.angle).Some? &&
                             s.connected && OutcomeAt(outcomes, 1) == Written
    ensures r.1.success ==> r.0.angle == ModelAngle(ModelText(reply), userInput, s.angle).value &&
                            r.0.sent == s.sent + [Frame(IntToString(r.0.angle))]
    ensures !r.1.success ==> r.0.angle == s.angle
    ensures ModelAngle(ModelText(reply), userInput, s.angle).Some? && !r.1.success ==>
              r.0.sent == if PortAfter(s, OutcomeAt(outcomes, 1)) && OutcomeAt(outcomes, 2) == Written
                          then s.sent + [Frame(IdleState)]
                          else s.sent
    ensures ModelAngle(ModelText(reply), userInput, s.angle).None? ==>
              r.0.sent == if s.connected && OutcomeAt(outcomes, 1) == Written then s.sent + [Frame(IdleState)]
                          else s.sent
    ensures InRange(s.angle) ==> InRange(r.0.angle)
  {
    var s1 := s.(queries := s.queries + [BuildLlmPrompt(userInput, s.angle)]);
    match ModelAngle(ModelText(reply), userInput, s.angle)
    case Some(target) => ModelAngleStep(s1, target, OutcomeAt(outcomes, 1), OutcomeAt(outcomes, 2))
    case None => NoAngleStep(s1, OutcomeAt(outcomes, 1))
  }

  /** process_user_command on values: the new globals and the reply. */
  function Process(s: Session, userInput: string, reply: Option<string>, outcomes: seq<WriteOutcome>)
    : (r: (Session, Reply))
    ensures r.1.angle == r.0.angle
    ensures !r.1.success ==> r.0.angle == s.angle
    ensures r.1.success ==> s.connected
    ensures r.1.success ==>
              r.0.sent == (if GetAngleCommandFromKeywords(userInput, s.angle).Some? then s.sent
                           else s.sent + [Frame(ThinkingStart)]) + [Frame(IntToString(r.0.angle))]
    ensures r.0.queries ==
              if GetAngleCommandFromKeywords(userInput, s.angle).None? && s.connected && OutcomeAt(outcomes, 0) == Written
              then s.queries + [BuildLlmPrompt(userInput, s.angle)]
              else s.queries
  {
    match GetAngleCommandFromKeywords(userInput, s.angle)
    case Some(target) => KeywordStep(s, target, OutcomeAt(outcomes, 0))
    case None =>
      var (s1, ok) := Send(s, ThinkingStart, OutcomeAt(outcomes, 0));
      if !ok then (s1, Reply(false, "Failed to send THINKING_START to Arduino", s1.angle))
      else ModelPath(s1, userInput, reply, outcomes)
  }

  lemma FrameOfAngle(angle: int)
    ensures Frame(IntToString(angle)) == IntToString(angle) + "\n"
  {
    StripOfIntToString(angle);
  }

  lemma FrameOfControl()
    ensures Frame(ThinkingStart) == "THINKING_START\n"
    ensures Frame(IdleState) == "IDLE_STATE\n"
  {
    StripOfTrimmed(ThinkingStart);
    StripOfTrimmed(IdleState);
  }

  /**
   * A keyword hit makes exactly one write attempt, the angle itself, with no
   * THINKING_START and no model query; the angle moves only when it is written.
   */
  lemma ProcessKeywordHit(s: Session, userInput: string, reply: Option<string>,
                          outcomes: seq<WriteOutcome>, target: int)
    requires GetAngleCommandFromKeywords(userInput, s.angle) == Some(target)
    ensures var (t, r) := Process(s, userInput, reply, outcomes);
            && t.queries == s.queries
            && (r.success <==> s.connected && OutcomeAt(outcomes, 0) == Written)
            && (r.success ==> t.sent == s.sent + [Frame(IntToString(target))] && t.angle == target)
            && (!r.success ==> t.sent == s.sent && t.angle == s.angle)
  {
  }

  /**
   * Without a keyword hit, THINKING_START comes first; when it cannot be
   * written the request fails with nothing written, no query and the angle
   * unchanged.
   */
  lemma ProcessThinkingRefused(s: Session, userInput: string, reply: Option<string>, outcomes: seq<WriteOutcome>)
    requires GetAngleCommandFromKeywords(userInput, s.angle).None?
    requires !(s.connected && OutcomeAt(outcomes, 0) == Written)
    ensures var (t, r) := Process(s, userInput, reply, outcomes);
            !r.success && t.angle == s.angle && t.sent == s.sent && t.queries == s.queries
  {
  }

  /**
   * Without a keyword hit, THINKING_START is written first and the request
   * then runs the model path (whose contract gives the prompt sent, the
   * frames written and the angle adopted) from the session holding that frame.
   */
  lemma ProcessModelPath(s: Session, userInput: string, reply: Option<string>, outcomes: seq<WriteOutcome>)
    requires GetAngleCommandFromKeywords(userInput, s.angle).None?
    requires s.connected && OutcomeAt(outcomes, 0) == Written
    ensures Process(s, userInput, reply, outcomes) ==
            ModelPath(s.(sent := s.sent + [Frame(ThinkingStart)]), userInput, reply, outcomes)
  {
  }

  /**
   * When the model's answer yields no angle, IDLE_STATE is the last frame
   * whenever the port takes the write.
   */
  lemma ProcessNoAngleGoesIdle(s: Session, userInput: string, reply: Option<string>, outcomes: seq<WriteOutcome>)
    requires GetAngleCommandFromKeywords(userInput, s.angle).None?
    requires s.connected && OutcomeAt(outcomes, 0) == Written
    requires ModelAngle(ModelText(reply), userInput, s.angle).None?
    requires OutcomeAt(outcomes, 1) == Written
    ensures var (t, r) := Process(s, userInput, reply, outcomes);
            !r.success && t.sent == s.sent + [Frame(ThinkingStart), Frame(IdleState)]
  {
    ProcessModelPath(s, userInput, reply, outcomes);
    var s1 := s.(sent := s.sent + [Frame(ThinkingStart)]);
    assert ModelPath(s1, userInput, reply, outcomes).0.sent == s1.sent + [Frame(IdleState)];
    AppendTwo(s.sent, Frame(ThinkingStart), Frame(IdleState));
  }

  /**
   * When the model's angle cannot be written but the port stays open,
   * IDLE_STATE follows THINKING_START, and the angle is kept.
   */
  lemma ProcessAngleSendFailsGoesIdle(s: Session, userInput: string, reply: Option<string>,
                                      outcomes: seq<WriteOutcome>)
    requires GetAngleCommandFromKeywords(userInput, s.angle).None?
    requires s.connected && OutcomeAt(outcomes, 0) == Written
    requires ModelAngle(ModelText(reply), userInput, s.angle).Some?
    requires OutcomeAt(outcomes, 1) != Written && PortAfter(s, OutcomeAt(outcomes, 1))
    requires OutcomeAt(outcomes, 2) == Written
    ensures var (t, r) := Process(s, userInput, reply, outcomes);
            !r.success && t.angle == s.angle && t.sent == s.sent + [Frame(ThinkingStart), Frame(IdleState)]
  {
    ProcessModelPath(s, userInput, reply, outcomes);
    var s1 := s.(sent := s.sent + [Frame(ThinkingStart)]);
    assert ModelPath(s1, userInput, reply, outcomes).0.sent == s1.sent + [Frame(IdleState)];
    AppendTwo(s.sent, Frame(ThinkingStart), Frame(IdleState));
  }

  lemma AppendTwo(frames: seq<string>, first: string, second: string)
    ensures frames + [first] + [second] == frames + [first, second]
  {
  }

  /** The angle stays a valid servo angle, and the reply reports the angle held afterwards. */
  lemma ProcessKeepsAngle(s: Session, userInput: string, reply: Option<string>, outcomes: seq<WriteOutcome>)
    requires InRange(s.angle)
    ensures var (t, r) := Process(s, userInput, reply, outcomes);
            InRange(t.angle) && r.angle == t.angle
  {
    if GetAngleCommandFromKeywords(userInput, s.angle).None? && s.connected && OutcomeAt(outcomes, 0) == Written {
      ProcessModelPath(s, userInput, reply, outcomes);
    }
  }

  // ---------------------------------------------------------------------
  // The server's globals
  // ---------------------------------------------------------------------

  class ServerState {
    var currentMotorAngle: int
    var connected: bool
    var sent: seq<string>
    var queries: seq<string>

    function State(): Session
      reads this
    {
      Session(currentMotorAngle, connected, sent, queries)
    }

    /** The globals at start-up, with the port opened or not. */
    constructor(portOpen: bool)
      ensures State() == Session(InitialAngle, portOpen, [], [])
    {
      currentMotorAngle := InitialAngle;
      connected := portOpen;
      sent := [];
      queries := [];
    }

    method SendArduinoCommand(command: string, outcome: WriteOutcome) returns (ok: bool)
      modifies this
      ensures (State(), ok) == Send(old(State()), command, outcome)
    {
      if !connected {
        return false;
      }
      match outcome
      case Written =>
        sent := sent + [Strip(command) + "\n"];
        ok := true;
      case SerialFault(reconnected) =>
        connected := reconnected;
        ok := false;
      case OtherFault =>
        ok := false;
    }

    /** send_to_ollama: the prompt goes out, the stripped answer (or None) comes back. */
    method SendToModel(prompt: string, reply: Option<string>) returns (text: Option<string>)
      modifies this
      ensures queries == old(queries) + [prompt]
      ensures currentMotorAngle == old(currentMotorAngle) && connected == old(connected) && sent == old(sent)
      ensures text == ModelText(reply)
    {
      queries := queries + [prompt];
      text := if reply.Some? then Some(Strip(reply.value)) else None;
    }

    /** The keyword angle goes out (main.py:166-170); it is adopted once written. */
    method SendKeywordAngle(target: int, outcome: WriteOutcome) returns (result: Reply)
      modifies this
      ensures (State(), result) == KeywordStep(old(State()), target, outcome)
    {
      var ok := SendArduinoCommand(IntToString(target), outcome);
      if ok {
        currentMotorAngle := target;
        result := Reply(true, MovedMessage("Keyword", target), target);
      } else {
        result := Reply(false, "Failed to send keyword command to Arduino", currentMotorAngle);
      }
    }

    /** The model's angle goes out (main.py:184-190); on failure IDLE_STATE follows. */
    method SendModelAngle(target: int, outcome: WriteOutcome, idleOutcome: WriteOutcome) returns (result: Reply)
      modifies this
      ensures (State(), result) == ModelAngleStep(old(State()), target, outcome, idleOutcome)
    {
      var ok := SendArduinoCommand(IntToString(target), outcome);
      if ok {
        currentMotorAngle := target;
        result := Reply(true, MovedMessage("LLM", target), target);
      } else {
        var _ := SendArduinoCommand(IdleState, idleOutcome);
        result := Reply(false, "LLM determined angle, but failed to send to Arduino", currentMotorAngle);
      }
    }

    /** No angle from the model (main.py:191-194): IDLE_STATE and an error. */
    method ReportNoAngle(idleOutcome: WriteOutcome) returns (result: Reply)
      modifies this
      ensures (State(), result) == NoAngleStep(old(State()), idleOutcome)
    {
      var _ := SendArduinoCommand(IdleState, idleOutcome);
      result := Reply(false, "LLM could not determine a valid angle.", currentMotorAngle);
    }

    /** main.py:177-194, once THINKING_START is written. */
    method RunModelPath(userInput: string, reply: Option<string>, outcomes: seq<WriteOutcome>)
      returns (result: Reply)
      modifies this
      ensures (State(), result) == ModelPath(old(State()), userInput, reply, outcomes)
    {
      var prompt := BuildLlmPrompt(userInput, currentMotorAngle);
      var text := SendToModel(prompt, reply);
      var targetAngle: Option<int> := None;
      if text.Some? && text.value != [] {
        targetAngle := ParseLlmResponseForAngle(text.value, userInput, currentMotorAngle);
      }
      if targetAngle.Some? {
        result := SendModelAngle(targetAngle.value, OutcomeAt(outcomes, 1), OutcomeAt(outcomes, 2));
      } else {
        result := ReportNoAngle(OutcomeAt(outcomes, 1));
      }
    }

    method ProcessUserCommand(userInput: string, reply: Option<string>, outcomes: seq<WriteOutcome>)
      returns (result: Reply)
      modifies this
      ensures (State(), result) == Process(old(State()), userInput, reply, outcomes)
    {
      var targetAngle := GetAngleCommandFromKeywords(userInput, currentMotorAngle);
      if targetAngle.Some? {
        result := SendKeywordAngle(targetAngle.value, OutcomeAt(outcomes, 0));
        return;
      }
      var thinking := SendArduinoCommand(ThinkingStart, OutcomeAt(outcomes, 0));
      if !thinking {
        return Reply(false, "Failed to send THINKING_START to Arduino", currentMotorAngle);
      }
      ProcessModelPath(old(State()), userInput, reply, outcomes);
      result := RunModelPath(userInput, reply, outcomes);
    }
  }
}
