# Servo command resolution, modelled in Dafny

This project models the core of a voice- and web-controlled servo. A user's
text is turned into a target angle: first by keyword rules, then by asking a
language model and reading a number out of its reply. The angle is sent to a
microcontroller over a serial line, and the firmware moves the servo.

The model covers five parts of the repository:

- **The resolver of `src/llm.py`** (module `Llm`). It has three parts:
  - the keyword fast path;
  - the reading of the first standalone one-to-three-digit number in the model's reply;
  - the prompt.
- **The older pipeline of `main.py`** (module `Server`):
  - its own phrase-level keyword rules, where an in-range "set to N" overrides them;
  - the reply reader with its keyword fallback;
  - the prompt;
  - `send_arduino_command`;
  - `process_user_command`.

  `process_user_command` runs on a `Session` value: the motor angle, whether the port is open, the frames written and the prompts sent. The class `ServerState` holds the same globals as fields, and its methods are proved equal to the value-level functions. Each serial write comes with its outcome (`WriteOutcome`), and the model's raw reply is an `Option<string>`.
- **`ArduinoController` of `src/arduino.py`** (module `Arduino`). It is a class with three fields:
  - the handle (`NoPort`, `Open`, `Closed`);
  - the frames written;
  - the lines waiting to be read.

  The two draining loops are kept as a `while` loop over that field.
- **The motion actions of `servo_actions.cpp`** (modules `Firmware` and `ServoActions`). A `Board` class holds the firmware globals the actions touch:
  - `currentAngle`;
  - the servo's last position and every write in order;
  - the display state, the LCD's two lines and the two display timers;
  - the serial output.

  Each action is a method with the source's loops. Its `ensures` ties the writes to a trace function, and lemmas state what the traces promise: in range, even sweep positions, and the restore or recentre at the end.
- **The card handling of `rfid_functions.cpp`** (module `Rfid`):
  - the UID encoding loop, proved equal to `HexEncode`;
  - its decoder and both round trips;
  - the upper-case form, which is the Base16 alphabet of section 8 of RFC 4648;
  - the two handlers with the `RFID_DETECTED` guard.

Support modules:

- `Text`: ASCII character classes, `lower()`/`upper()`, substring search, decimal numerals and `strip()`.
- `Scan`: the two regular expressions written as left-to-right scanners, proved to return the leftmost match.
- `Config`: the constants 0, 180, 15 and 90, and the table of authorised cards.
- `Optional`: an option type.

## Model

| member | source | states |
|---|---|---|
| Scan.FindNumberFrom | src/llm.py:48 | the scan returns a standalone 1–3 digit match at or after `from` with none before it, or None when there is none |
| Scan.FirstNumber | src/llm.py:48 | `re.search(r'\b(\d{1,3})\b')`: the leftmost standalone number of one to three digits, or None when no position matches |
| Scan.NumberMatchAtIff | src/llm.py:48 | at a position the pattern matches exactly the whole digit run, when it is at most three long and bounded by `\b` on both sides |
| Scan.FirstNumberUnique | src/llm.py:48 | the leftmost number match is unique |
| Scan.ShortNumeralIsFirstNumber | src/llm.py:48 | a reply of one to three digits is itself the match |
| Scan.LongNumeralHasNoNumber | src/llm.py:48 | a digit run longer than three holds no match at all |
| Scan.WordHasNoNumber | src/llm.py:48 | a word starting with a letter has no `\b` inside, so no match |
| Scan.DigitRunAtLeast | src/llm.py:48 | the measured digit run is at least as long as any run of digits from the same place |
| Scan.DigitRunExact | src/llm.py:48 | a digit run followed by a non-digit is exactly the run the scanner measures |
| Scan.SpaceRunExact | src/llm.py:70 | a space run followed by a non-space is exactly the run `\s*` consumes |
| Scan.FindTargetFrom | src/llm.py:70 | the scan returns a "set to/move to" match at or after `from` with none before it, or None when there is none |
| Scan.FirstTarget | main.py:124 | `re.search(r'(?:set to\|move to)\s*(\d{1,3})(?:\s*degrees)?')`: the leftmost target match, or None when there is none |
| Scan.TargetMatchDetermined | src/llm.py:70 | at a position the spaces run up to the first digit and the group takes at most three digits greedily |
| Scan.TargetMatchFound | src/llm.py:70 | conversely, a phrase, its spaces and a greedy one-to-three digit group form a match |
| Scan.FirstTargetUnique | src/llm.py:70 | the leftmost target match is unique |
| Scan.NoDigitNoTarget | src/llm.py:70 | input without a digit has no target match |
| Text.Lower | src/llm.py:67 | `lower()` keeps the length and lowers each ASCII capital, position by position |
| Text.LowerIdempotent | src/llm.py:67 | lowering twice is lowering once |
| Text.Contains | src/llm.py:77 | the `in` test holds exactly when the word occurs at some position |
| Text.Strip | src/arduino.py:50 | `strip()` leaves no space at either end |
| Text.StripRemovesOnlySpaces | src/arduino.py:50 | `strip()` removes only spaces, and only at the two ends |
| Text.StripIdempotent | src/arduino.py:50 | stripping twice is stripping once |
| Text.StripOfIntToString | main.py:144 | the decimal text of an integer is unchanged by `strip()` |
| Text.DecimalOfNatToString | src/llm.py:51 | `int()` of the decimal text of n is n |
| Text.NatToStringInjective | main.py:166 | different angles are sent as different texts |
| Text.Interleave | src/llm.py:93-108 | an f-string contains each spliced value verbatim |
| Llm.ParseAngleFromLlmText | src/llm.py:39-59 | None for empty text; otherwise Some exactly when the first standalone number is in [min, max], and then its value; never clamped, never a later number |
| Llm.ParseAngleOfNumeral | src/llm.py:48-59 | a reply that is a number below 1000 gives it exactly when it is in range, else None |
| Llm.ParseAngleAccepts145 | src/llm.py:52-55 | "145" gives 145 |
| Llm.ParseAngleRefuses200 | src/llm.py:52-59 | "200" gives None, not 180 |
| Llm.ParseAngleIgnoresGluedDigits | src/llm.py:48 | "abc123" holds no standalone number, so None |
| Llm.ParseAngleIgnoresLongNumbers | src/llm.py:48 | "1234" holds no number of at most three digits, so None |
| Llm.InRangeTarget | src/llm.py:70-74 | Some exactly when the first "set to/move to N" has N in [min, max], and then N |
| Llm.ParseCommandWithKeywords | src/llm.py:61-90 | an in-range target wins; the result is None exactly when there is no such target and neither "open" nor "close"; results stay in range |
| Llm.KeywordsOpenWins | src/llm.py:77-81 | with "open" the answer is one step up (capped) with "bit"/"slightly", else the maximum, even when "close" is present too |
| Llm.KeywordsClose | src/llm.py:83-87 | without "open" but with "close": one step down (floored) with "bit"/"slightly", else the minimum |
| Llm.KeywordsOpenABitAnywhere | src/llm.py:67-79 | digit-free input whose lower-cased form holds "open" and "bit" opens by one step, capped at the maximum, whatever its capitals |
| Llm.KeywordsOpenABit | src/llm.py:77-79 | "open a bit" at 90 gives 105 |
| Llm.KeywordsCloseFullyAnywhere | src/llm.py:67-87 | digit-free input whose lower-cased form holds "close" and none of "open", "bit" and "slightly" gives the minimum, whatever its capitals |
| Llm.KeywordsClosePlain | src/llm.py:83-87 | "close" gives 0 from any current angle |
| Llm.PromptText | src/llm.py:92-108 | the prompt contains the current angle, min, max, step, initial angle and the user's input verbatim |
| Llm.BuildLlmPrompt | src/llm.py:92-108 | the same for the eight-space indented prompt |
| Server.KeywordRule | main.py:118-123 | the first applicable rule in the source's order: an "open fully"/"open all the way" phrase gives 180; otherwise a "close fully"/"close all the way" phrase gives 0; otherwise "open a bit"/"open slightly" gives min(180, angle + 15); otherwise "close a bit"/"close slightly" gives max(0, angle - 15); otherwise, without "bit"/"slightly", "open" gives 180 and "close" alone gives 0, and relative input without a phrase gives None; a rule fires only on input mentioning "open" or "close", and stays in [0, 180] |
| Server.GetAngleCommandFromKeywords | main.py:115-133 | an in-range target overrides the phrase rules; otherwise the first phrase rule decides; results stay in range |
| Server.KeywordPathsAgree | main.py:118-128 | without "bit"/"slightly" and without both "open" and "close", both keyword paths give the same answer |
| Server.OpenBitDiverges | main.py:120-122 | "open bit" at 90: the server gives None, the other path gives 105 |
| Server.OpenBitServer | main.py:120-122 | the server finds no keyword in "open bit" |
| Server.OpenBitLlm | main.py:120-122 | the other path opens "open bit" by one step |
| Server.RelativeWithoutPhraseMatchesNoRule | main.py:118-123 | input with "bit" and none of c, f, a, s fires no phrase rule |
| Server.OpenBitMatchesNoRule | main.py:118-123 | no phrase rule fires on "open bit" |
| Server.ServerOpenABitAnywhere | main.py:116-133 | digit-free input whose lowered form holds "open a bit" or "open slightly" and no "fully"/"all the way" phrase gives min(180, angle + 15), whatever its capitals |
| Server.ServerCloseABitAnywhere | main.py:116-133 | digit-free input whose lowered form holds "close a bit" or "close slightly", no relative "open" phrase and no "fully"/"all the way" phrase gives max(0, angle - 15) |
| Server.ServerOpenABit | main.py:116-120 | "Open a bit" at 90 gives 105 |
| Server.ServerCloseSlightly | main.py:116-121 | "close slightly" at 10 gives 0, floored at the minimum |
| Server.PhraseMentions | main.py:118-123 | a phrase found in the input brings along each word it contains |
| Server.Fallback | main.py:59-89 | the keyword fallback stays in range; its value per branch is stated by the four lemmas below |
| Server.ParseLlmResponseForAngle | main.py:47-95 | an in-range number in the reply wins; otherwise there is a result exactly when the fallback angle differs from the current angle, and then it is that angle; results stay in range |
| Server.FallbackOpenAtMaximum | main.py:90-95 | "open" when already at 180 gives None |
| Server.FallbackOpenBeforeSetTo | main.py:66-88 | in the fallback, a plain "open" beats "set to N" and gives the maximum |
| Server.FallbackOpen | main.py:66-72 | with "open" the fallback is one step up (capped at 180) when "bit"/"slightly" is present, else 180 |
| Server.FallbackClose | main.py:73-79 | without "open" but with "close" it is one step down (floored at 0) when "bit"/"slightly" is present, else 0 |
| Server.FallbackSetTo | main.py:80-88 | otherwise, with "set to"/"move to", it is the first standalone number of the whole input when that is in [0, 180], else the current angle |
| Server.FallbackNoKeyword | main.py:59-95 | with none of the keywords and no angle in the reply, the result is None |
| Server.BuildLlmPrompt | main.py:97-113 | the server's prompt contains the current angle, the constants and the user's input |
| Server.Send | main.py:136-156 | succeeds exactly when connected and the write goes through, then appends the stripped command and a newline; otherwise writes nothing, and without a port changes nothing; after a serial fault the port is open only if it was reopened |
| Server.ModelAngle | main.py:180-181 | an empty or missing reply gives no angle; a non-empty reply is read by `parse_llm_response_for_angle`; a found angle is in range |
| Server.KeywordStep | main.py:165-170 | success exactly when the angle's frame is written, and only then is the angle adopted |
| Server.ModelAngleStep | main.py:183-190 | success exactly when the angle's frame is written, and only then is it adopted; on failure the angle is unchanged and IDLE_STATE is written exactly when the port is still open and takes it |
| Server.NoAngleStep | main.py:191-194 | an error, the angle unchanged, and IDLE_STATE written when the port takes it |
| Server.ModelPath | main.py:177-194 | one prompt is sent for the current angle; success exactly when the model's angle exists and its frame is written; otherwise the angle is unchanged, and IDLE_STATE follows exactly when the port (still) takes it, both after a failed angle send and when there is no angle |
| Server.FrameOfAngle | main.py:144 | the frame of an angle is its decimal text and a newline |
| Server.FrameOfControl | main.py:144 | the control frames are "THINKING_START\n" and "IDLE_STATE\n" |
| Server.Process | main.py:159-194 | the reply's angle is the angle held afterwards; a failure keeps the angle; a success needs an open port and ends with the new angle's frame, after THINKING_START unless a keyword decided; exactly one prompt is sent when no keyword decides and THINKING_START is written, otherwise none |
| Server.ProcessKeywordHit | main.py:163-170 | a keyword hit makes one write attempt, the angle itself, with no query; the angle moves only when it is written |
| Server.ProcessThinkingRefused | main.py:174-175 | when THINKING_START cannot be written: an error, nothing written, no query, angle unchanged |
| Server.ProcessModelPath | main.py:172-177 | without a keyword hit, THINKING_START is written first and the model path follows |
| Server.ProcessNoAngleGoesIdle | main.py:191-194 | when the model yields nothing usable: THINKING_START then IDLE_STATE, and an error |
| Server.ProcessAngleSendFailsGoesIdle | main.py:183-190 | when the model's angle cannot be written but the port stays open: THINKING_START then IDLE_STATE, an error, and the angle kept |
| Server.ProcessKeepsAngle | main.py:159-194 | the angle stays in [0, 180] and the reply's angle is the angle held afterwards |
| Server.ServerState.constructor | main.py:20-21 | the globals start at angle 90, with nothing sent |
| Server.ServerState.SendArduinoCommand | main.py:136-156 | the globals change as `Send` says |
| Server.ServerState.SendToModel | main.py:28-45 | the prompt is recorded and the stripped reply, or None, is returned |
| Server.ServerState.SendKeywordAngle | main.py:165-170 | the globals and the reply are those of `KeywordStep` |
| Server.ServerState.SendModelAngle | main.py:183-190 | the globals and the reply are those of `ModelAngleStep` |
| Server.ServerState.ReportNoAngle | main.py:191-194 | the globals and the reply are those of `NoAngleStep` |
| Server.ServerState.RunModelPath | main.py:177-194 | the globals and the reply are those of `ModelPath` |
| Server.ServerState.ProcessUserCommand | main.py:159-194 | the globals and the reply are those of `Process` |
| Arduino.Clamp | src/arduino.py:63 | the angle is clamped into [min, max] and kept when already inside |
| Arduino.ClampIdempotent | src/arduino.py:63 | clamping twice is clamping once |
| Arduino.AngleFrameIsCommandFrame | src/arduino.py:66 | the angle frame is the frame `send_command` would write for its text |
| Arduino.Shown | src/arduino.py:76-80 | a drain keeps at most as many lines as it reads |
| Arduino.ShownIsClean | src/arduino.py:78-80 | every kept line is non-empty and stripped |
| Arduino.ShownOfClean | src/arduino.py:76-80 | lines that are already clean are all kept, in order |
| Arduino.ShownStep | src/arduino.py:77-80 | one read of the drain keeps the stripped first line exactly when it is not empty |
| Arduino.ArduinoController.constructor | src/arduino.py:11-15 | no port, nothing written |
| Arduino.ArduinoController.Connect | src/arduino.py:17-28 | True exactly when the port opens and the drain raises nothing; then the port is open and the start-up lines are drained; a failed open or a read fault in the drain leaves no handle, so not connected |
| Arduino.ArduinoController.ClearInitialBuffer | src/arduino.py:30-37 | when connected every waiting line is drained; otherwise nothing happens |
| Arduino.ArduinoController.ReadResponse | src/arduino.py:74-82 | every waiting line is read, and the non-empty stripped ones are returned in order |
| Arduino.ArduinoController.DrainLines | src/arduino.py:77-80 | the `in_waiting` loop empties the input and returns `Shown` of it |
| Arduino.ArduinoController.ReadLine | src/arduino.py:78 | one line is consumed and returned stripped |
| Arduino.ArduinoController.SendCommand | src/arduino.py:43-55 | True exactly when connected and the write succeeds, and then exactly `strip() + "\n"` is written; otherwise nothing is written |
| Arduino.ArduinoController.SetAngle | src/arduino.py:57-72 | True exactly when connected, the write succeeds and the drain raises nothing; the clamped angle's text is written whenever connected and the write succeeds, so a read fault reports False after the frame went out; otherwise nothing is written; the port is never dropped |
| Arduino.ArduinoController.Disconnect | src/arduino.py:84-89 | afterwards not connected; only an open port is closed |
| Arduino.DisconnectTwice | src/arduino.py:84-89 | a second disconnect changes nothing |
| Arduino.SendAfterFailedConnect | src/arduino.py:17-47 | after a failed connect, by a port that will not open or by a read fault, a send returns False and writes nothing |
| Firmware.Constrain | arduino/servo_lcd_display/servo_actions.cpp:9 | `constrain` gives lo below the range, hi above it, and keeps values inside |
| Firmware.LcdLine | arduino/servo_lcd_display/display_functions.cpp:49-51 | a prefix of the text: all of it up to sixteen characters, exactly sixteen otherwise |
| Firmware.ActionPanel | arduino/servo_lcd_display/display_functions.cpp:46-54 | EXECUTING_ACTION, the action timer at now, and the two lines cut to sixteen columns |
| Firmware.Board.Write | arduino/servo_lcd_display/servo_actions.cpp:12 | the position is appended to the writes and becomes the servo's position |
| Firmware.Board.Print | arduino/servo_lcd_display/servo_actions.cpp:13 | the text is appended to the serial output |
| Firmware.Board.Println | arduino/servo_lcd_display/servo_actions.cpp:13 | the text and CR LF are appended to the serial output |
| Firmware.Board.DisplayActionStatus | arduino/servo_lcd_display/display_functions.cpp:46-54 | the panel becomes `ActionPanel`: EXECUTING_ACTION, both lines cut to sixteen, the timer started |
| Firmware.Random | arduino/servo_lcd_display/servo_actions.cpp:66 | `random(lo, hi)` lies in [lo, hi) |
| Firmware.Board.constructor | arduino/servo_lcd_display/config.h:14-17 | the board starts at the initial angle 90, with no writes, the welcome screen and empty serial output |
| ServoActions.Repeat | arduino/servo_lcd_display/servo_actions.cpp:20-23 | a loop of zero or negative count writes nothing; every element comes from the pattern |
| ServoActions.RepeatLength | arduino/servo_lcd_display/servo_actions.cpp:20-23 | n rounds write n times the pattern's length |
| ServoActions.SpinTraceSafe | arduino/servo_lcd_display/servo_actions.cpp:19-25 | a spin writes only valid angles and ends at the start position |
| ServoActions.SpinNoTimes | arduino/servo_lcd_display/servo_actions.cpp:20-24 | with times <= 0 only the restoring write happens |
| ServoActions.SweepCycleShape | arduino/servo_lcd_display/servo_actions.cpp:34-35 | 0, 2, …, 180 then 180, 178, …, 0 |
| ServoActions.SweepCycleEvenInRange | arduino/servo_lcd_display/servo_actions.cpp:34-35 | every sweep position is even and in range |
| ServoActions.SweepTraceSafe | arduino/servo_lcd_display/servo_actions.cpp:32-38 | a sweep writes even in-range angles and ends at the start position |
| ServoActions.NodTraceShape | arduino/servo_lcd_display/servo_actions.cpp:45-53 | a nod starts and ends at 90, stays in range, and writes only 60 and 120 in between |
| ServoActions.ShakeTraceInRange | arduino/servo_lcd_display/servo_actions.cpp:64-71 | shake positions in [45, 135] are valid servo angles |
| ServoActions.ExecuteGoTo | arduino/servo_lcd_display/servo_actions.cpp:8-14 | currentAngle becomes the constrained angle, which is the one value written, then "Motor moved to: " and the angle |
| ServoActions.Alternate | arduino/servo_lcd_display/servo_actions.cpp:20-23 | the loop writes the two positions alternately, `times` times |
| ServoActions.ExecuteSpin | arduino/servo_lcd_display/servo_actions.cpp:16-27 | the writes are the spin trace from the start position, and currentAngle ends there |
| ServoActions.SweepUp | arduino/servo_lcd_display/servo_actions.cpp:34 | the ascending loop writes 0, 2, …, 180 |
| ServoActions.SweepDown | arduino/servo_lcd_display/servo_actions.cpp:35 | the descending loop writes 180, 178, …, 0 |
| ServoActions.SweepRoundStep | arduino/servo_lcd_display/servo_actions.cpp:33-36 | an up and a down pass after i cycles make i + 1 cycles |
| ServoActions.SweepRounds | arduino/servo_lcd_display/servo_actions.cpp:33-36 | the outer loop writes `repetitions` sweep cycles |
| ServoActions.ExecuteSweep | arduino/servo_lcd_display/servo_actions.cpp:29-40 | the writes are the sweep trace from the start position, and currentAngle ends there |
| ServoActions.ExecuteNod | arduino/servo_lcd_display/servo_actions.cpp:42-55 | the writes are the nod trace and currentAngle becomes 90 whatever it was |
| ServoActions.NodTraceAfter | arduino/servo_lcd_display/servo_actions.cpp:47-52 | the nod's writes, piece by piece, make the nod trace |
| ServoActions.SpinTraceAfter | arduino/servo_lcd_display/servo_actions.cpp:20-24 | the spin's writes, piece by piece, make the spin trace |
| ServoActions.ShakeMotion | arduino/servo_lcd_display/servo_actions.cpp:64-71 | the center, times * 6 positions in [45, 135], the center |
| ServoActions.ShakeTraceOf | arduino/servo_lcd_display/servo_actions.cpp:64-71 | those writes form a shake trace |
| ServoActions.ExecuteShake | arduino/servo_lcd_display/servo_actions.cpp:57-74 | a shake trace, ending with the servo and currentAngle at 90 |
| ServoActions.ExecuteShakeSilent | arduino/servo_lcd_display/servo_actions.cpp:80-95 | a shake trace with currentAngle, the display and the serial output unchanged |
| Rfid.ArduinoHex | arduino/servo_lcd_display/rfid_functions.cpp:18 | `String(b, HEX)` has one character below 0x10 and two otherwise, the last being the low nibble |
| Rfid.PaddedHex | arduino/servo_lcd_display/rfid_functions.cpp:15-18 | with the leading "0" every byte gives exactly two characters |
| Rfid.HexEncode | arduino/servo_lcd_display/rfid_functions.cpp:14-19 | the encoding is twice as long as the UID |
| Rfid.HexEncodeAt | arduino/servo_lcd_display/rfid_functions.cpp:14-19 | byte k gives characters 2k (high nibble) and 2k + 1 (low nibble) |
| Rfid.EncodeUid | arduino/servo_lcd_display/rfid_functions.cpp:13-19 | the loop builds `HexEncode` of the UID |
| Rfid.HexValue | arduino/servo_lcd_display/rfid_functions.cpp:18 | a hex digit of either case has a value below 16 whose digit is its lower-case form |
| Rfid.HexValueOfHexChar | arduino/servo_lcd_display/rfid_functions.cpp:18 | each digit the encoder writes reads back as its nibble |
| Rfid.HexDecode | arduino/servo_lcd_display/rfid_functions.cpp:14-19 | decoding succeeds only on an even length, with half as many bytes |
| Rfid.DecodeOfEncode | arduino/servo_lcd_display/rfid_functions.cpp:14-19 | decoding an encoding gives the UID back |
| Rfid.DecodeOfEncodeStep | arduino/servo_lcd_display/rfid_functions.cpp:14-19 | one more byte decodes from the two characters it adds |
| Rfid.PairOfDigits | arduino/servo_lcd_display/rfid_functions.cpp:14-19 | two digits make a byte whose pair is their lower-case form |
| Rfid.EncodeOfDecode | arduino/servo_lcd_display/rfid_functions.cpp:14-19 | whatever decodes encodes back to its lower-case form |
| Rfid.HexEncodeInjective | arduino/servo_lcd_display/rfid_functions.cpp:14-19 | different UIDs never share an encoding |
| Rfid.Base16 | arduino/servo_lcd_display/rfid_functions.cpp:20 | two symbols of the RFC 4648 alphabet per byte |
| Rfid.UpperHexChar | arduino/servo_lcd_display/rfid_functions.cpp:20 | upper-casing a hex digit gives the Base16 symbol, and lower-casing it gives the digit back |
| Rfid.Base16At | arduino/servo_lcd_display/rfid_functions.cpp:20 | byte k gives symbols 2k and 2k + 1 |
| Rfid.UpperIsBase16 | arduino/servo_lcd_display/rfid_functions.cpp:20 | `toUpperCase` of the encoding is the Base16 encoding |
| Rfid.LowerOfBase16 | arduino/servo_lcd_display/rfid_functions.cpp:20 | lower-casing the authentication output gives the lower-case encoding, the form of the configured keys |
| Rfid.AdminCardAuthorized | src/config.py:10-13 | card 04 96 C7 2B encodes to "0496c72b", which is configured as "Admin" |
| Rfid.HandleAuthenticationScan | arduino/servo_lcd_display/rfid_functions.cpp:7-27 | with a card: the prefix without a trailing space, then the Base16 UID on its own line; without one nothing; servo and display untouched |
| Rfid.ReportCard | arduino/servo_lcd_display/rfid_functions.cpp:40-49 | "Card detected! UID: " and the lower-case UID, printed before `toUpperCase` |
| Rfid.ShowCard | arduino/servo_lcd_display/rfid_functions.cpp:53-59 | RFID_DETECTED, its timer started, "Card Scanned!" and "UID: " + the text on the LCD |
| Rfid.ScanOutputAfter | arduino/servo_lcd_display/rfid_functions.cpp:40-62 | the serial output of one handled card |
| Rfid.HandleRfid | arduino/servo_lcd_display/rfid_functions.cpp:32-69 | as written: nothing in RFID_DETECTED or without a card; otherwise the report, one nod, and the board left in EXECUTING_ACTION |
| Rfid.HandleRfidCorrected | arduino/servo_lcd_display/rfid_functions.cpp:32-69 | the same with the nod before the card screen: the board ends in RFID_DETECTED showing the upper-case UID |
| Rfid.RescanAsWritten | arduino/servo_lcd_display/rfid_functions.cpp:34-62 | as written, a card read twice in a row is reported and nodded twice |
| Rfid.RescanCorrected | arduino/servo_lcd_display/rfid_functions.cpp:34-62 | corrected, the second read is ignored |

## Left out

- Characters are ASCII only. Python's `\b`, `\d`, `\s`, `lower()` and `strip()` also act on Unicode letters, digits and spaces, which the model treats as plain non-word, non-space characters.
- The HTTP calls to the language model, the reachability checks, the Flask routes and `app.run` are left out: they are network and web plumbing. The model's reply is an `Option<string>` input.
- `threading.Lock`, `time.sleep`, the firmware's `delay` and `randomSeed(analogRead(A0))` are left out: they are concurrency and timing. Random positions are a nondeterministic choice (`Firmware.Random`).
- `reinitialize_arduino` is reduced to a `reconnected` flag in `SerialFault`. Exceptions other than `SerialException` on a write become `OtherFault`, which changes nothing.
- Python's `int(angle)` in `set_angle` is left out: the model takes an integer angle, so float truncation is not modelled.
- The log output of the Python code (`print`) is left out.
- The mock-Arduino mode of `src/config.py` and `src/voice.py` are not part of this model.
- `ServoActions.ShakeMotion`: the 16-bit `int` product `times * 6` on the board is not wrapped. For `times` above 5461 the firmware's count would overflow, and the model uses the mathematical product.
- `Firmware.Board.Write` requires an angle in [0, 180]. The actions only write such angles, so the `Servo` library's microsecond interpretation of values of 544 and above is not modelled. `myservo.read()` is the last position written, without the library's rounding through microseconds.
- The LCD is reduced to its two lines of text. `lcd.clear` and the cursor moves are not modelled separately.
- The card screen's second line is stored uncut: `lcd.print` on a 16-column display would drop the characters past the sixteenth.
- The MFRC522 reader is reduced to an optional UID. `PICC_HaltA` and `PCD_StopCrypto1` are left out.
- A read fault (`SerialException` from `in_waiting` or `readline`) is modelled as raised at the drain's first read. A fault later in the drain would leave fewer lines waiting; the lines read before it are only printed, so the results are the same.
- `Arduino.Shown` states only a length bound in its own contract. What each kept line looks like is in `Arduino.ShownIsClean` and `Arduino.ShownOfClean`.

## Findings

| source | as written | input that shows it | evidently intended | confidence | as-written member | corrected member |
|---|---|---|---|---|---|---|
| arduino/servo_lcd_display/rfid_functions.cpp:53-62 | `handleRfid` sets `RFID_DETECTED` and the card screen, then calls `executeNod(1)`. `executeNod` calls `displayActionStatus`, which overwrites both LCD lines and sets `EXECUTING_ACTION`. So "Card Scanned!" is never left on the display, and the `currentDisplayState != RFID_DETECTED` guard at line 34 never blocks a re-read of the card. | any card read while the state is not `RFID_DETECTED`, read again at once | the card screen stays up in `RFID_DETECTED` (the guard's comment says "only if one isn't already being displayed"), so an immediate re-read is ignored | medium, not executed | Rfid.RescanAsWritten | Rfid.RescanCorrected |
