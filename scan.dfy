/**
 * The two regular-expression searches of the command resolver, written as
 * explicit left-to-right scanners (Python's re.search finds the leftmost
 * match):
 *
 *   - `\b(\d{1,3})\b`, a standalone number of one to three digits, and
 *   - `(?:set to|move to)\s*(\d{1,3})(?:\s*degrees)?`, an explicit target.
 *
 * Each pattern is first stated as a predicate saying when it matches at a
 * given position; the scanner is then proved to return the leftmost match.
 */
module Scan {
  import opened Text
  import opened Optional

  /** A capture group: the characters s[start..start + len]. */
  datatype Group = Group(start: nat, len: nat)

  /** A match of the "set to N" pattern starting at `at`, with its group. */
  datatype Target = Target(at: nat, group: Group)

  /** The group's digits, read as Python's int() reads them. */
  function GroupValue(s: string, g: Group): nat
    requires g.start + g.len <= |s| && AllDigits(s[g.start..g.start + g.len])
  {
    DecimalValue(s[g.start..g.start + g.len])
  }

  /** `\b` at position i: exactly one of the neighbours is a word character. */
  predicate BoundaryAt(s: string, i: int)
    requires 0 <= i <= |s|
  {
    (i > 0 && IsWordChar(s[i - 1])) != (i < |s| && IsWordChar(s[i]))
  }

  // ---------------------------------------------------------------------
  // Runs of digits and of spaces
  // ---------------------------------------------------------------------

  /** The number of consecutive digits starting at i. */
  function DigitRun(s: string, i: nat): (n: nat)
    requires i <= |s|
    ensures i + n <= |s| && AllDigits(s[i..i + n])
    ensures i + n < |s| ==> !IsDigit(s[i + n])
    decreases |s| - i
  {
    if i < |s| && IsDigit(s[i]) then
      var n := 1 + DigitRun(s, i + 1);
      assert s[i..i + n] == [s[i]] + s[i + 1..i + n];
      n
    else 0
  }

  /** The number of consecutive spaces starting at i. */
  function SpaceRun(s: string, i: nat): (n: nat)
    requires i <= |s|
    ensures i + n <= |s| && AllSpace(s[i..i + n])
    ensures i + n < |s| ==> !IsSpace(s[i + n])
    decreases |s| - i
  {
    if i < |s| && IsSpace(s[i]) then
      var n := 1 + SpaceRun(s, i + 1);
      assert s[i..i + n] == [s[i]] + s[i + 1..i + n];
      n
    else 0
  }

  /** Every digit run starting at i is at most DigitRun(s, i) long. */
  lemma {:induction false} DigitRunAtLeast(s: string, i: nat, k: nat)
    requires i + k <= |s| && AllDigits(s[i..i + k])
    ensures k <= DigitRun(s, i)
    decreases k
  {
    if k > 0 {
      assert s[i..i + k][0] == s[i];
      assert s[i + 1..i + k] == s[i..i + k][1..];
      DigitRunAtLeast(s, i + 1, k - 1);
    }
  }

  /** A digit run followed by a non-digit is exactly DigitRun(s, i). */
  lemma {:induction false} DigitRunExact(s: string, i: nat, k: nat)
    requires i + k <= |s| && AllDigits(s[i..i + k])
    requires i + k == |s| || !IsDigit(s[i + k])
    ensures DigitRun(s, i) == k
    decreases k
  {
    if k > 0 {
      assert s[i..i + k][0] == s[i];
      assert s[i + 1..i + k] == s[i..i + k][1..];
      DigitRunExact(s, i + 1, k - 1);
    }
  }

  /** A space run followed by a non-space is exactly SpaceRun(s, i). */
  lemma {:induction false} SpaceRunExact(s: string, i: nat, k: nat)
    requires i + k <= |s| && AllSpace(s[i..i + k])
    requires i + k == |s| || !IsSpace(s[i + k])
    ensures SpaceRun(s, i) == k
    decreases k
  {
    if k > 0 {
      assert s[i..i + k][0] == s[i];
      assert s[i + 1..i + k] == s[i..i + k][1..];
      SpaceRunExact(s, i + 1, k - 1);
    }
  }

  // ---------------------------------------------------------------------
  // \b(\d{1,3})\b
  // ---------------------------------------------------------------------

  /** `\b(\d{1,3})\b` matches at i with the group s[i..i + k]. */
  predicate NumberMatchAt(s: string, i: int, k: int)
  {
    && 0 <= i && 1 <= k <= 3 && i + k <= |s|
    && BoundaryAt(s, i) && BoundaryAt(s, i + k)
    && AllDigits(s[i..i + k])
  }

  /** The leftmost standalone number of `s`. */
  ghost predicate IsFirstNumber(s: string, g: Group)
  {
    NumberMatchAt(s, g.start, g.len) && forall i, k :: 0 <= i < g.start ==> !NumberMatchAt(s, i, k)
  }

  /**
   * At a given position the pattern has at most one match, and it takes the
   * whole run of digits: a longer run leaves no word boundary after three.
   */
  lemma NumberMatchAtIff(s: string, i: nat, k: int)
    requires i < |s|
    ensures NumberMatchAt(s, i, k) <==>
              (&& IsDigit(s[i]) && BoundaryAt(s, i)
               && k == DigitRun(s, i) && k <= 3 && BoundaryAt(s, i + k))
  {
    if NumberMatchAt(s, i, k) {
      assert s[i..i + k][0] == s[i];
      assert s[i..i + k][k - 1] == s[i + k - 1];
      DigitRunExact(s, i, k);
    }
    if IsDigit(s[i]) && k == DigitRun(s, i) {
      DigitRunAtLeast(s, i, 1);
    }
  }

  /** The scan for `\b(\d{1,3})\b` from position `from` onwards. */
  function FindNumberFrom(s: string, from: nat): (r: Option<Group>)
    requires from <= |s|
    ensures r.Some? ==> from <= r.value.start && NumberMatchAt(s, r.value.start, r.value.len)
    ensures r.Some? ==> forall i, k :: from <= i < r.value.start ==> !NumberMatchAt(s, i, k)
    ensures r.None? ==> forall i, k :: from <= i ==> !NumberMatchAt(s, i, k)
    decreases |s| - from
  {
    if from == |s| then None
    else
      var n := DigitRun(s, from);
      var here := IsDigit(s[from]) && BoundaryAt(s, from) && n <= 3 && BoundaryAt(s, from + n);
      assert forall k :: NumberMatchAt(s, from, k) <==> here && k == n by {
        forall k { NumberMatchAtIff(s, from, k); }
      }
      if here then Some(Group(from, n)) else FindNumberFrom(s, from + 1)
  }

  /** Python's re.search(r'\b(\d{1,3})\b', s). */
  function FirstNumber(s: string): (r: Option<Group>)
    ensures r.Some? ==> IsFirstNumber(s, r.value)
    ensures r.Some? ==> r.value.start + r.value.len <= |s| && 1 <= r.value.len <= 3
    ensures r.None? ==> forall i, k :: !NumberMatchAt(s, i, k)
  {
    FindNumberFrom(s, 0)
  }

  /** The value of a standalone number the scanner found. */
  function NumberValue(s: string, g: Group): nat
    requires NumberMatchAt(s, g.start, g.len)
  {
    GroupValue(s, g)
  }

  /** A string has at most one leftmost standalone number. */
  lemma FirstNumberUnique(s: string, g: Group, h: Group)
    requires IsFirstNumber(s, g) && IsFirstNumber(s, h)
    ensures g == h
  {
    NumberMatchAtIff(s, g.start, g.len);
    NumberMatchAtIff(s, h.start, h.len);
  }

  // ---------------------------------------------------------------------
  // (?:set to|move to)\s*(\d{1,3})(?:\s*degrees)?
  // ---------------------------------------------------------------------

  /**
   * The target pattern matches at `at` with the group s[start..start + len]:
   * a phrase, any spaces, and up to three digits taken greedily. The optional
   * `\s*degrees` suffix always matches (possibly empty) and does not change
   * the group.
   */
  predicate TargetMatchAt(s: string, at: int, start: int, len: int)
  {
    && 0 <= at && 1 <= len <= 3 && start + len <= |s|
    && ((OccursAt(s, "set to", at) && at + 6 <= start && AllSpace(s[at + 6..start]))
        || (OccursAt(s, "move to", at) && at + 7 <= start && AllSpace(s[at + 7..start])))
    && AllDigits(s[start..start + len])
    && (len == 3 || start + len == |s| || !IsDigit(s[start + len]))
  }

  /** The leftmost target match of `s`. */
  ghost predicate IsFirstTarget(s: string, t: Target)
  {
    && TargetMatchAt(s, t.at, t.group.start, t.group.len)
    && forall at, start, len :: 0 <= at < t.at ==> !TargetMatchAt(s, at, start, len)
  }

  /** Length of the phrase "set to" or "move to" at position i, 0 if none. */
  function PhraseLength(s: string, i: nat): (p: nat)
    ensures p == 0 || p == 6 || p == 7
    ensures p == 6 <==> OccursAt(s, "set to", i)
    ensures p == 7 <==> OccursAt(s, "move to", i)
  {
    if OccursAt(s, "set to", i) then
      assert s[i..i + 6][0] == s[i];
      assert !OccursAt(s, "move to", i) by {
        if i + 7 <= |s| { assert s[i..i + 7][0] == s[i]; }
      }
      6
    else if OccursAt(s, "move to", i) then 7
    else 0
  }

  /** The conditions under which the target pattern matches at `at`. */
  predicate TargetHere(s: string, at: nat, start: int, len: int)
  {
    var p := PhraseLength(s, at);
    && p > 0 && at + p <= |s|
    && start == at + p + SpaceRun(s, at + p)
    && start < |s| && IsDigit(s[start])
    && len == if DigitRun(s, start) < 3 then DigitRun(s, start) else 3
  }

  /**
   * At a given position the target pattern has at most one match: the
   * spaces run up to the first digit and the group takes up to three digits.
   */
  lemma TargetMatchDetermined(s: string, at: nat, start: int, len: int)
    requires TargetMatchAt(s, at, start, len)
    ensures TargetHere(s, at, start, len)
  {
    var p := PhraseLength(s, at);
    assert at + p <= start;
    assert s[start..start + len][0] == s[start];
    SpaceRunExact(s, at + p, start - (at + p));
    DigitRunAtLeast(s, start, len);
    if len < 3 { DigitRunExact(s, start, len); }
  }

  lemma TargetMatchFound(s: string, at: nat, start: int, len: int)
    requires TargetHere(s, at, start, len)
    ensures TargetMatchAt(s, at, start, len)
  {
    var p := PhraseLength(s, at);
    DigitRunAtLeast(s, start, 1);
    DigitsPrefix(s, start, len, DigitRun(s, start));
    assert AllSpace(s[at + p..start]);
    if p == 6 {
      assert OccursAt(s, "set to", at);
    } else {
      assert OccursAt(s, "move to", at);
    }
  }

  /** A prefix of a digit run is a digit run. */
  lemma DigitsPrefix(s: string, i: nat, k: nat, m: nat)
    requires k <= m && i + m <= |s| && AllDigits(s[i..i + m])
    ensures AllDigits(s[i..i + k])
  {
    assert s[i..i + k] == s[i..i + m][..k];
  }

  /** A phrase at `from` followed by spaces and then a digit: the pattern matches there. */
  predicate TargetStartsAt(s: string, from: nat)
    requires from <= |s|
  {
    var p := PhraseLength(s, from);
    p > 0 && from + p <= |s| && from + p + SpaceRun(s, from + p) < |s|
    && IsDigit(s[from + p + SpaceRun(s, from + p)])
  }

  /** The match at `from`: the digits after the phrase and its spaces, at most three of them. */
  function TargetAt(s: string, from: nat): (t: Target)
    requires from <= |s| && TargetStartsAt(s, from)
    ensures t.at == from && TargetMatchAt(s, t.at, t.group.start, t.group.len)
  {
    var start := from + PhraseLength(s, from) + SpaceRun(s, from + PhraseLength(s, from));
    var len := if DigitRun(s, start) < 3 then DigitRun(s, start) else 3;
    TargetMatchFound(s, from, start, len);
    Target(from, Group(start, len))
  }

  /** Where no phrase is followed by spaces and a digit, the pattern does not match. */
  lemma NoTargetAt(s: string, from: nat)
    requires from <= |s| && !TargetStartsAt(s, from)
    ensures forall start, len :: !TargetMatchAt(s, from, start, len)
  {
    forall start, len | TargetMatchAt(s, from, start, len) ensures false {
      TargetMatchDetermined(s, from, start, len);
    }
  }

  /** The scan for the target pattern from position `from` onwards. */
  function FindTargetFrom(s: string, from: nat): (r: Option<Target>)
    requires from <= |s|
    ensures r.Some? ==> from <= r.value.at && TargetMatchAt(s, r.value.at, r.value.group.start, r.value.group.len)
    ensures r.Some? ==> forall at, start, len :: from <= at < r.value.at ==> !TargetMatchAt(s, at, start, len)
    ensures r.None? ==> forall at, start, len :: from <= at ==> !TargetMatchAt(s, at, start, len)
    decreases |s| - from
  {
    if from == |s| then
      NoTargetAt(s, from);
      None
    else if TargetStartsAt(s, from) then Some(TargetAt(s, from))
    else
      NoTargetAt(s, from);
      FindTargetFrom(s, from + 1)
  }

  /** The value of the target number the scanner found. */
  function TargetValue(s: string, t: Target): nat
    requires TargetMatchAt(s, t.at, t.group.start, t.group.len)
  {
    GroupValue(s, t.group)
  }

  /** A string has at most one leftmost target match. */
  lemma FirstTargetUnique(s: string, t: Target, u: Target)
    requires IsFirstTarget(s, t) && IsFirstTarget(s, u)
    ensures t == u
  {
    assert !TargetMatchAt(s, u.at, u.group.start, u.group.len) ==> !(u.at < t.at);
    assert !TargetMatchAt(s, t.at, t.group.start, t.group.len) ==> !(t.at < u.at);
    assert t.at == u.at;
    TargetMatchDetermined(s, t.at, t.group.start, t.group.len);
    TargetMatchDetermined(s, u.at, u.group.start, u.group.len);
    assert t.group.start == u.group.start;
  }

  /** Python's re.search(r'(?:set to|move to)\s*(\d{1,3})(?:\s*degrees)?', s). */
  function FirstTarget(s: string): (r: Option<Target>)
    ensures r.Some? ==> IsFirstTarget(s, r.value)
    ensures r.Some? ==> r.value.group.start + r.value.group.len <= |s| && 1 <= r.value.group.len <= 3
    ensures r.None? ==> forall at, start, len :: !TargetMatchAt(s, at, start, len)
  {
    FindTargetFrom(s, 0)
  }

  /** Without a digit there is no target: the pattern needs at least one. */
  lemma NoDigitNoTarget(s: string)
    requires forall i :: 0 <= i < |s| ==> !IsDigit(s[i])
    ensures FirstTarget(s) == None
  {
    if FirstTarget(s).Some? {
      var g := FirstTarget(s).value.group;
      FirstDigit(s[g.start..g.start + g.len]);
    }
  }

  /** A string of one to three digits is itself the first standalone number. */
  lemma ShortNumeralIsFirstNumber(s: string)
    requires 1 <= |s| <= 3 && AllDigits(s)
    ensures FirstNumber(s) == Some(Group(0, |s|))
  {
    assert s[0..|s|] == s;
    assert NumberMatchAt(s, 0, |s|);
    var g := Group(0, |s|);
    assert IsFirstNumber(s, g);
    FirstNumberUnique(s, g, FirstNumber(s).value);
  }

  /** Four or more digits in a row and nothing else: no standalone number of one to three digits. */
  lemma LongNumeralHasNoNumber(s: string)
    requires |s| > 3 && AllDigits(s)
    ensures FirstNumber(s) == None
  {
  }

  /**
   * A word that starts with a non-digit: its digits are glued to word
   * characters, so none of them stands alone.
   */
  lemma WordHasNoNumber(s: string)
    requires |s| > 0 && !IsDigit(s[0])
    requires forall i :: 0 <= i < |s| ==> IsWordChar(s[i])
    ensures FirstNumber(s) == None
  {
  }
}
