/**
 * The narrative-input validator: the zod schema `narrativeInputSchema` and
 * `validateNarrativeInput`, which parses `{ input, tone }` against it and
 * reports either the data or the message of the first issue zod raised.
 *
 * Only the schema's declared constraints are modelled. zod parses the object's
 * keys in shape order (`input`, then `tone`) and a string's checks in
 * declaration order (`min`, `max`, then the refinement). A failed `min` or
 * `max` does not stop the later checks: every check runs and each failing one
 * adds its issue, so the issue list can hold several entries; the caller sees
 * only the first.
 */
module Validation {
  import opened JsString

  const MinLength := 10
  const MaxLength := 5000

  const MinMessage := "Please enter at least 10 characters to generate a meaningful narrative"
  const MaxMessage := "Input must not exceed 5000 characters"
  const BlankMessage := "Input cannot be empty or contain only whitespace"
  const ToneMessage := "Please select a valid tone"

  /** The values of the `tone` enum, compared exactly (case matters). */
  const ToneValues: seq<string> := ["activist", "scientific", "political", "inspirational"]

  /** The parsed object: the same `input` and `tone`, nothing trimmed. */
  datatype NarrativeInput = NarrativeInput(input: string, tone: string)

  /** The tagged result: `success: true` with `data`, or `success: false` with `error`. */
  datatype ValidationResult = Success(data: NarrativeInput) | Failure(error: string)

  /** A zod issue raised by one of the schema's checks. */
  datatype Issue = TooShort | TooLong | BlankInput | InvalidTone

  /** The message each issue carries, as declared in the schema. */
  function Message(issue: Issue): string {
    match issue
    case TooShort => MinMessage
    case TooLong => MaxMessage
    case BlankInput => BlankMessage
    case InvalidTone => ToneMessage
  }

  /** One declared check: whether the value passes it and the issue it raises otherwise. */
  datatype Check = Check(passes: bool, issue: Issue)

  /** The schema's checks on `{ input, tone }` in the order zod runs them:
      the `input` string's `min`, `max` and refinement, then the `tone` enum.
      The refinement fails exactly on whitespace-only input, and all four
      checks pass exactly when the input is acceptable. */
  function SchemaChecks(input: string, tone: string): (checks: seq<Check>)
    ensures |checks| == 4
    ensures checks[2].passes <==> !AllWhitespace(input)
    ensures checks[0].passes && checks[1].passes && checks[2].passes && checks[3].passes
      <==> Acceptable(input, tone)
  {
    BlankIffAllWhitespace(input);
    [ Check(|input| >= MinLength, TooShort),
      Check(|input| <= MaxLength, TooLong),
      Check(!IsBlank(input), BlankInput),
      Check(tone in ToneValues, InvalidTone) ]
  }

  /** The issues zod collects when it runs every check in order: one per
      failing check, so the first issue is that of the first failing check. */
  function Collect(checks: seq<Check>): (issues: seq<Issue>)
    ensures |issues| <= |checks|
    ensures issues == [] <==> forall k | 0 <= k < |checks| :: checks[k].passes
    ensures forall i | i in issues :: exists k | 0 <= k < |checks| :: !checks[k].passes && checks[k].issue == i
    ensures issues != [] ==> exists k :: FirstFailing(checks, k) && issues[0] == checks[k].issue
  {
    if checks == [] then []
    else
      var rest := Collect(checks[1..]);
      assert forall k | 1 <= k < |checks| :: checks[k] == checks[1..][k - 1];
      if checks[0].passes then
        assert rest != [] ==> exists k :: FirstFailing(checks, k) && rest[0] == checks[k].issue by {
          if rest != [] {
            var k :| FirstFailing(checks[1..], k) && rest[0] == checks[1..][k].issue;
            assert FirstFailing(checks, k + 1);
          }
        }
        rest
      else
        assert FirstFailing(checks, 0);
        [checks[0].issue] + rest
  }

  /** Four checks all pass exactly when each of them passes. */
  lemma AllPassOfFour(checks: seq<Check>)
    requires |checks| == 4
    ensures (forall k | 0 <= k < |checks| :: checks[k].passes) <==>
      checks[0].passes && checks[1].passes && checks[2].passes && checks[3].passes
  {
  }

  /** Check `k` is the first of `checks` that fails. */
  ghost predicate FirstFailing(checks: seq<Check>, k: int) {
    && 0 <= k < |checks|
    && !checks[k].passes
    && forall j | 0 <= j < k :: checks[j].passes
  }

  /** At most one check can be the first failing one. */
  lemma FirstFailingUnique(checks: seq<Check>, k: int, m: int)
    requires FirstFailing(checks, k) && FirstFailing(checks, m)
    ensures k == m
  {
  }

  /** What the schema demands, stated independently of how zod checks it. */
  ghost predicate Acceptable(input: string, tone: string) {
    && MinLength <= |input| <= MaxLength
    && !AllWhitespace(input)
    && tone in ToneValues
  }

  /** The issue list of `narrativeInputSchema.parse({ input, tone })`. */
  function Issues(input: string, tone: string): (issues: seq<Issue>)
    ensures issues == [] <==> Acceptable(input, tone)
  {
    var checks := SchemaChecks(input, tone);
    AllPassOfFour(checks);
    Collect(checks)
  }

  /** `validateNarrativeInput(input, tone)`: success with the data exactly as
      given when the schema accepts, otherwise the first issue's message. */
  function ValidateNarrativeInput(input: string, tone: string): (r: ValidationResult)
    ensures r.Success? <==> Acceptable(input, tone)
    ensures r.Success? ==> r.data.input == input && r.data.tone == tone
  {
    var issues := Issues(input, tone);
    if issues == [] then Success(NarrativeInput(input, tone)) else Failure(Message(issues[0]))
  }

  /** The reported error is the message of the first failing check: every
      check before it passes. */
  lemma ErrorIsFirstFailingCheck(input: string, tone: string)
    requires !Acceptable(input, tone)
    ensures exists k ::
      && FirstFailing(SchemaChecks(input, tone), k)
      && ValidateNarrativeInput(input, tone) == Failure(Message(SchemaChecks(input, tone)[k].issue))
  {
    var checks := SchemaChecks(input, tone);
    assert Issues(input, tone) == Collect(checks);
  }

  /** The error for input failing the check at `k` when every earlier one passes. */
  lemma ErrorAt(input: string, tone: string, k: int)
    requires FirstFailing(SchemaChecks(input, tone), k)
    ensures ValidateNarrativeInput(input, tone) == Failure(Message(SchemaChecks(input, tone)[k].issue))
  {
    var checks := SchemaChecks(input, tone);
    var issues := Issues(input, tone);
    assert issues == Collect(checks);
    assert issues != [] by {
      assert !checks[k].passes;
    }
    var m :| FirstFailing(checks, m) && issues[0] == checks[m].issue;
    FirstFailingUnique(checks, k, m);
  }

  /** Too short fails with the minimum-length message, whatever the tone and
      whether or not the input is blank. */
  lemma ShortInputFails(input: string, tone: string)
    requires |input| < MinLength
    ensures ValidateNarrativeInput(input, tone) == Failure(MinMessage)
  {
    ErrorAt(input, tone, 0);
  }

  /** Too long fails with the maximum-length message, whatever the tone. */
  lemma LongInputFails(input: string, tone: string)
    requires |input| > MaxLength
    ensures ValidateNarrativeInput(input, tone) == Failure(MaxMessage)
  {
    ErrorAt(input, tone, 1);
  }

  /** An input of allowed length made only of whitespace fails with the
      blank-input message, whatever the tone. */
  lemma BlankInputFails(input: string, tone: string)
    requires MinLength <= |input| <= MaxLength
    requires AllWhitespace(input)
    ensures ValidateNarrativeInput(input, tone) == Failure(BlankMessage)
  {
    ErrorAt(input, tone, 2);
  }

  /** A valid input with a tone outside the enum fails with the tone message. */
  lemma UnknownToneFails(input: string, tone: string)
    requires MinLength <= |input| <= MaxLength
    requires !AllWhitespace(input)
    requires tone !in ToneValues
    ensures ValidateNarrativeInput(input, tone) == Failure(ToneMessage)
  {
    var checks := SchemaChecks(input, tone);
    assert FirstFailing(checks, 3) by {
      assert !checks[3].passes;
      forall j | 0 <= j < 3 ensures checks[j].passes {
        if j == 2 { assert checks[2].passes; }
      }
    }
    ErrorAt(input, tone, 3);
  }

  /** Tone matching is exact: the tab label "Activist" is not the enum value
      "activist". */
  lemma ToneMatchIsExact()
    ensures ValidateNarrativeInput("ten chars!", "activist").Success?
    ensures ValidateNarrativeInput("ten chars!", "Activist") == Failure(ToneMessage)
  {
    var input := "ten chars!";
    assert !IsWhitespace(input[0]);
    assert "Activist" != ToneValues[0];
    UnknownToneFails(input, "Activist");
  }

  /** The minimum and maximum checks never fail together. */
  lemma MinAndMaxExclusive(input: string, tone: string)
    ensures !(TooShort in Issues(input, tone) && TooLong in Issues(input, tone))
  {
  }
}
