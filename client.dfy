/**
 * generateContent of lib/gemini/client.ts: up to `retries + 1` calls of the
 * model gateway, each followed by a greedy `\{[\s\S]*\}` match on the
 * response text and `JSON.parse` of the match.
 *
 * The gateway is the parameter `gateway(prompt, i)`: what the i-th call (from
 * 0) does, throw or resolve to text. `JSON.parse` is the parameter `parses`:
 * whether it accepts a candidate. A parsed value is represented by the text it
 * was parsed from.
 */
module Client {
  import opened Strings

  /** What one call of the model gateway does. */
  datatype Attempt = Throws | Responds(text: string)

  /** The value generateContent resolves to. */
  datatype Generated =
    | Parsed(json: string)   // JSON.parse(match) succeeded on `json`
    | Wrapped(text: string)  // `{ text }`: no brace match in the response
    | Undefined              // the loop body never ran (retries < 0)

  /** A settled promise: resolved with a value, or rejected with an Error carrying `message`. */
  datatype Outcome = Resolved(value: Generated) | Rejected(message: string)

  const FailureMessage := "Failed to generate content after retries"

  /** The retry count generateContent uses when its caller passes none. */
  const DefaultRetries := 1

  // ---------------------------------------------------------------------
  // Greedy brace extraction
  // ---------------------------------------------------------------------

  function FirstIndex(s: string, c: char): (r: Option<nat>)
    ensures r.None? ==> forall k :: 0 <= k < |s| ==> s[k] != c
    ensures r.Some? ==> r.value < |s| && s[r.value] == c && forall k :: 0 <= k < r.value ==> s[k] != c
  {
    if s == [] then None
    else if s[0] == c then Some(0)
    else match FirstIndex(s[1..], c)
      case None => None
      case Some(k) => Some(k + 1)
  }

  function LastIndex(s: string, c: char): (r: Option<nat>)
    ensures r.None? ==> forall k :: 0 <= k < |s| ==> s[k] != c
    ensures r.Some? ==> r.value < |s| && s[r.value] == c && forall k :: r.value < k < |s| ==> s[k] != c
  {
    if s == [] then None
    else if s[|s| - 1] == c then Some(|s| - 1)
    else LastIndex(s[..|s| - 1], c)
  }

  /** s[i..j] spans from the first '{' of s to its last '}', and i < j. */
  predicate GreedySpan(s: string, i: int, j: int) {
    0 <= i < j < |s| && s[i] == '{' && s[j] == '}' &&
    (forall k :: 0 <= k < i ==> s[k] != '{') &&
    (forall k :: j < k < |s| ==> s[k] != '}')
  }

  /** Some '}' occurs after some '{'. */
  predicate HasBracePair(s: string) {
    exists i, j :: 0 <= i < j < |s| && s[i] == '{' && s[j] == '}'
  }

  /** `text.match(/\{[\s\S]*\}/)?.[0]` */
  function ExtractJson(s: string): (r: Option<string>)
    ensures r.Some? <==> HasBracePair(s)
    ensures r.Some? ==> exists i, j :: GreedySpan(s, i, j) && r.value == s[i..j + 1]
  {
    var first, last := FirstIndex(s, '{'), LastIndex(s, '}');
    if first.Some? && last.Some? && first.value < last.value then
      assert GreedySpan(s, first.value, last.value);
      Some(s[first.value..last.value + 1])
    else
      assert !HasBracePair(s) by {
        forall i, j | 0 <= i < j < |s| && s[i] == '{' ensures s[j] != '}' { }
      }
      None
  }

  /** The candidate always starts with '{' and ends with '}'. */
  lemma ExtractJsonBraces(s: string)
    requires ExtractJson(s).Some?
    ensures var m := ExtractJson(s).value; |m| >= 2 && m[0] == '{' && m[|m| - 1] == '}'
  {
  }

  /** Prose without braces around a braced object: the match is exactly the object. */
  lemma ExtractFromProse(pre: string, obj: string, post: string)
    requires !HasChar(pre, '{') && !HasChar(post, '}')
    requires |obj| >= 2 && obj[0] == '{' && obj[|obj| - 1] == '}'
    ensures ExtractJson(pre + obj + post) == Some(obj)
  {
    var s := pre + obj + post;
    var i, j := |pre|, |pre| + |obj| - 1;
    assert s[i] == '{' && s[j] == '}';
    assert forall k :: 0 <= k < i ==> s[k] == pre[k] && s[k] != '{';
    assert forall k :: j < k < |s| ==> s[k] == post[k - j - 1] && s[k] != '}';
    var first, last := FirstIndex(s, '{'), LastIndex(s, '}');
    assert first.Some? && last.Some?;
    assert s[i..j + 1] == obj;
  }

  /** Text without any '{' has no match. */
  lemma NoOpenBraceNoMatch(s: string)
    requires !HasChar(s, '{')
    ensures ExtractJson(s) == None
  {
  }

  // ---------------------------------------------------------------------
  // One attempt and the retry loop
  // ---------------------------------------------------------------------

  /**
   * The body of the `try` for one attempt: None when it throws (the gateway
   * threw, or JSON.parse rejected the match), otherwise the value returned.
   */
  function AttemptResult(a: Attempt, parses: string -> bool): Option<Generated> {
    match a
    case Throws => None
    case Responds(text) =>
      match ExtractJson(text)
      case None => Some(Wrapped(text))
      case Some(m) => if parses(m) then Some(Parsed(m)) else None
  }

  /** An attempt is retried exactly when the gateway threw or the brace match did not parse. */
  lemma AttemptFailsIff(a: Attempt, parses: string -> bool)
    ensures AttemptResult(a, parses).None? <==>
      a.Throws? || (ExtractJson(a.text).Some? && !parses(ExtractJson(a.text).value))
  {
  }

  /** Without a brace match the response text is wrapped as it came, untrimmed. */
  lemma NoMatchKeepsRawText(text: string, parses: string -> bool)
    requires !HasBracePair(text)
    ensures AttemptResult(Responds(text), parses) == Some(Wrapped(text))
  {
  }

  /** The settled outcome of a run and the number of gateway calls it made. */
  datatype Run = Run(outcome: Outcome, calls: nat)

  /** The loop from iteration i on. */
  function GenerateFrom(prompt: string, retries: int, gateway: (string, nat) -> Attempt, parses: string -> bool, i: nat): Run
    requires i <= retries
    decreases retries - i
  {
    match AttemptResult(gateway(prompt, i), parses)
    case Some(g) => Run(Resolved(g), i + 1)
    case None =>
      if i == retries then Run(Rejected(FailureMessage), i + 1)
      else GenerateFrom(prompt, retries, gateway, parses, i + 1)
  }

  /** generateContent(prompt, retries): the reference the loop is proved against. */
  function Generate(prompt: string, retries: int, gateway: (string, nat) -> Attempt, parses: string -> bool): Run {
    if retries < 0 then Run(Resolved(Undefined), 0) else GenerateFrom(prompt, retries, gateway, parses, 0)
  }

  /**
   * The loop with its gateway calls and its waits. Returns the outcome, the
   * number of gateway calls and the number of 1000 ms waits.
   */
  method GenerateContent(prompt: string, retries: int, gateway: (string, nat) -> Attempt, parses: string -> bool)
    returns (out: Outcome, calls: nat, waits: nat)
    ensures Run(out, calls) == Generate(prompt, retries, gateway, parses)
    ensures waits == (if calls == 0 then 0 else calls - 1)
  {
    calls, waits := 0, 0;
    var i := 0;
    while i <= retries
      invariant 0 <= i && (retries < 0 ==> i == 0) && (retries >= 0 ==> i <= retries)
      invariant calls == i && waits == i
      invariant retries >= 0 ==> Generate(prompt, retries, gateway, parses) == GenerateFrom(prompt, retries, gateway, parses, i)
      decreases retries - i
    {
      calls := calls + 1;
      match gateway(prompt, i) {
        case Throws =>
        case Responds(text) =>
          var m := ExtractJson(text);
          if m.None? {
            return Resolved(Wrapped(text)), calls, waits;
          }
          if parses(m.value) {
            return Resolved(Parsed(m.value)), calls, waits;
          }
      }
      // catch (error): the gateway threw, or JSON.parse rejected the match
      if i == retries {
        return Rejected(FailureMessage), calls, waits;
      }
      waits := waits + 1;
      i := i + 1;
    }
    out := Resolved(Undefined);
  }

  // ---------------------------------------------------------------------
  // What a run promises
  // ---------------------------------------------------------------------

  predicate Fails(prompt: string, gateway: (string, nat) -> Attempt, parses: string -> bool, j: nat) {
    AttemptResult(gateway(prompt, j), parses).None?
  }

  lemma {:induction false} GenerateFromSpec(prompt: string, retries: int, gateway: (string, nat) -> Attempt, parses: string -> bool, i: nat)
    requires i <= retries
    ensures var r := GenerateFrom(prompt, retries, gateway, parses, i);
      && i < r.calls <= retries + 1
      && (forall j :: i <= j < r.calls - 1 ==> Fails(prompt, gateway, parses, j))
      && (r.outcome.Resolved? ==> AttemptResult(gateway(prompt, r.calls - 1), parses) == Some(r.outcome.value))
      && (r.outcome.Rejected? ==>
            r.calls == retries + 1 && Fails(prompt, gateway, parses, retries) && r.outcome.message == FailureMessage)
    decreases retries - i
  {
    if AttemptResult(gateway(prompt, i), parses).None? && i < retries {
      GenerateFromSpec(prompt, retries, gateway, parses, i + 1);
    }
  }

  /**
   * A run makes at most retries + 1 gateway calls (none when retries < 0); it
   * settles on the first attempt that does not throw, with that attempt's value,
   * and it rejects with the fixed message only after every attempt failed.
   */
  lemma GenerateSpec(prompt: string, retries: int, gateway: (string, nat) -> Attempt, parses: string -> bool)
    ensures var r := Generate(prompt, retries, gateway, parses);
      && (retries < 0 ==> r == Run(Resolved(Undefined), 0))
      && (retries >= 0 ==> 1 <= r.calls <= retries + 1)
      && (forall j :: 0 <= j < r.calls - 1 ==> Fails(prompt, gateway, parses, j))
      && (retries >= 0 && r.outcome.Resolved? ==> AttemptResult(gateway(prompt, r.calls - 1), parses) == Some(r.outcome.value))
      && (r.outcome.Rejected? <==> retries >= 0 && forall j :: 0 <= j <= retries ==> Fails(prompt, gateway, parses, j))
      && (r.outcome.Rejected? ==> r.calls == retries + 1 && r.outcome.message == FailureMessage)
  {
    if retries >= 0 {
      GenerateFromSpec(prompt, retries, gateway, parses, 0);
      var r := Generate(prompt, retries, gateway, parses);
      if r.outcome.Resolved? {
        assert !Fails(prompt, gateway, parses, r.calls - 1);
      }
    }
  }

  /** With the default of one retry there are at most two gateway calls. */
  lemma DefaultRetriesAtMostTwoCalls(prompt: string, gateway: (string, nat) -> Attempt, parses: string -> bool)
    ensures 1 <= Generate(prompt, DefaultRetries, gateway, parses).calls <= 2
  {
    GenerateSpec(prompt, DefaultRetries, gateway, parses);
  }

  /** One failed attempt followed by a successful one: the second attempt's value, after two calls. */
  lemma FailOnceThenSucceed(prompt: string, gateway: (string, nat) -> Attempt, parses: string -> bool, g: Generated)
    requires Fails(prompt, gateway, parses, 0)
    requires AttemptResult(gateway(prompt, 1), parses) == Some(g)
    ensures Generate(prompt, DefaultRetries, gateway, parses) == Run(Resolved(g), 2)
  {
  }

  /** The outcome does not depend on what the gateway would have done after the settling attempt. */
  lemma {:induction false} NoCallsAfterSettling(prompt: string, retries: int, g1: (string, nat) -> Attempt, g2: (string, nat) -> Attempt, parses: string -> bool, i: nat)
    requires i <= retries
    requires forall j :: i <= j < GenerateFrom(prompt, retries, g1, parses, i).calls ==> g1(prompt, j) == g2(prompt, j)
    ensures GenerateFrom(prompt, retries, g1, parses, i) == GenerateFrom(prompt, retries, g2, parses, i)
    decreases retries - i
  {
    GenerateFromSpec(prompt, retries, g1, parses, i);
    assert g1(prompt, i) == g2(prompt, i);
    if AttemptResult(g1(prompt, i), parses).None? && i < retries {
      NoCallsAfterSettling(prompt, retries, g1, g2, parses, i + 1);
    }
  }
}
