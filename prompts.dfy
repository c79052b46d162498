/**
 * The four prompt builders of lib/gemini/prompts.ts as pure string functions.
 * Each builder interpolates its inputs verbatim (no escaping) into a fixed
 * template; the current time, which the source reads with
 * `new Date().toISOString()`, is the parameter `now`.
 */
module Prompts {
  import opened Strings

  /** The user's saved preferences; every field may be missing. */
  datatype Preferences = Preferences(tone: Option<string>, domain: Option<string>, level: Option<string>)

  datatype Role = User | Assistant

  /** One message of a practice conversation. */
  datatype Turn = Turn(role: Role, content: string)

  function RoleName(r: Role): string {
    match r
    case User => "user"
    case Assistant => "assistant"
  }

  /** Explicit preferences equal to the defaults the builders fall back to. */
  const DefaultPreferences := Preferences(Some("neutral"), Some("general"), Some("intermediate"))

  /** `userPreferences?.tone || 'neutral'` */
  function ToneOf(p: Option<Preferences>): string {
    OrDefault(if p.Some? then p.value.tone else None, "neutral")
  }

  /** `userPreferences?.domain || 'general'` */
  function DomainOf(p: Option<Preferences>): string {
    OrDefault(if p.Some? then p.value.domain else None, "general")
  }

  /** `userPreferences?.level || 'intermediate'` */
  function LevelOf(p: Option<Preferences>): string {
    OrDefault(if p.Some? then p.value.level else None, "intermediate")
  }

  /** The quoted user text of the correction prompts. */
  function QuotedText(text: string): string {
    "User's text: \"" + text + "\"\n"
  }

  /** The timestamp field of a JSON example. */
  function TimestampField(now: string): string {
    "\"timestamp\": \"" + now + "\""
  }

  lemma QuotedTextInjective(t1: string, t2: string)
    requires QuotedText(t1) == QuotedText(t2)
    ensures t1 == t2
  {
    assert t1 == QuotedText(t1)[14..14 + |t1|];
    assert t2 == QuotedText(t2)[14..14 + |t2|];
  }

  // ---------------------------------------------------------------------
  // Grammar-only correction
  // ---------------------------------------------------------------------

  const GrammarRole := "\nYou are a precise English editor. Only correct grammar, spelling, punctuation, and capitalization. Preserve meaning and style as much as possible.\n\n"

  const GrammarSchema := "\nProvide your response in this exact JSON format (return ONLY valid JSON, no markdown):\n{\n  \"corrected_text\": \"the corrected sentence here\",\n  \"explanation\": [\"First change explained\", \"Second change explained\"],\n  \"alternatives\": [\"Alternative 1\", \"Alternative 2\"],\n  \"tone\": \"formal/neutral/friendly\",\n  \"confidence_score\": 0.95,\n  "

  function GrammarParts(text: string, p: Option<Preferences>, now: string): seq<string> {
    [GrammarRole, QuotedText(text), "\nUser preferences:",
     "\n- Tone: " + ToneOf(p) + "\n- Domain: " + DomainOf(p) + "\n- Level: " + LevelOf(p) + "\n",
     GrammarSchema, TimestampField(now), "\n}\n"]
  }

  /** GRAMMAR_PROMPT(text, userPreferences) */
  function Grammar(text: string, p: Option<Preferences>, now: string): (r: string)
    ensures Contains(r, "User's text: \"" + text + "\"\n")
    ensures Contains(r, "\n- Tone: " + ToneOf(p) + "\n- Domain: " + DomainOf(p) + "\n- Level: " + LevelOf(p) + "\n")
    ensures Contains(r, "\"timestamp\": \"" + now + "\"")
  {
    var parts := GrammarParts(text, p, now);
    PartOccurs(parts, 1);
    PartOccurs(parts, 3);
    PartOccurs(parts, 5);
    Concat(parts)
  }

  /** The grammar prompt treats missing preferences exactly like the explicit defaults. */
  lemma GrammarDefaults(text: string, now: string)
    ensures Grammar(text, None, now) == Grammar(text, Some(DefaultPreferences), now)
    ensures Grammar(text, None, now) == Grammar(text, Some(Preferences(None, None, None)), now)
  {
  }

  /** A preference field that is present but empty is falsy, so it falls back too. */
  lemma GrammarEmptyFieldsDefault(text: string, now: string)
    ensures Grammar(text, Some(Preferences(Some(""), Some(""), Some(""))), now) == Grammar(text, Some(DefaultPreferences), now)
  {
  }

  /** The user's text is embedded verbatim: two different texts never give the same prompt. */
  lemma GrammarInjective(t1: string, t2: string, p: Option<Preferences>, now: string)
    requires Grammar(t1, p, now) == Grammar(t2, p, now)
    ensures t1 == t2
  {
    ConcatInjectiveAt(GrammarParts(t1, p, now), GrammarParts(t2, p, now), 1);
    QuotedTextInjective(t1, t2);
  }

  // ---------------------------------------------------------------------
  // Professional rewrite
  // ---------------------------------------------------------------------

  const ProfessionalRole := "\nYou are a workplace communication coach. Rewrite the input text to be professional, polished, and appropriate for workplace communication.\n\n"

  const ProfessionalSchema := ". Make it suitable for workplace emails, messages, or documents.\n\nProvide your response in this exact JSON format (return ONLY valid JSON, no markdown):\n{\n  \"corrected_text\": \"the professionally rewritten sentence here\",\n  \"explanation\": [\"What was improved\", \"Why this version is better\"],\n  \"alternatives\": [\"Alternative professional version 1\", \"Alternative professional version 2\"],\n  "

  /** The default parameter `tone: string = 'formal'` applies only when the argument is undefined. */
  function ToneArgument(tone: Option<string>): string {
    if tone.Some? then tone.value else "formal"
  }

  function ProfessionalParts(text: string, tone: string, p: Option<Preferences>, now: string): seq<string> {
    [ProfessionalRole, QuotedText(text), "\nDesired tone: " + tone + "\n", "User preferences:",
     "\n- Domain: " + DomainOf(p) + "\n- Level: " + LevelOf(p) + "\n",
     "\nRewrite this to be clear, concise, professional, and " + tone + ProfessionalSchema,
     "\"tone\": \"" + tone + "\",", "\n  \"confidence_score\": 0.95,\n  ", TimestampField(now), "\n}\n"]
  }

  /** PROFESSIONAL_PROMPT(text, tone, userPreferences) */
  function Professional(text: string, tone: Option<string>, p: Option<Preferences>, now: string): (r: string)
    ensures Contains(r, "User's text: \"" + text + "\"\n")
    ensures Contains(r, "\nDesired tone: " + ToneArgument(tone) + "\n")
    ensures Contains(r, "\"tone\": \"" + ToneArgument(tone) + "\",")
    ensures Contains(r, "\n- Domain: " + DomainOf(p) + "\n- Level: " + LevelOf(p) + "\n")
    ensures Contains(r, "\"timestamp\": \"" + now + "\"")
  {
    var parts := ProfessionalParts(text, ToneArgument(tone), p, now);
    PartOccurs(parts, 1);
    PartOccurs(parts, 2);
    PartOccurs(parts, 4);
    PartOccurs(parts, 6);
    PartOccurs(parts, 8);
    Concat(parts)
  }

  /** Only domain and level come from the preferences; their tone is ignored. */
  lemma ProfessionalIgnoresPreferredTone(text: string, tone: Option<string>, p: Preferences, t: Option<string>, now: string)
    ensures Professional(text, tone, Some(p), now) == Professional(text, tone, Some(p.(tone := t)), now)
  {
  }

  /** An omitted tone argument is the same as passing 'formal'. */
  lemma ProfessionalToneDefault(text: string, p: Option<Preferences>, now: string)
    ensures Professional(text, None, p, now) == Professional(text, Some("formal"), p, now)
  {
  }

  /** The user's text is embedded verbatim: two different texts never give the same prompt. */
  lemma ProfessionalInjective(t1: string, t2: string, tone: Option<string>, p: Option<Preferences>, now: string)
    requires Professional(t1, tone, p, now) == Professional(t2, tone, p, now)
    ensures t1 == t2
  {
    var t := ToneArgument(tone);
    ConcatInjectiveAt(ProfessionalParts(t1, t, p, now), ProfessionalParts(t2, t, p, now), 1);
    QuotedTextInjective(t1, t2);
  }

  // ---------------------------------------------------------------------
  // Conversation history
  // ---------------------------------------------------------------------

  /** `${i + 1}. ${msg.role}: ${msg.content}` for the message at 0-based position i. */
  function TurnLine(i: nat, t: Turn): string {
    NatToString(i + 1) + ". " + RoleName(t.role) + ": " + t.content
  }

  /** `history.map((msg, i) => ...)`, the map starting at position `from`. */
  function HistoryLines(h: seq<Turn>, from: nat): (r: seq<string>)
    ensures |r| == |h|
    ensures forall k :: 0 <= k < |h| ==> r[k] == TurnLine(from + k, h[k])
  {
    if h == [] then [] else [TurnLine(from, h[0])] + HistoryLines(h[1..], from + 1)
  }

  /** `lines.join(sep)` */
  function Join(lines: seq<string>, sep: string): string {
    if lines == [] then ""
    else if |lines| == 1 then lines[0]
    else Join(lines[..|lines| - 1], sep) + sep + lines[|lines| - 1]
  }

  /** The conversation history as it appears in a roleplay prompt. */
  function HistoryText(h: seq<Turn>): string {
    Join(HistoryLines(h, 0), "\n")
  }

  lemma {:induction false} HistoryLinesAppend(h: seq<Turn>, t: Turn, from: nat)
    ensures HistoryLines(h + [t], from) == HistoryLines(h, from) + [TurnLine(from + |h|, t)]
  {
    var a := HistoryLines(h + [t], from);
    var b := HistoryLines(h, from) + [TurnLine(from + |h|, t)];
    assert |a| == |b|;
    forall k | 0 <= k < |a| ensures a[k] == b[k] {
      if k < |h| {
        assert (h + [t])[k] == h[k];
      }
    }
  }

  /**
   * Appending a message to the history appends exactly one numbered line:
   * the new message is numbered |h| + 1 and follows the earlier lines after a newline.
   */
  lemma HistoryTextAppend(h: seq<Turn>, t: Turn)
    ensures HistoryText(h + [t]) == (if h == [] then "" else HistoryText(h) + "\n") + TurnLine(|h|, t)
  {
    HistoryLinesAppend(h, t, 0);
    var lines := HistoryLines(h + [t], 0);
    assert lines[..|lines| - 1] == HistoryLines(h, 0);
  }

  /** An empty history serialises to the empty string. */
  lemma HistoryTextEmpty()
    ensures HistoryText([]) == ""
  {
  }

  /** Two messages give the lines "1. user: ..." and "2. assistant: ..." in that order. */
  lemma HistoryTextTwoTurns(a: string, b: string)
    ensures HistoryText([Turn(User, a), Turn(Assistant, b)]) == "1. user: " + a + "\n2. assistant: " + b
  {
    var u, v := Turn(User, a), Turn(Assistant, b);
    assert NatToString(1) == "1" && NatToString(2) == "2";
    HistoryTextAppend([], u);
    assert [] + [u] == [u];
    assert HistoryText([u]) == "1. user: " + a;
    HistoryTextAppend([u], v);
    assert [u] + [v] == [u, v];
  }

  lemma ContainsExtend(s: string, x: string, t: string)
    requires Contains(s, x)
    ensures Contains(s + t, x) && Contains(t + s, x)
  {
    var i :| 0 <= i <= |s| && InfixAt(x, s, i);
    assert (s + t)[i..i + |x|] == s[i..i + |x|];
    assert InfixAt(x, s + t, i);
    assert (t + s)[|t| + i..|t| + i + |x|] == s[i..i + |x|];
    assert InfixAt(x, t + s, |t| + i);
  }

  lemma LastTurnOccurs(init: seq<Turn>, last: Turn)
    ensures Contains(HistoryText(init + [last]), TurnLine(|init|, last))
  {
    HistoryTextAppend(init, last);
    var before := if init == [] then "" else HistoryText(init) + "\n";
    InfixOfConcat(before, TurnLine(|init|, last), "");
    assert before + TurnLine(|init|, last) + "" == HistoryText(init + [last]);
  }

  lemma EarlierTurnOccurs(init: seq<Turn>, last: Turn, x: string)
    requires init != [] && Contains(HistoryText(init), x)
    ensures Contains(HistoryText(init + [last]), x)
  {
    HistoryTextAppend(init, last);
    ContainsExtend(HistoryText(init), x, "\n");
    ContainsExtend(HistoryText(init) + "\n", x, TurnLine(|init|, last));
  }

  /** Every message of the history appears in the serialised history as its own numbered line. */
  lemma {:induction false} HistoryTextContainsEachTurn(h: seq<Turn>, k: nat)
    requires k < |h|
    ensures Contains(HistoryText(h), TurnLine(k, h[k]))
  {
    var init, last := h[..|h| - 1], h[|h| - 1];
    assert h == init + [last];
    if k == |h| - 1 {
      LastTurnOccurs(init, last);
    } else {
      assert init[k] == h[k];
      HistoryTextContainsEachTurn(init, k);
      EarlierTurnOccurs(init, last, TurnLine(k, h[k]));
    }
  }

  // ---------------------------------------------------------------------
  // Roleplay turn and roleplay feedback
  // ---------------------------------------------------------------------

  const FeedbackSchema := "The conversation has ended. Provide detailed feedback in this exact JSON format (return ONLY valid JSON, no markdown):\n{\n  \"feedback\": \"Overall assessment of the conversation\",\n  \"scores\": {\n    \"clarity\": 85,\n    \"tone\": 90,\n    \"conciseness\": 80,\n    \"politeness\": 95\n  },\n  \"improvements\": [\"Improvement suggestion 1\", \"Improvement suggestion 2\", \"Improvement suggestion 3\"],\n  \"best_parts\": [\"What you did well 1\", \"What you did well 2\"]\n}\n"

  const ResponseSchema := "\nRespond naturally and professionally as a colleague would. Keep it brief (2-3 sentences). Return response in this exact JSON format (return ONLY valid JSON, no markdown):\n{\n  \"response\": \"Your response as a colleague here\"\n}\n"

  /** The history block shared by both roleplay prompts. */
  function HistoryBlock(h: seq<Turn>): string {
    "\nConversation history:\n" + HistoryText(h) + "\n"
  }

  /** The quoted user message of the turn prompt. */
  function QuotedMessage(m: string): string {
    "User's message: \"" + m + "\"\n"
  }

  function RoleplayParts(scenario: string, userMessage: string, h: seq<Turn>, isEnd: bool): seq<string> {
    if isEnd then
      ["\nConversation scenario: " + scenario + "\n", HistoryBlock(h), "\n", FeedbackSchema]
    else
      ["\nYou are a realistic workplace colleague in this scenario: " + scenario + "\n", HistoryBlock(h), "\n",
       QuotedMessage(userMessage), ResponseSchema]
  }

  /** ROLEPLAY_PROMPT(scenario, userMessage, conversationHistory, isEnd); it reads no clock. */
  function Roleplay(scenario: string, userMessage: string, h: seq<Turn>, isEnd: bool): (r: string)
    ensures Contains(r, "\nConversation history:\n" + HistoryText(h) + "\n")
    ensures isEnd ==> Contains(r, "\nConversation scenario: " + scenario + "\n")
    ensures isEnd ==> Contains(r, FeedbackSchema)
    ensures !isEnd ==> Contains(r, "\nYou are a realistic workplace colleague in this scenario: " + scenario + "\n")
    ensures !isEnd ==> Contains(r, "User's message: \"" + userMessage + "\"\n")
    ensures !isEnd ==> Contains(r, ResponseSchema)
  {
    var parts := RoleplayParts(scenario, userMessage, h, isEnd);
    PartOccurs(parts, 0);
    PartOccurs(parts, 1);
    PartOccurs(parts, 3);
    PartOccurs(parts, |parts| - 1);
    Concat(parts)
  }

  /** The feedback prompt never embeds the user's message: it is the same whatever the message is. */
  lemma FeedbackIgnoresMessage(scenario: string, m1: string, m2: string, h: seq<Turn>)
    ensures Roleplay(scenario, m1, h, true) == Roleplay(scenario, m2, h, true)
  {
  }

  lemma QuotedMessageInjective(m1: string, m2: string)
    requires QuotedMessage(m1) == QuotedMessage(m2)
    ensures m1 == m2
  {
    assert m1 == QuotedMessage(m1)[17..17 + |m1|];
    assert m2 == QuotedMessage(m2)[17..17 + |m2|];
  }

  /** The turn prompt embeds the user's message verbatim: different messages give different prompts. */
  lemma TurnInjectiveInMessage(scenario: string, m1: string, m2: string, h: seq<Turn>)
    requires Roleplay(scenario, m1, h, false) == Roleplay(scenario, m2, h, false)
    ensures m1 == m2
  {
    ConcatInjectiveAt(RoleplayParts(scenario, m1, h, false), RoleplayParts(scenario, m2, h, false), 3);
    QuotedMessageInjective(m1, m2);
  }

  // ---------------------------------------------------------------------
  // Daily tasks
  // ---------------------------------------------------------------------

  const DailyIntro := "\nGenerate 3 short English practice tasks for today. Make them practical and useful for workplace communication.\n\nUser preferences:"

  const DailySchema := "\nProvide tasks in this exact JSON format (return ONLY valid JSON, no markdown):\n{\n  \"tasks\": [\n    {\n      \"id\": \"task-1\",\n      \"type\": \"rewrite\",\n      \"instruction\": \"Rewrite this sentence formally\",\n      \"content\": \"can u send me the report asap\",\n      \"answer\": \"Could you please send me the report at your earliest convenience?\"\n    },\n    {\n      \"id\": \"task-2\",\n      \"type\": \"choice\",\n      \"instruction\": \"Choose the correct preposition\",\n      \"content\": \"I will arrive ___ the office at 9 AM\",\n      \"options\": [\"in\", \"at\", \"on\", \"to\"],\n      \"answer\": \"at\"\n    },\n    {\n      \"id\": \"task-3\",\n      \"type\": \"fill\",\n      \"instruction\": \"Fill in the blank with appropriate word\",\n      \"content\": \"Thank you for your ___ response to my inquiry\",\n      \"answer\": \"prompt\"\n    }\n  ],\n  "

  function DailyParts(p: Option<Preferences>, now: string): seq<string> {
    [DailyIntro, "\n- Domain: " + DomainOf(p) + "\n- Level: " + LevelOf(p) + "\n", DailySchema,
     "\"generated_at\": \"" + now + "\"", "\n}\n"]
  }

  /** DAILY_TASK_PROMPT(userPreferences) */
  function DailyTask(p: Option<Preferences>, now: string): (r: string)
    ensures Contains(r, "\n- Domain: " + DomainOf(p) + "\n- Level: " + LevelOf(p) + "\n")
    ensures Contains(r, "\"generated_at\": \"" + now + "\"")
  {
    var parts := DailyParts(p, now);
    PartOccurs(parts, 1);
    PartOccurs(parts, 3);
    Concat(parts)
  }

  /** The daily prompt depends on the preferences only through the defaulted domain and level. */
  lemma DailyTaskDependsOnDomainAndLevel(p: Option<Preferences>, q: Option<Preferences>, now: string)
    requires DomainOf(p) == DomainOf(q) && LevelOf(p) == LevelOf(q)
    ensures DailyTask(p, now) == DailyTask(q, now)
  {
  }

  /** Missing preferences give the same daily prompt as the explicit defaults. */
  lemma DailyTaskDefaults(now: string)
    ensures DailyTask(None, now) == DailyTask(Some(DefaultPreferences), now)
  {
  }
}
