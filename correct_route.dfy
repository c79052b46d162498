/** POST of app/api/correct/route.ts: grammar correction or professional rewrite. */
module CorrectRoute {
  import opened Strings
  import opened Prompts
  import Client
  import opened Envelope

  /** The fields the handler destructures from the request body. */
  datatype CorrectBody = CorrectBody(text: Option<string>, mode: Option<string>, tone: Option<string>, prefs: Option<Preferences>)

  /** `!text || !text.trim()` */
  predicate TextMissing(text: Option<string>) {
    text.None? || text.value == "" || IsBlank(text.value)
  }

  /** The prompt chosen for a request whose text is present. */
  function CorrectionPrompt(b: CorrectBody, now: string): string
    requires b.text.Some?
  {
    if b.mode == Some("professional") then Professional(b.text.value, Some(OrDefault(b.tone, "formal")), b.prefs, now)
    else Grammar(b.text.value, b.prefs, now)
  }

  /** POST(request); `now` is the clock the prompt builders read. */
  function Post(req: Request<CorrectBody>, now: string, gateway: (string, nat) -> Client.Attempt, parses: string -> bool): (h: Handled)
    ensures req.Unreadable? ==> h == Handled(ServerError("Failed to process text", req.cause), None)
    ensures h.response.status == 400 <==> req.Readable? && TextMissing(req.body.text)
    ensures h.response.status == 400 ==> h == Handled(Response(400, Failure("Text is required", None)), None)
    ensures h.prompt.Some? <==> req.Readable? && !TextMissing(req.body.text)
    ensures h.prompt.Some? ==> h.prompt == Some(CorrectionPrompt(req.body, now))
    ensures h.response.status in {200, 400, 500}
    ensures h.response.status == 200 ==>
              (h.prompt.Some? &&
               var out := Client.Generate(h.prompt.value, Client.DefaultRetries, gateway, parses).outcome;
               out.Resolved? && h.response.body == Success(out.value))
    ensures h.response.status == 500 ==> h.response.body.Failure? && h.response.body.error == "Failed to process text"
    ensures h.response.status == 500 && h.prompt.Some? ==> h.response.body.details == Some(Client.FailureMessage)
    ensures req.Readable? && !TextMissing(req.body.text) ==>
              h == Respond(CorrectionPrompt(req.body, now), "Failed to process text", gateway, parses)
    ensures h.response.status == 200 <==>
              (req.Readable? && !TextMissing(req.body.text) &&
               Client.Generate(CorrectionPrompt(req.body, now), Client.DefaultRetries, gateway, parses).outcome.Resolved?)
  {
    match req
    case Unreadable(cause) => Handled(ServerError("Failed to process text", cause), None)
    case Readable(b) =>
      if TextMissing(b.text) then Handled(BadRequest("Text is required"), None)
      else Respond(CorrectionPrompt(b, now), "Failed to process text", gateway, parses)
  }

  /** Professional mode with no tone, or an empty one, rewrites in the 'formal' tone. */
  lemma ProfessionalToneDefaultsToFormal(text: string, tone: Option<string>, prefs: Option<Preferences>, now: string)
    requires tone.None? || tone == Some("")
    requires !TextMissing(Some(text))
    ensures CorrectionPrompt(CorrectBody(Some(text), Some("professional"), tone, prefs), now) ==
            Professional(text, Some("formal"), prefs, now)
  {
  }

  /** Any mode other than 'professional', including none, builds the grammar prompt and ignores the tone. */
  lemma OtherModesUseGrammar(text: string, mode: Option<string>, tone: Option<string>, prefs: Option<Preferences>, now: string)
    requires mode != Some("professional")
    ensures CorrectionPrompt(CorrectBody(Some(text), mode, tone, prefs), now) == Grammar(text, prefs, now)
  {
  }

  /**
   * Surrounding whitespace does not make a text valid: a text of spaces and
   * newlines is rejected whatever mode, tone and preferences come with it.
   */
  lemma WhitespaceTextRejected(text: string, req: Request<CorrectBody>, now: string, gateway: (string, nat) -> Client.Attempt, parses: string -> bool)
    requires AllSpace(text) && req.Readable? && req.body.text == Some(text)
    ensures Post(req, now, gateway, parses).response == Response(400, Failure("Text is required", None))
    ensures Post(req, now, gateway, parses).prompt.None?
  {
    BlankIffAllSpace(text);
  }

  /** When every gateway attempt fails the answer is a 500 whose details is the fixed retry message. */
  lemma AllAttemptsFailGives500(b: CorrectBody, now: string, gateway: (string, nat) -> Client.Attempt, parses: string -> bool)
    requires !TextMissing(b.text)
    requires forall j :: 0 <= j <= Client.DefaultRetries ==> Client.Fails(CorrectionPrompt(b, now), gateway, parses, j)
    ensures Post(Readable(b), now, gateway, parses).response ==
            Response(500, Failure("Failed to process text", Some(Client.FailureMessage)))
  {
    Client.GenerateSpec(CorrectionPrompt(b, now), Client.DefaultRetries, gateway, parses);
  }
}
