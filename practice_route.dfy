/** POST of app/api/practice/route.ts: one roleplay turn, or the closing feedback. */
module PracticeRoute {
  import opened Strings
  import opened Prompts
  import Client
  import opened Envelope

  datatype PracticeBody = PracticeBody(scenario: Option<string>, userMessage: Option<string>,
                                       history: Option<seq<Turn>>, isEnd: Option<bool>)

  /** The prompt for a request whose scenario is present, after `|| ''`, `|| []` and `|| false`. */
  function PracticePrompt(b: PracticeBody): string
    requires b.scenario.Some?
  {
    Roleplay(b.scenario.value, OrDefault(b.userMessage, ""),
             if b.history.Some? then b.history.value else [],
             b.isEnd == Some(true))
  }

  /** POST(request) */
  function Post(req: Request<PracticeBody>, gateway: (string, nat) -> Client.Attempt, parses: string -> bool): (h: Handled)
    ensures req.Unreadable? ==> h == Handled(ServerError("Failed to process practice", req.cause), None)
    ensures h.response.status == 400 <==> req.Readable? && !Truthy(req.body.scenario)
    ensures h.response.status == 400 ==> h == Handled(Response(400, Failure("Scenario is required", None)), None)
    ensures h.prompt.Some? <==> req.Readable? && Truthy(req.body.scenario)
    ensures h.prompt.Some? ==> h.prompt == Some(PracticePrompt(req.body))
    ensures h.response.status in {200, 400, 500}
    ensures h.response.status == 200 ==>
              (h.prompt.Some? &&
               var out := Client.Generate(h.prompt.value, Client.DefaultRetries, gateway, parses).outcome;
               out.Resolved? && h.response.body == Success(out.value))
    ensures h.response.status == 500 ==> h.response.body.Failure? && h.response.body.error == "Failed to process practice"
    ensures h.response.status == 500 && h.prompt.Some? ==> h.response.body.details == Some(Client.FailureMessage)
    ensures req.Readable? && Truthy(req.body.scenario) ==>
              h == Respond(PracticePrompt(req.body), "Failed to process practice", gateway, parses)
    ensures h.response.status == 200 <==>
              (req.Readable? && Truthy(req.body.scenario) &&
               Client.Generate(PracticePrompt(req.body), Client.DefaultRetries, gateway, parses).outcome.Resolved?)
  {
    match req
    case Unreadable(cause) => Handled(ServerError("Failed to process practice", cause), None)
    case Readable(b) =>
      if !Truthy(b.scenario) then Handled(BadRequest("Scenario is required"), None)
      else Respond(PracticePrompt(b), "Failed to process practice", gateway, parses)
  }

  /**
   * Only a missing or empty scenario is rejected: a whitespace-only scenario
   * goes on to generation, whatever else the body carries.
   */
  lemma WhitespaceScenarioAccepted(s: string, b: PracticeBody, gateway: (string, nat) -> Client.Attempt, parses: string -> bool)
    requires s != "" && AllSpace(s) && b.scenario == Some(s)
    ensures Post(Readable(b), gateway, parses).prompt == Some(PracticePrompt(b))
    ensures Post(Readable(b), gateway, parses).response.status != 400
  {
  }

  /** Missing message, history and end flag mean '', [] and false. */
  lemma MissingFieldsDefault(scenario: string)
    requires scenario != ""
    ensures PracticePrompt(PracticeBody(Some(scenario), None, None, None)) == Roleplay(scenario, "", [], false)
  {
  }

  /** A request marked as the end yields the feedback prompt, whatever message it carries. */
  lemma EndRequestIgnoresMessage(scenario: string, m1: Option<string>, m2: Option<string>, h: Option<seq<Turn>>)
    requires scenario != ""
    ensures PracticePrompt(PracticeBody(Some(scenario), m1, h, Some(true))) ==
            PracticePrompt(PracticeBody(Some(scenario), m2, h, Some(true)))
  {
  }
}
