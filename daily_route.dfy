/** POST of app/api/daily/route.ts: today's three practice tasks. */
module DailyRoute {
  import opened Strings
  import opened Prompts
  import Client
  import opened Envelope

  datatype DailyBody = DailyBody(prefs: Option<Preferences>)

  /** POST(request); there is no required field. */
  function Post(req: Request<DailyBody>, now: string, gateway: (string, nat) -> Client.Attempt, parses: string -> bool): (h: Handled)
    ensures req.Unreadable? ==> h == Handled(ServerError("Failed to generate daily tasks", req.cause), None)
    ensures req.Readable? ==> h.prompt == Some(DailyTask(req.body.prefs, now))
    ensures h.response.status == 200 || h.response.status == 500
    ensures h.response.status == 200 ==>
              (h.prompt.Some? &&
               var out := Client.Generate(h.prompt.value, Client.DefaultRetries, gateway, parses).outcome;
               out.Resolved? && h.response.body == Success(out.value))
    ensures h.response.status == 500 ==> h.response.body.Failure? && h.response.body.error == "Failed to generate daily tasks"
    ensures h.response.status == 500 && h.prompt.Some? ==> h.response.body.details == Some(Client.FailureMessage)
    ensures req.Readable? ==> h == Respond(DailyTask(req.body.prefs, now), "Failed to generate daily tasks", gateway, parses)
    ensures h.response.status == 200 <==>
              (req.Readable? &&
               Client.Generate(DailyTask(req.body.prefs, now), Client.DefaultRetries, gateway, parses).outcome.Resolved?)
  {
    match req
    case Unreadable(cause) => Handled(ServerError("Failed to generate daily tasks", cause), None)
    case Readable(b) => Respond(DailyTask(b.prefs, now), "Failed to generate daily tasks", gateway, parses)
  }

  /** Whatever text the model returned is passed on as it is: the task count and shape are not checked. */
  lemma AnyParsedPayloadPassesThrough(b: DailyBody, now: string, gateway: (string, nat) -> Client.Attempt, parses: string -> bool, json: string)
    requires Client.AttemptResult(gateway(DailyTask(b.prefs, now), 0), parses) == Some(Client.Parsed(json))
    ensures Post(Readable(b), now, gateway, parses).response == Response(200, Success(Client.Parsed(json)))
  {
  }
}
