/**
 * What the three route handlers under app/api share: the JSON envelope they
 * answer with, the value a `catch` receives, and the step that awaits
 * generateContent and wraps its outcome.
 */
module Envelope {
  import opened Strings
  import Client

  /** A value a handler's `catch` receives: an Error with its message, or anything else. */
  datatype Thrown = ErrorObject(message: string) | NonError

  /** The JSON body of a response. */
  datatype Body =
    | Success(data: Client.Generated)                 // { success: true, data }
    | Failure(error: string, details: Option<string>) // { error } or { error, details }

  datatype Response = Response(status: nat, body: Body)

  /** `await request.json()` and its destructuring: the fields, or what was thrown. */
  datatype Request<T> = Unreadable(cause: Thrown) | Readable(body: T)

  /**
   * What a component makes of a reply it fetched: `data.success` was falsy and
   * nothing happens, reading the payload threw, or the value it read.
   */
  datatype Read<T> = Ignored | Threw | Got(value: T)

  /** What a handler answered, and the prompt it passed to generateContent (None: no call). */
  datatype Handled = Handled(response: Response, prompt: Option<string>)

  /** `error instanceof Error ? error.message : 'Unknown error'` */
  function Details(e: Thrown): string {
    match e
    case ErrorObject(m) => m
    case NonError => "Unknown error"
  }

  function BadRequest(error: string): Response {
    Response(400, Failure(error, None))
  }

  function ServerError(error: string, e: Thrown): Response {
    Response(500, Failure(error, Some(Details(e))))
  }

  /**
   * `const result = await generateContent(prompt); return { success: true, data: result }`,
   * with a rejection caught and answered as a 500 carrying `error`.
   */
  function Respond(prompt: string, error: string, gateway: (string, nat) -> Client.Attempt, parses: string -> bool): (h: Handled)
    ensures h.prompt == Some(prompt)
    ensures h.response.status == 200 || h.response.status == 500
    ensures h.response.status == 200 <==> Client.Generate(prompt, Client.DefaultRetries, gateway, parses).outcome.Resolved?
    ensures h.response.status == 200 ==>
      h.response.body == Success(Client.Generate(prompt, Client.DefaultRetries, gateway, parses).outcome.value)
    ensures h.response.status == 500 ==> h.response.body == Failure(error, Some(Client.FailureMessage))
  {
    var run := Client.Generate(prompt, Client.DefaultRetries, gateway, parses);
    Client.GenerateSpec(prompt, Client.DefaultRetries, gateway, parses);
    match run.outcome
    case Resolved(v) => Handled(Response(200, Success(v)), Some(prompt))
    case Rejected(m) => Handled(ServerError(error, ErrorObject(m)), Some(prompt))
  }
}
