/**
 * The WorkplacePractice component (components/features/WorkplacePractice.tsx):
 * pick a scenario from lib/scenarios.ts, chat with the simulated colleague
 * through POST /api/practice, end the conversation for feedback, and copy the
 * last message the user wrote.
 *
 * Each handler runs to completion: the `fetch` it awaits is given as the
 * reply it produced (None: `fetch` or `res.json()` threw).
 */
module Practice {
  import opened Strings
  import opened Prompts
  import Client
  import Envelope
  import PracticeRoute

  datatype Scenario = Scenario(id: string, title: string, description: string, context: string, roleplayAs: string)

  /** WORKPLACE_SCENARIOS */
  const Scenarios: seq<Scenario> := [
    Scenario("status-update", "Project Status Update",
             "Send a status update to your manager about a project",
             "You are working on a project that is slightly behind schedule. Your manager has asked for an update.",
             "Your manager"),
    Scenario("apology-email", "Apology Email",
             "Apologize for missing a deadline",
             "You missed an important deadline for a deliverable. You need to apologize and explain the situation professionally.",
             "Your team lead"),
    Scenario("meeting-invite", "Meeting Invitation",
             "Invite colleagues to a meeting",
             "You need to schedule a meeting with your team to discuss Q2 planning. Write a clear meeting invitation.",
             "Your colleague"),
    Scenario("slack-reply", "Slack Quick Reply",
             "Respond to a quick question on Slack",
             "A colleague asks you on Slack if you can review their document. You are busy but want to be helpful.",
             "Your colleague"),
    Scenario("feedback-peer", "Peer Feedback",
             "Give constructive feedback to a colleague",
             "Your colleague asked for feedback on their presentation. You found it informative but a bit too long.",
             "Your colleague")
  ]

  /** `WORKPLACE_SCENARIOS.find(s => s.id === id)` over a scenario list. */
  function FindScenario(list: seq<Scenario>, id: string): (r: Option<Scenario>)
    ensures r.None? <==> forall i :: 0 <= i < |list| ==> list[i].id != id
    ensures r.Some? ==> r.value in list && r.value.id == id
  {
    if list == [] then None
    else if list[0].id == id then Some(list[0])
    else FindScenario(list[1..], id)
  }

  /** `find` answers with the first scenario carrying the id, whatever later ones hold. */
  lemma {:induction false} FindScenarioFirst(list: seq<Scenario>, id: string, k: nat)
    requires k < |list| && list[k].id == id
    requires forall j :: 0 <= j < k ==> list[j].id != id
    ensures FindScenario(list, id) == Some(list[k])
  {
    if k > 0 {
      assert list[0].id != id;
      FindScenarioFirst(list[1..], id, k - 1);
    }
  }

  /** Every built-in scenario is found by its id, and nothing is found before one is selected. */
  lemma {:induction false} ScenarioLookup(k: nat)
    requires k < |Scenarios|
    ensures FindScenario(Scenarios, Scenarios[k].id) == Some(Scenarios[k])
    ensures FindScenario(Scenarios, "").None?
    ensures Scenarios[k].context != ""
  {
    var s := Scenarios;
    assert s[1..][1..][1..][1..] == [s[4]];
  }

  /** A chat message; an assistant reply without a `response` field has no content. */
  datatype Message = Message(role: Role, content: Option<string>)

  /** How a message reaches the prompt: serialised, then read back by `${msg.content}`. */
  function ToTurn(m: Message): (t: Turn)
    ensures t.role == m.role
    ensures m.content.Some? ==> t.content == m.content.value
    ensures m.content.None? ==> t.content == "undefined"
  {
    Turn(m.role, if m.content.Some? then m.content.value else "undefined")
  }

  function Turns(ms: seq<Message>): (ts: seq<Turn>)
    ensures |ts| == |ms|
    ensures forall i :: 0 <= i < |ms| ==> ts[i] == ToTurn(ms[i])
  {
    if ms == [] then [] else [ToTurn(ms[0])] + Turns(ms[1..])
  }

  /** The body sendMessage posts: the scenario's context, the new message, and the history including it. */
  function SendBody(sc: Scenario, input: string, ms: seq<Message>): PracticeRoute.PracticeBody {
    PracticeRoute.PracticeBody(Some(sc.context), Some(input), Some(Turns(ms + [Message(User, Some(input))])), Some(false))
  }

  /** The body endConversation posts: no user message, and the end flag. */
  function EndBody(sc: Scenario, ms: seq<Message>): PracticeRoute.PracticeBody {
    PracticeRoute.PracticeBody(Some(sc.context), None, Some(Turns(ms)), Some(true))
  }

  /** The message sendMessage posts reaches the roleplay prompt, quoted as the message to answer. */
  lemma SentMessageReachesPrompt(sc: Scenario, input: string, ms: seq<Message>)
    requires sc.context != "" && input != ""
    ensures PracticeRoute.PracticePrompt(SendBody(sc, input, ms)) ==
            Roleplay(sc.context, input, Turns(ms + [Message(User, Some(input))]), false)
    ensures Contains(PracticeRoute.PracticePrompt(SendBody(sc, input, ms)), QuotedMessage(input))
  {
  }

  /** The history sendMessage posts already ends with the new message, numbered after the earlier ones. */
  lemma SentHistoryEndsWithMessage(input: string, ms: seq<Message>)
    ensures Contains(HistoryText(Turns(ms + [Message(User, Some(input))])), TurnLine(|ms|, Turn(User, input)))
  {
    var ts := Turns(ms + [Message(User, Some(input))]);
    assert ts[|ms|] == Turn(User, input);
    HistoryTextContainsEachTurn(ts, |ms|);
  }

  /** endConversation asks the route for the feedback prompt over the whole history. */
  lemma EndAsksForFeedback(sc: Scenario, ms: seq<Message>)
    requires sc.context != ""
    ensures PracticeRoute.PracticePrompt(EndBody(sc, ms)) == Roleplay(sc.context, "", Turns(ms), true)
    ensures Contains(PracticeRoute.PracticePrompt(EndBody(sc, ms)), FeedbackSchema)
  {
  }

  /**
   * `data.data.response` once `data.success` holds. `responseOf` reads the
   * `response` field of the JSON text generation returned.
   */
  function AssistantReply(reply: Envelope.Response, responseOf: string -> Option<string>): (r: Envelope.Read<Option<string>>)
    ensures r.Ignored? <==> reply.body.Failure?
    ensures r.Threw? <==> reply.body.Success? && reply.body.data.Undefined?
    ensures r.Got? && reply.body.data.Parsed? ==> r.value == responseOf(reply.body.data.json)
    ensures r.Got? && reply.body.data.Wrapped? ==> r.value.None?
  {
    match reply.body
    case Failure(_, _) => Envelope.Ignored
    case Success(data) =>
      match data
      case Parsed(json) => Envelope.Got(responseOf(json))
      case Wrapped(_) => Envelope.Got(None)   // data.data is { text }
      case Undefined => Envelope.Threw        // data.data is absent
  }

  /** `if (data.success) setFeedback(data.data)` */
  function FeedbackReply(reply: Envelope.Response): (r: Envelope.Read<Client.Generated>)
    ensures r.Ignored? <==> reply.body.Failure?
    ensures r.Got? <==> reply.body.Success?
    ensures r.Got? ==> r.value == reply.body.data
  {
    match reply.body
    case Failure(_, _) => Envelope.Ignored
    case Success(data) => Envelope.Got(data)
  }

  // ---------------------------------------------------------------------
  // The user's last message
  // ---------------------------------------------------------------------

  /** `messages.filter(m => m.role === "user")` */
  function UserMessages(ms: seq<Message>): (r: seq<Message>)
    ensures |r| <= |ms|
    ensures forall i :: 0 <= i < |r| ==> r[i].role == User
  {
    if ms == [] then []
    else UserMessages(ms[..|ms| - 1]) + (if ms[|ms| - 1].role == User then [ms[|ms| - 1]] else [])
  }

  /** The filter distributes over concatenation and keeps a single message exactly when it is the user's. */
  lemma {:induction false} UserMessagesConcat(a: seq<Message>, b: seq<Message>)
    ensures UserMessages(a + b) == UserMessages(a) + UserMessages(b)
    ensures |b| == 1 ==> UserMessages(b) == (if b[0].role == User then b else [])
  {
    if b == [] {
      assert a + b == a;
    } else {
      var b' := b[..|b| - 1];
      assert (a + b)[..|a + b| - 1] == a + b';
      UserMessagesConcat(a, b');
      if |b| == 1 {
        assert b' == [];
      }
    }
  }

  /** Independently: the index of the last user message, scanning from the end. */
  function LastUserIndex(ms: seq<Message>): (r: Option<nat>)
    ensures r.None? <==> forall i :: 0 <= i < |ms| ==> ms[i].role != User
    ensures r.Some? ==> r.value < |ms| && ms[r.value].role == User
    ensures r.Some? ==> forall j :: r.value < j < |ms| ==> ms[j].role != User
  {
    if ms == [] then None
    else if ms[|ms| - 1].role == User then Some(|ms| - 1)
    else LastUserIndex(ms[..|ms| - 1])
  }

  /** Filtering then popping picks the same message as the scan from the end. */
  lemma {:induction false} PopOfUserMessages(ms: seq<Message>)
    ensures UserMessages(ms) == [] <==> LastUserIndex(ms).None?
    ensures UserMessages(ms) != [] ==> UserMessages(ms)[|UserMessages(ms)| - 1] == ms[LastUserIndex(ms).value]
  {
    if ms != [] && ms[|ms| - 1].role != User {
      PopOfUserMessages(ms[..|ms| - 1]);
    }
  }

  // ---------------------------------------------------------------------
  // The component
  // ---------------------------------------------------------------------

  class WorkplacePractice {
    /** The scenario list the component imports. */
    const catalog: seq<Scenario>
    var selectedScenario: string
    var started: bool
    var messages: seq<Message>
    var userInput: string
    var loading: bool
    var feedback: Option<Client.Generated>

    /** Every message the user wrote has its text. */
    predicate Valid()
      reads this
    {
      forall i :: 0 <= i < |messages| ==> messages[i].role == User ==> messages[i].content.Some?
    }

    /** The hooks' initial values. */
    constructor ()
      ensures Valid() && catalog == Scenarios
      ensures selectedScenario == "" && !started && messages == [] && userInput == "" && !loading && feedback.None?
    {
      catalog := Scenarios;
      selectedScenario, started, messages, userInput, loading, feedback := "", false, [], "", false, None;
    }

    /** The scenario select's onValueChange. */
    method SelectScenario(id: string)
      requires Valid()
      modifies this
      ensures Valid()
      ensures selectedScenario == id
      ensures started == old(started) && messages == old(messages) && userInput == old(userInput)
      ensures loading == old(loading) && feedback == old(feedback)
    {
      selectedScenario := id;
    }

    /** The message box's onChange. */
    method SetInput(text: string)
      requires Valid()
      modifies this
      ensures Valid()
      ensures userInput == text
      ensures selectedScenario == old(selectedScenario) && started == old(started) && messages == old(messages)
      ensures loading == old(loading) && feedback == old(feedback)
    {
      userInput := text;
    }

    /** startPractice: nothing happens until a scenario is selected. */
    method StartPractice()
      requires Valid()
      modifies this
      ensures Valid()
      ensures old(selectedScenario) == "" ==>
                started == old(started) && messages == old(messages) && feedback == old(feedback)
      ensures old(selectedScenario) != "" ==> started && messages == [] && feedback.None?
      ensures selectedScenario == old(selectedScenario) && userInput == old(userInput) && loading == old(loading)
    {
      if selectedScenario == "" {
        return;
      }
      started := true;
      messages := [];
      feedback := None;
    }

    /**
     * sendMessage: returns the body it posted (None when the input is blank or
     * no scenario matches) and whether the call rejects.
     */
    method SendMessage(reply: Option<Envelope.Response>, responseOf: string -> Option<string>)
      returns (sent: Option<PracticeRoute.PracticeBody>, rejected: bool)
      requires Valid()
      modifies this
      ensures Valid()
      ensures var sc := FindScenario(catalog, old(selectedScenario));
              if IsBlank(old(userInput)) || sc.None? then
                sent.None? && !rejected &&
                messages == old(messages) && userInput == old(userInput) && loading == old(loading)
              else
                var user := Message(User, Some(old(userInput)));
                var read := if reply.Some? then AssistantReply(reply.value, responseOf) else Envelope.Threw;
                sent == Some(SendBody(sc.value, old(userInput), old(messages))) &&
                userInput == "" && !loading &&
                (rejected <==> read.Threw?) &&
                messages == old(messages) + [user] + (if read.Got? then [Message(Assistant, read.value)] else [])
      ensures selectedScenario == old(selectedScenario) && started == old(started) && feedback == old(feedback)
    {
      var sc := FindScenario(catalog, selectedScenario);
      if IsBlank(userInput) || sc.None? {
        return None, false;
      }
      var user := Message(User, Some(userInput));
      sent := Some(SendBody(sc.value, userInput, messages));
      messages := messages + [user];
      userInput := "";
      loading := true;
      rejected := false;
      if reply.Some? {
        match AssistantReply(reply.value, responseOf) {
          case Ignored =>
          case Threw => rejected := true;
          case Got(content) => messages := messages + [Message(Assistant, content)];
        }
      } else {
        rejected := true;
      }
      loading := false;
    }

    /**
     * endConversation: returns the body it posted (None with no scenario or
     * no messages) and whether the call rejects. The messages are kept.
     */
    method EndConversation(reply: Option<Envelope.Response>)
      returns (sent: Option<PracticeRoute.PracticeBody>, rejected: bool)
      requires Valid()
      modifies this
      ensures Valid()
      ensures var sc := FindScenario(catalog, old(selectedScenario));
              if sc.None? || old(messages) == [] then
                sent.None? && !rejected && loading == old(loading) && feedback == old(feedback)
              else
                var read := if reply.Some? then FeedbackReply(reply.value) else Envelope.Threw;
                sent == Some(EndBody(sc.value, old(messages))) && !loading &&
                (rejected <==> reply.None?) &&
                feedback == (if read.Got? then Some(read.value) else old(feedback))
      ensures messages == old(messages) && selectedScenario == old(selectedScenario)
      ensures started == old(started) && userInput == old(userInput)
    {
      var sc := FindScenario(catalog, selectedScenario);
      if sc.None? || messages == [] {
        return None, false;
      }
      loading := true;
      sent := Some(EndBody(sc.value, messages));
      rejected := false;
      if reply.Some? {
        var read := FeedbackReply(reply.value);
        if read.Got? {
          feedback := Some(read.value);
        }
      } else {
        rejected := true;
      }
      loading := false;
    }

    /** reset */
    method Reset()
      requires Valid()
      modifies this
      ensures Valid()
      ensures !started && messages == [] && feedback.None? && selectedScenario == ""
      ensures userInput == old(userInput) && loading == old(loading)
    {
      started := false;
      messages := [];
      feedback := None;
      selectedScenario := "";
    }

    /** copyFinalMessage: the text put on the clipboard, if any user message exists. */
    method CopyFinalMessage() returns (copied: Option<string>)
      requires Valid()
      ensures copied.None? <==> forall i :: 0 <= i < |messages| ==> messages[i].role != User
      ensures copied.Some? ==> exists k :: 0 <= k < |messages| && messages[k].role == User &&
                                           messages[k].content == copied &&
                                           forall j :: k < j < |messages| ==> messages[j].role != User
    {
      var users := UserMessages(messages);
      PopOfUserMessages(messages);
      if users == [] {
        return None;
      }
      var last := users[|users| - 1];
      var k := LastUserIndex(messages).value;
      assert messages[k] == last;
      copied := last.content;
    }
  }
}
