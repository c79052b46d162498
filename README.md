# ProWriter: prompts, generation retries, API routes and the two practice components

ProWriter is a Next.js writing coach. Three server routes build a text prompt
for a language model. They call it through a small client that retries, pull
a JSON object out of the model's reply, and answer with a uniform JSON
envelope. Two client components drive the user-facing state:

- the daily-task tracker (answers, completion, streak, progress in local storage);
- the workplace-practice chat (scenario, message list, feedback).

This Dafny project models those pieces and proves what each one promises.

| file | module | models |
|---|---|---|
| `strings.dfy` | `Strings` | JavaScript's or-default on strings, `trim` over JavaScript's whitespace set, ASCII `toLowerCase`, decimal numerals, substring occurrence, template concatenation |
| `prompts.dfy` | `Prompts` | the four prompt templates of `lib/gemini/prompts.ts` |
| `client.dfy` | `Client` | `generateContent` in `lib/gemini/client.ts`: the greedy brace match, one attempt, and the retry loop as a method proved against a recursive specification |
| `envelope.dfy` | `Envelope` | the response envelope and error details the routes share, and the await-and-wrap step |
| `correct_route.dfy`, `practice_route.dfy`, `daily_route.dfy` | `CorrectRoute`, `PracticeRoute`, `DailyRoute` | the three `POST` handlers |
| `daily_growth.dfy` | `Daily` | `DailyGrowth.tsx` as a class whose methods update the component state and the two stored records |
| `workplace_practice.dfy` | `Practice` | `WorkplacePractice.tsx` as a class, with the scenario list of `lib/scenarios.ts` |

Modelling choices:

- **Outside inputs.** Values from outside the program are parameters:
  - the model gateway is a function from (prompt, attempt number) to a thrown error or a response text;
  - `JSON.parse` on the matched text is a predicate saying whether it parses;
  - the clock is a timestamp string for the prompts and a day number for the components;
  - the replies a component's `fetch` receives are given to the method that awaits them.
- **Dates.** Two `toDateString()` values are equal exactly when they name the
  same day, and "yesterday" is the previous day number.
- **Generation behaviour worth noting.** The model keeps these details of the code:
  - a JSON match that does not parse is thrown inside the `try`, so it is retried like a gateway failure (`Client.AttemptFailsIff`);
  - text without a brace match is returned as it came, untrimmed (`Client.NoMatchKeepsRawText`);
  - the extractor is the single greedy match from the first `{` to the last `}`, with no balanced-brace fallback;
  - the final error is a new `Error` with a fixed message and does not carry the last cause.
- **Trim and lower-case order.** `checkAnswer` trims, then lower-cases.
  `Strings.TrimLowerCommute` proves the other order gives the same string.
- **Same-day streak.** On a correct answer the streak grows only when the last
  completion was yesterday. So a second correct answer on the same day sets it
  back to 1 (`Daily.SameDayResets`). The model keeps this behaviour.

## Model

| member | source | states |
|---|---|---|
| Strings.OrDefault | lib/gemini/prompts.ts:7-9 | the or-default of an optional string (`x or d` in JavaScript): the value when present and non-empty, otherwise the default |
| Strings.Trim | components/features/DailyGrowth.tsx:103-104 | `trim`: leading whitespace dropped, then trailing whitespace; what it keeps and drops is stated by TrimStartSpec and TrimEndSpec, and padding invariance by TrimPadding |
| Strings.Truthy | app/api/practice/route.ts:10 | JavaScript truthiness of an optional string: present and non-empty; the guards `!scenario` and `!task.userAnswer` are its negation, stated by PracticeRoute.Post's 400 clause and WhitespaceScenarioAccepted, and by Daily.Judge |
| Strings.TrimStartSpec | components/features/DailyGrowth.tsx:103-104 | leading trim keeps exactly the suffix from the first non-whitespace character; everything dropped is whitespace |
| Strings.TrimEndSpec | components/features/DailyGrowth.tsx:103-104 | trailing trim keeps exactly the prefix up to the last non-whitespace character; everything dropped is whitespace |
| Strings.TrimPadding | components/features/DailyGrowth.tsx:103-104 | whitespace added on either side never changes what `trim` returns |
| Strings.IsBlank | app/api/correct/route.ts:10 | `!s.trim()`: the trimmed string is empty; BlankIffAllSpace states it holds exactly for all-whitespace strings |
| Strings.BlankIffAllSpace | app/api/correct/route.ts:10 | `!text.trim()` holds exactly when every character is whitespace |
| Strings.TrimLowerCommute | components/features/DailyGrowth.tsx:102-104 | trimming then lower-casing equals lower-casing then trimming |
| Strings.Lower | components/features/DailyGrowth.tsx:103-104 | same length; each character lower-cased if it is an ASCII capital, kept otherwise |
| Strings.NatToString | lib/gemini/prompts.ts:53 | the numeral for `i + 1`: at least one digit, only digits, no leading zero |
| Strings.ParseNatToString | lib/gemini/prompts.ts:53 | reading the printed numeral back gives the number, so different positions print differently |
| Strings.PartOccurs | lib/gemini/prompts.ts:1-20 | every piece of a filled template occurs verbatim in the result |
| Strings.ConcatInjectiveAt | lib/gemini/prompts.ts:1-20 | two filled templates that agree everywhere except one piece, and are equal, agree on that piece |
| Prompts.ToneOf | lib/gemini/prompts.ts:7 | `userPreferences?.tone or 'neutral'`; GrammarDefaults and GrammarEmptyFieldsDefault state the fallback |
| Prompts.DomainOf | lib/gemini/prompts.ts:8 | `userPreferences?.domain or 'general'`; GrammarDefaults, GrammarEmptyFieldsDefault and DailyTaskDefaults state the fallback |
| Prompts.LevelOf | lib/gemini/prompts.ts:9 | `userPreferences?.level or 'intermediate'`; GrammarDefaults, GrammarEmptyFieldsDefault and DailyTaskDefaults state the fallback |
| Prompts.Grammar | lib/gemini/prompts.ts:1-20 | the prompt quotes the user's text, lists tone, domain and level (each defaulted), and carries the timestamp |
| Prompts.GrammarDefaults | lib/gemini/prompts.ts:7-9 | missing preferences, or preferences with no fields, give the neutral/general/intermediate prompt |
| Prompts.GrammarEmptyFieldsDefault | lib/gemini/prompts.ts:7-9 | empty-string preference fields fall back to the defaults as missing ones do |
| Prompts.GrammarInjective | lib/gemini/prompts.ts:4 | different texts give different grammar prompts |
| Prompts.QuotedTextInjective | lib/gemini/prompts.ts:4 | the quoted-text line determines the text |
| Prompts.Professional | lib/gemini/prompts.ts:22-43 | the prompt quotes the text, states the desired tone twice (instruction and JSON field), lists domain and level, and carries the timestamp |
| Prompts.ProfessionalIgnoresPreferredTone | lib/gemini/prompts.ts:28-30 | the preference's own tone has no effect on the professional prompt |
| Prompts.ToneArgument | lib/gemini/prompts.ts:22 | the default parameter `tone = 'formal'`, applied only when the argument is undefined; ProfessionalToneDefault states it |
| Prompts.ProfessionalToneDefault | lib/gemini/prompts.ts:22 | an omitted tone argument means 'formal' |
| Prompts.ProfessionalInjective | lib/gemini/prompts.ts:25 | different texts give different professional prompts |
| Prompts.RoleName | lib/gemini/prompts.ts:53 | `${msg.role}`: "user" or "assistant"; HistoryTextContainsEachTurn and HistoryTextTwoTurns state where it appears |
| Prompts.TurnLine | lib/gemini/prompts.ts:53 | one history line `i + 1. role: content`; HistoryTextContainsEachTurn and ParseNatToString make each line's number that of its position |
| Prompts.HistoryLines | lib/gemini/prompts.ts:53 | one line per turn, line k numbered from the start index plus k |
| Prompts.Join | lib/gemini/prompts.ts:53 | `join(sep)`: the lines with the separator between neighbours and none at the ends; stated through HistoryText by HistoryTextEmpty, HistoryTextAppend and HistoryTextTwoTurns |
| Prompts.HistoryText | lib/gemini/prompts.ts:53 | the numbered turn lines joined by newlines; HistoryTextContainsEachTurn states that every turn appears with its number, HistoryTextAppend how a new turn extends it |
| Prompts.HistoryLinesAppend | lib/gemini/prompts.ts:53 | adding a turn adds exactly one line at the end, numbered after the others |
| Prompts.HistoryTextAppend | lib/gemini/prompts.ts:74 | the joined history of h + [t] is h's history, a newline if h was non-empty, then t's numbered line |
| Prompts.HistoryTextEmpty | lib/gemini/prompts.ts:74 | an empty history joins to the empty string |
| Prompts.HistoryTextTwoTurns | lib/gemini/prompts.ts:53 | two turns render as "1. user: …" and "2. assistant: …" joined by a newline |
| Prompts.HistoryTextContainsEachTurn | lib/gemini/prompts.ts:53 | every turn appears in the history with its 1-based number, role and content |
| Prompts.Roleplay | lib/gemini/prompts.ts:47-83 | both branches contain the numbered history; the end branch names the scenario and asks for the feedback JSON; the other quotes the user's message and asks for a reply JSON |
| Prompts.FeedbackIgnoresMessage | lib/gemini/prompts.ts:48-67 | the feedback prompt does not depend on the user's message |
| Prompts.QuotedMessageInjective | lib/gemini/prompts.ts:76 | the quoted-message line determines the message |
| Prompts.TurnInjectiveInMessage | lib/gemini/prompts.ts:70-82 | different messages give different turn prompts |
| Prompts.DailyTask | lib/gemini/prompts.ts:85-120 | the prompt lists domain and level (each defaulted) and carries the generation time |
| Prompts.DailyTaskDependsOnDomainAndLevel | lib/gemini/prompts.ts:88-90 | preferences with the same effective domain and level give the same prompt |
| Prompts.DailyTaskDefaults | lib/gemini/prompts.ts:89-90 | no preferences means general/intermediate |
| Client.FirstIndex | lib/gemini/client.ts:23 | the first position of a character, or none when it does not occur |
| Client.LastIndex | lib/gemini/client.ts:23 | the last position of a character, or none when it does not occur |
| Client.ExtractJson | lib/gemini/client.ts:23-24 | a match exists exactly when some `{` precedes some `}`, and it runs from the first `{` to the last `}` |
| Client.ExtractJsonBraces | lib/gemini/client.ts:23 | a match starts with `{` and ends with `}` |
| Client.ExtractFromProse | lib/gemini/client.ts:23-25 | an object between prose without `{` before and without `}` after is extracted exactly |
| Client.NoOpenBraceNoMatch | lib/gemini/client.ts:28-29 | text without `{` has no match |
| Client.AttemptResult | lib/gemini/client.ts:17-30 | the body of the `try`: a value when the gateway answered and either nothing matched or the match parsed; its failure condition is AttemptFailsIff, its raw-text case NoMatchKeepsRawText |
| Client.AttemptFailsIff | lib/gemini/client.ts:17-30 | an attempt fails exactly when the gateway threw or the matched text did not parse |
| Client.NoMatchKeepsRawText | lib/gemini/client.ts:28-29 | text without a match is returned wrapped as `{ text }`, unchanged |
| Client.GenerateFrom | lib/gemini/client.ts:16-37 | the attempts from number i on, as a recursive reference; GenerateFromSpec states what it settles on and when |
| Client.Generate | lib/gemini/client.ts:13-39 | `generateContent` as a recursive reference; GenerateSpec states the call bound, the first success and the all-fail rejection, and GenerateContent is proved equal to it |
| Client.GenerateContent | lib/gemini/client.ts:13-39 | the loop's outcome and call count equal the recursive specification; it waits once before each retry |
| Client.GenerateFromSpec | lib/gemini/client.ts:16-37 | from attempt i on: every attempt before the last one failed, a success carries the last attempt's value, a rejection comes only at the final attempt with the fixed message |
| Client.GenerateSpec | lib/gemini/client.ts:13-39 | at most retries + 1 calls; the first attempt that does not fail settles the result; rejection with "Failed to generate content after retries" exactly when all attempts fail |
| Client.DefaultRetriesAtMostTwoCalls | lib/gemini/client.ts:13 | with the default of one retry, one or two gateway calls |
| Client.FailOnceThenSucceed | lib/gemini/client.ts:30-36 | a failure then a success returns the success after exactly two calls |
| Client.NoCallsAfterSettling | lib/gemini/client.ts:24-29 | gateway behaviour after the settling attempt does not affect the result |
| Envelope.Details | app/api/correct/route.ts:33 | the details of a 500: an Error's own message, 'Unknown error' for anything else thrown |
| Envelope.BadRequest | app/api/correct/route.ts:10-15 | the 400 answer with the route's message and no details; CorrectRoute.Post and PracticeRoute.Post state when it is given |
| Envelope.ServerError | app/api/correct/route.ts:30-36 | the 500 answer of a `catch`: the route's error and the thrown value's Details; each route's Post states it for an unreadable body |
| Envelope.Respond | app/api/correct/route.ts:24-36 | status 200 with the generated value exactly when generation resolves, otherwise 500 with the route's error and the retry message as details |
| CorrectRoute.Post | app/api/correct/route.ts:5-37 | 400 "Text is required" exactly for a missing or blank text, without generating; otherwise the professional prompt for mode 'professional' with tone defaulting to 'formal', the grammar prompt for any other mode; 500 "Failed to process text" on an unreadable body or failed generation; a valid request answers 200 with the generated value exactly when generation resolves, and its 500 carries the retry message as details |
| CorrectRoute.TextMissing | app/api/correct/route.ts:10 | `!text or !text.trim()`: a missing, empty or blank text; WhitespaceTextRejected and Post's 400 clause state it |
| CorrectRoute.CorrectionPrompt | app/api/correct/route.ts:17-22 | the prompt for a present text: professional with `tone or 'formal'` in mode 'professional', grammar otherwise; stated by ProfessionalToneDefaultsToFormal and OtherModesUseGrammar |
| CorrectRoute.ProfessionalToneDefaultsToFormal | app/api/correct/route.ts:18-19 | professional mode without a tone, or with an empty one, uses 'formal' |
| CorrectRoute.OtherModesUseGrammar | app/api/correct/route.ts:20-22 | every mode other than 'professional' uses the grammar prompt |
| CorrectRoute.WhitespaceTextRejected | app/api/correct/route.ts:10-15 | a text of whitespace only gets the 400 answer and no generation, whatever mode, tone and preferences come with it |
| CorrectRoute.AllAttemptsFailGives500 | app/api/correct/route.ts:24-36 | when every attempt fails the answer is 500 with the retry message as details |
| PracticeRoute.Post | app/api/practice/route.ts:5-37 | 400 "Scenario is required" exactly for a missing or empty scenario, without generating; otherwise the roleplay prompt with message, history and end flag defaulted; 500 "Failed to process practice" on errors; a request with a scenario answers 200 with the generated value exactly when generation resolves, and its 500 carries the retry message as details |
| PracticeRoute.PracticePrompt | app/api/practice/route.ts:17-22 | the roleplay prompt with message, history and end flag defaulted to '', [] and false; stated by MissingFieldsDefault and EndRequestIgnoresMessage |
| PracticeRoute.WhitespaceScenarioAccepted | app/api/practice/route.ts:10 | a scenario of whitespace only is not rejected: whatever else the body carries, the roleplay prompt is built and the answer is not 400 |
| PracticeRoute.MissingFieldsDefault | app/api/practice/route.ts:17-22 | missing message, history and end flag mean '', [] and false |
| PracticeRoute.EndRequestIgnoresMessage | app/api/practice/route.ts:17-22 | an end request's prompt is the same whatever message it carries |
| DailyRoute.Post | app/api/daily/route.ts:5-24 | every readable body generates from the daily prompt; 200 passes the generated value on; 500 "Failed to generate daily tasks" on errors; a readable request answers 200 exactly when generation resolves, and its 500 carries the retry message as details |
| DailyRoute.AnyParsedPayloadPassesThrough | app/api/daily/route.ts:11-16 | whatever JSON the model returned is answered as it is, with no check of the task count or shape |
| Daily.SetAnswer | components/features/DailyGrowth.tsx:92-96 | same length and order; only tasks with the id get the new answer; no other field of any task changes |
| Daily.MarkCompleted | components/features/DailyGrowth.tsx:106-108 | same length and order; tasks with the id become completed; no other field changes |
| Daily.FindIndex | components/features/DailyGrowth.tsx:99 | the first task with the id, or none when no task has it |
| Daily.Fresh | components/features/DailyGrowth.tsx:75-79 | each generated task starts with an empty answer and not completed, all else kept |
| Daily.SetAnswerLastWins | components/features/DailyGrowth.tsx:92-96 | typing twice into a task keeps only the second value |
| Daily.SetAnswerCommutes | components/features/DailyGrowth.tsx:92-96 | answers typed into two different tasks do not interfere |
| Daily.MarkCompletedKeepsAnswers | components/features/DailyGrowth.tsx:106-108 | completing keeps the answer; in a fresh list exactly the checked tasks are completed |
| Daily.IsCorrect | components/features/DailyGrowth.tsx:102-104 | trimmed, lower-cased answers compared; AnswerIgnoresPadding and AnswerIgnoresCase state what it tolerates |
| Daily.AnswerIgnoresPadding | components/features/DailyGrowth.tsx:102-104 | surrounding whitespace never changes whether an answer is correct |
| Daily.AnswerIgnoresCase | components/features/DailyGrowth.tsx:102-104 | an answer differing only in ASCII case is correct |
| Daily.Judge | components/features/DailyGrowth.tsx:98-104 | skipped when no task has the id or its answer is empty; otherwise correct exactly when trimmed, lower-cased answers match |
| Daily.NewStreak | components/features/DailyGrowth.tsx:113-117 | one more than the saved streak when the last completion was yesterday, otherwise 1 |
| Daily.Record | components/features/DailyGrowth.tsx:123-129 | the saved record: date and last completion today, the new count, the task total, the new streak |
| Daily.ConsecutiveDaysExtend | components/features/DailyGrowth.tsx:113-117 | a correct answer yesterday makes today's streak one more than yesterday's |
| Daily.SameDayResets | components/features/DailyGrowth.tsx:113-117 | a second correct answer on the same day sets the streak to 1 |
| Daily.GapResets | components/features/DailyGrowth.tsx:113-117 | after a gap of more than one day the streak restarts at 1 |
| Daily.StreakAfterRun | components/features/DailyGrowth.tsx:113-129 | the record after k successive CheckAnswer saves on consecutive days, each the first correct answer of its day over `total` tasks: none before the first, a record afterwards |
| Daily.RunOfDaysCountsDays | components/features/DailyGrowth.tsx:113-117 | one correct answer on each of k consecutive days gives streak k |
| Daily.Restored | components/features/DailyGrowth.tsx:56-63 | no record changes nothing; otherwise the saved streak, and today's count only when the record is from today |
| Daily.ReloadSameDay | components/features/DailyGrowth.tsx:56-63 | reloading on the same day shows the counters the last correct answer set |
| Daily.ReloadLaterDay | components/features/DailyGrowth.tsx:56-63 | reloading on a later day keeps the streak but not the day's count |
| Daily.ReplyTasks | components/features/DailyGrowth.tsx:73-79 | a reply without success is ignored; tasks are read only from a parsed JSON payload with a tasks array; anything else throws |
| Daily.DailyGrowth.constructor | components/features/DailyGrowth.tsx:35-38 | empty task list, not loading, both counters 0, storage as found |
| Daily.DailyGrowth.LoadDailyTasks | components/features/DailyGrowth.tsx:46-54 | today's saved tasks are shown exactly when the saved list is from today; otherwise generation is due and nothing changes |
| Daily.DailyGrowth.LoadProgress | components/features/DailyGrowth.tsx:56-63 | the counters become the restored ones; nothing else changes |
| Daily.DailyGrowth.GenerateTasks | components/features/DailyGrowth.tsx:65-90 | loading ends off; on a successful reply the fresh tasks are shown and saved under today; otherwise tasks and storage stay; rejects exactly when the fetch or the tasks read threw |
| Daily.DailyGrowth.HandleAnswerChange | components/features/DailyGrowth.tsx:92-96 | the task list becomes SetAnswer of the old one; nothing else changes |
| Daily.DailyGrowth.CheckAnswer | components/features/DailyGrowth.tsx:98-139 | the verdict is Judge of the old list; a checked task is completed whether or not correct; a correct answer adds exactly 1 to today's count, sets the new streak and saves the record; an incorrect one changes no counter |
| Daily.DailyGrowth.Mount | components/features/DailyGrowth.tsx:41-44 | the mount effect loads today's tasks or asks for generation (keeping the old list then), and restores the counters; loading and both stored records are unchanged |
| Practice.FindScenario | components/features/WorkplacePractice.tsx:51-53 | a scenario from the list with the id, or none when no scenario has it |
| Practice.FindScenarioFirst | components/features/WorkplacePractice.tsx:51-53 | `find` answers with the first scenario carrying the id |
| Practice.ScenarioLookup | lib/scenarios.ts:9-45 | every built-in scenario is found by its own id, none by the empty id, and each has a non-empty context |
| Practice.ToTurn | components/features/WorkplacePractice.tsx:84 | a message reaches the prompt with its role and content; missing content prints as "undefined" |
| Practice.Turns | components/features/WorkplacePractice.tsx:84 | the history is sent message by message, in order |
| Practice.SendBody | components/features/WorkplacePractice.tsx:81-86 | the body sendMessage posts: the scenario's context, the new message, the history including it, isEnd false; SentMessageReachesPrompt and SentHistoryEndsWithMessage state what the route makes of it |
| Practice.EndBody | components/features/WorkplacePractice.tsx:108-112 | the body endConversation posts: the scenario's context, the whole history, isEnd true; EndAsksForFeedback states what the route makes of it |
| Practice.SentMessageReachesPrompt | components/features/WorkplacePractice.tsx:71-87 | the body sendMessage posts makes the route build the turn prompt quoting the new message |
| Practice.SentHistoryEndsWithMessage | components/features/WorkplacePractice.tsx:72-84 | the history sendMessage posts already contains the new message, numbered after the earlier ones |
| Practice.EndAsksForFeedback | components/features/WorkplacePractice.tsx:105-112 | the body endConversation posts makes the route build the feedback prompt over the whole history |
| Practice.AssistantReply | components/features/WorkplacePractice.tsx:88-94 | a reply without success is ignored; a missing payload throws; otherwise the `response` field, absent for a wrapped text |
| Practice.FeedbackReply | components/features/WorkplacePractice.tsx:114-115 | the feedback is the payload of a successful reply, and nothing otherwise |
| Practice.UserMessages | components/features/WorkplacePractice.tsx:129 | the filter keeps only user messages and is no longer than the list |
| Practice.UserMessagesConcat | components/features/WorkplacePractice.tsx:129 | the filter distributes over concatenation and keeps a single message exactly when it is the user's, so it keeps every user message in order |
| Practice.LastUserIndex | components/features/WorkplacePractice.tsx:129 | the last user message's position, or none when there is no user message |
| Practice.PopOfUserMessages | components/features/WorkplacePractice.tsx:129 | popping the filtered list gives the message at the last user position, and nothing exactly when there is none |
| Practice.WorkplacePractice.constructor | components/features/WorkplacePractice.tsx:43-48 | nothing selected, not started, no messages, empty input, not loading, no feedback |
| Practice.WorkplacePractice.SelectScenario | components/features/WorkplacePractice.tsx:150-152 | only the selected scenario changes |
| Practice.WorkplacePractice.SetInput | components/features/WorkplacePractice.tsx:246 | only the input changes |
| Practice.WorkplacePractice.StartPractice | components/features/WorkplacePractice.tsx:55-66 | with no scenario selected nothing changes; otherwise started, no messages, no feedback |
| Practice.WorkplacePractice.SendMessage | components/features/WorkplacePractice.tsx:68-98 | blank input or no matching scenario changes nothing; otherwise exactly one user message with the untrimmed input is appended and the input cleared, the posted history includes it, an assistant message follows only on success, and loading ends off |
| Practice.WorkplacePractice.EndConversation | components/features/WorkplacePractice.tsx:100-119 | no scenario or no messages changes nothing; otherwise posts the end request, sets feedback on success, keeps the messages, and loading ends off |
| Practice.WorkplacePractice.Reset | components/features/WorkplacePractice.tsx:121-126 | not started, no messages, no feedback, nothing selected |
| Practice.WorkplacePractice.CopyFinalMessage | components/features/WorkplacePractice.tsx:128-131 | copies the content of the last user message; nothing exactly when there is no user message |

## Left out

- The model SDK and network call, the API-key check at module load, and the model name are not modelled. The gateway is a parameter.
- Client.GenerateContent: the one-second wait between attempts is counted (`waits`), not timed.
- Client.GenerateContent, CorrectRoute.Post, PracticeRoute.Post and DailyRoute.Post: `console.error` logging, in the retry loop and in each handler's `catch`, is not modelled.
- Client.GenerateContent: the `retries < 0` case returns `undefined` without calling the gateway. It is modelled, but no route reaches it.
- `JSON.parse` is not modelled beyond success or failure. The parsed object is represented by the matched text, and the components read fields out of it through parameters (`tasksOf`, `responseOf`).
- Dates and clocks are not modelled: `toISOString()` is an opaque string, and `toDateString()` and `Date.now()` are day numbers.
- Rendering is not modelled: JSX, toasts, the clipboard write, button `disabled` states, the floating-point progress-bar width and task numbering in the view.
- React scheduling is not modelled: the state between a handler's `setLoading(true)` and the awaited reply, and interleaving of concurrent handlers. Each handler runs to completion.
- Daily.DailyGrowth.CheckAnswer: only the UI keeps a completed task from being checked again; the method itself, like the source, does not.
- Daily.DailyGrowth.CheckAnswer: a generated task whose `answer` is not a string makes `task.answer.trim()` throw; the route does not check the shape of the generated tasks, but `Task.answer` is a string here, so that throw is not modelled.
- Daily.NewStreak: "yesterday" is the day before today. The source computes it as the date 24 hours ago, which across a daylight-saving change can name two days back (in the first hour after a 23-hour day) or today (in the last hour of a 25-hour day); the streak the source then saves is not modelled.
- Strings.Lower, Daily.AnswerIgnoresCase: `toLowerCase` is modelled on ASCII letters only. Case folding of other scripts is not modelled.
- Request bodies are assumed to carry fields of the declared types. A non-string `text` or `scenario`, or a numeric stored field that is missing or not a number, is not modelled. So `progress.streak || 0` and `progress.completed || 0` are the stored numbers.
- `ROLEPLAY_SYSTEM_PROMPT` is not modelled: no route or component uses it.
- GrammarCorrection.tsx, Profile.tsx, app/page.tsx and the `localStorage` details of lib/storage.ts are not part of this model. The two stored daily records are fields of the DailyGrowth object.
