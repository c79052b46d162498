/**
 * The DailyGrowth component (components/features/DailyGrowth.tsx): today's
 * tasks, the answer typed into each, checking an answer, and the streak and
 * daily counter kept in local storage.
 *
 * Dates are day numbers: two `toDateString()` values are equal exactly when
 * they name the same day, and "yesterday" is the day before. The two
 * local-storage entries the component reads and writes are fields of the
 * component object.
 */
module Daily {
  import opened Strings
  import Envelope

  type Day = int

  datatype Kind = Rewrite | Choice | Fill

  /** A task; `userAnswer` is absent until generated tasks are initialised. */
  datatype Task = Task(id: string, kind: Kind, instruction: string, content: string,
                       options: Option<seq<string>>, answer: string,
                       userAnswer: Option<string>, completed: bool)

  /** The saved task list of one day. */
  datatype Snapshot = Snapshot(date: Day, tasks: seq<Task>)

  /** The saved progress record. */
  datatype Progress = Progress(date: Day, completed: int, total: int, streak: int, lastCompletedDate: Day)

  /** The toast checkAnswer shows, or none when it returns early. */
  datatype Verdict = Skipped | Correct | Incorrect(answer: string)

  /** The two counters the component shows. */
  datatype Counters = Counters(streak: int, completedToday: int)

  // ---------------------------------------------------------------------
  // The task list
  // ---------------------------------------------------------------------

  /** `tasks.map(t => t.id === id ? { ...t, userAnswer: value } : t)` */
  function SetAnswer(ts: seq<Task>, id: string, value: string): (r: seq<Task>)
    ensures |r| == |ts|
    ensures forall i :: 0 <= i < |ts| ==> r[i].(userAnswer := ts[i].userAnswer) == ts[i]
    ensures forall i :: 0 <= i < |ts| ==> r[i].userAnswer == (if ts[i].id == id then Some(value) else ts[i].userAnswer)
  {
    if ts == [] then []
    else [if ts[0].id == id then ts[0].(userAnswer := Some(value)) else ts[0]] + SetAnswer(ts[1..], id, value)
  }

  /** `tasks.map(t => t.id === id ? { ...t, completed: true } : t)` */
  function MarkCompleted(ts: seq<Task>, id: string): (r: seq<Task>)
    ensures |r| == |ts|
    ensures forall i :: 0 <= i < |ts| ==> r[i].(completed := ts[i].completed) == ts[i]
    ensures forall i :: 0 <= i < |ts| ==> r[i].completed == (ts[i].id == id || ts[i].completed)
  {
    if ts == [] then []
    else [if ts[0].id == id then ts[0].(completed := true) else ts[0]] + MarkCompleted(ts[1..], id)
  }

  /** The index of `tasks.find(t => t.id === id)`: the first task with that id. */
  function FindIndex(ts: seq<Task>, id: string): (r: Option<nat>)
    ensures r.None? <==> forall i :: 0 <= i < |ts| ==> ts[i].id != id
    ensures r.Some? ==> r.value < |ts| && ts[r.value].id == id
    ensures r.Some? ==> forall i :: 0 <= i < r.value ==> ts[i].id != id
  {
    if ts == [] then None
    else if ts[0].id == id then Some(0)
    else
      var r := FindIndex(ts[1..], id);
      if r.Some? then Some(r.value + 1) else None
  }

  /** Generated tasks start unanswered and not completed: `{ ...t, userAnswer: "", completed: false }`. */
  function Fresh(ts: seq<Task>): (r: seq<Task>)
    ensures |r| == |ts|
    ensures forall i :: 0 <= i < |ts| ==> r[i] == ts[i].(userAnswer := Some(""), completed := false)
  {
    if ts == [] then [] else [ts[0].(userAnswer := Some(""), completed := false)] + Fresh(ts[1..])
  }

  /** Typing twice into the same task keeps only the second value. */
  lemma {:induction false} SetAnswerLastWins(ts: seq<Task>, id: string, v1: string, v2: string)
    ensures SetAnswer(SetAnswer(ts, id, v1), id, v2) == SetAnswer(ts, id, v2)
  {
    var a, b := SetAnswer(SetAnswer(ts, id, v1), id, v2), SetAnswer(ts, id, v2);
    assert forall i :: 0 <= i < |ts| ==> a[i] == b[i];
  }

  /** Answers typed into two different tasks do not interfere, whatever their order. */
  lemma {:induction false} SetAnswerCommutes(ts: seq<Task>, id1: string, v1: string, id2: string, v2: string)
    requires id1 != id2
    ensures SetAnswer(SetAnswer(ts, id1, v1), id2, v2) == SetAnswer(SetAnswer(ts, id2, v2), id1, v1)
  {
    var a, b := SetAnswer(SetAnswer(ts, id1, v1), id2, v2), SetAnswer(SetAnswer(ts, id2, v2), id1, v1);
    assert forall i :: 0 <= i < |ts| ==> a[i] == b[i];
  }

  /** Checking a task never loses an answer, and a fresh list has nothing completed. */
  lemma {:induction false} MarkCompletedKeepsAnswers(ts: seq<Task>, id: string, k: nat)
    requires k < |ts|
    ensures MarkCompleted(ts, id)[k].userAnswer == ts[k].userAnswer
    ensures MarkCompleted(Fresh(ts), id)[k].completed <==> ts[k].id == id
  {
  }

  // ---------------------------------------------------------------------
  // Answers and the streak
  // ---------------------------------------------------------------------

  /** The comparison checkAnswer makes: both sides trimmed, then lower-cased. */
  predicate IsCorrect(userAnswer: string, answer: string) {
    Lower(Trim(userAnswer)) == Lower(Trim(answer))
  }

  /** Whitespace typed around an answer does not make it wrong. */
  lemma AnswerIgnoresPadding(ws1: string, u: string, ws2: string, answer: string)
    requires AllSpace(ws1) && AllSpace(ws2)
    ensures IsCorrect(ws1 + u + ws2, answer) <==> IsCorrect(u, answer)
  {
    TrimPadding(ws1, u, ws2);
  }

  /** An answer that differs from the expected one only in ASCII case is accepted. */
  lemma AnswerIgnoresCase(u: string, answer: string)
    requires Lower(u) == Lower(answer)
    ensures IsCorrect(u, answer)
  {
    TrimLowerCommute(u);
    TrimLowerCommute(answer);
  }

  /**
   * The outcome of checking task `id`: skipped when no task has that id or the
   * first such task has an empty answer; otherwise whether its answer matches.
   */
  function Judge(ts: seq<Task>, id: string): (v: Verdict)
    ensures v.Skipped? <==> FindIndex(ts, id).None? || !Truthy(ts[FindIndex(ts, id).value].userAnswer)
    ensures !v.Skipped? ==>
              var t := ts[FindIndex(ts, id).value];
              (v.Correct? <==> IsCorrect(t.userAnswer.value, t.answer)) &&
              (v.Incorrect? ==> v.answer == t.answer)
  {
    var k := FindIndex(ts, id);
    if k.None? || !Truthy(ts[k.value].userAnswer) then Skipped
    else if IsCorrect(ts[k.value].userAnswer.value, ts[k.value].answer) then Correct
    else Incorrect(ts[k.value].answer)
  }

  /** The streak after a correct answer on `today`. */
  function NewStreak(p: Option<Progress>, today: Day): (r: int)
    ensures p.Some? && p.value.lastCompletedDate == today - 1 ==> r == p.value.streak + 1
    ensures p.None? || p.value.lastCompletedDate != today - 1 ==> r == 1
  {
    if p.Some? && p.value.lastCompletedDate == today - 1 then p.value.streak + 1 else 1
  }

  /** The progress record saved after a correct answer. */
  function Record(p: Option<Progress>, today: Day, completed: int, total: int): (r: Progress)
    ensures r.date == today && r.lastCompletedDate == today
    ensures r.completed == completed && r.total == total && r.streak == NewStreak(p, today)
  {
    Progress(today, completed, total, NewStreak(p, today), today)
  }

  /** A correct answer yesterday and one today: today's streak is one more than yesterday's. */
  lemma ConsecutiveDaysExtend(p: Option<Progress>, today: Day, completed: int, total: int)
    ensures NewStreak(Some(Record(p, today - 1, completed, total)), today) == NewStreak(p, today - 1) + 1
  {
  }

  /** A second correct answer on the same day starts the streak again at 1. */
  lemma SameDayResets(p: Option<Progress>, today: Day, completed: int, total: int)
    ensures NewStreak(Some(Record(p, today, completed, total)), today) == 1
  {
  }

  /** After a gap of more than a day the streak starts again at 1. */
  lemma GapResets(p: Progress, today: Day)
    requires p.lastCompletedDate < today - 1
    ensures NewStreak(Some(p), today) == 1
  {
  }

  /**
   * The saved progress after `k` successive CheckAnswer saves, one per day from
   * `start` on, each the first correct answer of its day (so `completed` is 1)
   * over a list of `total` tasks, starting from no saved progress.
   */
  function StreakAfterRun(start: Day, k: nat, total: int): (r: Option<Progress>)
    ensures k == 0 <==> r.None?
  {
    if k == 0 then None else Some(Record(StreakAfterRun(start, k - 1, total), start + k - 1, 1, total))
  }

  lemma {:induction false} RunOfDaysCountsDays(start: Day, k: nat, total: int)
    requires k > 0
    ensures StreakAfterRun(start, k, total).value.streak == k
  {
    if k > 1 {
      RunOfDaysCountsDays(start, k - 1, total);
    }
  }

  /** What loadProgress sets: `progress.streak || 0`, and today's count only when the record is from today. */
  function Restored(p: Option<Progress>, today: Day, c: Counters): (r: Counters)
    ensures p.None? ==> r == c
    ensures p.Some? ==> r.streak == p.value.streak
    ensures p.Some? && p.value.date == today ==> r.completedToday == p.value.completed
    ensures p.Some? && p.value.date != today ==> r.completedToday == c.completedToday
  {
    match p
    case None => c
    case Some(q) => Counters(q.streak, if q.date == today then q.completed else c.completedToday)
  }

  /** Reloading on the same day shows the counters the last correct answer set. */
  lemma ReloadSameDay(p: Option<Progress>, today: Day, completed: int, total: int, c: Counters)
    ensures Restored(Some(Record(p, today, completed, total)), today, c) == Counters(NewStreak(p, today), completed)
  {
  }

  /** Reloading on a later day keeps the streak but not the day's count. */
  lemma ReloadLaterDay(p: Option<Progress>, day: Day, later: Day, completed: int, total: int, c: Counters)
    requires later != day
    ensures Restored(Some(Record(p, day, completed, total)), later, c) == Counters(NewStreak(p, day), c.completedToday)
  {
  }

  // ---------------------------------------------------------------------
  // The reply to POST /api/daily, as the component reads it
  // ---------------------------------------------------------------------

  /**
   * `data.data.tasks.map(...)` once `data.success` holds. `tasksOf` reads the
   * tasks array out of the JSON text generation returned (None when there is
   * none, and reading or mapping it throws).
   */
  function ReplyTasks(reply: Envelope.Response, tasksOf: string -> Option<seq<Task>>): (r: Envelope.Read<seq<Task>>)
    ensures r.Ignored? <==> reply.body.Failure?
    ensures r.Got? <==> reply.body.Success? && reply.body.data.Parsed? && tasksOf(reply.body.data.json).Some?
    ensures r.Got? ==> Some(r.value) == tasksOf(reply.body.data.json)
  {
    match reply.body
    case Failure(_, _) => Envelope.Ignored
    case Success(data) =>
      match data
      case Parsed(json) => if tasksOf(json).Some? then Envelope.Got(tasksOf(json).value) else Envelope.Threw
      case Wrapped(_) => Envelope.Threw   // data.data is { text }: no tasks array
      case Undefined => Envelope.Threw    // data.data is absent
  }

  // ---------------------------------------------------------------------
  // The component
  // ---------------------------------------------------------------------

  class DailyGrowth {
    var tasks: seq<Task>
    var loading: bool
    var streak: int
    var completedToday: int
    /** The local-storage entries `prowriter_daily_tasks` and `prowriter_daily_progress`. */
    var savedTasks: Option<Snapshot>
    var savedProgress: Option<Progress>

    function Shown(): Counters
      reads this
    {
      Counters(streak, completedToday)
    }

    /** The initial state of the hooks, over what storage already holds. */
    constructor (saved: Option<Snapshot>, progress: Option<Progress>)
      ensures tasks == [] && !loading && streak == 0 && completedToday == 0
      ensures savedTasks == saved && savedProgress == progress
    {
      tasks, loading, streak, completedToday := [], false, 0, 0;
      savedTasks, savedProgress := saved, progress;
    }

    /** loadDailyTasks: today's saved tasks if there are any; otherwise generation is due. */
    method LoadDailyTasks(today: Day) returns (generate: bool)
      modifies this
      ensures generate <==> !(old(savedTasks).Some? && old(savedTasks).value.date == today)
      ensures tasks == (if generate then old(tasks) else old(savedTasks).value.tasks)
      ensures loading == old(loading) && Shown() == old(Shown())
      ensures savedTasks == old(savedTasks) && savedProgress == old(savedProgress)
    {
      if savedTasks.Some? && savedTasks.value.date == today {
        tasks := savedTasks.value.tasks;
        generate := false;
      } else {
        generate := true;
      }
    }

    /** loadProgress */
    method LoadProgress(today: Day)
      modifies this
      ensures Shown() == Restored(old(savedProgress), today, old(Shown()))
      ensures tasks == old(tasks) && loading == old(loading)
      ensures savedTasks == old(savedTasks) && savedProgress == old(savedProgress)
    {
      if savedProgress.None? {
        return;
      }
      streak := savedProgress.value.streak;
      if savedProgress.value.date == today {
        completedToday := savedProgress.value.completed;
      }
    }

    /**
     * generateTasks, given what `fetch` and `res.json()` produced (None: one of
     * them threw). Returns whether the call rejects; loading is off either way.
     */
    method GenerateTasks(reply: Option<Envelope.Response>, tasksOf: string -> Option<seq<Task>>, today: Day)
      returns (rejected: bool)
      modifies this
      ensures !loading
      ensures rejected <==> reply.None? || ReplyTasks(reply.value, tasksOf).Threw?
      ensures reply.Some? && ReplyTasks(reply.value, tasksOf).Got? ==>
                var ts := Fresh(ReplyTasks(reply.value, tasksOf).value);
                tasks == ts && savedTasks == Some(Snapshot(today, ts))
      ensures !(reply.Some? && ReplyTasks(reply.value, tasksOf).Got?) ==>
                tasks == old(tasks) && savedTasks == old(savedTasks)
      ensures Shown() == old(Shown()) && savedProgress == old(savedProgress)
    {
      loading := true;
      rejected := false;
      if reply.Some? {
        var got := ReplyTasks(reply.value, tasksOf);
        match got {
          case Ignored =>
          case Threw => rejected := true;
          case Got(ts) =>
            var started := Fresh(ts);
            tasks := started;
            savedTasks := Some(Snapshot(today, started));
        }
      } else {
        rejected := true;
      }
      loading := false;
    }

    /** handleAnswerChange */
    method HandleAnswerChange(id: string, value: string)
      modifies this
      ensures tasks == SetAnswer(old(tasks), id, value)
      ensures loading == old(loading) && Shown() == old(Shown())
      ensures savedTasks == old(savedTasks) && savedProgress == old(savedProgress)
    {
      tasks := SetAnswer(tasks, id, value);
    }

    /** checkAnswer, on the day `today`. */
    method CheckAnswer(id: string, today: Day) returns (v: Verdict)
      modifies this
      ensures v == Judge(old(tasks), id)
      ensures tasks == if v.Skipped? then old(tasks) else MarkCompleted(old(tasks), id)
      ensures v.Correct? ==>
                completedToday == old(completedToday) + 1 &&
                streak == NewStreak(old(savedProgress), today) &&
                savedProgress == Some(Record(old(savedProgress), today, completedToday, |old(tasks)|))
      ensures !v.Correct? ==> Shown() == old(Shown()) && savedProgress == old(savedProgress)
      ensures loading == old(loading) && savedTasks == old(savedTasks)
    {
      v := Judge(tasks, id);
      if v.Skipped? {
        return;
      }
      var total := |tasks|;
      tasks := MarkCompleted(tasks, id);
      if v.Correct? {
        var newStreak := NewStreak(savedProgress, today);
        var newCompleted := completedToday + 1;
        completedToday := newCompleted;
        streak := newStreak;
        savedProgress := Some(Record(savedProgress, today, newCompleted, total));
      }
    }

    /** The mount effect: loadDailyTasks then loadProgress; returns whether generation is due. */
    method Mount(today: Day) returns (generate: bool)
      modifies this
      ensures generate <==> !(old(savedTasks).Some? && old(savedTasks).value.date == today)
      ensures !generate ==> tasks == old(savedTasks).value.tasks
      ensures generate ==> tasks == old(tasks)
      ensures Shown() == Restored(old(savedProgress), today, old(Shown()))
      ensures loading == old(loading)
      ensures savedTasks == old(savedTasks) && savedProgress == old(savedProgress)
    {
      generate := LoadDailyTasks(today);
      LoadProgress(today);
    }
  }
}
