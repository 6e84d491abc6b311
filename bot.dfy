/** The bot.py variant: `parse_homework_status` with its KeyError and
    StatusNotFoundError paths, and the polling loop of `main`, whose cursor is
    replaced by the response's `current_date` after every successful cycle.
    Network, messaging and clock are scripted by `CycleInput` values. */
module BotPy {
  import opened Common

  /** Seconds slept after a cycle that raised nothing. */
  const PollInterval: nat := 15 * 60
  /** Seconds slept after the exception handler has reported an error. */
  const ErrorCooldown: nat := 5

  /** The statuses the parser recognises; compared with `in`, so only JSON
      strings can match. */
  const AcceptableStatuses: seq<Json> := [JStr("reviewing"), JStr("rejected"), JStr("approved")]

  function ReviewingText(name: string): string { "Работа \"" + name + "\" принята на ревью." }
  function RejectedText(name: string): string { "Ревью пройдено: в работе \"" + name + "\" нашлись ошибки." }
  function ApprovedText(name: string): string { "Работа \"" + name + "\" зачтена! :)" }

  /** The value of `verdict` after the assignments: a lone `if` for
      `reviewing`, then a separate `if`/`elif` for `rejected` and `approved`.
      None stands for `verdict` never having been bound. */
  function Verdict(name: string, status: Json): (r: Option<string>)
    ensures r.None? <==> status !in AcceptableStatuses
    ensures status == JStr("reviewing") ==> r == Some(ReviewingText(name))
  {
    var afterFirstIf := if status == JStr("reviewing") then Some(ReviewingText(name)) else None;
    if status == JStr("rejected") then Some(RejectedText(name))
    else if status == JStr("approved") then Some(ApprovedText(name))
    else afterFirstIf
  }

  /** `parse_homework_status(homework)`: it succeeds exactly when the record is
      a dict holding both keys and a recognised status. */
  function ParseHomeworkStatus(homework: Json): (r: Result<string>)
    ensures r.Ok? <==>
      && homework.JObject?
      && "homework_name" in homework.fields
      && "status" in homework.fields
      && homework.fields["status"] in AcceptableStatuses
    ensures r.Err? ==> r.error != UnboundVerdict
  {
    match SubscriptKey(homework, "homework_name")
    case Err(e) => Err(e)
    case Ok(name) =>
      match SubscriptKey(homework, "status")
      case Err(e) => Err(e)
      case Ok(status) =>
        if status !in AcceptableStatuses then Err(StatusNotFoundError)
        else
          match Verdict(Render(name), status)
          case None => Err(UnboundVerdict)
          case Some(verdict) => Ok(verdict)
  }

  /** A record without `homework_name` raises KeyError('homework_name'); one
      with a name but no `status` raises KeyError('status'). */
  lemma ParseMissingKey(fields: map<string, Json>)
    ensures "homework_name" !in fields ==>
      ParseHomeworkStatus(JObject(fields)) == Err(KeyError("homework_name"))
    ensures "homework_name" in fields && "status" !in fields ==>
      ParseHomeworkStatus(JObject(fields)) == Err(KeyError("status"))
  {
  }

  /** A present status outside the recognised three raises StatusNotFoundError. */
  lemma ParseUnknownStatus(fields: map<string, Json>)
    requires "homework_name" in fields && "status" in fields
    requires fields["status"] !in AcceptableStatuses
    ensures ParseHomeworkStatus(JObject(fields)) == Err(StatusNotFoundError)
    ensures ErrorText(StatusNotFoundError) == "Статус проверки работы обновлён, но не опознан."
  {
  }

  /** The exact message for each recognised status. The `reviewing` verdict
      survives the later `if`/`elif`, since neither of its conditions holds. */
  lemma ParseVerdicts(fields: map<string, Json>)
    requires "homework_name" in fields && "status" in fields
    ensures var name := Render(fields["homework_name"]);
      && (fields["status"] == JStr("reviewing") ==>
           ParseHomeworkStatus(JObject(fields)) == Ok("Работа \"" + name + "\" принята на ревью."))
      && (fields["status"] == JStr("rejected") ==>
           ParseHomeworkStatus(JObject(fields)) == Ok("Ревью пройдено: в работе \"" + name + "\" нашлись ошибки."))
      && (fields["status"] == JStr("approved") ==>
           ParseHomeworkStatus(JObject(fields)) == Ok("Работа \"" + name + "\" зачтена! :)"))
  {
  }

  /** The message format the repository's test expects (it begins with
      `У вас проверили работу "`) is not the one this variant produces. */
  lemma ApprovedMessageLacksTestPrefix(fields: map<string, Json>)
    requires "homework_name" in fields
    ensures var r := ParseHomeworkStatus(JObject(fields["status" := JStr("approved")]));
      && r.Ok?
      && r.value[..7] == "Работа "
      && r.value[..7] != "У вас п"
  {
    var name := Render(fields["homework_name"]);
    var r := ParseHomeworkStatus(JObject(fields["status" := JStr("approved")]));
    assert r.value == "Работа \"" + name + "\" зачтена! :)";
    assert r.value[..7] == "Работа ";
  }

  /** Lines 96-99: the message the cycle sends, None when `homeworks` is
      absent or falsy, or the exception raised on the way. */
  function Notification(body: Json): (r: Result<Option<string>>)
    ensures r.Ok? ==> body.JObject?
    ensures r == Ok(None) <==> body.JObject? && !Truthy(Get(body.fields, "homeworks"))
  {
    match CallGet(body, "homeworks")
    case Err(e) => Err(e)
    case Ok(homeworks) =>
      if !Truthy(homeworks) then Ok(None)
      else
        match SubscriptFirst(homeworks)
        case Err(e) => Err(e)
        case Ok(homework) =>
          match ParseHomeworkStatus(homework)
          case Err(e) => Err(e)
          case Ok(message) => Ok(Some(message))
  }

  /** Only element 0 of a non-empty `homeworks` list decides the message. */
  lemma NotificationUsesFirstOnly(fields: map<string, Json>, items: seq<Json>)
    requires Get(fields, "homeworks") == JList(items) && items != []
    ensures Notification(JObject(fields)) ==
      match ParseHomeworkStatus(items[0])
      case Ok(message) => Ok(Some(message))
      case Err(e) => Err(e)
  {
  }

  /** What `main` keeps between cycles, and what it has done so far: the
      requests issued, the messages delivered, the sleeps taken, and the
      exception that left `main`, if one did. */
  datatype State = State(cursor: Json, requests: seq<Request>, sent: seq<string>,
                         sleeps: seq<nat>, escaped: Option<Error>)

  /** Line 91: the cursor starts at `int(time.time())`. */
  function Initial(clock: real): (r: State)
    ensures r.requests == [] && r.sent == [] && r.sleeps == [] && r.escaped.None?
    ensures r.cursor.JInt?
    ensures 0.0 <= clock ==> r.cursor.i as real <= clock < r.cursor.i as real + 1.0
  {
    State(JInt(TruncateTime(clock)), [], [], [], None)
  }

  /** Lines 101-102: sleep the interval, then take the cursor from the body. */
  function Advance(s: State, body: map<string, Json>): (r: State)
    ensures r.requests == s.requests && r.sent == s.sent && r.escaped == s.escaped
    ensures r.sleeps == s.sleeps + [PollInterval]
    ensures "current_date" in body ==> r.cursor == body["current_date"]
    ensures "current_date" !in body ==> r.cursor == JNull
  {
    s.(sleeps := s.sleeps + [PollInterval], cursor := Get(body, "current_date"))
  }

  /** The try-block of lines 95-102: the state it leaves and the exception it
      raised, if any. */
  function Attempt(cfg: Config, s: State, c: CycleInput): (r: (State, Option<Error>))
    ensures r.0.requests == s.requests + [HomeworkRequest(cfg, s.cursor)]
    ensures r.0.escaped == s.escaped
    ensures r.1.Some? ==> r.0 == s.(requests := r.0.requests)
    ensures r.1.None? ==>
      && r.0.sleeps == s.sleeps + [PollInterval]
      && (r.0.sent == s.sent || exists m :: r.0.sent == s.sent + [m])
  {
    var fetch := GetHomeworks(cfg, s.cursor, c.fetch);
    var s1 := s.(requests := s.requests + [fetch.0]);
    match fetch.1
    case Err(e) => (s1, Some(e))
    case Ok(body) =>
      match Notification(body)
      case Err(e) => (s1, Some(e))
      case Ok(None) => (Advance(s1, body.fields), None)
      case Ok(Some(message)) =>
        match SendMessage(c.send)
        case Some(e) => (s1, Some(e))
        case None => (Advance(s1.(sent := s1.sent + [message]), body.fields), None)
  }

  /** The handler of lines 104-107: report the error, then sleep; a failure
      of the report itself is not caught and leaves `main`. */
  function Recover(s: State, e: Error, report: SendOutcome): (r: State)
    ensures r.cursor == s.cursor && r.requests == s.requests
    ensures report.Delivered? ==>
      && r.sent == s.sent + [CrashReport(e)]
      && r.sleeps == s.sleeps + [ErrorCooldown]
      && r.escaped == s.escaped
    ensures report.SendFailed? ==>
      && r.sent == s.sent && r.sleeps == s.sleeps
      && r.escaped == Some(Raised(report.text))
  {
    match SendMessage(report)
    case None => s.(sent := s.sent + [CrashReport(e)], sleeps := s.sleeps + [ErrorCooldown])
    case Some(failure) => s.(escaped := Some(failure))
  }

  /** One pass of the `while True` loop. */
  function Step(cfg: Config, s: State, c: CycleInput): (r: State)
    ensures r.requests == s.requests + [HomeworkRequest(cfg, s.cursor)]
    ensures s.sent <= r.sent && s.sleeps <= r.sleeps
    ensures r.cursor != s.cursor ==> Attempt(cfg, s, c).1.None?
    ensures r.escaped != s.escaped ==> c.report.SendFailed? && r.escaped == Some(Raised(c.report.text))
  {
    var attempt := Attempt(cfg, s, c);
    match attempt.1
    case None => attempt.0
    case Some(e) => Recover(attempt.0, e, c.report)
  }

  /** The loop over a finite script; once an exception has left `main`,
      nothing more happens. */
  function Runs(cfg: Config, s: State, script: seq<CycleInput>): (r: State)
    ensures s.escaped.Some? ==> r == s
    ensures s.requests <= r.requests && |r.requests| <= |s.requests| + |script|
    ensures s.sent <= r.sent && s.sleeps <= r.sleeps
    decreases |script|
  {
    if script == [] then s
    else
      var before := Runs(cfg, s, script[..|script| - 1]);
      if before.escaped.Some? then before else Step(cfg, before, script[|script| - 1])
  }

  /** A cycle raises nothing exactly when the fetch gives a dict and, if its
      `homeworks` is truthy, element 0 parses and its message is delivered. */
  lemma AttemptSucceedsIff(cfg: Config, s: State, c: CycleInput)
    ensures Attempt(cfg, s, c).1.None? <==>
      && c.fetch.Response?
      && c.fetch.body.JObject?
      && var homeworks := Get(c.fetch.body.fields, "homeworks");
         Truthy(homeworks) ==>
           && SubscriptFirst(homeworks).Ok?
           && ParseHomeworkStatus(SubscriptFirst(homeworks).value).Ok?
           && c.send.Delivered?
  {
  }

  /** A cycle with an absent or empty `homeworks`. */
  predicate QuietCycle(c: CycleInput)
  {
    c.fetch.Response? && c.fetch.body.JObject? && !Truthy(Get(c.fetch.body.fields, "homeworks"))
  }

  /** An absent or falsy `homeworks` sends nothing; the cursor becomes the
      response's `current_date` (None when absent) after a 900 s sleep. */
  lemma StepQuiet(cfg: Config, s: State, c: CycleInput)
    requires QuietCycle(c)
    ensures Step(cfg, s, c) ==
      s.(requests := s.requests + [HomeworkRequest(cfg, s.cursor)],
         sleeps := s.sleeps + [900],
         cursor := Get(c.fetch.body.fields, "current_date"))
  {
  }

  /** A non-empty list whose element 0 parses, with delivery succeeding,
      sends exactly that one message. */
  lemma StepDelivers(cfg: Config, s: State, c: CycleInput, items: seq<Json>)
    requires c.fetch.Response? && c.fetch.body.JObject?
    requires Get(c.fetch.body.fields, "homeworks") == JList(items) && items != []
    requires ParseHomeworkStatus(items[0]).Ok? && c.send.Delivered?
    ensures Step(cfg, s, c) ==
      s.(requests := s.requests + [HomeworkRequest(cfg, s.cursor)],
         sent := s.sent + [ParseHomeworkStatus(items[0]).value],
         sleeps := s.sleeps + [PollInterval],
         cursor := Get(c.fetch.body.fields, "current_date"))
  {
    NotificationUsesFirstOnly(c.fetch.body.fields, items);
  }

  /** After any exception in the try-block the cursor stays, and either one
      crash report is delivered and 5 s slept, or the report's own failure
      leaves `main` with nothing more sent or slept. */
  lemma StepFailure(cfg: Config, s: State, c: CycleInput, e: Error)
    requires Attempt(cfg, s, c).1 == Some(e)
    ensures Step(cfg, s, c).cursor == s.cursor
    ensures Step(cfg, s, c).requests == s.requests + [HomeworkRequest(cfg, s.cursor)]
    ensures c.report.Delivered? ==>
      && Step(cfg, s, c).sent == s.sent + ["Бот упал с ошибкой: " + ErrorText(e)]
      && Step(cfg, s, c).sleeps == s.sleeps + [5]
      && Step(cfg, s, c).escaped == s.escaped
    ensures c.report.SendFailed? ==>
      && Step(cfg, s, c).sent == s.sent
      && Step(cfg, s, c).sleeps == s.sleeps
      && Step(cfg, s, c).escaped == Some(Raised(c.report.text))
  {
  }

  /** Responses that agree on element 0 of a non-empty list and on
      `current_date` lead to the same state, whatever else they list. */
  lemma StepIgnoresLaterHomeworks(cfg: Config, s: State, c: CycleInput,
                                  f1: map<string, Json>, f2: map<string, Json>)
    requires Get(f1, "homeworks").JList? && Get(f1, "homeworks").items != []
    requires Get(f2, "homeworks").JList? && Get(f2, "homeworks").items != []
    requires Get(f1, "homeworks").items[0] == Get(f2, "homeworks").items[0]
    requires Get(f1, "current_date") == Get(f2, "current_date")
    ensures Step(cfg, s, c.(fetch := Response(JObject(f1)))) ==
            Step(cfg, s, c.(fetch := Response(JObject(f2))))
  {
    NotificationUsesFirstOnly(f1, Get(f1, "homeworks").items);
    NotificationUsesFirstOnly(f2, Get(f2, "homeworks").items);
  }

  /** A successful response without `current_date` sets the cursor to None,
      so the next request carries `from_date=None`. */
  lemma MissingDateClearsCursor(cfg: Config, s: State, c: CycleInput, c2: CycleInput)
    requires Attempt(cfg, s, c).1.None?
    requires "current_date" !in c.fetch.body.fields
    ensures Step(cfg, s, c).cursor == JNull
    ensures Step(cfg, Step(cfg, s, c), c2).requests[|s.requests| + 1].params == map["from_date" := JNull]
  {
  }

  /** Each cycle issues one request, sends at most one message, and unless an
      exception leaves `main` sleeps exactly once, for 900 s or 5 s. */
  lemma StepBounds(cfg: Config, s: State, c: CycleInput)
    requires s.escaped.None?
    ensures |Step(cfg, s, c).requests| == |s.requests| + 1
    ensures |s.sent| <= |Step(cfg, s, c).sent| <= |s.sent| + 1
    ensures Step(cfg, s, c).escaped == s.escaped ==>
      |Step(cfg, s, c).sleeps| == |s.sleeps| + 1 &&
      Step(cfg, s, c).sleeps[|s.sleeps|] in {PollInterval, ErrorCooldown}
    ensures Step(cfg, s, c).escaped != s.escaped ==>
      Step(cfg, s, c).sleeps == s.sleeps && Step(cfg, s, c).sent == s.sent
  {
  }

  /** Once an exception has left `main`, further script entries change nothing. */
  lemma {:induction false} RunsHalted(cfg: Config, s: State, done: seq<CycleInput>, rest: seq<CycleInput>)
    requires Runs(cfg, s, done).escaped.Some?
    ensures Runs(cfg, s, done + rest) == Runs(cfg, s, done)
    decreases |rest|
  {
    if rest != [] {
      var all := done + rest;
      assert all[..|all| - 1] == done + rest[..|rest| - 1];
      RunsHalted(cfg, s, done, rest[..|rest| - 1]);
    } else {
      assert done + rest == done;
    }
  }

  /** However many quiet cycles run in a row, nothing is sent, every sleep is
      the full interval, and the cursor is the last `current_date`. */
  lemma {:induction false} RunsQuiet(cfg: Config, s: State, script: seq<CycleInput>)
    requires s.escaped.None?
    requires forall k :: 0 <= k < |script| ==> QuietCycle(script[k])
    ensures Runs(cfg, s, script).sent == s.sent
    ensures Runs(cfg, s, script).escaped.None?
    ensures Runs(cfg, s, script).sleeps == s.sleeps + seq(|script|, _ => PollInterval)
    ensures script != [] ==>
      && QuietCycle(script[|script| - 1])
      && Runs(cfg, s, script).cursor == Get(script[|script| - 1].fetch.body.fields, "current_date")
    decreases |script|
  {
    if script != [] {
      var prefix := script[..|script| - 1];
      RunsQuiet(cfg, s, prefix);
      var before := Runs(cfg, s, prefix);
      StepQuiet(cfg, before, script[|script| - 1]);
      assert s.sleeps + seq(|script|, _ => PollInterval)
          == s.sleeps + seq(|prefix|, _ => PollInterval) + [PollInterval];
    }
  }

  /** Over any script: one request per cycle run, at most one delivered
      message per sleep taken, and at most one sleep per request. */
  lemma {:induction false} RunsBounds(cfg: Config, s: State, script: seq<CycleInput>)
    requires s.escaped.None?
    ensures |s.requests| <= |Runs(cfg, s, script).requests| <= |s.requests| + |script|
    ensures |Runs(cfg, s, script).sent| - |s.sent| <= |Runs(cfg, s, script).sleeps| - |s.sleeps|
    ensures |Runs(cfg, s, script).sleeps| - |s.sleeps| <= |Runs(cfg, s, script).requests| - |s.requests|
    ensures Runs(cfg, s, script).escaped.None? ==>
      |Runs(cfg, s, script).sleeps| - |s.sleeps| == |script|
    ensures forall k :: |s.sleeps| <= k < |Runs(cfg, s, script).sleeps| ==>
      Runs(cfg, s, script).sleeps[k] in {PollInterval, ErrorCooldown}
    ensures |s.sleeps| <= |Runs(cfg, s, script).sleeps|
    ensures Runs(cfg, s, script).sleeps[..|s.sleeps|] == s.sleeps
    decreases |script|
  {
    if script != [] {
      var prefix := script[..|script| - 1];
      RunsBounds(cfg, s, prefix);
      var before := Runs(cfg, s, prefix);
      if before.escaped.None? {
        StepBounds(cfg, before, script[|script| - 1]);
      }
    }
  }

  /** Scenario: an approved "Project X" with `current_date` 1000 sends the
      approved message once and moves the cursor to 1000. */
  lemma ScenarioApproved(cfg: Config, s: State, report: SendOutcome, clock: real)
    ensures var record := JObject(map["homework_name" := JStr("Project X"), "status" := JStr("approved")]);
      var body := JObject(map["homeworks" := JList([record]), "current_date" := JInt(1000)]);
      var after := Step(cfg, s, CycleInput(Response(body), Delivered, report, clock));
      after.sent == s.sent + ["Работа \"" + "Project X" + "\" зачтена! :)"] && after.cursor == JInt(1000)
  {
    var fields := map["homework_name" := JStr("Project X"), "status" := JStr("approved")];
    var body := map["homeworks" := JList([JObject(fields)]), "current_date" := JInt(1000)];
    assert Get(body, "homeworks") == JList([JObject(fields)]);
    assert Get(body, "current_date") == JInt(1000);
    ParseVerdicts(fields);
    StepDelivers(cfg, s, CycleInput(Response(JObject(body)), Delivered, report, clock), [JObject(fields)]);
  }

  /** Scenario: a failed fetch reports the failure once, sleeps 5 s and keeps
      the cursor. */
  lemma ScenarioFetchFails(cfg: Config, s: State, text: string, send: SendOutcome, clock: real)
    ensures var after := Step(cfg, s, CycleInput(FetchFailed(text), send, Delivered, clock));
      && after.sent == s.sent + ["Бот упал с ошибкой: " + text]
      && after.sleeps == s.sleeps + [5]
      && after.cursor == s.cursor
  {
  }

  /** The running `main`: its cursor and what it has done, updated in place
      by each pass of the loop. */
  class Poller {
    const config: Config
    var cursor: Json
    var requests: seq<Request>
    var sent: seq<string>
    var sleeps: seq<nat>
    var escaped: Option<Error>

    function Snapshot(): State
      reads this
    {
      State(cursor, requests, sent, sleeps, escaped)
    }

    constructor (config: Config, clock: real)
      ensures this.config == config && Snapshot() == Initial(clock)
    {
      this.config := config;
      cursor := JInt(TruncateTime(clock));
      requests, sent, sleeps := [], [], [];
      escaped := None;
    }

    /** The try-block: returns the exception it raised, if any. */
    method TryBlock(c: CycleInput) returns (failure: Option<Error>)
      modifies this
      ensures (Snapshot(), failure) == Attempt(config, old(Snapshot()), c)
    {
      var fetch := GetHomeworks(config, cursor, c.fetch);
      requests := requests + [fetch.0];
      if fetch.1.Err? {
        return Some(fetch.1.error);
      }
      var body := fetch.1.value;
      var homeworks := CallGet(body, "homeworks");
      if homeworks.Err? {
        return Some(homeworks.error);
      }
      if Truthy(homeworks.value) {
        var homework := SubscriptFirst(homeworks.value);
        if homework.Err? {
          return Some(homework.error);
        }
        var message := ParseHomeworkStatus(homework.value);
        if message.Err? {
          return Some(message.error);
        }
        var sendFailure := SendMessage(c.send);
        if sendFailure.Some? {
          return sendFailure;
        }
        sent := sent + [message.value];
      }
      sleeps := sleeps + [PollInterval];
      cursor := Get(body.fields, "current_date");
      return None;
    }

    /** One pass of the loop, with the exception handler. */
    method RunCycle(c: CycleInput)
      requires escaped.None?
      modifies this
      ensures Snapshot() == Step(config, old(Snapshot()), c)
    {
      var failure := TryBlock(c);
      if failure.Some? {
        var reportFailure := SendMessage(c.report);
        if reportFailure.Some? {
          escaped := reportFailure;
        } else {
          sent := sent + [CrashReport(failure.value)];
          sleeps := sleeps + [ErrorCooldown];
        }
      }
    }

    /** The `while True` loop over a finite script; it stops early when an
      exception leaves `main`. */
    method Run(script: seq<CycleInput>)
      requires escaped.None?
      modifies this
      ensures Snapshot() == Runs(config, old(Snapshot()), script)
    {
      var i := 0;
      while i < |script| && escaped.None?
        invariant 0 <= i <= |script|
        invariant Snapshot() == Runs(config, old(Snapshot()), script[..i])
      {
        assert script[..i + 1][..i] == script[..i];
        RunCycle(script[i]);
        i := i + 1;
      }
      if i < |script| {
        RunsHalted(config, old(Snapshot()), script[..i], script[i..]);
        assert script[..i] + script[i..] == script;
      } else {
        assert script[..i] == script;
      }
    }
  }
}
