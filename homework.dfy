/** The homework.py variant: `parse_homework_status` reads both keys with
    `.get` and knows only `rejected` and `approved`, wrapping the verdict in
    a fixed heading; its polling loop sleeps 300 s and then takes the cursor
    from the wall clock. Network, messaging and clock are scripted by
    `CycleInput` values. */
module HomeworkPy {
  import opened Common

  /** Seconds slept after a cycle that raised nothing. */
  const PollInterval: nat := 5 * 60
  /** Seconds slept after the exception handler has reported an error. */
  const ErrorCooldown: nat := 5

  const RejectedVerdict := "К сожалению, в работе нашлись ошибки."
  const ApprovedVerdict := "Ревьюеру всё понравилось, работа зачтена!"

  /** The text in front of the homework's name in every result. */
  const Heading := "У вас проверили работу \""

  predicate StartsWith(s: string, prefix: string)
  {
    |prefix| <= |s| && s[..|prefix|] == prefix
  }

  predicate EndsWith(s: string, suffix: string)
  {
    |suffix| <= |s| && s[|s| - |suffix|..] == suffix
  }

  /** `parse_homework_status(homework)`: a dict whose `status` is `rejected` or
      `approved` gives the heading, the rendered name and the verdict; any
      other status leaves `verdict` unbound, and a non-dict has no `get`. */
  function ParseHomeworkStatus(homework: Json): (r: Result<string>)
    ensures r.Ok? <==>
      homework.JObject? && Get(homework.fields, "status") in [JStr("rejected"), JStr("approved")]
    ensures r.Ok? ==>
      StartsWith(r.value, Heading + Render(Get(homework.fields, "homework_name")) + "\"")
    ensures !homework.JObject? ==> r == Err(AttributeError(TypeName(homework), "get"))
  {
    match CallGet(homework, "homework_name")
    case Err(e) => Err(e)
    case Ok(name) =>
      var status := Get(homework.fields, "status");
      var verdict: Option<string> :=
        if status == JStr("rejected") then Some(RejectedVerdict)
        else if status == JStr("approved") then Some(ApprovedVerdict)
        else None;
      match verdict
      case None => Err(UnboundVerdict)
      case Some(v) =>
        var message := Heading + Render(name) + "\"!\n\n" + v;
        assert message[..|Heading + Render(name) + "\""|] == Heading + Render(name) + "\"";
        Ok(message)
  }

  /** The exact message for the two statuses this variant knows. */
  lemma ParseVerdicts(fields: map<string, Json>)
    ensures var name := Render(Get(fields, "homework_name"));
      && (Get(fields, "status") == JStr("rejected") ==>
           ParseHomeworkStatus(JObject(fields)) ==
             Ok("У вас проверили работу \"" + name + "\"!\n\n" + "К сожалению, в работе нашлись ошибки."))
      && (Get(fields, "status") == JStr("approved") ==>
           ParseHomeworkStatus(JObject(fields)) ==
             Ok("У вас проверили работу \"" + name + "\"!\n\n" + "Ревьюеру всё понравилось, работа зачтена!"))
  {
  }

  /** `reviewing`, a missing status, or any other value leaves `verdict`
      unbound: the call raises and no message is produced. */
  lemma ParseUnboundVerdict(fields: map<string, Json>)
    requires Get(fields, "status") != JStr("rejected") && Get(fields, "status") != JStr("approved")
    ensures ParseHomeworkStatus(JObject(fields)) == Err(UnboundVerdict)
    ensures ParseHomeworkStatus(JObject(fields["status" := JStr("reviewing")])) == Err(UnboundVerdict)
  {
    assert Get(fields["status" := JStr("reviewing")], "status") == JStr("reviewing");
  }

  /** A missing `homework_name` is not an error: `.get` gives None, which
      the f-string renders as `None`. */
  lemma ParseMissingName(fields: map<string, Json>)
    requires "homework_name" !in fields && Get(fields, "status") == JStr("approved")
    ensures ParseHomeworkStatus(JObject(fields)) ==
      Ok("У вас проверили работу \"" + "None" + "\"!\n\n" + "Ревьюеру всё понравилось, работа зачтена!")
  {
  }

  /** The repository's test of `parse_homework_status`: for a string name,
      an approved record and a rejected one both give a result that starts
      with the heading and the quoted name and ends with the verdict. */
  lemma SatisfiesRepositoryTest(fields: map<string, Json>, name: string)
    requires Get(fields, "homework_name") == JStr(name)
    ensures var approved := ParseHomeworkStatus(JObject(fields["status" := JStr("approved")]));
      && approved.Ok?
      && StartsWith(approved.value, "У вас проверили работу \"" + name + "\"")
      && EndsWith(approved.value, "Ревьюеру всё понравилось, работа зачтена!")
    ensures var rejected := ParseHomeworkStatus(JObject(fields["status" := JStr("rejected")]));
      && rejected.Ok?
      && StartsWith(rejected.value, "У вас проверили работу \"" + name + "\"")
      && EndsWith(rejected.value, "К сожалению, в работе нашлись ошибки.")
  {
    var approved := fields["status" := JStr("approved")];
    var rejected := fields["status" := JStr("rejected")];
    assert Get(approved, "homework_name") == JStr(name) && Get(approved, "status") == JStr("approved");
    assert Get(rejected, "homework_name") == JStr(name) && Get(rejected, "status") == JStr("rejected");
    var a := ParseHomeworkStatus(JObject(approved)).value;
    var r := ParseHomeworkStatus(JObject(rejected)).value;
    assert a == Heading + name + "\"!\n\n" + ApprovedVerdict;
    assert r == Heading + name + "\"!\n\n" + RejectedVerdict;
    assert a[|a| - |ApprovedVerdict|..] == ApprovedVerdict;
    assert r[|r| - |RejectedVerdict|..] == RejectedVerdict;
  }

  /** Lines 73-77: the message the cycle sends, None when `homeworks` is
      absent or falsy, or the exception raised on the way. */
  function Notification(body: Json): (r: Result<Option<string>>)
    ensures r.Ok? ==> body.JObject?
    ensures r == Ok(None) <==> body.JObject? && !Truthy(Get(body.fields, "homeworks"))
  {
    match CallGet(body, "homeworks")
    case Err(e) => Err(e)
    case Ok(homeworks) =>
      if !Truthy(homeworks) then Ok(None)
      else
        match SubscriptFirst(homeworks)
        case Err(e) => Err(e)
        case Ok(homework) =>
          match ParseHomeworkStatus(homework)
          case Err(e) => Err(e)
          case Ok(message) => Ok(Some(message))
  }

  /** Only element 0 of a non-empty `homeworks` list decides the message. */
  lemma NotificationUsesFirstOnly(fields: map<string, Json>, items: seq<Json>)
    requires Get(fields, "homeworks") == JList(items) && items != []
    ensures Notification(JObject(fields)) ==
      match ParseHomeworkStatus(items[0])
      case Ok(message) => Ok(Some(message))
      case Err(e) => Err(e)
  {
  }

  /** What `main` keeps between cycles, and what it has done so far: the
      requests issued, the messages delivered, the sleeps taken, and the
      exception that left `main`, if one did. */
  datatype State = State(cursor: int, requests: seq<Request>, sent: seq<string>,
                         sleeps: seq<nat>, escaped: Option<Error>)

  /** Line 68: the cursor starts at `int(time.time())`. */
  function Initial(clock: real): (r: State)
    ensures r.requests == [] && r.sent == [] && r.sleeps == [] && r.escaped.None?
    ensures 0.0 <= clock ==> r.cursor as real <= clock < r.cursor as real + 1.0
  {
    State(TruncateTime(clock), [], [], [], None)
  }

  /** Lines 78-79: sleep the interval, then read the clock for the cursor. */
  function Advance(s: State, clock: real): (r: State)
    ensures r.requests == s.requests && r.sent == s.sent && r.escaped == s.escaped
    ensures r.sleeps == s.sleeps + [PollInterval]
    ensures 0.0 <= clock ==> r.cursor as real <= clock < r.cursor as real + 1.0
  {
    s.(sleeps := s.sleeps + [PollInterval], cursor := TruncateTime(clock))
  }

  /** The try-block of lines 72-79: the state it leaves and the exception it
      raised, if any. */
  function Attempt(cfg: Config, s: State, c: CycleInput): (r: (State, Option<Error>))
    ensures r.0.requests == s.requests + [HomeworkRequest(cfg, JInt(s.cursor))]
    ensures r.0.escaped == s.escaped
    ensures r.1.Some? ==> r.0 == s.(requests := r.0.requests)
    ensures r.1.None? ==>
      && r.0.sleeps == s.sleeps + [PollInterval]
      && r.0.cursor == TruncateTime(c.clock)
      && (r.0.sent == s.sent || exists m :: r.0.sent == s.sent + [m])
  {
    var fetch := GetHomeworks(cfg, JInt(s.cursor), c.fetch);
    var s1 := s.(requests := s.requests + [fetch.0]);
    match fetch.1
    case Err(e) => (s1, Some(e))
    case Ok(body) =>
      match Notification(body)
      case Err(e) => (s1, Some(e))
      case Ok(None) => (Advance(s1, c.clock), None)
      case Ok(Some(message)) =>
        match SendMessage(c.send)
        case Some(e) => (s1, Some(e))
        case None => (Advance(s1.(sent := s1.sent + [message]), c.clock), None)
  }

  /** The handler of lines 81-85: report the error, then sleep; a failure
      of the report itself is not caught and leaves `main`. */
  function Recover(s: State, e: Error, report: SendOutcome): (r: State)
    ensures r.cursor == s.cursor && r.requests == s.requests
    ensures report.Delivered? ==>
      && r.sent == s.sent + [CrashReport(e)]
      && r.sleeps == s.sleeps + [ErrorCooldown]
      && r.escaped == s.escaped
    ensures report.SendFailed? ==>
      && r.sent == s.sent && r.sleeps == s.sleeps
      && r.escaped == Some(Raised(report.text))
  {
    match SendMessage(report)
    case None => s.(sent := s.sent + [CrashReport(e)], sleeps := s.sleeps + [ErrorCooldown])
    case Some(failure) => s.(escaped := Some(failure))
  }

  /** One pass of the `while True` loop. */
  function Step(cfg: Config, s: State, c: CycleInput): (r: State)
    ensures r.requests == s.requests + [HomeworkRequest(cfg, JInt(s.cursor))]
    ensures s.sent <= r.sent && s.sleeps <= r.sleeps
    ensures r.cursor != s.cursor ==> Attempt(cfg, s, c).1.None? && r.cursor == TruncateTime(c.clock)
    ensures r.escaped != s.escaped ==> c.report.SendFailed? && r.escaped == Some(Raised(c.report.text))
  {
    var attempt := Attempt(cfg, s, c);
    match attempt.1
    case None => attempt.0
    case Some(e) => Recover(attempt.0, e, c.report)
  }

  /** The loop over a finite script; once an exception has left `main`,
      nothing more happens. */
  function Runs(cfg: Config, s: State, script: seq<CycleInput>): (r: State)
    ensures s.escaped.Some? ==> r == s
    ensures s.requests <= r.requests && |r.requests| <= |s.requests| + |script|
    ensures s.sent <= r.sent && s.sleeps <= r.sleeps
    decreases |script|
  {
    if script == [] then s
    else
      var before := Runs(cfg, s, script[..|script| - 1]);
      if before.escaped.Some? then before else Step(cfg, before, script[|script| - 1])
  }

  /** Every cycle issues one request whose payload is exactly
      `{'from_date': cursor}` for the integer cursor and whose header is
      `OAuth ` followed by the token. */
  lemma CycleRequestShape(cfg: Config, s: State, c: CycleInput)
    ensures |Step(cfg, s, c).requests| == |s.requests| + 1
    ensures Step(cfg, s, c).requests[|s.requests|].params == map["from_date" := JInt(s.cursor)]
    ensures Step(cfg, s, c).requests[|s.requests|].headers ==
      map["Authorization" := "OAuth " + RenderSetting(cfg.praktikumToken)]
  {
  }

  /** A cycle raises nothing exactly when the fetch gives a dict and, if its
      `homeworks` is truthy, element 0 parses and its message is delivered. */
  lemma AttemptSucceedsIff(cfg: Config, s: State, c: CycleInput)
    ensures Attempt(cfg, s, c).1.None? <==>
      && c.fetch.Response?
      && c.fetch.body.JObject?
      && var homeworks := Get(c.fetch.body.fields, "homeworks");
         Truthy(homeworks) ==>
           && SubscriptFirst(homeworks).Ok?
           && ParseHomeworkStatus(SubscriptFirst(homeworks).value).Ok?
           && c.send.Delivered?
  {
  }

  /** A cycle with an absent or empty `homeworks`. */
  predicate QuietCycle(c: CycleInput)
  {
    c.fetch.Response? && c.fetch.body.JObject? && !Truthy(Get(c.fetch.body.fields, "homeworks"))
  }

  /** An absent or falsy `homeworks` sends nothing; after a 300 s sleep the
      cursor becomes the wall-clock reading, whatever the response says. */
  lemma StepQuiet(cfg: Config, s: State, c: CycleInput)
    requires QuietCycle(c)
    ensures Step(cfg, s, c) ==
      s.(requests := s.requests + [HomeworkRequest(cfg, JInt(s.cursor))],
         sleeps := s.sleeps + [300],
         cursor := TruncateTime(c.clock))
  {
  }

  /** A non-empty list whose element 0 parses, with delivery succeeding,
      sends exactly that one message. */
  lemma StepDelivers(cfg: Config, s: State, c: CycleInput, items: seq<Json>)
    requires c.fetch.Response? && c.fetch.body.JObject?
    requires Get(c.fetch.body.fields, "homeworks") == JList(items) && items != []
    requires ParseHomeworkStatus(items[0]).Ok? && c.send.Delivered?
    ensures Step(cfg, s, c) ==
      s.(requests := s.requests + [HomeworkRequest(cfg, JInt(s.cursor))],
         sent := s.sent + [ParseHomeworkStatus(items[0]).value],
         sleeps := s.sleeps + [PollInterval],
         cursor := TruncateTime(c.clock))
  {
    NotificationUsesFirstOnly(c.fetch.body.fields, items);
  }

  /** After any exception in the try-block the cursor stays, and either one
      crash report is delivered and 5 s slept, or the report's own failure
      leaves `main` with nothing more sent or slept. */
  lemma StepFailure(cfg: Config, s: State, c: CycleInput, e: Error)
    requires Attempt(cfg, s, c).1 == Some(e)
    ensures Step(cfg, s, c).cursor == s.cursor
    ensures Step(cfg, s, c).requests == s.requests + [HomeworkRequest(cfg, JInt(s.cursor))]
    ensures c.report.Delivered? ==>
      && Step(cfg, s, c).sent == s.sent + ["Бот упал с ошибкой: " + ErrorText(e)]
      && Step(cfg, s, c).sleeps == s.sleeps + [5]
      && Step(cfg, s, c).escaped == s.escaped
    ensures c.report.SendFailed? ==>
      && Step(cfg, s, c).sent == s.sent
      && Step(cfg, s, c).sleeps == s.sleeps
      && Step(cfg, s, c).escaped == Some(Raised(c.report.text))
  {
  }

  /** A `reviewing` record is reported as a crash instead of a verdict. */
  lemma ReviewingIsReportedAsCrash(cfg: Config, s: State, c: CycleInput, record: map<string, Json>)
    requires c.fetch.Response? && c.fetch.body.JObject?
    requires Get(c.fetch.body.fields, "homeworks") == JList([JObject(record)])
    requires Get(record, "status") == JStr("reviewing") && c.report.Delivered?
    ensures Step(cfg, s, c).sent ==
      s.sent + ["Бот упал с ошибкой: " + "local variable 'verdict' referenced before assignment"]
    ensures Step(cfg, s, c).cursor == s.cursor
  {
    ParseUnboundVerdict(record);
    NotificationUsesFirstOnly(c.fetch.body.fields, [JObject(record)]);
  }

  /** Responses that agree on element 0 of a non-empty list lead to the same
      state, whatever else they hold. */
  lemma StepIgnoresLaterHomeworks(cfg: Config, s: State, c: CycleInput,
                                  f1: map<string, Json>, f2: map<string, Json>)
    requires Get(f1, "homeworks").JList? && Get(f1, "homeworks").items != []
    requires Get(f2, "homeworks").JList? && Get(f2, "homeworks").items != []
    requires Get(f1, "homeworks").items[0] == Get(f2, "homeworks").items[0]
    ensures Step(cfg, s, c.(fetch := Response(JObject(f1)))) ==
            Step(cfg, s, c.(fetch := Response(JObject(f2))))
  {
    NotificationUsesFirstOnly(f1, Get(f1, "homeworks").items);
    NotificationUsesFirstOnly(f2, Get(f2, "homeworks").items);
  }

  /** Once an exception has left `main`, further script entries change nothing. */
  lemma {:induction false} RunsHalted(cfg: Config, s: State, done: seq<CycleInput>, rest: seq<CycleInput>)
    requires Runs(cfg, s, done).escaped.Some?
    ensures Runs(cfg, s, done + rest) == Runs(cfg, s, done)
    decreases |rest|
  {
    if rest != [] {
      var all := done + rest;
      assert all[..|all| - 1] == done + rest[..|rest| - 1];
      RunsHalted(cfg, s, done, rest[..|rest| - 1]);
    } else {
      assert done + rest == done;
    }
  }

  /** However many quiet cycles run in a row, nothing is sent and every
      sleep is the full interval. */
  lemma {:induction false} RunsQuiet(cfg: Config, s: State, script: seq<CycleInput>)
    requires s.escaped.None?
    requires forall k :: 0 <= k < |script| ==> QuietCycle(script[k])
    ensures Runs(cfg, s, script).sent == s.sent
    ensures Runs(cfg, s, script).escaped.None?
    ensures Runs(cfg, s, script).sleeps == s.sleeps + seq(|script|, _ => PollInterval)
    decreases |script|
  {
    if script != [] {
      var prefix := script[..|script| - 1];
      RunsQuiet(cfg, s, prefix);
      var before := Runs(cfg, s, prefix);
      StepQuiet(cfg, before, script[|script| - 1]);
      assert s.sleeps + seq(|script|, _ => PollInterval)
          == s.sleeps + seq(|prefix|, _ => PollInterval) + [PollInterval];
    }
  }

  /** When no clock reading in the script lies before the current cursor, the
      cursor never moves backwards over the run. */
  lemma {:induction false} RunsCursorNotBefore(cfg: Config, s: State, script: seq<CycleInput>)
    requires forall k :: 0 <= k < |script| ==> s.cursor as real <= script[k].clock
    ensures s.cursor <= Runs(cfg, s, script).cursor
    decreases |script|
  {
    if script != [] {
      var prefix := script[..|script| - 1];
      RunsCursorNotBefore(cfg, s, prefix);
      var before := Runs(cfg, s, prefix);
      if before.escaped.None? {
        var c := script[|script| - 1];
        var attempt := Attempt(cfg, before, c);
        if attempt.1.None? {
          assert s.cursor <= TruncateTime(c.clock);
        }
      }
    }
  }

  /** Clock readings that never go backwards. */
  predicate NonDecreasingClocks(script: seq<CycleInput>)
  {
    forall i, j :: 0 <= i <= j < |script| ==> script[i].clock <= script[j].clock
  }

  /** After the first `k` cycles, the cursor is not after the truncation of
      any later clock reading. */
  lemma {:induction false} RunsCursorBelowLaterClocks(cfg: Config, s: State, script: seq<CycleInput>, k: nat)
    requires k <= |script|
    requires NonDecreasingClocks(script)
    requires forall i :: 0 <= i < |script| ==> s.cursor as real <= script[i].clock
    ensures forall m :: k <= m < |script| ==>
      Runs(cfg, s, script[..k]).cursor <= TruncateTime(script[m].clock)
    decreases k
  {
    if k == 0 {
      assert script[..0] == [];
      forall m | 0 <= m < |script|
        ensures s.cursor <= TruncateTime(script[m].clock)
      {
        WholeSecondsBelowTruncation(s.cursor, script[m].clock);
      }
    } else {
      RunsCursorBelowLaterClocks(cfg, s, script, k - 1);
      assert script[..k][..k - 1] == script[..k - 1];
      forall m | k <= m < |script|
        ensures Runs(cfg, s, script[..k]).cursor <= TruncateTime(script[m].clock)
      {
        TruncateTimeMonotone(script[k - 1].clock, script[m].clock);
      }
    }
  }

  /** When the clock never goes backwards and no reading precedes the
      starting cursor, no cycle moves the cursor backwards. */
  lemma RunsCursorMonotone(cfg: Config, s: State, script: seq<CycleInput>, k: nat)
    requires k < |script|
    requires NonDecreasingClocks(script)
    requires forall i :: 0 <= i < |script| ==> s.cursor as real <= script[i].clock
    ensures Runs(cfg, s, script[..k]).cursor <= Runs(cfg, s, script[..k + 1]).cursor
  {
    RunsCursorBelowLaterClocks(cfg, s, script, k);
    assert script[..k + 1][..k] == script[..k];
  }

  /** The running `main`: its cursor and what it has done, updated in place
      by each pass of the loop. */
  class Poller {
    const config: Config
    var cursor: int
    var requests: seq<Request>
    var sent: seq<string>
    var sleeps: seq<nat>
    var escaped: Option<Error>

    function Snapshot(): State
      reads this
    {
      State(cursor, requests, sent, sleeps, escaped)
    }

    constructor (config: Config, clock: real)
      ensures this.config == config && Snapshot() == Initial(clock)
    {
      this.config := config;
      cursor := TruncateTime(clock);
      requests, sent, sleeps := [], [], [];
      escaped := None;
    }

    /** The try-block: returns the exception it raised, if any. */
    method TryBlock(c: CycleInput) returns (failure: Option<Error>)
      modifies this
      ensures (Snapshot(), failure) == Attempt(config, old(Snapshot()), c)
    {
      var fetch := GetHomeworks(config, JInt(cursor), c.fetch);
      requests := requests + [fetch.0];
      if fetch.1.Err? {
        return Some(fetch.1.error);
      }
      var body := fetch.1.value;
      var homeworks := CallGet(body, "homeworks");
      if homeworks.Err? {
        return Some(homeworks.error);
      }
      if Truthy(homeworks.value) {
        var homework := SubscriptFirst(homeworks.value);
        if homework.Err? {
          return Some(homework.error);
        }
        var message := ParseHomeworkStatus(homework.value);
        if message.Err? {
          return Some(message.error);
        }
        var sendFailure := SendMessage(c.send);
        if sendFailure.Some? {
          return sendFailure;
        }
        sent := sent + [message.value];
      }
      sleeps := sleeps + [PollInterval];
      cursor := TruncateTime(c.clock);
      return None;
    }

    /** One pass of the loop, with the exception handler. */
    method RunCycle(c: CycleInput)
      requires escaped.None?
      modifies this
      ensures Snapshot() == Step(config, old(Snapshot()), c)
    {
      var failure := TryBlock(c);
      if failure.Some? {
        var reportFailure := SendMessage(c.report);
        if reportFailure.Some? {
          escaped := reportFailure;
        } else {
          sent := sent + [CrashReport(failure.value)];
          sleeps := sleeps + [ErrorCooldown];
        }
      }
    }

    /** The `while True` loop over a finite script; it stops early when an
      exception leaves `main`. */
    method Run(script: seq<CycleInput>)
      requires escaped.None?
      modifies this
      ensures Snapshot() == Runs(config, old(Snapshot()), script)
    {
      var i := 0;
      while i < |script| && escaped.None?
        invariant 0 <= i <= |script|
        invariant Snapshot() == Runs(config, old(Snapshot()), script[..i])
      {
        assert script[..i + 1][..i] == script[..i];
        RunCycle(script[i]);
        i := i + 1;
      }
      if i < |script| {
        RunsHalted(config, old(Snapshot()), script[..i], script[i..]);
        assert script[..i] + script[i..] == script;
      } else {
        assert script[..i] == script;
      }
    }
  }
}
