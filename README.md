# Homework-status notification bot, modelled in Dafny

The repository holds two variants of one Telegram bot, `bot.py` and
`homework.py`. Each polls the Practicum homework-status API with a timestamp
cursor. When the response lists a homework, the bot turns element 0 into a
verdict message and sends it to a fixed chat. Then it sleeps and advances the
cursor. Any exception in a cycle is reported to the chat, followed by a 5 s
sleep.

This project models, per variant:

- `parse_homework_status`, as a function from a decoded JSON value to a
  message or the Python exception it raises;
- the request `get_homeworks` issues, and the unchanged body it returns;
- one pass of `main`'s `while True` loop, both as a pure state transition
  (`Step`, iterated by `Runs`) and as a `Poller` class whose methods update
  the cursor and the logs in place and are proved equal to `Step` and `Runs`.

The network, the messaging transport and the clock are scripted. A
`CycleInput` gives, for one cycle: what `requests.get(...).json()` did; what
the verdict `send_message` did; what the error-report `send_message` did; and
what `time.time()` read after the interval sleep. The state is the cursor plus
four logs: requests issued, messages delivered, sleeps taken, and the
exception that left `main`, if one did.

Files:

- `common.dfy`, module `Common`: the JSON values; the Python operations the
  core applies to them (truthiness, `dict.get`, `d[key]`, `v[0]`, `str()`,
  `int()` of a clock reading); the exceptions and their `str()` texts; the
  request shape; the scripted outcomes.
- `bot.dfy`, module `BotPy`: `bot.py`.
- `homework.dfy`, module `HomeworkPy`: `homework.py`.

Behaviour of the code worth knowing:

- In `bot.py` the `reviewing` verdict is kept. The second `if` (line 56)
  and its `elif` are both false for `reviewing`, so the verdict from line 55
  stands (`BotPy.ParseVerdicts`).
- In `bot.py` a record without `status` raises `KeyError('status')`.
  `StatusNotFoundError` is raised only for a status that is present but not
  listed.
- In both variants a failure of the error-report send is not caught. It
  leaves `main`, and the loop ends (`RunsHalted`).
- `bot.py` replaces the cursor with whatever `current_date` holds. That may
  be `None` or a smaller number, so the cursor can move backwards there
  (`BotPy.MissingDateClearsCursor`). In `homework.py` it is the truncated
  wall-clock reading. It never moves backwards while the clock does not
  (`HomeworkPy.RunsCursorMonotone`).
- The repository's test of `parse_homework_status` imports `bot` but expects
  `homework.py`'s format. `homework.py` meets it
  (`HomeworkPy.SatisfiesRepositoryTest`). `bot.py` does not
  (`BotPy.ApprovedMessageLacksTestPrefix`).
- In `homework.py`, `reviewing` (and any status other than `rejected` or
  `approved`) leaves `verdict` unbound. The cycle then reports a crash instead
  of a verdict (`HomeworkPy.ReviewingIsReportedAsCrash`).

## Model

| member | source | states |
|---|---|---|
| `Common.Truthy` | bot.py:97 | the falsy JSON values are exactly None, False, 0, `""`, `[]` and `{}` |
| `Common.Get` | bot.py:96 | `d.get(k)` gives the value stored under `k`; anything but None comes from a stored key |
| `Common.CallGet` | homework.py:38-39 | `v.get(k)` succeeds exactly on a dict and gives the stored value, or None for an absent key; on anything else it raises AttributeError naming the type and `get` |
| `Common.SubscriptKey` | bot.py:43-44 | `v[key]` succeeds exactly on a dict holding the key and yields its value; a dict without it raises `KeyError(key)` |
| `Common.SubscriptFirst` | bot.py:98 | `v[0]` succeeds exactly on a non-empty list or string; for a list it yields element 0 |
| `Common.Render` | bot.py:55 | an f-string shows a string name as itself and None as `None`; an int name as decimal digits that read back as the number, after a `-` when negative |
| `Common.NatToDecimal` | bot.py:55 | `str()` of an int name is a non-empty digit string with no leading zero |
| `Common.NatToDecimalRoundTrip` | bot.py:55 | reading the rendered digits back gives the number again |
| `Common.TruncateTime` | bot.py:91 | `int(time.time())` truncates toward zero: within 1 of the reading, on the side of zero |
| `Common.TruncateTimeMonotone` | homework.py:79 | truncating two clock readings keeps their order |
| `Common.WholeSecondsBelowTruncation` | homework.py:79 | a whole number of seconds not after a reading is not after its truncation |
| `Common.ErrorText` | bot.py:106 | `str()` of a KeyError is its key in single quotes; a transport exception's text passes through; StatusNotFoundError shows its fixed text |
| `Common.CrashReport` | bot.py:106 | the error report is `Бот упал с ошибкой: ` followed by exactly `str(e)` |
| `Common.HomeworkRequest` | bot.py:67-73 | the payload is exactly `{'from_date': cursor}`; the only header is `Authorization: OAuth <token>`; the test's mocked `requests.get` accepts the call |
| `Common.GetHomeworks` | bot.py:65-78 | one request with the cursor; a decoded body is returned unchanged; a transport failure is re-raised |
| `Common.SendMessage` | bot.py:81-86 | a send raises nothing exactly when the transport delivers |
| `BotPy.Verdict` | bot.py:54-61 | `verdict` is bound exactly for the three listed statuses; for `reviewing` it keeps the line-55 text through the later `if`/`elif` |
| `BotPy.ParseHomeworkStatus` | bot.py:40-62 | parsing succeeds iff the record is a dict with both keys and a status in {reviewing, rejected, approved}; it never hits an unbound `verdict` |
| `BotPy.ParseMissingKey` | bot.py:42-47 | a missing `homework_name` raises `KeyError('homework_name')`; a name without a status raises `KeyError('status')` |
| `BotPy.ParseUnknownStatus` | bot.py:49-53 | a present, unlisted status raises StatusNotFoundError with its fixed text |
| `BotPy.ParseVerdicts` | bot.py:54-62 | the exact message for each of the three statuses; `reviewing` keeps its own verdict despite the later `if`/`elif` |
| `BotPy.ApprovedMessageLacksTestPrefix` | tests/test_1.py:162-172 | for `approved` this variant's message starts with `Работа `, not with the heading the test expects |
| `BotPy.Notification` | bot.py:96-99 | the cycle sends nothing exactly when the body is a dict whose `homeworks` is absent or falsy |
| `BotPy.NotificationUsesFirstOnly` | bot.py:97-99 | for a non-empty list only element 0 decides the message or the exception |
| `BotPy.Initial` | bot.py:91 | the cursor starts at the clock reading in whole seconds, and nothing has been requested, sent or slept |
| `BotPy.Advance` | bot.py:101-102 | a successful cycle sleeps 900 s and takes the cursor from `current_date`, None when absent; nothing else changes |
| `BotPy.Attempt` | bot.py:95-102 | the try-block logs one request; on an exception it changes nothing else; on success it sleeps 900 s and delivers at most one message |
| `BotPy.AttemptSucceedsIff` | bot.py:95-102 | a cycle raises nothing iff the fetch gives a dict and, when `homeworks` is truthy, element 0 parses and its send succeeds |
| `BotPy.Recover` | bot.py:104-107 | the handler keeps the cursor; a delivered report logs `CrashReport(e)` and a 5 s sleep; a failed one leaves `main` with the transport's exception |
| `BotPy.Step` | bot.py:93-107 | one pass logs exactly one request with the current cursor; messages and sleeps are only appended; the cursor moves only when the try-block raised nothing; `main` is left only by a failed report |
| `BotPy.Runs` | bot.py:93-107 | after an escape nothing changes; over a run the logs are only appended, with at most one request per cycle |
| `BotPy.StepQuiet` | bot.py:96-102 | an absent or empty list sends nothing, sleeps 900 s, and sets the cursor to `current_date`, or None when absent |
| `BotPy.StepDelivers` | bot.py:97-102 | a non-empty list with a parsable element 0 sends exactly its message, sleeps 900 s, and takes `current_date` |
| `BotPy.StepFailure` | bot.py:104-107 | after any exception the cursor is unchanged; one crash report is sent, then 5 s slept; or, if that send fails, the exception leaves `main` |
| `BotPy.StepIgnoresLaterHomeworks` | bot.py:97-98 | responses agreeing on element 0 and `current_date` give the same next state |
| `BotPy.MissingDateClearsCursor` | bot.py:102 | a successful response without `current_date` makes the cursor None, and the next request carries `from_date=None` |
| `BotPy.StepBounds` | bot.py:93-107 | each cycle logs one request and at most one message; it sleeps once, 900 s or 5 s, unless the exception leaves `main` |
| `BotPy.RunsHalted` | bot.py:104-107 | once the report send has failed, later cycles change nothing |
| `BotPy.RunsQuiet` | bot.py:96-102 | any number of quiet cycles sends nothing; every sleep is 900 s; the cursor is the last `current_date` |
| `BotPy.RunsBounds` | bot.py:93-107 | over a run: messages ≤ sleeps ≤ requests ≤ cycles; every sleep is 900 s or 5 s; without an escape there is one sleep per cycle |
| `BotPy.ScenarioApproved` | bot.py:95-102 | an approved "Project X" with `current_date` 1000 sends `Работа "Project X" зачтена! :)` and sets the cursor to 1000 |
| `BotPy.ScenarioFetchFails` | bot.py:104-107 | a failed fetch sends one crash report with the failure's text, sleeps 5 s and keeps the cursor |
| `BotPy.Poller.constructor` | bot.py:91 | the cursor starts at `int(time.time())` and the logs start empty |
| `BotPy.Poller.TryBlock` | bot.py:95-102 | the in-place try-block leaves exactly the state and exception of `Attempt` |
| `BotPy.Poller.RunCycle` | bot.py:93-107 | one in-place pass of the loop equals `Step` |
| `BotPy.Poller.Run` | bot.py:93-107 | the loop over a script equals `Runs`, stopping when an exception leaves `main` |
| `HomeworkPy.ParseHomeworkStatus` | homework.py:36-44 | succeeds iff the record is a dict whose `status` is `rejected` or `approved`; every result starts with the heading and the quoted name; a non-dict raises AttributeError |
| `HomeworkPy.ParseVerdicts` | homework.py:40-44 | the exact message for `rejected` and for `approved` |
| `HomeworkPy.ParseUnboundVerdict` | homework.py:39-44 | any other status, `reviewing` or absent included, raises for the unbound `verdict` |
| `HomeworkPy.ParseMissingName` | homework.py:38 | a missing `homework_name` is rendered as `None` inside the quotes |
| `HomeworkPy.SatisfiesRepositoryTest` | tests/test_1.py:162-183 | approved and rejected results start with the heading and the quoted name and end with the expected verdicts |
| `HomeworkPy.Notification` | homework.py:73-76 | the cycle sends nothing exactly when the body is a dict whose `homeworks` is absent or falsy |
| `HomeworkPy.NotificationUsesFirstOnly` | homework.py:74-76 | for a non-empty list only element 0 decides the message or the exception |
| `HomeworkPy.Initial` | homework.py:68 | the cursor starts at the clock reading in whole seconds, and nothing has been requested, sent or slept |
| `HomeworkPy.Advance` | homework.py:78-79 | a successful cycle sleeps 300 s and sets the cursor to the clock reading in whole seconds; nothing else changes |
| `HomeworkPy.Attempt` | homework.py:72-79 | the try-block logs one request; on an exception it changes nothing else; on success it sleeps 300 s and sets the cursor to the clock reading |
| `HomeworkPy.CycleRequestShape` | homework.py:47-55 | each cycle's request has payload exactly `{'from_date': cursor}` and header `OAuth <token>` |
| `HomeworkPy.AttemptSucceedsIff` | homework.py:72-79 | a cycle raises nothing iff the fetch gives a dict and, when `homeworks` is truthy, element 0 parses and its send succeeds |
| `HomeworkPy.Recover` | homework.py:81-85 | the handler keeps the cursor; a delivered report logs `CrashReport(e)` and a 5 s sleep; a failed one leaves `main` with the transport's exception |
| `HomeworkPy.Step` | homework.py:70-85 | one pass logs exactly one request with the current cursor; messages and sleeps are only appended; the cursor moves only to the truncated clock reading of a cycle that raised nothing; `main` is left only by a failed report |
| `HomeworkPy.Runs` | homework.py:70-85 | after an escape nothing changes; over a run the logs are only appended, with at most one request per cycle |
| `HomeworkPy.StepQuiet` | homework.py:73-79 | an absent or empty list sends nothing, sleeps 300 s and sets the cursor to the wall clock |
| `HomeworkPy.StepDelivers` | homework.py:74-79 | a non-empty list with a parsable element 0 sends exactly its message, then sleeps 300 s and reads the clock |
| `HomeworkPy.StepFailure` | homework.py:81-85 | after any exception the cursor is unchanged; one crash report is sent, then 5 s slept; or, if that send fails, the exception leaves `main` |
| `HomeworkPy.ReviewingIsReportedAsCrash` | homework.py:76 | a `reviewing` record yields the crash report about `verdict` instead of a verdict, and the cursor stays |
| `HomeworkPy.StepIgnoresLaterHomeworks` | homework.py:74-75 | responses agreeing on element 0 give the same next state |
| `HomeworkPy.RunsHalted` | homework.py:81-85 | once the report send has failed, later cycles change nothing |
| `HomeworkPy.RunsQuiet` | homework.py:73-79 | any number of quiet cycles sends nothing, and every sleep is 300 s |
| `HomeworkPy.RunsCursorNotBefore` | homework.py:79 | when no clock reading precedes the starting cursor, the cursor never falls below its starting value |
| `HomeworkPy.RunsCursorBelowLaterClocks` | homework.py:79 | with a clock that never goes backwards, the cursor after any number of cycles is not after the truncation of any later reading |
| `HomeworkPy.RunsCursorMonotone` | homework.py:79 | with a clock that never goes backwards and no reading before the starting cursor, no cycle moves the cursor backwards |
| `HomeworkPy.Poller.constructor` | homework.py:68 | the cursor starts at `int(time.time())` and the logs start empty |
| `HomeworkPy.Poller.TryBlock` | homework.py:72-79 | the in-place try-block leaves exactly the state and exception of `Attempt` |
| `HomeworkPy.Poller.RunCycle` | homework.py:70-85 | one in-place pass of the loop equals `Step` |
| `HomeworkPy.Poller.Run` | homework.py:70-85 | the loop over a script equals `Runs`, stopping when an exception leaves `main` |

## Left out

- Loading `.env`, reading the environment, and the module-level globals: the API token is a `Config` parameter. The Telegram token and the chat id are not modelled. `sent` logs message texts, all addressed to the one configured chat.
- Logging and `print`: they are output side effects with no decisions in them.
- Real HTTP, JSON decoding and the Telegram transport: they become scripted outcomes. `requests` dropping a `None`-valued parameter from the query string is not modelled; the model logs the payload dict as built.
- `time.sleep` and `time.time()`: sleeps are logged as durations, and clock readings come from the script. The reading is taken after the interval sleep, which is how the model orders the 300 s sleep before the cursor update. The endless `while True` runs over a finite script.
- JSON floating-point numbers: the JSON values have no float case.
- Common.Render: the `str()` of a list or dict used as a homework name is a placeholder. Python's `repr`, with dict insertion order, is not modelled. Names that are strings, ints, booleans or None are rendered exactly.
- Common.ErrorText: texts of interpreter-raised errors (TypeError, AttributeError, the unbound `verdict`) follow CPython 3.8. Other versions word some of them differently. A KeyError's text quotes the key without escaping, which is exact for the two keys the core looks up.
- Exceptions that are not `Exception` subclasses (KeyboardInterrupt, SystemExit) are not modelled.
