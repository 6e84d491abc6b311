/** Python-level vocabulary shared by both variants of the bot: decoded JSON
    values, the handful of Python operations the core applies to them
    (truthiness, `dict.get`, subscription, `str()`), the exceptions that can
    arise in a polling cycle and their `str()` texts, the shape of the request
    sent to the homework-status API, and the scripted outcomes that stand for
    the network, the messaging transport and the clock. */
module Common {

  datatype Option<T> = None | Some(value: T)

  /** A value or the Python exception raised instead of it. */
  datatype Result<T> = Ok(value: T) | Err(error: Error)

  /** A value produced by `response.json()` (floating-point numbers left out). */
  datatype Json =
    | JNull
    | JBool(b: bool)
    | JInt(i: int)
    | JStr(s: string)
    | JList(items: seq<Json>)
    | JObject(fields: map<string, Json>)

  /** `type(v).__name__` */
  function TypeName(v: Json): string
  {
    match v
    case JNull => "NoneType"
    case JBool(_) => "bool"
    case JInt(_) => "int"
    case JStr(_) => "str"
    case JList(_) => "list"
    case JObject(_) => "dict"
  }

  /** Python truthiness, as used by `if homeworks_list:`. The falsy JSON
      values are exactly None, False, 0, the empty string, the empty list and
      the empty dict. */
  predicate Truthy(v: Json)
    ensures !Truthy(v) <==> v in {JNull, JBool(false), JInt(0), JStr(""), JList([]), JObject(map[])}
  {
    match v
    case JNull => false
    case JBool(b) => b
    case JInt(i) => i != 0
    case JStr(s) => s != ""
    case JList(xs) => xs != []
    case JObject(m) => m != map[]
  }

  /** `d.get(key)` on a dict: `None` when the key is absent. */
  function Get(fields: map<string, Json>, key: string): (r: Json)
    ensures key in fields ==> r == fields[key]
    ensures r != JNull ==> key in fields
  {
    if key in fields then fields[key] else JNull
  }

  /** `v.get(key)`: a dict gives `Get`, anything else has no attribute `get`. */
  function CallGet(v: Json, key: string): (r: Result<Json>)
    ensures r.Ok? <==> v.JObject?
    ensures r.Err? ==> r.error == AttributeError(TypeName(v), "get")
    ensures v.JObject? && key in v.fields ==> r == Ok(v.fields[key])
    ensures v.JObject? && key !in v.fields ==> r == Ok(JNull)
  {
    match v
    case JObject(m) => Ok(Get(m, key))
    case _ => Err(AttributeError(TypeName(v), "get"))
  }

  /** `v[key]` with a string key. */
  function SubscriptKey(v: Json, key: string): (r: Result<Json>)
    ensures r.Ok? <==> v.JObject? && key in v.fields
    ensures r.Ok? ==> r.value == v.fields[key]
    ensures v.JObject? && key !in v.fields ==> r == Err(KeyError(key))
  {
    match v
    case JObject(m) => if key in m then Ok(m[key]) else Err(KeyError(key))
    case JList(_) => Err(TypeError("list indices must be integers or slices, not str"))
    case JStr(_) => Err(TypeError("string indices must be integers"))
    case _ => Err(TypeError("'" + TypeName(v) + "' object is not subscriptable"))
  }

  /** `v[0]`; JSON object keys are strings, so a dict has no key 0. */
  function SubscriptFirst(v: Json): (r: Result<Json>)
    ensures r.Ok? <==> (v.JList? && v.items != []) || (v.JStr? && v.s != "")
    ensures v.JList? && v.items != [] ==> r == Ok(v.items[0])
  {
    match v
    case JList(xs) => if xs != [] then Ok(xs[0]) else Err(IndexError("list index out of range"))
    case JStr(s) => if s != "" then Ok(JStr([s[0]])) else Err(IndexError("string index out of range"))
    case JObject(_) => Err(KeyErrorZero)
    case _ => Err(TypeError("'" + TypeName(v) + "' object is not subscriptable"))
  }

  /** The character of one decimal digit. */
  function DigitChar(d: nat): (c: char)
    requires d < 10
    ensures '0' <= c <= '9' && (c as int) - ('0' as int) == d
  {
    "0123456789"[d]
  }

  predicate IsDigits(s: string)
  {
    forall k :: 0 <= k < |s| ==> '0' <= s[k] <= '9'
  }

  /** The numeric value of a string of decimal digits. */
  function DigitsValue(s: string): nat
    requires IsDigits(s)
  {
    if s == [] then 0
    else DigitsValue(s[..|s| - 1]) * 10 + ((s[|s| - 1] as int) - ('0' as int))
  }

  /** `str(n)` for a natural number: decimal digits without leading zeros. */
  function NatToDecimal(n: nat): (r: string)
    ensures r != [] && IsDigits(r)
    ensures r[0] == '0' ==> n == 0 && r == "0"
  {
    if n < 10 then [DigitChar(n)] else NatToDecimal(n / 10) + [DigitChar(n % 10)]
  }

  /** Reading the digits back gives the number again. */
  lemma {:induction false} NatToDecimalRoundTrip(n: nat)
    ensures DigitsValue(NatToDecimal(n)) == n
  {
    if n >= 10 {
      var r := NatToDecimal(n);
      assert r[..|r| - 1] == NatToDecimal(n / 10);
      NatToDecimalRoundTrip(n / 10);
    }
  }

  /** `str(i)` for a Python int. */
  function IntToDecimal(i: int): string
  {
    if i < 0 then "-" + NatToDecimal(-i) else NatToDecimal(i)
  }

  /** `str(v)`, as used by an f-string. Containers are rendered by a
      placeholder: Python's `repr` of lists and dicts is not modelled. */
  function Render(v: Json): (r: string)
    ensures v.JStr? ==> r == v.s
    ensures v.JNull? ==> r == "None"
    ensures v.JInt? && 0 <= v.i ==> IsDigits(r) && DigitsValue(r) == v.i
    ensures v.JInt? && v.i < 0 ==> |r| > 1 && r[0] == '-' && IsDigits(r[1..]) && DigitsValue(r[1..]) == -v.i
  {
    match v
    case JNull => "None"
    case JBool(b) => if b then "True" else "False"
    case JInt(i) =>
      NatToDecimalRoundTrip(if i < 0 then -i else i);
      IntToDecimal(i)
    case JStr(s) => s
    case JList(_) => "[...]"
    case JObject(_) => "{...}"
  }

  /** `str()` of an optional configuration string (an unset variable is `None`). */
  function RenderSetting(v: Option<string>): string
  {
    match v
    case None => "None"
    case Some(s) => s
  }

  /** `int(t)`: truncation of a clock reading toward zero. */
  function TruncateTime(t: real): (r: int)
    ensures 0.0 <= t ==> r as real <= t < r as real + 1.0
    ensures t < 0.0 ==> r as real - 1.0 < t <= r as real
  {
    if 0.0 <= t then t.Floor else -((-t).Floor)
  }

  /** Truncation keeps the order of clock readings. */
  lemma TruncateTimeMonotone(t: real, u: real)
    requires t <= u
    ensures TruncateTime(t) <= TruncateTime(u)
  {
  }

  /** A whole number of seconds not after a reading is not after its
      truncation either. */
  lemma WholeSecondsBelowTruncation(n: int, t: real)
    requires n as real <= t
    ensures n <= TruncateTime(t)
  {
  }

  const StatusNotRecognised := "Статус проверки работы обновлён, но не опознан."
  const CrashPrefix := "Бот упал с ошибкой: "

  /** The exceptions a cycle can raise. Texts of interpreter errors follow
      CPython 3.8. */
  datatype Error =
    | KeyError(key: string)              // `d[key]` on a dict without the key
    | KeyErrorZero                       // `d[0]` on a decoded JSON object
    | IndexError(message: string)
    | TypeError(message: string)
    | AttributeError(typeName: string, name: string)
    | StatusNotFoundError                // bot.py's own exception class
    | UnboundVerdict                     // `verdict` read before any branch assigned it
    | Raised(text: string)               // raised by requests, json decoding or telegram

  /** `str(e)`. A KeyError shows the repr of its key; the keys the core looks
      up are plain identifiers, so that repr is the key in single quotes. */
  function ErrorText(e: Error): (r: string)
    ensures e.KeyError? ==> |r| == |e.key| + 2 && r[0] == r[|r| - 1] == '\'' && r[1..|r| - 1] == e.key
    ensures e.Raised? ==> r == e.text
    ensures e == StatusNotFoundError ==> r == StatusNotRecognised
  {
    match e
    case KeyError(k) => "'" + k + "'"
    case KeyErrorZero => "0"
    case IndexError(m) => m
    case TypeError(m) => m
    case AttributeError(t, n) => "'" + t + "' object has no attribute '" + n + "'"
    case StatusNotFoundError => StatusNotRecognised
    case UnboundVerdict => "local variable 'verdict' referenced before assignment"
    case Raised(t) => t
  }

  /** The chat message the exception handler of `main` sends. */
  function CrashReport(e: Error): (r: string)
    ensures |r| >= |CrashPrefix| && r[..|CrashPrefix|] == CrashPrefix
    ensures r[|CrashPrefix|..] == ErrorText(e)
  {
    CrashPrefix + ErrorText(e)
  }

  /** The configuration the core reads: the API token from the environment;
      `os.getenv` gives `None` for an unset variable. */
  datatype Config = Config(praktikumToken: Option<string>)

  /** One call of `requests.get(url, headers=..., params=...)`. */
  datatype Request = Request(url: string, headers: map<string, string>, params: map<string, Json>)

  const HomeworkUrl := "https://practicum.yandex.ru/api/user_api/homework_statuses/"
  const AuthScheme := "OAuth "

  /** The request `get_homeworks(current_timestamp)` issues: the payload is
      exactly `{'from_date': cursor}`, the only header is
      `Authorization: OAuth <token>`, and the test's mock accepts it. */
  function HomeworkRequest(cfg: Config, cursor: Json): (r: Request)
    ensures r.url == HomeworkUrl
    ensures r.params.Keys == {"from_date"} && r.params["from_date"] == cursor
    ensures r.headers.Keys == {"Authorization"}
    ensures r.headers["Authorization"] == "OAuth " + RenderSetting(cfg.praktikumToken)
    ensures AcceptedByMockGet(r, cursor)
  {
    Request(HomeworkUrl,
            map["Authorization" := AuthScheme + RenderSetting(cfg.praktikumToken)],
            map["from_date" := cursor])
  }

  /** What the test's mocked `requests.get` accepts for a call made with
      timestamp `cursor`. */
  predicate AcceptedByMockGet(req: Request, cursor: Json)
  {
    && |req.url| >= |HomeworkUrl| - 1
    && req.url[..|HomeworkUrl| - 1] == HomeworkUrl[..|HomeworkUrl| - 1]
    && "Authorization" in req.headers
    && |req.headers["Authorization"]| >= |AuthScheme|
    && req.headers["Authorization"][..|AuthScheme|] == AuthScheme
    && "from_date" in req.params
    && req.params["from_date"] == cursor
  }

  /** What `requests.get(...).json()` did in one cycle. */
  datatype FetchOutcome = Response(body: Json) | FetchFailed(text: string)

  /** What `bot.send_message` did. */
  datatype SendOutcome = Delivered | SendFailed(text: string)

  /** The scripted world of one cycle: the fetch, the verdict send, the send
      of an error report, and `time.time()` read after the interval sleep. */
  datatype CycleInput = CycleInput(fetch: FetchOutcome, send: SendOutcome, report: SendOutcome, clock: real)

  /** `get_homeworks(cursor)`: the request it issues and the decoded body,
      passed back unchanged, or the exception of the transport. */
  function GetHomeworks(cfg: Config, cursor: Json, outcome: FetchOutcome): (r: (Request, Result<Json>))
    ensures r.0 == HomeworkRequest(cfg, cursor)
    ensures outcome.Response? ==> r.1 == Ok(outcome.body)
    ensures outcome.FetchFailed? ==> r.1 == Err(Raised(outcome.text))
  {
    (HomeworkRequest(cfg, cursor),
     match outcome
     case Response(body) => Ok(body)
     case FetchFailed(t) => Err(Raised(t)))
  }

  /** `send_message(text)`: None on delivery, else the transport's exception. */
  function SendMessage(outcome: SendOutcome): (r: Option<Error>)
    ensures r.None? <==> outcome.Delivered?
  {
    match outcome
    case Delivered => None
    case SendFailed(t) => Some(Raised(t))
  }
}
