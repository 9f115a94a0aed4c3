/**
 * The decision logic of homework.py: the token check, the request parameter
 * and status check of get_api_answer, check_response and parse_status. Each
 * exception the Python code raises is an `Error` tag in a `Result`.
 */
module Homework {
  import opened Wrappers
  import opened PyValues

  /** The exceptions raised by (or passing through) the functions below. */
  datatype Error =
    | RequestFailed                        // requests.get itself raised
    | EndpointUnavailable(statusCode: int) // requests.HTTPError: status other than 200
    | BodyNotJson                          // response.json() raised
    | ResponseNotDict                      // TypeError: the payload is not a dict
    | ResponseKeyMissing                   // KeyError: 'homeworks' or 'current_date' absent
    | HomeworksNotList                     // TypeError: 'homeworks' is not a list
    | HomeworkNotIterable                  // TypeError: `in` on None, a bool or a number
    | HomeworkKeyMissing                   // KeyError: 'homework_name' or 'status' absent
    | HomeworkHasNoGet                     // AttributeError: a list or str passed both `in` tests
    | StatusUnhashable                     // TypeError: a list or dict looked up in a dict
    | UnknownStatus                        // KeyError: status not in HOMEWORK_STATUSES
    | SendMessageError                     // exceptions.SendMessageError

  // ---------------------------------------------------------------- tokens

  /** Python truthiness of an environment variable: unset or empty is false. */
  predicate IsSet(v: Option<string>) {
    v.Some? && v.value != ""
  }

  /** Python `all(values)`. */
  function All(values: seq<Option<string>>): (r: bool)
    ensures r <==> forall k :: 0 <= k < |values| ==> IsSet(values[k])
  {
    if values == [] then true else IsSet(values[0]) && All(values[1..])
  }

  /** check_tokens: `all([PRACTICUM_TOKEN, TELEGRAM_TOKEN, TELEGRAM_CHAT_ID])`. */
  function CheckTokens(practicumToken: Option<string>, telegramToken: Option<string>,
                       telegramChatId: Option<string>): (ok: bool)
    ensures ok <==> IsSet(practicumToken) && IsSet(telegramToken) && IsSet(telegramChatId)
  {
    var values := [practicumToken, telegramToken, telegramChatId];
    assert values[0] == practicumToken && values[1] == telegramToken && values[2] == telegramChatId;
    All(values)
  }

  // ---------------------------------------------------------------- fetch

  /**
   * What the HTTP client hands back for one GET: it raised, or it produced a
   * status code and a body that decodes to JSON (`None` when
   * `response.json()` would raise).
   */
  datatype Reply = Raised | Response(statusCode: int, json: Option<Value>)

  /** The `from_date` query parameter: `current_timestamp or int(time.time())`. */
  function FromDate(currentTimestamp: Value, now: int): (d: Value)
    ensures Truthy(currentTimestamp) ==> d == currentTimestamp
    ensures !Truthy(currentTimestamp) ==> d == Int(now)
    ensures currentTimestamp.Int? ==> d == Int(if currentTimestamp.i != 0 then currentTimestamp.i else now)
  {
    Or(currentTimestamp, Int(now))
  }

  /** The rest of get_api_answer: only a 200 reply yields its decoded body. */
  function GetApiAnswer(reply: Reply): (r: Result<Value, Error>)
    ensures reply.Raised? ==> r == Failure(RequestFailed)
    ensures reply.Response? && reply.statusCode != 200 ==>
              r == Failure(EndpointUnavailable(reply.statusCode))
    ensures r.Success? <==> reply.Response? && reply.statusCode == 200 && reply.json.Some?
    ensures r.Success? ==> r.value == reply.json.value
    ensures r.Failure? && reply.Response? && reply.statusCode == 200 ==> r.error == BodyNotJson
  {
    match reply
    case Raised => Failure(RequestFailed)
    case Response(code, json) =>
      if code != 200 then Failure(EndpointUnavailable(code))
      else if json.None? then Failure(BodyNotJson)
      else Success(json.value)
  }

  // ---------------------------------------------------------------- check_response

  /** A payload check_response accepts. */
  predicate ValidResponse(response: Value) {
    && response.Dict?
    && "homeworks" in response.fields
    && "current_date" in response.fields
    && response.fields["homeworks"].List?
  }

  /**
   * check_response: dict first, then both keys, then 'homeworks' a list; the
   * first failing check decides the error, and success hands back the list as
   * it was.
   */
  function CheckResponse(response: Value): (r: Result<seq<Value>, Error>)
    ensures !response.Dict? ==> r == Failure(ResponseNotDict)
    ensures response.Dict? &&
            ("homeworks" !in response.fields || "current_date" !in response.fields) ==>
              r == Failure(ResponseKeyMissing)
    ensures response.Dict? && "homeworks" in response.fields && "current_date" in response.fields &&
              !response.fields["homeworks"].List? ==>
              r == Failure(HomeworksNotList)
    ensures r.Success? <==> ValidResponse(response)
    ensures r.Success? ==> r.value == response.fields["homeworks"].items
  {
    if !response.Dict? then Failure(ResponseNotDict)
    else if "homeworks" !in response.fields || "current_date" !in response.fields then
      Failure(ResponseKeyMissing)
    else
      var homeworks := response.fields["homeworks"];
      if !homeworks.List? then Failure(HomeworksNotList)
      else Success(homeworks.items)
  }

  /** check_response never looks at what 'current_date' holds. */
  lemma CheckResponseIgnoresCurrentDate(fields: map<string, Value>, date: Value)
    requires "current_date" in fields
    ensures CheckResponse(Dict(fields["current_date" := date])) == CheckResponse(Dict(fields))
  {
  }

  // ---------------------------------------------------------------- parse_status

  const ApprovedVerdict: string := "Работа проверена: ревьюеру всё понравилось. Ура!"
  const ReviewingVerdict: string := "Работа взята на проверку ревьюером."
  const RejectedVerdict: string := "Работа проверена: у ревьюера есть замечания."

  /** HOMEWORK_STATUSES. */
  const HomeworkStatuses: map<string, string> :=
    map["approved" := ApprovedVerdict, "reviewing" := ReviewingVerdict, "rejected" := RejectedVerdict]

  const MessagePrefix: string := "Изменился статус проверки работы \""
  const MessageMiddle: string := "\". "

  /** The f-string parse_status returns, for a rendered name and a verdict. */
  function StatusMessage(name: string, verdict: string): (msg: string)
    ensures |msg| == |MessagePrefix| + |name| + |MessageMiddle| + |verdict|
    ensures StartsWith(msg, MessagePrefix)
    ensures msg[|MessagePrefix|..|MessagePrefix| + |name|] == name
    ensures msg[|MessagePrefix| + |name|..] == MessageMiddle + verdict
  {
    MessagePrefix + name + MessageMiddle + verdict
  }

  /**
   * Python `key in container` for whatever a homework record turns out to be:
   * a key test on a dict, an element test on a list, a substring test on a
   * str; `None` where Python raises TypeError.
   */
  function HasKey(container: Value, key: string): (r: Option<bool>)
    ensures r.None? <==> container.Null? || container.Bool? || container.Int? || container.Float?
    ensures container.Dict? ==> r == Some(key in container.fields)
    ensures container.List? ==>
              r == Some(exists k :: 0 <= k < |container.items| && container.items[k] == Str(key))
    ensures container.Str? ==> r == Some(exists k :: OccursAt(container.s, key, k))
  {
    match container
    case Dict(fields) => Some(key in fields)
    case List(items) => Some(Str(key) in items)
    case Str(s) => ContainsIsSubstring(s, key); Some(Contains(s, key))
    case _ => None
  }

  /** A homework record parse_status turns into a message. */
  predicate KnownHomework(homework: Value) {
    && homework.Dict?
    && "homework_name" in homework.fields
    && "status" in homework.fields
    && homework.fields["status"].Str?
    && homework.fields["status"].s in HomeworkStatuses
  }

  /**
   * parse_status: both keys present, then the status looked up in
   * HOMEWORK_STATUSES, then the message. On success the message decodes back
   * to the record's rendered name and its status.
   */
  function ParseStatus(homework: Value): (r: Result<string, Error>)
    ensures r.Success? <==> KnownHomework(homework)
    ensures homework.Null? || homework.Bool? || homework.Int? || homework.Float? ==>
              r == Failure(HomeworkNotIterable)
    ensures homework.Dict? &&
            ("homework_name" !in homework.fields || "status" !in homework.fields) ==>
              r == Failure(HomeworkKeyMissing)
    ensures homework.Dict? && "homework_name" in homework.fields && "status" in homework.fields ==>
              var status := homework.fields["status"];
              && ((status.List? || status.Dict?) ==> r == Failure(StatusUnhashable))
              && (!status.List? && !status.Dict? && !(status.Str? && status.s in HomeworkStatuses) ==>
                    r == Failure(UnknownStatus))
    ensures homework.List? || homework.Str? ==>
              r == Failure(if HasKey(homework, "homework_name") == Some(true) &&
                              HasKey(homework, "status") == Some(true)
                           then HomeworkHasNoGet else HomeworkKeyMissing)
    ensures r.Success? ==>
              MessageFields(r.value) ==
                Some((Display(homework.fields["homework_name"]), homework.fields["status"].s))
  {
    var hasName := HasKey(homework, "homework_name");
    if hasName.None? then Failure(HomeworkNotIterable)
    else if !hasName.value || !HasKey(homework, "status").value then Failure(HomeworkKeyMissing)
    else if !homework.Dict? then Failure(HomeworkHasNoGet)
    else
      var name := homework.fields["homework_name"];
      var status := homework.fields["status"];
      if status.List? || status.Dict? then Failure(StatusUnhashable)
      else if !(status.Str? && status.s in HomeworkStatuses) then Failure(UnknownStatus)
      else
        MessageFieldsOfStatusMessage(Display(name), status.s);
        Success(StatusMessage(Display(name), HomeworkStatuses[status.s]))
  }

  /** parse_status reads only 'homework_name' and 'status' of a dict record. */
  lemma ParseStatusReadsTwoFields(a: map<string, Value>, b: map<string, Value>)
    requires "homework_name" in a <==> "homework_name" in b
    requires "status" in a <==> "status" in b
    requires "homework_name" in a ==> a["homework_name"] == b["homework_name"]
    requires "status" in a ==> a["status"] == b["status"]
    ensures ParseStatus(Dict(a)) == ParseStatus(Dict(b))
  {
  }

  // ---------------------------------------------------------------- str()

  function DigitChar(d: nat): (c: char)
    requires d < 10
    ensures '0' <= c <= '9'
    ensures c as int - '0' as int == d
  {
    "0123456789"[d]
  }

  /** The number a string of decimal digits spells, read left to right. */
  function DigitsValue(s: string): int
    decreases |s|
  {
    if s == [] then 0 else 10 * DigitsValue(s[..|s| - 1]) + (s[|s| - 1] as int - '0' as int)
  }

  /** `str(n)`: the decimal numeral of `n`. */
  function NatToString(n: nat): (r: string)
    ensures r != [] && forall k :: 0 <= k < |r| ==> '0' <= r[k] <= '9'
    ensures (|r| == 1) <==> n < 10
    ensures DigitsValue(r) == n
    ensures r[0] == '0' ==> n == 0
    decreases n
  {
    if n < 10 then [DigitChar(n)]
    else
      var r := NatToString(n / 10) + [DigitChar(n % 10)];
      assert r[..|r| - 1] == NatToString(n / 10);
      r
  }

  /** Decimal notation names one number only. */
  lemma {:induction false} NatToStringInjective(m: nat, n: nat)
    requires NatToString(m) == NatToString(n)
    ensures m == n
    decreases m
  {
    if m >= 10 && n >= 10 {
      var a, b := NatToString(m), NatToString(n);
      assert DigitChar(m % 10) == a[|a| - 1] == b[|b| - 1] == DigitChar(n % 10);
      assert NatToString(m / 10) == a[..|a| - 1] == b[..|b| - 1] == NatToString(n / 10);
      NatToStringInjective(m / 10, n / 10);
    }
  }

  /**
   * Python `str(v)` as the f-string applies it to 'homework_name'. Strings,
   * None, booleans and integers are rendered as Python does; floats, lists
   * and dicts get a fixed placeholder.
   */
  function Display(v: Value): (r: string)
    ensures v.Str? ==> r == v.s
    ensures v.Int? ==> r != [] && (r[0] == '-' <==> v.i < 0)
    ensures v.Int? ==> forall k :: (if v.i < 0 then 1 else 0) <= k < |r| ==> '0' <= r[k] <= '9'
    ensures v.Int? ==> DigitsValue(r[(if v.i < 0 then 1 else 0)..]) == (if v.i < 0 then -v.i else v.i)
    ensures v.Int? && v.i != 0 ==> r[if v.i < 0 then 1 else 0] != '0'
    ensures v.Null? ==> r == "None"
    ensures v.Bool? ==> r == (if v.b then "True" else "False")
  {
    match v
    case Str(s) => s
    case Null => "None"
    case Bool(b) => if b then "True" else "False"
    case Int(i) =>
      if i < 0 then
        var r := "-" + NatToString(-i);
        assert r[1..] == NatToString(-i);
        r
      else NatToString(i)
    case Float(_) => "<float>"
    case List(_) => "[...]"
    case Dict(_) => "{...}"
  }

  /** Two integers render alike only if they are equal. */
  lemma DisplayIntInjective(a: int, b: int)
    requires Display(Int(a)) == Display(Int(b))
    ensures a == b
  {
    var x := Display(Int(a));
    var off := if a < 0 then 1 else 0;
    assert (x[0] == '-' <==> a < 0) && (x[0] == '-' <==> b < 0);
    assert DigitsValue(x[off..]) == (if a < 0 then -a else a);
    assert DigitsValue(x[off..]) == (if b < 0 then -b else b);
  }

  // ---------------------------------------------------------------- reading a message back

  /** The name in `msg` if `msg` is the message for `status`. */
  function NameFor(msg: string, status: string): Option<string>
    requires status in HomeworkStatuses
  {
    var tail := MessageMiddle + HomeworkStatuses[status];
    if |MessagePrefix| + |tail| <= |msg| && msg[..|MessagePrefix|] == MessagePrefix &&
       msg[|msg| - |tail|..] == tail
    then Some(msg[|MessagePrefix|..|msg| - |tail|])
    else None
  }

  /**
   * Reads the rendered name and the status key back out of a status message,
   * trying the verdicts in table order.
   */
  function MessageFields(msg: string): Option<(string, string)> {
    match NameFor(msg, "approved")
    case Some(name) => Some((name, "approved"))
    case None =>
      match NameFor(msg, "reviewing")
      case Some(name) => Some((name, "reviewing"))
      case None =>
        match NameFor(msg, "rejected")
        case Some(name) => Some((name, "rejected"))
        case None => None
  }

  /** A string ending with `t` does not end with a `u` whose last two characters differ from `t`'s. */
  lemma EndsWithOnlyOne(msg: string, t: string, u: string)
    requires 2 <= |t| <= |msg| && msg[|msg| - |t|..] == t
    requires 2 <= |u|
    requires t[|t| - 1] != u[|u| - 1] || t[|t| - 2] != u[|u| - 2]
    ensures !(|u| <= |msg| && msg[|msg| - |u|..] == u)
  {
  }

  /** The three verdicts differ in one of their last two characters. */
  lemma VerdictEndingsDiffer(status: string, other: string)
    requires status in HomeworkStatuses && other in HomeworkStatuses && status != other
    ensures var v, w := HomeworkStatuses[status], HomeworkStatuses[other];
            2 <= |v| && 2 <= |w| && (v[|v| - 1] != w[|w| - 1] || v[|v| - 2] != w[|w| - 2])
  {
    assert |ApprovedVerdict| == 48 && ApprovedVerdict[47] == '!';
    assert |ReviewingVerdict| == 35 && ReviewingVerdict[34] == '.' && ReviewingVerdict[33] == 'м';
    assert |RejectedVerdict| == 44 && RejectedVerdict[43] == '.' && RejectedVerdict[42] == 'я';
  }

  lemma {:induction false} NameForOwnMessage(name: string, status: string)
    requires status in HomeworkStatuses
    ensures NameFor(StatusMessage(name, HomeworkStatuses[status]), status) == Some(name)
  {
    var tail := MessageMiddle + HomeworkStatuses[status];
    var msg := StatusMessage(name, HomeworkStatuses[status]);
    assert msg == MessagePrefix + name + tail;
    assert msg[..|MessagePrefix|] == MessagePrefix;
    assert msg[|msg| - |tail|..] == tail;
    assert msg[|MessagePrefix|..|msg| - |tail|] == name;
  }

  /** A message for `status` does not also read as one for a different status. */
  lemma {:induction false} NameForOtherStatus(name: string, status: string, other: string)
    requires status in HomeworkStatuses && other in HomeworkStatuses && status != other
    ensures NameFor(StatusMessage(name, HomeworkStatuses[status]), other) == None
  {
    var msg := StatusMessage(name, HomeworkStatuses[status]);
    var t := MessageMiddle + HomeworkStatuses[status];
    var u := MessageMiddle + HomeworkStatuses[other];
    assert msg == MessagePrefix + name + t;
    assert msg[|msg| - |t|..] == t;
    VerdictEndingsDiffer(status, other);
    EndsWithOnlyOne(msg, t, u);
  }

  /** Reading a status message back gives the name and status it was made from. */
  lemma MessageFieldsOfStatusMessage(name: string, status: string)
    requires status in HomeworkStatuses
    ensures MessageFields(StatusMessage(name, HomeworkStatuses[status])) == Some((name, status))
  {
    NameForOwnMessage(name, status);
    if status != "approved" {
      NameForOtherStatus(name, status, "approved");
    }
    if status == "rejected" {
      NameForOtherStatus(name, status, "reviewing");
    }
  }

  /** A name found for `status` sits exactly between the prefix and that status's tail. */
  lemma NameForInverse(msg: string, status: string)
    requires status in HomeworkStatuses && NameFor(msg, status).Some?
    ensures msg == StatusMessage(NameFor(msg, status).value, HomeworkStatuses[status])
  {
    var tail := MessageMiddle + HomeworkStatuses[status];
    var name := NameFor(msg, status).value;
    assert msg == msg[..|MessagePrefix|] + name + msg[|msg| - |tail|..];
  }

  /** Whatever reads back as a status message is exactly that message. */
  lemma StatusMessageOfMessageFields(msg: string)
    requires MessageFields(msg).Some?
    ensures MessageFields(msg).value.1 in HomeworkStatuses
    ensures msg == StatusMessage(MessageFields(msg).value.0, HomeworkStatuses[MessageFields(msg).value.1])
  {
    if NameFor(msg, "approved").Some? {
      NameForInverse(msg, "approved");
    } else if NameFor(msg, "reviewing").Some? {
      NameForInverse(msg, "reviewing");
    } else {
      NameForInverse(msg, "rejected");
    }
  }

  /** Two records give the same message only if they render the same name and share a status. */
  lemma ParseStatusInjective(a: Value, b: Value)
    requires ParseStatus(a).Success? && ParseStatus(a) == ParseStatus(b)
    ensures Display(a.fields["homework_name"]) == Display(b.fields["homework_name"])
    ensures a.fields["status"] == b.fields["status"]
    ensures a.fields["homework_name"].Int? && b.fields["homework_name"].Int? ==>
              a.fields["homework_name"] == b.fields["homework_name"]
  {
    var x, y := a.fields["homework_name"], b.fields["homework_name"];
    if x.Int? && y.Int? {
      DisplayIntInjective(x.i, y.i);
    }
  }
}
