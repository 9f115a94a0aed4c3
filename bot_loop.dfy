/**
 * main() of homework.py: the startup token check and the `while True` loop
 * that keeps `current_timestamp`. The network, the clock and the Telegram
 * bot are inputs: each pass of the loop is driven by one `CycleInput`.
 */
module BotLoop {
  import opened Wrappers
  import opened PyValues
  import opened Homework

  /** What the outside world does during one pass of the loop. */
  datatype CycleInput = CycleInput(
    now: int,       // int(time.time()) when get_api_answer runs
    reply: Reply,   // what requests.get and response.json() give back
    sendOk: bool,   // bot.send_message accepts the status message
    reportOk: bool) // bot.send_message accepts the failure report

  /** A message the bot accepted. */
  datatype Notice = StatusNotice(text: string) | FailureReport(error: Error)

  /** How the `try` block of one pass ends. */
  datatype Outcome =
    | Notified(text: string, currentDate: Value) // homeworks[0] translated and sent
    | NothingNew                                 // the homework list is empty
    | Failed(error: Error)                       // some step raised

  /** The state main() keeps, plus what it has done so far. */
  datatype LoopState = LoopState(
    currentTimestamp: Value, // the watermark
    requests: seq<Value>,    // the from_date of every fetch, oldest first
    delivered: seq<Notice>,  // every message the bot accepted, oldest first
    crashed: bool)           // the failure report raised and ended main()

  /** Body of main's try block: fetch, validate, translate homeworks[0], send. */
  predicate Notifies(input: CycleInput) {
    && input.reply.Response?
    && input.reply.statusCode == 200
    && input.reply.json.Some?
    && ValidResponse(input.reply.json.value)
    && input.reply.json.value.fields["homeworks"].items != []
    && KnownHomework(input.reply.json.value.fields["homeworks"].items[0])
    && input.sendOk
  }

  /** The fetch and the validation succeed and the homework list is empty. */
  predicate EmptyList(input: CycleInput) {
    && input.reply.Response?
    && input.reply.statusCode == 200
    && input.reply.json.Some?
    && ValidResponse(input.reply.json.value)
    && input.reply.json.value.fields["homeworks"].items == []
  }

  /**
   * The `try` block of main: only homeworks[0] is translated and sent, and a
   * pass ends `Notified` exactly when every step succeeds, carrying that
   * record's message and the response's current_date.
   */
  function TryBlock(input: CycleInput): (o: Outcome)
    ensures o.Notified? <==> Notifies(input)
    ensures o.Notified? ==>
              var response := input.reply.json.value;
              && o.currentDate == response.fields["current_date"]
              && Success(o.text) == ParseStatus(response.fields["homeworks"].items[0])
    ensures o.NothingNew? <==> EmptyList(input)
    ensures o.Failed? && input.reply.Response? && input.reply.statusCode != 200 ==>
              o.error == EndpointUnavailable(input.reply.statusCode)
    ensures var answer := GetApiAnswer(input.reply);
            answer.Failure? ==> o == Failed(answer.error)
    ensures var answer := GetApiAnswer(input.reply);
            answer.Success? && CheckResponse(answer.value).Failure? ==>
              o == Failed(CheckResponse(answer.value).error)
    ensures var answer := GetApiAnswer(input.reply);
            answer.Success? && CheckResponse(answer.value).Success? && CheckResponse(answer.value).value != [] ==>
              var first := CheckResponse(answer.value).value[0];
              && (ParseStatus(first).Failure? ==> o == Failed(ParseStatus(first).error))
              && (ParseStatus(first).Success? && !input.sendOk ==> o == Failed(SendMessageError))
  {
    match GetApiAnswer(input.reply)
    case Failure(e) => Failed(e)
    case Success(response) =>
      match CheckResponse(response)
      case Failure(e) => Failed(e)
      case Success(homeworks) =>
        if !Truthy(List(homeworks)) then NothingNew
        else
          match ParseStatus(homeworks[0])
          case Failure(e) => Failed(e)
          case Success(message) =>
            if input.sendOk then Notified(message, response.fields["current_date"])
            else Failed(SendMessageError)
  }

  /** A pass that ends main(): the try block fails and so does the report. */
  predicate Crashes(input: CycleInput)
    ensures Crashes(input) <==> !input.reportOk && !Notifies(input) && !EmptyList(input)
  {
    TryBlock(input).Failed? && !input.reportOk
  }

  /** main() before the loop: the watermark starts at the start time. */
  function Start(startTime: int): LoopState {
    LoopState(Int(startTime), [], [], false)
  }

  /**
   * One pass of `while True`: fetch from FromDate of the watermark; the
   * watermark moves only together with a delivered status message; a failure
   * is reported, and if the report itself fails main() ends.
   */
  function Step(s: LoopState, input: CycleInput): (t: LoopState)
    ensures t.requests == s.requests + [FromDate(s.currentTimestamp, input.now)]
    ensures s.delivered <= t.delivered && |t.delivered| <= |s.delivered| + 1
    ensures t.currentTimestamp != s.currentTimestamp ==>
              Notifies(input) && t.delivered == s.delivered + [StatusNotice(TryBlock(input).text)]
    ensures Notifies(input) ==>
              t.currentTimestamp == input.reply.json.value.fields["current_date"]
    ensures !Notifies(input) ==> t.currentTimestamp == s.currentTimestamp
    ensures Notifies(input) ==> t.delivered == s.delivered + [StatusNotice(TryBlock(input).text)]
    ensures !Notifies(input) ==>
              t.delivered == s.delivered +
                (if TryBlock(input).Failed? && input.reportOk then [FailureReport(TryBlock(input).error)] else [])
    ensures t.crashed <==> s.crashed || Crashes(input)
  {
    var fetched := s.(requests := s.requests + [FromDate(s.currentTimestamp, input.now)]);
    match TryBlock(input)
    case Notified(text, date) =>
      fetched.(currentTimestamp := date, delivered := s.delivered + [StatusNotice(text)])
    case NothingNew =>
      fetched
    case Failed(e) =>
      if input.reportOk then fetched.(delivered := s.delivered + [FailureReport(e)])
      else fetched.(crashed := true)
  }

  /**
   * The loop run over `inputs`, stopping once main() has ended: it only
   * appends to the requests and the deliveries, and from a running state it
   * ends main() iff some pass crashes; otherwise it fetches once per pass.
   */
  function Run(s: LoopState, inputs: seq<CycleInput>): (r: LoopState)
    ensures s.requests <= r.requests && s.delivered <= r.delivered
    ensures |r.requests| <= |s.requests| + |inputs|
    ensures s.crashed ==> r == s
    ensures !s.crashed ==> (r.crashed <==> exists k :: 0 <= k < |inputs| && Crashes(inputs[k]))
    ensures !r.crashed ==> |r.requests| == |s.requests| + |inputs|
    decreases |inputs|
  {
    if inputs == [] || s.crashed then s
    else
      var r := Run(Step(s, inputs[0]), inputs[1..]);
      assert forall k :: 0 <= k < |inputs[1..]| ==> inputs[1..][k] == inputs[k + 1];
      assert Crashes(inputs[0]) ==> r.crashed;
      r
  }

  /** Pass `k` of `inputs` is reached: no earlier pass ended main(). */
  predicate Reaches(inputs: seq<CycleInput>, k: int) {
    forall j :: 0 <= j < k && j < |inputs| ==> !Crashes(inputs[j])
  }

  /** Pass `k` is the last reached pass that notified. */
  predicate LastNotifying(inputs: seq<CycleInput>, k: int) {
    && 0 <= k < |inputs|
    && Reaches(inputs, k)
    && Notifies(inputs[k])
    && forall j :: k < j < |inputs| && Reaches(inputs, j) ==> !Notifies(inputs[j])
  }

  lemma ReachesShift(x: CycleInput, rest: seq<CycleInput>, k: nat)
    requires !Crashes(x)
    ensures Reaches([x] + rest, k + 1) <==> Reaches(rest, k)
  {
    var inputs := [x] + rest;
    if Reaches(rest, k) {
      forall j | 0 <= j < k + 1 && j < |inputs| ensures !Crashes(inputs[j]) {
        if j > 0 { assert inputs[j] == rest[j - 1]; }
      }
    }
    if Reaches(inputs, k + 1) {
      forall j | 0 <= j < k && j < |rest| ensures !Crashes(rest[j]) {
        assert rest[j] == inputs[j + 1];
      }
    }
  }

  /**
   * The watermark after any run is the current_date of the last reached
   * pass that notified, and the starting watermark when no reached pass
   * notified.
   */
  lemma {:induction false} WatermarkIsLastNotifiedDate(s: LoopState, inputs: seq<CycleInput>)
    requires !s.crashed
    ensures (forall k :: 0 <= k < |inputs| && Reaches(inputs, k) ==> !Notifies(inputs[k])) ==>
              Run(s, inputs).currentTimestamp == s.currentTimestamp
    ensures forall k :: LastNotifying(inputs, k) ==>
              Run(s, inputs).currentTimestamp == TryBlock(inputs[k]).currentDate
    decreases |inputs|
  {
    if inputs != [] {
      var x, rest := inputs[0], inputs[1..];
      assert inputs == [x] + rest;
      var t := Step(s, x);
      if Crashes(x) {
        assert Run(s, inputs) == t;
      } else {
        assert Run(s, inputs) == Run(t, rest);
        WatermarkIsLastNotifiedDate(t, rest);
        assert Reaches(inputs, 0);
        forall k | 0 <= k < |rest| ensures Reaches(inputs, k + 1) <==> Reaches(rest, k) {
          ReachesShift(x, rest, k);
        }
        if forall k :: 0 <= k < |inputs| && Reaches(inputs, k) ==> !Notifies(inputs[k]) {
          forall k | 0 <= k < |rest| && Reaches(rest, k) ensures !Notifies(rest[k]) {
            assert rest[k] == inputs[k + 1];
          }
        }
        forall k | LastNotifying(inputs, k)
          ensures Run(s, inputs).currentTimestamp == TryBlock(inputs[k]).currentDate
        {
          if k == 0 {
            forall j | 0 <= j < |rest| && Reaches(rest, j) ensures !Notifies(rest[j]) {
              assert rest[j] == inputs[j + 1];
            }
          } else {
            assert rest[k - 1] == inputs[k];
            forall j | k - 1 < j < |rest| && Reaches(rest, j) ensures !Notifies(rest[j]) {
              assert rest[j] == inputs[j + 1];
            }
            assert LastNotifying(rest, k - 1);
          }
        }
      }
    }
  }

  /** Every status message in `delivered` reads back as a name and a known status. */
  predicate StatusNoticesReadable(delivered: seq<Notice>) {
    forall k :: 0 <= k < |delivered| && delivered[k].StatusNotice? ==>
      MessageFields(delivered[k].text).Some?
  }

  /** The loop only ever sends status messages that parse_status built. */
  lemma {:induction false} RunKeepsStatusNoticesReadable(s: LoopState, inputs: seq<CycleInput>)
    requires StatusNoticesReadable(s.delivered)
    ensures StatusNoticesReadable(Run(s, inputs).delivered)
    decreases |inputs|
  {
    if inputs != [] && !s.crashed {
      var t := Step(s, inputs[0]);
      var o := TryBlock(inputs[0]);
      if o.Notified? {
        var first := inputs[0].reply.json.value.fields["homeworks"].items[0];
        assert ParseStatus(first) == Success(o.text);
        assert MessageFields(o.text).Some?;
        assert t.delivered == s.delivered + [StatusNotice(o.text)];
      }
      assert StatusNoticesReadable(t.delivered);
      RunKeepsStatusNoticesReadable(t, inputs[1..]);
    }
  }

  // ---------------------------------------------------------------- sample passes

  function Payload(homeworks: seq<Value>, currentDate: int): Value {
    Dict(map["homeworks" := List(homeworks), "current_date" := Int(currentDate)])
  }

  function Record(name: string, status: string): Value {
    Dict(map["homework_name" := Str(name), "status" := Str(status)])
  }

  /** An approved first record is sent, and the watermark becomes current_date. */
  lemma ApprovedPassAdvances(s: LoopState, now: int, reportOk: bool)
    ensures var t := Step(s, CycleInput(now, Response(200, Some(Payload([Record("HW1", "approved")], 1000))), true, reportOk));
            && t.currentTimestamp == Int(1000)
            && t.delivered == s.delivered + [StatusNotice(StatusMessage("HW1", ApprovedVerdict))]
  {
  }

  /** An empty homework list sends nothing and keeps the watermark. */
  lemma EmptyListKeepsWatermark(s: LoopState, now: int, sendOk: bool, reportOk: bool)
    ensures var t := Step(s, CycleInput(now, Response(200, Some(Payload([], 2000))), sendOk, reportOk));
            t.currentTimestamp == s.currentTimestamp && t.delivered == s.delivered && t.crashed == s.crashed
  {
  }

  /** A 503 keeps the watermark and is reported; an unsent report ends main(). */
  lemma UnavailableEndpointKeepsWatermark(s: LoopState, now: int, body: Option<Value>, sendOk: bool, reportOk: bool)
    ensures var t := Step(s, CycleInput(now, Response(503, body), sendOk, reportOk));
            && t.currentTimestamp == s.currentTimestamp
            && t.delivered == s.delivered + (if reportOk then [FailureReport(EndpointUnavailable(503))] else [])
            && (t.crashed <==> s.crashed || !reportOk)
  {
  }

  /** An unknown status keeps the watermark and is reported as UnknownStatus. */
  lemma UnknownStatusKeepsWatermark(s: LoopState, now: int, sendOk: bool)
    ensures var t := Step(s, CycleInput(now, Response(200, Some(Payload([Record("HW2", "unknown_code")], 3000))), sendOk, true));
            t.currentTimestamp == s.currentTimestamp && t.delivered == s.delivered + [FailureReport(UnknownStatus)]
  {
  }

  /** main()'s loop, holding current_timestamp across passes. */
  class Poller {
    var currentTimestamp: Value
    var requests: seq<Value>
    var delivered: seq<Notice>
    var crashed: bool

    function State(): LoopState
      reads this
    {
      LoopState(currentTimestamp, requests, delivered, crashed)
    }

    /** `current_timestamp = int(time.time())` before the loop. */
    constructor (startTime: int)
      ensures State() == Start(startTime)
    {
      currentTimestamp := Int(startTime);
      requests := [];
      delivered := [];
      crashed := false;
    }

    /** One pass of the loop body: try, except, (finally: sleep, not modelled). */
    method Cycle(input: CycleInput)
      modifies this
      ensures State() == Step(old(State()), input)
    {
      requests := requests + [FromDate(currentTimestamp, input.now)];
      var error: Option<Error> := None;
      var answer := GetApiAnswer(input.reply);
      if answer.Failure? {
        error := Some(answer.error);
      } else {
        var response := answer.value;
        var checked := CheckResponse(response);
        if checked.Failure? {
          error := Some(checked.error);
        } else if checked.value != [] {
          var parsed := ParseStatus(checked.value[0]);
          if parsed.Failure? {
            error := Some(parsed.error);
          } else if !input.sendOk {
            error := Some(SendMessageError);
          } else {
            delivered := delivered + [StatusNotice(parsed.value)];
            currentTimestamp := response.fields["current_date"];
          }
        }
      }
      if error.Some? {
        if input.reportOk {
          delivered := delivered + [FailureReport(error.value)];
        } else {
          crashed := true;
        }
      }
    }

    /** The loop over the passes `inputs`, until they run out or main() ends. */
    method RunCycles(inputs: seq<CycleInput>)
      modifies this
      ensures State() == Run(old(State()), inputs)
    {
      var i := 0;
      while i < |inputs| && !crashed
        invariant 0 <= i <= |inputs|
        invariant Run(State(), inputs[i..]) == Run(old(State()), inputs)
      {
        assert inputs[i..] == [inputs[i]] + inputs[i + 1..];
        Cycle(inputs[i]);
        i := i + 1;
      }
    }
  }

  /**
   * main(): no loop at all without the three tokens; otherwise the loop from
   * the start time over `inputs`.
   */
  method RunBot(practicumToken: Option<string>, telegramToken: Option<string>,
                telegramChatId: Option<string>, startTime: int, inputs: seq<CycleInput>)
    returns (final: Option<LoopState>)
    ensures final.None? <==> !(IsSet(practicumToken) && IsSet(telegramToken) && IsSet(telegramChatId))
    ensures final.Some? ==> final.value == Run(Start(startTime), inputs)
  {
    if !CheckTokens(practicumToken, telegramToken, telegramChatId) {
      return None;
    }
    var poller := new Poller(startTime);
    poller.RunCycles(inputs);
    final := Some(poller.State());
  }
}
