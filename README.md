# homework_bot: a Dafny model of the polling core

homework_bot polls the Practicum homework-status API every ten minutes and
tells a Telegram chat when the newest homework changes state. This project
models the decision logic of `homework.py`:

- the startup token check;
- the `from_date` choice and the status-code check of a fetch;
- the validation of the decoded payload (`check_response`);
- the translation of one homework record into a message (`parse_status`);
- the `while True` loop of `main`, which keeps the watermark `current_timestamp`.

The network, the clock and the Telegram bot are inputs. Each pass of the loop
is driven by a `CycleInput`, which holds:

- the time `now`;
- what the HTTP client returned: it raised, or a status code plus the body decoded as JSON or not decodable;
- whether the bot accepted the status message;
- whether the bot accepted the failure report.

Files:

- `wrappers.dfy`: `Option` and `Result`.
- `py_values.dfy`: decoded JSON values (`Value`) and the Python semantics the code relies on: truthiness, `x or y`, and `in` on strings.
- `homework.dfy`: `check_tokens`, `get_api_answer`, `check_response`, `parse_status` and `HOMEWORK_STATUSES`. Every exception is an `Error` tag. It also has a reader, `MessageFields`, that takes a status message apart again.
- `bot_loop.dfy`: `main`. `TryBlock`, `Step` and `Run` are the specification. The class `Poller` holds the watermark; its `Cycle` and `RunCycles` methods are proved against `Step` and `Run`. `RunBot` is the entry point: token check, then the loop.

Where the code behaves differently from what one might expect of such a bot, the model follows the code:

- An empty homework list leaves the watermark where it is. It is not advanced to `current_date`.
- `current_date` is never type-checked. The watermark is therefore a JSON `Value`, not an integer, and the next `from_date` is `current_timestamp or now` under Python truthiness.
- The watermark takes whatever `current_date` the server sends. Nothing stops it from moving backwards.
- The message is the Russian template of `homework.py:79`, with the verdicts of `homework.py:29-33`.
- If sending the failure report (`homework.py:114`) raises, the exception leaves the loop and ends `main`. The model records this as `crashed`, and the loop stops.

## Model

| member | source | states |
|---|---|---|
| `PyValues.Or` | homework.py:43 | `x or y` yields `x` when it is truthy and `y` otherwise; the result is truthy iff either operand is |
| `PyValues.Truthy` | homework.py:43 | a value is falsy exactly when it is None, False, 0, 0.0, "", [] or {} (used by `or` at line 43 and `if homeworks:` at line 107) |
| `PyValues.ContainsIsSubstring` | homework.py:70 | `in` on two strings holds exactly when the needle occurs at some offset of the haystack |
| `Homework.All` | homework.py:38 | `all(values)` is true exactly when every value is set and non-empty |
| `Homework.CheckTokens` | homework.py:36-38 | true iff PRACTICUM_TOKEN, TELEGRAM_TOKEN and TELEGRAM_CHAT_ID are all set and non-empty |
| `Homework.FromDate` | homework.py:43-44 | `from_date` is the watermark when it is truthy, else the current time; for an integer watermark, that value unless it is 0 |
| `Homework.GetApiAnswer` | homework.py:45-50 | a raising request, any status other than 200, or an undecodable body is an error; only a 200 yields a body, and it is the decoded JSON unchanged |
| `Homework.CheckResponse` | homework.py:53-65 | non-dict gives ResponseNotDict; else a missing `homeworks` or `current_date` gives ResponseKeyMissing; else a non-list `homeworks` gives HomeworksNotList; success iff all three checks pass, returning exactly `response['homeworks']` |
| `Homework.CheckResponseIgnoresCurrentDate` | homework.py:58-65 | replacing the value of `current_date` never changes the result: its type is not inspected |
| `Homework.HasKey` | homework.py:70 | `key in record`: raises TypeError (None) exactly for None, bools and numbers; a key test on a dict, an element test on a list, a substring test on a str |
| `Homework.ParseStatus` | homework.py:68-79 | succeeds iff the record is a dict with both keys and a status in HOMEWORK_STATUSES. Otherwise: None, bool or number gives TypeError; a dict missing a key gives KeyError; a list or dict status is unhashable; any other unknown status gives UnknownStatus; a list or str fails with AttributeError when both `in` tests pass and with KeyError otherwise. On success the message reads back as the rendered name and the status |
| `Homework.ParseStatusReadsTwoFields` | homework.py:70-78 | two dict records that agree on `homework_name` and `status` give the same result, whatever their other fields |
| `Homework.StatusMessage` | homework.py:79 | the message starts with the fixed prefix and the opening quote, then holds the name verbatim, then the closing quote and the verdict |
| `Homework.NatToString` | homework.py:79 | `str()` of a non-negative integer is its standard decimal numeral: a non-empty run of digits with no leading zero (except "0" itself) whose left-to-right base-10 value is the number, one digit long exactly below 10 |
| `Homework.NatToStringInjective` | homework.py:79 | distinct non-negative integers have distinct decimal renderings |
| `Homework.Display` | homework.py:79 | `str()` of the name: a string verbatim; None as "None"; booleans as "True"/"False"; an integer as a minus sign, present exactly for negatives, followed by the decimal digits of its absolute value with no leading zero |
| `Homework.DisplayIntInjective` | homework.py:79 | two integer names render alike only if they are equal |
| `Homework.VerdictEndingsDiffer` | homework.py:29-33 | the three verdict texts differ in one of their last two characters, so none is a suffix of another |
| `Homework.NameForOwnMessage` | homework.py:79 | the message for a status is recognised as that status's template, with the name in between |
| `Homework.NameForOtherStatus` | homework.py:79 | the message for one status is never recognised as the template of another status |
| `Homework.MessageFieldsOfStatusMessage` | homework.py:78-79 | reading back the message built for a name and a known status gives exactly that name and status |
| `Homework.NameForInverse` | homework.py:79 | a name recognised for a status is exactly the text between the template prefix and that status's tail |
| `Homework.StatusMessageOfMessageFields` | homework.py:79 | any text that reads back as a name and status is exactly the message for them, so the reader is an exact inverse |
| `Homework.ParseStatusInjective` | homework.py:68-79 | two records that yield the same message render the same name and carry the same status; two integer names are then equal |
| `BotLoop.TryBlock` | homework.py:104-110 | the try block notifies iff the fetch returns 200 with a valid payload, a non-empty list whose first record translates, and a successful send; it carries `parse_status(homeworks[0])` and `response['current_date']`. An empty list is exactly the no-change case. A failed pass carries the error of the first stage that raised: the fetch's, check_response's, parse_status's, or SendMessageError for a refused send |
| `BotLoop.Crashes` | homework.py:111-114 | a pass ends main() exactly when it neither notifies nor finds an empty list, and the failure report is refused |
| `BotLoop.Step` | homework.py:103-116 | each pass adds one request at FromDate of the watermark. A notifying pass delivers exactly the message of homeworks[0] and sets the watermark to `current_date`. Any other pass keeps the watermark and delivers no status message: only the failure report when the try block failed and the report went through, otherwise nothing. A failed pass whose report also fails ends the loop |
| `BotLoop.Run` | homework.py:103-116 | the loop only appends to requests and deliveries. From a running state it ends main() iff some pass in the sequence crashes; a run that does not end fetches once per pass |
| `BotLoop.WatermarkIsLastNotifiedDate` | homework.py:103-116 | after any run, the watermark is the `current_date` of the last reached pass that notified; it is the starting watermark when no reached pass notified |
| `BotLoop.RunKeepsStatusNoticesReadable` | homework.py:107-109 | every status message the loop delivers is a message built by parse_status, and reads back as a name and a known status |
| `BotLoop.ApprovedPassAdvances` | homework.py:105-110 | a 200 reply whose first record is "HW1"/approved sends that record's message and moves the watermark to 1000 |
| `BotLoop.EmptyListKeepsWatermark` | homework.py:106-107 | an empty homework list sends nothing and leaves the watermark where it was |
| `BotLoop.UnavailableEndpointKeepsWatermark` | homework.py:103-114 | a 503 keeps the watermark and delivers the EndpointUnavailable report, or ends the loop if the report fails |
| `BotLoop.UnknownStatusKeepsWatermark` | homework.py:104-114 | an unknown status keeps the watermark and delivers an UnknownStatus report |
| `BotLoop.Poller.constructor` | homework.py:101 | the watermark starts at the start time, with nothing fetched or sent |
| `BotLoop.Poller.Cycle` | homework.py:104-116 | one pass of the loop body updates the fields exactly as `Step` does |
| `BotLoop.Poller.RunCycles` | homework.py:103-116 | the loop over a sequence of passes, stopping when main ends, leaves the fields exactly as `Run` does |
| `BotLoop.RunBot` | homework.py:93-116 | the loop is not entered iff a token is missing; otherwise the final state is the loop run from the start time |

## Left out

- Loading `.env`, the logging setup and every log call (homework.py:12-23, 84, 90, 96, 112): configuration and I/O. The tokens are passed in as optional strings.
- `requests.get`, `response.json()` and `bot.send_message` (homework.py:45, 50, 86, 114): network clients. They are inputs: a reply (raised, or a status plus a decoded body) and two send flags. The endpoint URL and the `Authorization` header (homework.py:26-27) are not modelled.
- `telegram.Bot(token=...)` (homework.py:100) is assumed to succeed. It runs outside the `try`, so if it raises, main() ends before the loop; that path is not modelled.
- `send_message` (homework.py:82-90) turns any failure of the bot into SendMessageError. The model has only the flag and that error tag.
- `time.time()` and `time.sleep(RETRY_TIME)` (homework.py:43, 101, 116): the clock is the `now` input and the start time; the ten-minute sleep is dropped.
- `sys.exit` (homework.py:99): the model returns `None` and does not enter the loop.
- `while True` never ends. The model runs it over any finite sequence of passes.
- Exception classes and their message texts, including the text of the failure report (homework.py:47-49, 56-57, 59-60, 63-64, 71-72, 76-77, 113): one `Error` tag each.
- Display: `str()` of a `homework_name` is exact for strings, None, booleans and integers. Floats, lists and dicts render as fixed placeholders, not as Python's `repr`.
- JSON floats are mathematical reals. Only their truthiness (non-zero) matters to the code.
- exceptions.py holds only the SendMessageError class; it is the `SendMessageError` tag.
