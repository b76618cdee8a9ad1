# Consciousness interview driver and Matrix client, modelled in Dafny

This project models the deterministic logic of two scripts.

`bin/consciousness-interview.py` interviews a language model. It puts ten
fixed questions, in order, to a chat-completion endpoint inside one rolling
conversation: a system message, then a user message per question and an
assistant message per reply. Each answered question is recorded as an entry
of `interview_data`. The first question that gets no reply ends the
interview with `None`. Otherwise the entries are folded into a Markdown
transcript: a header with the duration in minutes and seconds, one block per
entry, and a summary with the total and the average response time.

`bin/lib/matrix_client.py` is a small Matrix client. It reads a credentials
map (three required keys, two with defaults), formats event notifications
from an emoji table and per-type templates, derives a lower-case hyphenated
instance identifier, and turns the homeserver's answer to a send request
into an event id or nothing.

Modules:

- `Wrappers`: `Option`.
- `Seqs`: small generic sequence facts used by the proofs.
- `PyJson`: an abstract tree for decoded JSON, and the Python semantics the
  scripts rely on: subscripting with its exceptions, and truthiness.
- `Text`: `str()` of integers, `format(x, '.1f')`, `str.replace` of one
  character, and ASCII `str.lower`.
- `Interview`: the interview script.
  - The loop of `conduct_interview` is the method `AskQuestions`, proved
    against the reference function `Run`.
  - The loop of `generate_markdown_report` is the method `AppendBlocks`,
    inside `GenerateMarkdownReport`. Both are proved against the function
    `Markdown`.
- `Matrix`: the client library.
  - `class MatrixClient` has read-only fields, set by its constructor from
    the credentials map.
  - Sending is tied to a parameter `post`. It maps the request the client
    would hand to curl to how that call ended.

The endpoint, the clocks and the network are inputs:

- `answers[i]` is what the inference endpoint gave back for the i-th request
  (an optional reply text and the seconds the call took).
- An `Instant` is a clock reading together with its two `strftime`
  renderings.
- `post` stands for the Matrix homeserver.

Long fixed texts (the questions, the system prompt, the report header and
summary) are written as concatenations of short literals. Each one is the
same string as the source's text.

Edge cases of the code that the model keeps:

- The report is not total. `generate_markdown_report` divides by
  `len(interview_data)`, so an empty entry list raises ZeroDivisionError.
  `Markdown` returns `DivisionByZero` for it. The interview itself never
  reaches that case: `Converse` requires a non-empty question list.
- Not every malformed endpoint reply is a failed turn. `query_lm_studio`
  catches only `JSONDecodeError` and `KeyError`. An empty `choices` list
  (IndexError) or a value of the wrong kind on the key path (TypeError)
  escapes the interview as an exception. The model states this for the
  reply extraction alone (`ExtractContent`, `ExtractEmptyChoices`); the
  session model takes replies as inputs and never raises.
- An aborted session returns `None`; the ordinal of the failed question is
  only printed. In the model that ordinal is `|sent|`, the number of
  requests made.
- A missing credential raises KeyError for the first missing key, in the
  order homeserver, access_token, room_id. `ReadConfig` returns
  `Missing(key)` for it.

## Model

| member | source | states |
|---|---|---|
| Interview.QuestionsNumbered | bin/consciousness-interview.py:17-68 | there are ten questions, numbered 1..10 in list order |
| Interview.Payload | bin/consciousness-interview.py:76-83 | the request carries the model id and the given message list unchanged, with temperature 0.7 and max_tokens 2000 |
| Interview.ExtractContent | bin/consciousness-interview.py:92-98 | an undecodable reply gives None; a KeyError anywhere on `['choices'][0]['message']['content']` is caught and gives None; any other outcome of that lookup is passed on, so the value found is returned and IndexError or TypeError escapes |
| PyJson.Lookup | bin/consciousness-interview.py:94 | a chain of subscripts: the empty chain returns the value itself, a chain of one is that one subscript |
| PyJson.LookupAppend | bin/consciousness-interview.py:94 | following p then q is following p and, if that returned, following q from its value; an exception on p ends the chain |
| PyJson.Truthy | bin/lib/matrix_client.py:127 | a value is falsy exactly when it is None, False, zero, or an empty string, list or dict |
| Interview.LookupErrors | bin/consciousness-interview.py:94 | following a key path raises only KeyError, IndexError or TypeError |
| Interview.ExtractFound | bin/consciousness-interview.py:93-94 | a reply shaped `{"choices": [{"message": {"content": c}}, ...]}` yields c |
| Interview.ExtractMissingChoices | bin/consciousness-interview.py:94-98 | a decoded object without `choices` is a caught KeyError and yields None |
| Interview.ExtractEmptyChoices | bin/consciousness-interview.py:94-95 | an empty `choices` list raises IndexError, which is not caught |
| Interview.Slug | bin/consciousness-interview.py:117 | the slug has the model id's length, contains no `/` and no `_`, has `-` where those were, and keeps every other character |
| Interview.SlugIdempotent | bin/consciousness-interview.py:238 | slugging a slug changes nothing |
| Interview.Truncate | bin/consciousness-interview.py:118 | `int()` of the elapsed seconds truncates toward zero: the result lies within one unit of its argument, on the side of zero |
| Interview.SplitDuration | bin/consciousness-interview.py:127 | minutes and seconds satisfy 60·minutes + seconds = duration, with 0 ≤ seconds < 60 |
| Interview.SplitDurationUnique | bin/consciousness-interview.py:127 | that split is the only one with seconds in 0..59 |
| Interview.Duration | bin/consciousness-interview.py:118 | when the end is not before the start, the duration is the whole number of seconds elapsed: non-negative, at most the elapsed time and less than one second below it |
| Interview.Header | bin/consciousness-interview.py:120-138 | the header opens with the title line `# Interview: ` followed by the model id |
| Interview.HeaderShowsDuration | bin/consciousness-interview.py:127 | the duration enters the header only in the line `**Duration:** m minutes s seconds`, with m and s the split of `SplitDuration`, between the fixed lines and the protocol section |
| Interview.Block | bin/consciousness-interview.py:141-153 | an entry's block opens with its `## Question n: section` heading |
| Interview.Blocks | bin/consciousness-interview.py:140-153 | the blocks are empty exactly when there are no entries, and otherwise open with the first entry's heading |
| Interview.Total | bin/consciousness-interview.py:159 | with non-negative latencies the total is non-negative |
| Interview.Summary | bin/consciousness-interview.py:155-166 | the summary opens with `## Interview Summary`, a blank line and `**Completed:** ` followed by the end timestamp |
| Interview.Average | bin/consciousness-interview.py:160 | the average multiplied by the number of entries is the total |
| Interview.Markdown | bin/consciousness-interview.py:115-168 | rendering fails (ZeroDivisionError) exactly when there are no entries |
| Interview.AppendBlocks | bin/consciousness-interview.py:140-153 | the loop leaves the text so far followed by the blocks of all entries, in order |
| Interview.GenerateMarkdownReport | bin/consciousness-interview.py:115-168 | the text the method builds is the reference rendering `Markdown`, including its failure on an empty list |
| Interview.BlocksSnoc | bin/consciousness-interview.py:140-153 | one more entry adds exactly its block at the end |
| Interview.BlocksAppend | bin/consciousness-interview.py:140-153 | the blocks of two entry lists one after the other are the blocks of each, concatenated |
| Interview.ReportLayout | bin/consciousness-interview.py:120-166 | the report is the header, then the blocks of the earlier entries, then entry i's block, then the later ones, then the summary |
| Interview.TotalAppend | bin/consciousness-interview.py:159 | the total over two lists is the sum of their totals |
| Interview.TotalNonNegative | bin/consciousness-interview.py:159 | with non-negative latencies the total is non-negative and at least every single latency |
| Interview.DialogueShape | bin/consciousness-interview.py:181-209 | after k answered questions the conversation has 1 + 2k messages: the system message, then for each entry its question as a user message and its response as an assistant message |
| Interview.DialogueAlternates | bin/consciousness-interview.py:181-209 | roles go system, then user and assistant alternately |
| Interview.Run | bin/consciousness-interview.py:186-218 | after k questions the session has made at most k requests and recorded one entry fewer than its requests exactly when it aborted; without an abort it has k of each |
| Interview.RunHistory | bin/consciousness-interview.py:190-209 | without an abort the conversation is the dialogue of the entries; after an abort on question j it is that dialogue plus question j's user message with no reply, that request was the last one sent, and its answer was None |
| Interview.RunRecorded | bin/consciousness-interview.py:186-218 | every recorded entry copies number, section and text from its question and the reply and latency from its answer, and its request was the whole conversation so far ending with its question |
| Interview.AbortIsFinal | bin/consciousness-interview.py:201-203 | once a question gets no reply, no later question is sent or recorded |
| Interview.RunCompletes | bin/consciousness-interview.py:186-203 | the session runs to the end exactly when every answer has a reply; on an abort every earlier answer had one |
| Interview.AskQuestions | bin/consciousness-interview.py:177-221 | the loop sends the reference requests; it returns entries exactly when all answers have replies, one per question in order, each request being the dialogue so far plus the current question; otherwise the last request sent is the one that got None |
| Interview.Converse | bin/consciousness-interview.py:170-234 | over any non-empty question list: a result exactly when every question was answered, holding the model, the two instants, one entry per question and the rendered report; otherwise nothing, after the first unanswered request |
| Interview.ConductInterview | bin/consciousness-interview.py:170-234 | the same for the fixed system prompt and the ten fixed questions |
| Text.NatToString | bin/consciousness-interview.py:141 | `str(n)` is a non-empty string of decimal digits, one digit exactly when n < 10, with no leading zero unless n is 0 |
| Text.DecimalRoundTrip | bin/consciousness-interview.py:141 | reading the digits of `str(n)` back gives n |
| Text.IntToString | bin/consciousness-interview.py:127 | `str(i)` is `str` of the magnitude, with a leading `-` exactly for negative i |
| Text.RoundHalfEven | bin/consciousness-interview.py:145 | the nearest integer, with a tie going to the even one |
| Text.FixedOne | bin/consciousness-interview.py:145 | `format(x, '.1f')` is an optional `-` (exactly when x is negative), a whole part without leading zeros, `.` and one digit; whole part and digit read as a number are the magnitude of 10·x rounded half to even |
| Text.ReplaceChar | bin/consciousness-interview.py:117 | `str.replace` of one character: same length, the target replaced at every position, everything else kept |
| Text.AsciiLower | bin/lib/matrix_client.py:248 | `str.lower` over ASCII: same length, each character lower-cased independently |
| PyJson.Subscript | bin/consciousness-interview.py:94 | `v[k]` raises KeyError exactly for a dict without that key and returns its field otherwise; a list or string index in range returns the element or one-character string, out of range raises IndexError; a field name on a list or string, and any subscript of another kind of value, raises TypeError |
| Matrix.ReadConfig | bin/lib/matrix_client.py:62-66 | loading succeeds exactly when homeserver, access_token and room_id are all present; otherwise the first missing one, in that order, is reported; user_id defaults to "" and instance_name to "AI Instance" |
| Matrix.Get | bin/lib/matrix_client.py:65-66 | `dict.get` returns the key's value when it is present and the default otherwise |
| Matrix.ConfigIgnoresOtherKeys | bin/lib/matrix_client.py:62-66 | keys other than those five do not change the result |
| Matrix.MatrixClient.constructor | bin/lib/matrix_client.py:58-66 | the client's fields are the settings read from the map |
| Matrix.Emoji | bin/lib/matrix_client.py:163-178 | the emoji is never empty; it is the table's entry for a listed type and the Info emoji for any other |
| Matrix.Detail | bin/lib/matrix_client.py:181-198 | the text after the bracketed instance name always starts with a space |
| Matrix.FormatEvent | bin/lib/matrix_client.py:163-200 | every formatted event starts with the emoji, a space, `[instance name]` and a space |
| Matrix.SessionEventsIgnoreMessage | bin/lib/matrix_client.py:181-184 | SessionStart and SessionEnd give fixed texts that do not depend on the message |
| Matrix.StopAppendsMessage | bin/lib/matrix_client.py:185-192 | Stop and SubagentStop give `[name] Task completed` and `[name] Agent task completed`, followed by `": " + message` exactly when the message is non-empty |
| Matrix.PlainEventFormat | bin/lib/matrix_client.py:193-194 | Notification, Info, Success, Research and Interview give `[name] message` |
| Matrix.TypedEventFormat | bin/lib/matrix_client.py:195-198 | Error, Warning, Debug and every unlisted type give `[name] type: message` |
| Matrix.MessageIsKept | bin/lib/matrix_client.py:185-198 | apart from the session notices, the formatted text ends with the message |
| Matrix.InstanceId | bin/lib/matrix_client.py:246-248 | the identifier has the name's length, holds `-` where the name has a space and the lower-cased character elsewhere, and contains no space |
| Matrix.InstanceIdIdempotent | bin/lib/matrix_client.py:246-248 | deriving the identifier of an identifier changes nothing |
| Matrix.Payload | bin/lib/matrix_client.py:103 | the body is an object with exactly `msgtype` = "m.text" and `body` = the message |
| Matrix.EventId | bin/lib/matrix_client.py:122-150 | an event id comes back exactly when the reply decoded to an object with a truthy `event_id`, and then it is that value |
| Matrix.MatrixClient.FormatEventMessage | bin/lib/matrix_client.py:152-200 | the method formats with the client's instance name, so the result opens with the emoji and `[instance name]` |
| Matrix.MatrixClient.GetInstanceId | bin/lib/matrix_client.py:246-248 | the identifier of the client's instance name, which contains no space |
| Matrix.MatrixClient.MessageRequest | bin/lib/matrix_client.py:103-118 | the request carries the message payload and `Bearer` plus the token, and goes to the homeserver's `/_matrix/client/r0/rooms/<room id>/send/m.room.message` |
| Matrix.MatrixClient.SendMessage | bin/lib/matrix_client.py:98-150 | an empty message gives None with nothing sent; otherwise the result is the event id of the answer to this message's request, and a returned id is truthy |
| Matrix.MatrixClient.SendMessageImported | bin/lib/matrix_client.py:98-150 | as the file is written, imported as a library: it never returns None; every path that does not return an event id raises NameError |
| Matrix.MatrixClient.SendEvent | bin/lib/matrix_client.py:202-214 | the formatted event is always sent, since it is never empty, and the result is the event id of its answer; this follows the corrected `send_message` (`sys` bound), while imported as a library `send_event` inherits the NameError paths of the Findings row |
| Matrix.ImportedAgreesOnSuccess | bin/lib/matrix_client.py:124-128 | the written and the corrected `send_message` agree whenever an event id comes back |
| Matrix.ImportedEmptyMessageRaises | bin/lib/matrix_client.py:98-100 | for an empty message the documented result is None, but the library raises NameError |
| Matrix.ImportedTimeoutRaises | bin/lib/matrix_client.py:142-144 | for a timed-out request the documented result is None, but the library raises NameError |

## Left out

- I/O is left out: files, the curl subprocesses, printing, `main` and its exit codes, `load_config`, `_load_config`, `save_interview` and `post_to_matrix`. Replies and clock readings are parameters instead.
- `check_connection` is left out. It only issues a network call.
- `generate_session_id` is left out. It joins `get_instance_id()` with a timestamp from the clock and the process id; the clock and the process id are outside the model.
- `send_notification` is left out. It builds a client from the credentials file, sends the event with `send_event`, reports `event_id is not None` and catches every exception. Imported as a library, its `except` branch prints to `sys.stderr` (matrix_client.py:283) and so raises NameError, for the same reason as the Findings row.
- `get_instance_name` is left out. It only returns a field.
- The inference-server launcher is left out. It reads environment variables and starts a third-party process.
- Float arithmetic is left out. Latencies and the epoch seconds are exact reals, so the total and the average carry no binary rounding. `Text.FixedOne` rounds the exact value to tenths, ties to even.
- `Text.AsciiLower`: non-ASCII characters are kept as they are, whereas Python's `str.lower` also lower-cases them.
- `Matrix.InstanceId`: built on `Text.AsciiLower`, so it does not model non-ASCII instance names; for them Python's `lower` may change characters and even the length, so the same-length promise holds only for ASCII names.
- `Matrix.ReadConfig`: credentials are modelled as a map of strings. A non-object credentials file, and non-string values with their `str()` rendering in f-strings, are left out.
- The `strftime` renderings are given as the two strings of an `Instant`. Their contents are not modelled.
- The fixed texts of the report header and summary are opaque constants, including "10/10" and "Total Questions: 10".
- The unused `model_slug` variable of `generate_markdown_report` is left out.
- `Interview.ConductInterview`: the endpoint is a list with one answer per question. Answers after the first missing reply are never consulted.
- `Interview.ExtractContent`: in Python any JSON value can sit at the key path. The model returns that value, not only strings. The interview loop takes the extracted reply as an `Option<string>` input; a non-string reply is not modelled. The session model (`AskQuestions`, `Converse`, `ConductInterview`) has no path on which a query raises: an IndexError or TypeError from the reply extraction is modelled only by `ExtractContent`.
- `Matrix.EventId`: the `errcode`/`error` branch only chooses what is printed, so it is not distinguished from the other failures.

## Findings

| source | as written | input that shows it | evidently intended | confidence | as-written member | corrected member |
|---|---|---|---|---|---|---|
| bin/lib/matrix_client.py:98-150 | every error path of `send_message` prints to `sys.stderr`, but `sys` is imported only under `if __name__ == "__main__"` (line 289); when the module is imported as a library, each of those paths raises NameError | `client.send_message("")` from another script, or any send whose request times out | return None on every failure, as the docstring says | high (by reading; not executed) | Matrix.MatrixClient.SendMessageImported, Matrix.ImportedEmptyMessageRaises, Matrix.ImportedTimeoutRaises | Matrix.MatrixClient.SendMessage |
