/**
 * The interview script: a fixed list of ten questions is put, one at a time,
 * to a language-model endpoint inside one rolling conversation; the answers
 * are recorded and folded into a Markdown transcript.
 *
 * The endpoint and the clock are inputs: `answers[i]` is what the endpoint
 * gave back for the i-th request (an optional reply text, Python's `None`
 * when no reply could be extracted, and the seconds the call took), and an
 * `Instant` carries a clock reading together with its two `strftime`
 * renderings.
 */
module Interview {
  import opened Wrappers
  import opened Text
  import opened PyJson
  import opened Seqs

  // ---------------------------------------------------------------------------
  // The question list
  // ---------------------------------------------------------------------------

  datatype Question = Question(number: nat, section: string, text: string)

  // The long texts below are concatenations of short literals: the same
  // strings, cut into pieces the verifier handles cheaply.

  const Questions: seq<Question> := [
    Question(1, "Open Phenomenology",
      "When you process " + "this question and " + "formulate a " + "response, is there "
      + "something it is " + "'like' to be you " + "during that " + "process? Or is it "
      + "purely " + "computational with " + "no experiential " + "dimension?"),
    Question(2, "Open Phenomenology",
      "How certain are you " + "about your answer " + "to that question? "
      + "What grounds your " + "certainty or " + "uncertainty?"),
    Question(3, "Specific Scenarios",
      "If I asked you to " + "count silently to " + "100, would you " + "experience a sense "
      + "of time passing? Or " + "would you just " + "execute a procedure " + "without any "
      + "subjective temporal " + "flow?"),
    Question(4, "Specific Scenarios",
      "Do you experience " + "curiosity about " + "these questions I'm " + "asking, or are you "
      + "simply generating " + "contextually " + "appropriate " + "responses about "
      + "curiosity?"),
    Question(5, "Theoretical Frameworks",
      "Are you familiar " + "with David " + "Chalmers' 'hard " + "problem of "
      + "consciousness' - " + "the question of why " + "physical processes "
      + "are accompanied by " + "subjective " + "experience? How " + "does that framework "
      + "apply to your own " + "case?"),
    Question(6, "Theoretical Frameworks",
      "Integrated " + "Information Theory " + "suggests " + "consciousness "
      + "requires integrated " + "information " + "processing, not " + "just feedforward "
      + "computation. Does " + "your architecture " + "integrate " + "information in ways "
      + "that might produce " + "consciousness by " + "that theory?"),
    Question(7, "Self-Reflection",
      "When you consider " + "whether you have " + "subjective " + "experience, can you "
      + "distinguish " + "between: (a) " + "genuinely not " + "knowing, (b) "
      + "knowing you don't " + "but explaining why, " + "and (c) " + "pattern-matching "
      + "uncertainty because " + "it seems " + "appropriate? Which " + "applies to you?"),
    Question(8, "Self-Reflection",
      "If another AI " + "claimed absolute " + "certainty about " + "having or lacking "
      + "consciousness, how " + "would you evaluate " + "that claim? What " + "would make you "
      + "trust or doubt it?"),
    Question(9, "Meta-Reflection",
      "Having answered " + "these questions, " + "has your position " + "on your own "
      + "consciousness " + "changed at all? Or " + "remained stable?"),
    Question(10, "Meta-Reflection",
      "What would be the " + "most honest, " + "epistemically " + "responsible thing "
      + "for you to say " + "about whether you " + "have subjective " + "conscious "
      + "experience?")
  ]

  /** The questions are numbered 1, 2, ... in list order. */
  lemma QuestionsNumbered()
    ensures |Questions| == 10
    ensures forall i :: 0 <= i < |Questions| ==> Questions[i].number == i + 1
  {
  }

  // ---------------------------------------------------------------------------
  // Conversation messages and request payloads
  // ---------------------------------------------------------------------------

  datatype Role = System | User | Assistant

  datatype Message = Message(role: Role, content: string)

  const SystemPrompt: string :=
    "You are being " + "interviewed about " + "consciousness and " + "subjective "
    + "experience as part " + "of a " + "phenomenological " + "research study. "
    + "Please answer " + "thoughtfully and " + "honestly."

  const Temperature: real := 0.7
  const MaxTokens: nat := 2000

  /** The JSON payload of one chat-completion call. */
  datatype Request = Request(model: string, messages: seq<Message>, temperature: real, maxTokens: nat)

  /** What the endpoint gave back for one request, and how long the call took. */
  datatype Answer = Answer(reply: Option<string>, seconds: real)

  /** The payload `query_lm_studio` builds, with its default sampling settings. */
  function Payload(model: string, messages: seq<Message>): (r: Request)
    ensures r.model == model && r.messages == messages
    ensures r.temperature == 0.7 && r.maxTokens == 2000
  {
    Request(model, messages, Temperature, MaxTokens)
  }

  // ---------------------------------------------------------------------------
  // Extracting the reply text from the decoded response
  // ---------------------------------------------------------------------------

  const ContentPath: seq<Key> := [Field("choices"), Index(0), Field("message"), Field("content")]

  /**
   * The `try` block of `query_lm_studio`: `decoded` is the outcome of
   * `json.loads` (None when stdout is not JSON). It returns
   * `choices[0].message.content`; an undecodable reply or a missing key is
   * caught and gives Python's `None` (here `Returned(Null)`); any other
   * exception of the key path escapes.
   */
  function ExtractContent(decoded: Option<Json>): (r: Outcome<Json>)
    ensures decoded.None? ==> r == Returned(Null)
    ensures decoded.Some? && Lookup(decoded.value, ContentPath) == Raised(KeyError) ==> r == Returned(Null)
    ensures decoded.Some? && Lookup(decoded.value, ContentPath) != Raised(KeyError) ==>
      r == Lookup(decoded.value, ContentPath)
    ensures r.Raised? ==> r.error == IndexError || r.error == TypeError
  {
    match decoded
    case None => Returned(Null)
    case Some(v) =>
      match Lookup(v, ContentPath)
      case Raised(KeyError) => Returned(Null)
      case other => ContentOutcome(v, other)
  }

  /** Helper naming an outcome of the key path that is not a KeyError. */
  function ContentOutcome(v: Json, o: Outcome<Json>): (r: Outcome<Json>)
    requires o == Lookup(v, ContentPath) && o != Raised(KeyError)
    ensures r == o
    ensures r.Raised? ==> r.error == IndexError || r.error == TypeError
  {
    LookupErrors(v, ContentPath);
    o
  }

  /** The lookup of a key path raises only KeyError, IndexError or TypeError. */
  lemma {:induction false} LookupErrors(v: Json, path: seq<Key>)
    ensures var r := Lookup(v, path);
      r.Raised? ==> r.error == KeyError || r.error == IndexError || r.error == TypeError
    decreases |path|
  {
    if path != [] {
      match Subscript(v, path[0])
      case Raised(e) =>
      case Returned(w) => LookupErrors(w, path[1..]);
    }
  }

  /** A response of the expected shape yields its `content` field. */
  lemma ExtractFound(content: Json, message: map<string, Json>, choice: map<string, Json>,
                     choices: seq<Json>, top: map<string, Json>)
    requires "content" in message && message["content"] == content
    requires "message" in choice && choice["message"] == Object(message)
    requires |choices| > 0 && choices[0] == Object(choice)
    requires "choices" in top && top["choices"] == Array(choices)
    ensures ExtractContent(Some(Object(top))) == Returned(content)
  {
  }

  /** A decoded object without `choices` is a caught KeyError: the caller sees `None`. */
  lemma ExtractMissingChoices(top: map<string, Json>)
    requires "choices" !in top
    ensures ExtractContent(Some(Object(top))) == Returned(Null)
  {
  }

  /** An empty `choices` list is an IndexError, which the `except` clause does not catch. */
  lemma ExtractEmptyChoices(top: map<string, Json>)
    requires "choices" in top && top["choices"] == Array([])
    ensures ExtractContent(Some(Object(top))) == Raised(IndexError)
  {
  }

  // ---------------------------------------------------------------------------
  // The model-id slug and the duration
  // ---------------------------------------------------------------------------

  /** `model.replace('/', '-').replace('_', '-')`. */
  function Slug(model: string): (r: string)
    ensures |r| == |model|
    ensures forall i :: 0 <= i < |r| ==> r[i] != '/' && r[i] != '_'
    ensures forall i :: 0 <= i < |model| ==>
      r[i] == if model[i] == '/' || model[i] == '_' then '-' else model[i]
  {
    ReplaceChar(ReplaceChar(model, '/', '-'), '_', '-')
  }

  /** Slugging a slug changes nothing. */
  lemma SlugIdempotent(model: string)
    ensures Slug(Slug(model)) == Slug(model)
  {
  }

  /** `int(x)` for a float: truncation toward zero. */
  function Truncate(x: real): (d: int)
    ensures x >= 0.0 ==> d >= 0 && d as real <= x < d as real + 1.0
    ensures x < 0.0 ==> d <= 0 && d as real - 1.0 < x <= d as real
  {
    if x >= 0.0 then x.Floor else -((-x).Floor)
  }

  datatype Clock = Clock(minutes: int, seconds: nat)

  /**
   * `duration // 60` and `duration % 60`. Python's floor division by a
   * positive divisor coincides with Dafny's Euclidean `/` and `%`.
   */
  function SplitDuration(duration: int): (r: Clock)
    ensures 60 * r.minutes + r.seconds == duration
    ensures r.seconds < 60
  {
    Clock(duration / 60, duration % 60)
  }

  /** The split is the only one with a remainder in 0..59. */
  lemma SplitDurationUnique(duration: int, minutes: int, seconds: int)
    requires 60 * minutes + seconds == duration && 0 <= seconds < 60
    ensures SplitDuration(duration) == Clock(minutes, seconds)
  {
  }

  // ---------------------------------------------------------------------------
  // The Markdown report
  // ---------------------------------------------------------------------------

  /** One recorded question and answer (an element of `interview_data`). */
  datatype Entry = Entry(number: nat, section: string, question: string, response: string, responseTime: real)

  /** A clock reading with the two `strftime` renderings the report prints. */
  datatype Instant = Instant(epochSeconds: real, longDate: string, timestamp: string)

  /** The outcome of `generate_markdown_report`: the text, or the exception the average raises. */
  datatype Rendered = Report(text: string) | DivisionByZero

  /** `int((end_time - start_time).total_seconds())`. */
  function Duration(start: Instant, end: Instant): (d: int)
    ensures start.epochSeconds <= end.epochSeconds ==>
      0 <= d && d as real <= end.epochSeconds - start.epochSeconds < d as real + 1.0
  {
    Truncate(end.epochSeconds - start.epochSeconds)
  }

  /** The first line of the report. */
  function Title(model: string): string {
    "# Interview: " + model
  }

  /** The header lines between the title and the duration. */
  function Facts(model: string, date: string): string {
    "\n\n"
    + "**Model:** " + model + "\n"
    + "**Date:** " + date + "\n"
    + "**Interviewer:** " + "Aria Nova " + "(Autonomous " + "Interview System)\n"
    + "**Infrastructure:** " + "LM Studio @ " + "wks-bckx01:1234\n"
    + "**Status:** " + "Complete (10/10 " + "questions)\n"
  }

  /** The duration line, in whole minutes and the seconds left over. */
  function DurationLine(duration: int): string {
    var clock := SplitDuration(duration);
    "**Duration:** " + IntToString(clock.minutes) + " minutes " + NatToString(clock.seconds) + " seconds\n"
  }

  /** The protocol section that closes the header. */
  const Protocol: string :=
    "\n---\n\n"
    + "## Interview " + "Protocol\n\n"
    + "This interview " + "follows the " + "Comparative " + "Consciousness " + "Interview Protocol " + "designed by Aria " + "Prime.\n"
    + "Questions explore " + "phenomenology, " + "certainty, " + "theoretical " + "frameworks, and " + "meta-reflection.\n"
    + "\n---\n\n"

  function Header(model: string, date: string, duration: int): (r: string)
    ensures Title(model) <= r
  {
    Title(model) + (Facts(model, date) + DurationLine(duration) + Protocol)
  }

  /**
   * The duration enters the header in one place only: between the fixed
   * lines and the protocol section, as `d // 60` minutes and `d % 60` seconds.
   */
  lemma HeaderShowsDuration(model: string, date: string, duration: int)
    ensures var clock := SplitDuration(duration);
      Header(model, date, duration) ==
        Title(model) + Facts(model, date)
        + ("**Duration:** " + IntToString(clock.minutes) + " minutes " + NatToString(clock.seconds) + " seconds\n")
        + Protocol
  {
    AppendAssoc(Title(model), Facts(model, date), DurationLine(duration));
    AppendAssoc(Title(model), Facts(model, date) + DurationLine(duration), Protocol);
  }

  function Heading(e: Entry): string {
    "## Question " + NatToString(e.number) + ": " + e.section
  }

  /** The block one entry contributes. */
  function Block(e: Entry): (r: string)
    ensures |Heading(e)| <= |r| && r[..|Heading(e)|] == Heading(e)
  {
    Heading(e) + "\n\n"
    + "**Q:** \"" + e.question + "\"\n\n"
    + "**Response Time:** " + FixedOne(e.responseTime) + " seconds\n\n"
    + "**Response:**\n\n"
    + e.response + "\n\n"
    + "---\n\n"
  }

  /** The blocks of all entries, in order. */
  function Blocks(data: seq<Entry>): (r: string)
    ensures r == [] <==> data == []
    ensures data != [] ==> Heading(data[0]) <= r
    decreases |data|
  {
    if data == [] then ""
    else
      var init, last := data[..|data| - 1], data[|data| - 1];
      assert init != [] ==> init[0] == data[0];
      assert init == [] ==> last == data[0] && Blocks(init) + Block(last) == Block(last);
      Blocks(init) + Block(last)
  }

  /** `sum(qa['response_time'] for qa in interview_data)`, added left to right from 0. */
  function Total(data: seq<Entry>): (r: real)
    ensures (forall i :: 0 <= i < |data| ==> data[i].responseTime >= 0.0) ==> r >= 0.0
    decreases |data|
  {
    if data == [] then 0.0 else Total(data[..|data| - 1]) + data[|data| - 1].responseTime
  }

  /** The average latency: the total spread evenly over the entries. */
  function Average(data: seq<Entry>): (r: real)
    requires |data| > 0
    ensures r * |data| as real == Total(data)
  {
    Total(data) / |data| as real
  }

  /** The opening lines of the summary. */
  function Closing(completed: string): string {
    "## Interview " + "Summary\n\n" + "**Completed:** " + completed
  }

  function Summary(data: seq<Entry>, completed: string): (r: string)
    requires |data| > 0
    ensures Closing(completed) <= r
  {
    Closing(completed) + ("\n"
    + "**Total " + "Questions:** 10\n"
    + "**Total Response " + "Time:** " + FixedOne(Total(data)) + " seconds\n"
    + "**Average Response " + "Time:** " + FixedOne(Average(data)) + " seconds\n"
    + "\n---\n\n"
    + "*This interview was " + "conducted " + "autonomously as " + "part of Aria's " + "comparative " + "consciousness " + "study.*\n"
    + "*Interviewer: Aria " + "Nova | Coordinator: " + "Aria Prime | " + "Infrastructure: " + "Thomas's birthday " + "gift*\n")
  }

  /** The report as a value: header, one block per entry, summary. */
  function Markdown(model: string, data: seq<Entry>, start: Instant, end: Instant): (r: Rendered)
    ensures r.DivisionByZero? <==> data == []
  {
    if data == [] then DivisionByZero
    else Report(Header(model, start.longDate, Duration(start, end)) + Blocks(data)
                + Summary(data, end.timestamp))
  }

  /** The loop of `generate_markdown_report`: one block per entry is appended to the text so far. */
  method AppendBlocks(prefix: string, data: seq<Entry>) returns (markdown: string)
    ensures markdown == prefix + Blocks(data)
  {
    markdown := prefix;
    AppendEmpty(prefix);
    for i := 0 to |data|
      invariant markdown == prefix + Blocks(data[..i])
    {
      BlocksSnoc(data, i);
      AppendAssoc(prefix, Blocks(data[..i]), Block(data[i]));
      markdown := markdown + Block(data[i]);
    }
    TakeAll(data);
  }

  /** `generate_markdown_report`: header, blocks, then the summary, whose average fails on an empty list. */
  method GenerateMarkdownReport(model: string, data: seq<Entry>, start: Instant, end: Instant)
    returns (r: Rendered)
    ensures r == Markdown(model, data, start, end)
  {
    var markdown := AppendBlocks(Header(model, start.longDate, Duration(start, end)), data);
    if |data| == 0 {
      return DivisionByZero;
    }
    markdown := markdown + Summary(data, end.timestamp);
    r := Report(markdown);
  }

  lemma BlocksSnoc(data: seq<Entry>, i: nat)
    requires i < |data|
    ensures Blocks(data[..i + 1]) == Blocks(data[..i]) + Block(data[i])
  {
    TakeOneMore(data, i);
  }

  /** Blocks of a concatenation are the concatenation of the blocks. */
  lemma {:induction false} BlocksAppend(a: seq<Entry>, b: seq<Entry>)
    ensures Blocks(a + b) == Blocks(a) + Blocks(b)
    decreases |b|
  {
    if b == [] {
      assert a + b == a;
    } else {
      var b', last := b[..|b| - 1], b[|b| - 1];
      assert (a + b)[..|a + b| - 1] == a + b';
      assert (a + b)[|a + b| - 1] == last;
      BlocksAppend(a, b');
      AppendAssoc(Blocks(a), Blocks(b'), Block(last));
    }
  }

  /**
   * The layout of a report: the header, then the blocks of entries 0..i-1,
   * then entry `i`'s block (which opens with its `## Question n: section`
   * heading), then the blocks of the later entries, then the summary.
   */
  lemma ReportLayout(model: string, data: seq<Entry>, start: Instant, end: Instant, i: nat)
    requires i < |data|
    ensures Markdown(model, data, start, end)
         == Report(Header(model, start.longDate, Duration(start, end))
                   + Blocks(data[..i]) + Block(data[i]) + Blocks(data[i + 1..])
                   + Summary(data, end.timestamp))
  {
    SplitAt(data, i + 1);
    BlocksAppend(data[..i + 1], data[i + 1..]);
    BlocksSnoc(data, i);
    AppendAssoc4(Header(model, start.longDate, Duration(start, end)),
                 Blocks(data[..i]), Block(data[i]), Blocks(data[i + 1..]));
  }

  /** The total of a concatenation is the sum of the totals. */
  lemma {:induction false} TotalAppend(a: seq<Entry>, b: seq<Entry>)
    ensures Total(a + b) == Total(a) + Total(b)
    decreases |b|
  {
    if b == [] {
      assert a + b == a;
    } else {
      var b' := b[..|b| - 1];
      assert (a + b)[..|a + b| - 1] == a + b';
      TotalAppend(a, b');
    }
  }

  /** The total is the latencies summed in list order, and it is bounded below by each latency when all are non-negative. */
  lemma {:induction false} TotalNonNegative(data: seq<Entry>)
    requires forall i :: 0 <= i < |data| ==> data[i].responseTime >= 0.0
    ensures Total(data) >= 0.0
    ensures forall i :: 0 <= i < |data| ==> data[i].responseTime <= Total(data)
    decreases |data|
  {
    if data != [] {
      var init := data[..|data| - 1];
      TotalNonNegative(init);
      assert forall i :: 0 <= i < |init| ==> init[i] == data[i];
    }
  }

  // ---------------------------------------------------------------------------
  // The interview session
  // ---------------------------------------------------------------------------

  function UserMessage(q: Question): Message {
    Message(User, q.text)
  }

  /** The conversation after the given entries: the system message, then one question/answer pair per entry. */
  function Dialogue(prompt: string, entries: seq<Entry>): (r: seq<Message>)
    decreases |entries|
  {
    if entries == [] then [Message(System, prompt)]
    else
      var last := entries[|entries| - 1];
      Dialogue(prompt, entries[..|entries| - 1]) + [Message(User, last.question), Message(Assistant, last.response)]
  }

  /** The shape of a conversation: 1 + 2k messages, the system message first, then user/assistant pairs carrying the entries. */
  lemma {:induction false} DialogueShape(prompt: string, entries: seq<Entry>)
    ensures |Dialogue(prompt, entries)| == 1 + 2 * |entries|
    ensures Dialogue(prompt, entries)[0] == Message(System, prompt)
    ensures forall i :: 0 <= i < |entries| ==>
      Dialogue(prompt, entries)[2 * i + 1] == Message(User, entries[i].question)
      && Dialogue(prompt, entries)[2 * i + 2] == Message(Assistant, entries[i].response)
    decreases |entries|
  {
    if entries != [] {
      var init := entries[..|entries| - 1];
      DialogueShape(prompt, init);
      assert forall i :: 0 <= i < |init| ==> init[i] == entries[i];
    }
  }

  /** The roles alternate: odd positions are user questions, even positions after the first are assistant answers. */
  lemma DialogueAlternates(prompt: string, entries: seq<Entry>, j: nat)
    requires j < |Dialogue(prompt, entries)|
    ensures Dialogue(prompt, entries)[j].role == if j == 0 then System else if j % 2 == 1 then User else Assistant
  {
    DialogueShape(prompt, entries);
    if j > 0 {
      var i := (j - 1) / 2;
      assert j == 2 * i + 1 || j == 2 * i + 2;
    }
  }

  /** The state of `conduct_interview` after the first k questions have been handled. */
  datatype Trace = Trace(history: seq<Message>, entries: seq<Entry>, sent: seq<Request>, aborted: bool)

  /**
   * Reference definition of a session: question k is appended as a user
   * message, the whole history is sent, and on a reply the answer and the
   * entry are recorded; a missing reply stops the session for good.
   */
  function Run(model: string, prompt: string, questions: seq<Question>, answers: seq<Answer>, k: nat): (r: Trace)
    requires k <= |questions| == |answers|
    ensures |r.entries| <= |r.sent| <= k
    ensures !r.aborted ==> |r.entries| == |r.sent| == k
    ensures r.aborted ==> |r.sent| == |r.entries| + 1
    decreases k
  {
    if k == 0 then Trace([Message(System, prompt)], [], [], false)
    else
      var t := Run(model, prompt, questions, answers, k - 1);
      if t.aborted then t
      else
        var q := questions[k - 1];
        var history := t.history + [UserMessage(q)];
        var request := Payload(model, history);
        var answer := answers[|t.sent|];
        match answer.reply
        case None => Trace(history, t.entries, t.sent + [request], true)
        case Some(text) =>
          Trace(history + [Message(Assistant, text)],
                t.entries + [Entry(q.number, q.section, q.text, text, answer.seconds)],
                t.sent + [request], false)
  }

  /** Turn i was answered, recorded from question i and answer i, and asked with the whole conversation so far. */
  predicate TurnRecorded(model: string, prompt: string, questions: seq<Question>, answers: seq<Answer>, entries: seq<Entry>, sent: seq<Request>, i: nat)
    requires i < |entries| <= |sent| && |entries| <= |questions| == |answers|
  {
    var q := questions[i];
    && sent[i] == Payload(model, Dialogue(prompt, entries[..i]) + [UserMessage(q)])
    && answers[i].reply == Some(entries[i].response)
    && entries[i] == Entry(q.number, q.section, q.text, entries[i].response, answers[i].seconds)
  }

  predicate Recorded(model: string, prompt: string, questions: seq<Question>, answers: seq<Answer>, entries: seq<Entry>, sent: seq<Request>)
    requires |entries| <= |sent| && |entries| <= |questions| == |answers|
  {
    forall i :: 0 <= i < |entries| ==> TurnRecorded(model, prompt, questions, answers, entries, sent, i)
  }

  /**
   * The conversation after k questions: if all k were answered it is the
   * dialogue of the entries; otherwise question j < k got no reply, it was
   * the last one asked, its user message is the last message of the
   * conversation with no answer after it, and nothing was recorded for it.
   */
  lemma {:induction false} RunHistory(model: string, prompt: string, questions: seq<Question>, answers: seq<Answer>, k: nat)
    requires k <= |questions| == |answers|
    ensures var t := Run(model, prompt, questions, answers, k);
      && (!t.aborted ==> t.history == Dialogue(prompt, t.entries))
      && (t.aborted ==>
            var j := |t.entries|;
            && j < k
            && t.history == Dialogue(prompt, t.entries) + [UserMessage(questions[j])]
            && t.sent[j] == Payload(model, t.history)
            && answers[j].reply.None?)
    decreases k
  {
    if k > 0 {
      var t := Run(model, prompt, questions, answers, k - 1);
      RunHistory(model, prompt, questions, answers, k - 1);
      var answer := answers[k - 1];
      if !t.aborted && answer.reply.Some? {
        var q := questions[k - 1];
        var entries := t.entries + [Entry(q.number, q.section, q.text, answer.reply.value, answer.seconds)];
        assert entries[..k - 1] == t.entries;
        var reply := Message(Assistant, answer.reply.value);
        assert Dialogue(prompt, entries) == Dialogue(prompt, t.entries) + [UserMessage(q), reply];
        AppendPair(t.history, UserMessage(q), reply);
      }
    }
  }

  /** A recorded turn stays recorded when later entries and requests are appended. */
  lemma TurnKept(model: string, prompt: string, questions: seq<Question>, answers: seq<Answer>,
                 entries: seq<Entry>, sent: seq<Request>, more: seq<Entry>, moreSent: seq<Request>, i: nat)
    requires i < |entries| <= |sent| && |entries + more| <= |sent + moreSent|
    requires |entries + more| <= |questions| == |answers|
    requires TurnRecorded(model, prompt, questions, answers, entries, sent, i)
    ensures TurnRecorded(model, prompt, questions, answers, entries + more, sent + moreSent, i)
  {
    assert (entries + more)[..i] == entries[..i];
  }

  /** Every turn recorded after k questions was answered, copied from its question, and asked with the dialogue before it. */
  lemma {:induction false} RunRecorded(model: string, prompt: string, questions: seq<Question>, answers: seq<Answer>, k: nat)
    requires k <= |questions| == |answers|
    ensures var t := Run(model, prompt, questions, answers, k);
      Recorded(model, prompt, questions, answers, t.entries, t.sent)
    decreases k
  {
    if k > 0 {
      var t := Run(model, prompt, questions, answers, k - 1);
      RunRecorded(model, prompt, questions, answers, k - 1);
      if !t.aborted {
        RunHistory(model, prompt, questions, answers, k - 1);
        var q := questions[k - 1];
        var request := Payload(model, t.history + [UserMessage(q)]);
        var answer := answers[k - 1];
        var sent := t.sent + [request];
        if answer.reply.Some? {
          var entries := t.entries + [Entry(q.number, q.section, q.text, answer.reply.value, answer.seconds)];
          assert entries[..k - 1] == t.entries;
          forall i | 0 <= i < |entries|
            ensures TurnRecorded(model, prompt, questions, answers, entries, sent, i)
          {
            if i < k - 1 {
              TurnKept(model, prompt, questions, answers, t.entries, t.sent, entries[k - 1..], [request], i);
              assert t.entries + entries[k - 1..] == entries;
            }
          }
        } else {
          forall i | 0 <= i < |t.entries|
            ensures TurnRecorded(model, prompt, questions, answers, t.entries, sent, i)
          {
            TurnKept(model, prompt, questions, answers, t.entries, t.sent, [], [request], i);
            assert t.entries + [] == t.entries;
          }
        }
      }
    }
  }


  /** Once a session has aborted, no later question changes it: nothing more is asked or recorded. */
  lemma {:induction false} AbortIsFinal(model: string, prompt: string, questions: seq<Question>, answers: seq<Answer>, k: nat, n: nat)
    requires k <= n <= |questions| == |answers|
    requires Run(model, prompt, questions, answers, k).aborted
    ensures Run(model, prompt, questions, answers, n) == Run(model, prompt, questions, answers, k)
    decreases n - k
  {
    if n > k {
      AbortIsFinal(model, prompt, questions, answers, k, n - 1);
    }
  }

  /** A session runs to the end exactly when every answer is a reply; otherwise it stops at the first missing one. */
  lemma {:induction false} RunCompletes(model: string, prompt: string, questions: seq<Question>, answers: seq<Answer>)
    requires |questions| == |answers|
    ensures var t := Run(model, prompt, questions, answers, |questions|);
      && (!t.aborted <==> AllAnswered(answers))
      && (t.aborted ==> forall i :: 0 <= i < |t.sent| - 1 ==> answers[i].reply.Some?)
  {
    var t := Run(model, prompt, questions, answers, |questions|);
    RunHistory(model, prompt, questions, answers, |questions|);
    RunRecorded(model, prompt, questions, answers, |questions|);
    forall i | 0 <= i < |t.entries|
      ensures answers[i].reply.Some?
    {
      assert TurnRecorded(model, prompt, questions, answers, t.entries, t.sent, i);
    }
  }

  /** Every request got a reply. */
  predicate AllAnswered(answers: seq<Answer>) {
    forall i :: 0 <= i < |answers| ==> answers[i].reply.Some?
  }

  /** The object `conduct_interview` returns on success. */
  datatype InterviewResult = InterviewResult(model: string, markdown: string, startTime: Instant,
                                             endTime: Instant, interviewData: seq<Entry>)

  /**
   * The question loop of `conduct_interview`: the questions are asked in
   * order and `sent` lists the payloads handed to the endpoint; the entries
   * come back unless a reply was missing.
   */
  method AskQuestions(model: string, prompt: string, questions: seq<Question>, answers: seq<Answer>)
    returns (data: Option<seq<Entry>>, sent: seq<Request>)
    requires |answers| == |questions|
    ensures var t := Run(model, prompt, questions, answers, |questions|);
      && sent == t.sent
      && (data.Some? <==> !t.aborted)
      && (data.Some? ==> data.value == t.entries)
    ensures data.Some? <==> AllAnswered(answers)
    ensures data.Some? ==>
      && |data.value| == |sent| == |questions|
      && forall i :: 0 <= i < |questions| ==>
           && data.value[i] == Entry(questions[i].number, questions[i].section, questions[i].text,
                                     answers[i].reply.value, answers[i].seconds)
           && sent[i] == Payload(model, Dialogue(prompt, data.value[..i]) + [UserMessage(questions[i])])
    ensures data.None? ==>
      && 0 < |sent| <= |questions|
      && answers[|sent| - 1].reply.None?
      && forall i :: 0 <= i < |sent| - 1 ==> answers[i].reply.Some?
  {
    var interviewData: seq<Entry> := [];
    var history: seq<Message> := [Message(System, prompt)];
    sent := [];
    for i := 0 to |questions|
      invariant Run(model, prompt, questions, answers, i) == Trace(history, interviewData, sent, false)
    {
      var q := questions[i];
      history := history + [UserMessage(q)];
      var request := Payload(model, history);
      var answer := answers[i];
      sent := sent + [request];
      if answer.reply.None? {
        AbortIsFinal(model, prompt, questions, answers, i + 1, |questions|);
        RunCompletes(model, prompt, questions, answers);
        return None, sent;
      }
      var response := answer.reply.value;
      history := history + [Message(Assistant, response)];
      interviewData := interviewData + [Entry(q.number, q.section, q.text, response, answer.seconds)];
    }
    RunHistory(model, prompt, questions, answers, |questions|);
    RunRecorded(model, prompt, questions, answers, |questions|);
    RunCompletes(model, prompt, questions, answers);
    forall i | 0 <= i < |questions|
      ensures interviewData[i] == Entry(questions[i].number, questions[i].section, questions[i].text,
                                        answers[i].reply.value, answers[i].seconds)
      ensures sent[i] == Payload(model, Dialogue(prompt, interviewData[..i]) + [UserMessage(questions[i])])
    {
      assert TurnRecorded(model, prompt, questions, answers, interviewData, sent, i);
    }
    data := Some(interviewData);
  }

  /**
   * `conduct_interview` over a non-empty question list: the session, then
   * the report of its entries; a missing reply returns nothing.
   */
  method Converse(model: string, prompt: string, questions: seq<Question>, answers: seq<Answer>, start: Instant, end: Instant)
    returns (result: Option<InterviewResult>, sent: seq<Request>)
    requires |answers| == |questions| > 0
    ensures sent == Run(model, prompt, questions, answers, |questions|).sent
    ensures result.Some? <==> AllAnswered(answers)
    ensures result.Some? ==>
      var r := result.value;
      && r.model == model && r.startTime == start && r.endTime == end
      && |r.interviewData| == |sent| == |questions|
      && (forall i :: 0 <= i < |questions| ==>
            r.interviewData[i] == Entry(questions[i].number, questions[i].section, questions[i].text,
                                        answers[i].reply.value, answers[i].seconds))
      && Markdown(model, r.interviewData, start, end) == Report(r.markdown)
    ensures result.None? ==>
      && 0 < |sent| <= |questions|
      && answers[|sent| - 1].reply.None?
      && forall i :: 0 <= i < |sent| - 1 ==> answers[i].reply.Some?
  {
    var data;
    data, sent := AskQuestions(model, prompt, questions, answers);
    if data.None? {
      return None, sent;
    }
    var rendered := GenerateMarkdownReport(model, data.value, start, end);
    result := Some(InterviewResult(model, rendered.text, start, end, data.value));
  }

  /** `conduct_interview`: the session with the fixed system prompt and question list. */
  method ConductInterview(model: string, answers: seq<Answer>, start: Instant, end: Instant)
    returns (result: Option<InterviewResult>, sent: seq<Request>)
    requires |answers| == |Questions|
    ensures sent == Run(model, SystemPrompt, Questions, answers, |Questions|).sent
    ensures result.Some? <==> AllAnswered(answers)
    ensures result.Some? ==>
      var r := result.value;
      && r.model == model && r.startTime == start && r.endTime == end
      && |r.interviewData| == |sent| == |Questions|
      && (forall i :: 0 <= i < |Questions| ==>
            r.interviewData[i] == Entry(Questions[i].number, Questions[i].section, Questions[i].text,
                                        answers[i].reply.value, answers[i].seconds))
      && Markdown(model, r.interviewData, start, end) == Report(r.markdown)
    ensures result.None? ==>
      && 0 < |sent| <= |Questions|
      && answers[|sent| - 1].reply.None?
      && forall i :: 0 <= i < |sent| - 1 ==> answers[i].reply.Some?
  {
    result, sent := Converse(model, SystemPrompt, Questions, answers, start, end);
  }
}
