/**
 * The multi-consult edge function: one question is sent to three AI providers,
 * each reply is normalised into a ModelAnswer (or a failure placeholder), the
 * three answers are collected in a fixed order, and a fourth call writes a
 * summary of them.
 *
 * The network is abstracted as a total function from the request sent to the
 * reply received; the monotonic clock is abstracted as pairs of integer
 * readings in microseconds.
 */
module MultiConsult {
  import opened Wrappers
  import ChatComponents

  // ---------------------------------------------------------------------------
  // Rounding: Math.round on a non-negative quotient, without floating point
  // ---------------------------------------------------------------------------

  /** Math.round(n / d) for n >= 0: the integer nearest to n / d, halves rounded up. */
  function RoundDiv(n: nat, d: nat): (r: nat)
    requires d > 0
    ensures 2 * d * r - d <= 2 * n < 2 * d * r + d
  {
    var q := (2 * n + d) / (2 * d);
    assert (2 * d) * q <= 2 * n + d < (2 * d) * q + 2 * d;
    q
  }

  /** Clock readings of performance.now(), in whole microseconds. */
  const MicrosPerMilli: nat := 1000

  /** The two clock readings a query function takes: at its start and at its return. */
  datatype Span = Span(start: int, end: int) {
    predicate Valid() { start <= end }
  }

  /** getElapsedTime: the time from span.start to span.end in milliseconds, rounded as Math.round does. */
  function ElapsedMillis(span: Span): (ms: nat)
    requires span.Valid()
    ensures 1000 * ms - 500 <= span.end - span.start < 1000 * ms + 500
  {
    RoundDiv(span.end - span.start, MicrosPerMilli)
  }

  /** The token estimate Math.round(text.length / 4) used where a provider reports no usage. */
  function EstimateTokens(text: string): (n: nat)
    ensures 4 * n - 2 <= |text| < 4 * n + 2
  {
    RoundDiv(|text|, 4)
  }

  // ---------------------------------------------------------------------------
  // Requests sent to the providers
  // ---------------------------------------------------------------------------

  datatype Endpoint = OpenAiChatCompletions | AnthropicMessages | GrokChatCompletions
  datatype Role = System | User
  datatype Message = Message(role: Role, content: string)

  /** The JSON body of a provider call; headers and API keys are not modelled. */
  datatype Request = Request(endpoint: Endpoint, model: string, maxTokens: Option<nat>, messages: seq<Message>)

  const GptModelId := "gpt-4o"
  const ClaudeModelId := "claude-3-haiku-20240307"
  const GrokModelId := "grok-1"
  const ClaudeMaxTokens: nat := 1024

  const GptSystemPrompt := "Je bent een bekwame medische assistent die beknopte en nauwkeurige antwoorden geeft op medische vragen. Baseer je antwoorden op bewezen medische kennis en wees duidelijk over de grenzen van je kennis."
  const ClaudePromptPrefix := "Als medische assistent, geef een beknopt en nauwkeurig antwoord op deze vraag: "
  const GrokSystemPrompt := "Je bent een medische assistent die beknopte en accurate antwoorden geeft op medische vragen."
  const SummarySystemPrompt := "Schrijf een beknopte samenvatting (maximaal 6 zinnen) die de belangrijkste punten en de consensus uit de verschillende AI-antwoorden combineert. Focus alleen op medisch relevante informatie en verwijs niet naar de AI-modellen zelf."

  function GptRequest(question: string): Request {
    Request(OpenAiChatCompletions, GptModelId, None, [Message(System, GptSystemPrompt), Message(User, question)])
  }

  function ClaudeRequest(question: string): Request {
    Request(AnthropicMessages, ClaudeModelId, Some(ClaudeMaxTokens), [Message(User, ClaudePromptPrefix + question)])
  }

  function GrokRequest(question: string): Request {
    Request(GrokChatCompletions, GrokModelId, None, [Message(System, GrokSystemPrompt), Message(User, question)])
  }

  /** The three provider calls, in the order the handler launches them. */
  function ProviderRequests(question: string): seq<Request> {
    [GptRequest(question), ClaudeRequest(question), GrokRequest(question)]
  }

  // ---------------------------------------------------------------------------
  // Replies
  // ---------------------------------------------------------------------------

  /**
   * What the code can read out of a parsed JSON reply, for the paths
   * choices[0].message.content, content[0].text and usage.total_tokens. A field
   * is None when evaluating its path throws (a missing object on the way, as in
   * an error body) or when the path holds a value that is not a string (for
   * usage.total_tokens: a value that is not a non-negative integer, including a
   * usage object without a total).
   */
  datatype ReplyBody = ReplyBody(choiceContent: Option<string>, contentText: Option<string>, usageTotal: Option<nat>)

  /** Rejected: fetch rejected or response.json() threw. The HTTP status is never inspected. */
  datatype Reply = Rejected | Received(body: ReplyBody)

  /** The remote side: the reply a given request receives. */
  type Network = Request -> Reply

  function ChoiceContent(reply: Reply): Option<string> {
    if reply.Received? then reply.body.choiceContent else None
  }

  function ContentText(reply: Reply): Option<string> {
    if reply.Received? then reply.body.contentText else None
  }

  function UsageTotal(reply: Reply): Option<nat> {
    if reply.Received? then reply.body.usageTotal else None
  }

  // ---------------------------------------------------------------------------
  // Normalised answers
  // ---------------------------------------------------------------------------

  datatype ModelAnswer = ModelAnswer(model: string, text: string, tokens: nat, latency: nat)

  const GptName := "GPT-4 Turbo"
  const ClaudeName := "Claude 3"
  const GrokName := "Mixtral 8x7B"

  /** The configuration order of the providers, which is the order of the answers. */
  const ProviderNames: seq<string> := [GptName, ClaudeName, GrokName]

  const GptFailureText := "Er is een fout opgetreden bij het verwerken van het GPT-4 antwoord."
  const ClaudeFailureText := "Er is een fout opgetreden bij het verwerken van het Claude antwoord."
  const GrokFailureText := "Er is een fout opgetreden bij het verwerken van het Grok antwoord."

  /** queryGPT4o: text from the first choice, tokens from usage.total_tokens; both must be readable. */
  function QueryGpt(question: string, net: Network, span: Span): (a: ModelAnswer)
    requires span.Valid()
    ensures a.model == GptName && a.latency == ElapsedMillis(span)
    ensures var reply := net(GptRequest(question));
      if ChoiceContent(reply).Some? && UsageTotal(reply).Some?
      then a.text == ChoiceContent(reply).value && a.tokens == UsageTotal(reply).value
      else a.text == GptFailureText && a.tokens == 0
  {
    var reply := net(GptRequest(question));
    var latency := ElapsedMillis(span);
    match (ChoiceContent(reply), UsageTotal(reply))
    case (Some(text), Some(total)) => ModelAnswer(GptName, text, total, latency)
    case _ => ModelAnswer(GptName, GptFailureText, 0, latency)
  }

  /** queryClaude: text from content[0].text, tokens always estimated from its length. */
  function QueryClaude(question: string, net: Network, span: Span): (a: ModelAnswer)
    requires span.Valid()
    ensures a.model == ClaudeName && a.latency == ElapsedMillis(span)
    ensures var reply := net(ClaudeRequest(question));
      if ContentText(reply).Some?
      then a.text == ContentText(reply).value && 4 * a.tokens - 2 <= |a.text| < 4 * a.tokens + 2
      else a.text == ClaudeFailureText && a.tokens == 0
  {
    var reply := net(ClaudeRequest(question));
    var latency := ElapsedMillis(span);
    match ContentText(reply)
    case Some(text) => ModelAnswer(ClaudeName, text, EstimateTokens(text), latency)
    case None => ModelAnswer(ClaudeName, ClaudeFailureText, 0, latency)
  }

  /** queryGrok: text from the first choice; `usage?.total_tokens || estimate`. */
  function QueryGrok(question: string, net: Network, span: Span): (a: ModelAnswer)
    requires span.Valid()
    ensures a.model == GrokName && a.latency == ElapsedMillis(span)
    ensures var reply := net(GrokRequest(question));
      if ChoiceContent(reply).Some?
      then a.text == ChoiceContent(reply).value &&
           (UsageTotal(reply).Some? && UsageTotal(reply).value != 0 ==> a.tokens == UsageTotal(reply).value) &&
           (UsageTotal(reply).None? || UsageTotal(reply).value == 0 ==> 4 * a.tokens - 2 <= |a.text| < 4 * a.tokens + 2)
      else a.text == GrokFailureText && a.tokens == 0
  {
    var reply := net(GrokRequest(question));
    var latency := ElapsedMillis(span);
    match ChoiceContent(reply)
    case Some(text) =>
      var estimated := EstimateTokens(text);
      var tokens := if UsageTotal(reply).Some? && UsageTotal(reply).value != 0 then UsageTotal(reply).value else estimated;
      ModelAnswer(GrokName, text, tokens, latency)
    case None => ModelAnswer(GrokName, GrokFailureText, 0, latency)
  }

  /** The clock readings of the three concurrent calls; their order in time is arbitrary. */
  datatype Timings = Timings(gpt: Span, claude: Span, grok: Span) {
    predicate Valid() { gpt.Valid() && claude.Valid() && grok.Valid() }
  }

  /** Promise.all over the three query functions: one answer per provider, in configuration order. */
  function QueryAll(question: string, net: Network, timings: Timings): (answers: seq<ModelAnswer>)
    requires timings.Valid()
    ensures |answers| == |ProviderNames|
    ensures forall i :: 0 <= i < |answers| ==> answers[i].model == ProviderNames[i]
  {
    [QueryGpt(question, net, timings.gpt), QueryClaude(question, net, timings.claude), QueryGrok(question, net, timings.grok)]
  }

  // ---------------------------------------------------------------------------
  // Summary
  // ---------------------------------------------------------------------------

  /** Array.prototype.join. */
  function Join(parts: seq<string>, sep: string): string
    decreases |parts|
  {
    if |parts| == 0 then ""
    else if |parts| == 1 then parts[0]
    else parts[0] + sep + Join(parts[1..], sep)
  }

  /** Where parts[k] starts inside Join(parts, sep). */
  function PartOffset(parts: seq<string>, sep: string, k: nat): nat
    requires k <= |parts|
    decreases k
  {
    if k == 0 then 0 else |parts[0]| + |sep| + PartOffset(parts[1..], sep, k - 1)
  }

  /** The template `${a.model}: ${a.text}`. */
  function RenderAnswer(a: ModelAnswer): string {
    a.model + ": " + a.text
  }

  /** Every answer rendered by RenderAnswer, in order. */
  function RenderAnswers(answers: seq<ModelAnswer>): seq<string> {
    seq(|answers|, i requires 0 <= i < |answers| => RenderAnswer(answers[i]))
  }

  const AnswerSeparator := "\n\n"
  const ContextAnswersHeading := "\n\nAntwoorden van verschillende AI-modellen:\n\n"

  function ContextHead(question: string): string {
    "Vraag: " + question + ContextAnswersHeading
  }

  /** The user message of the summary call. */
  function SummaryContext(question: string, answers: seq<ModelAnswer>): string {
    ContextHead(question) + Join(RenderAnswers(answers), AnswerSeparator)
  }

  function SummaryRequest(question: string, answers: seq<ModelAnswer>): Request {
    Request(OpenAiChatCompletions, GptModelId, None,
            [Message(System, SummarySystemPrompt), Message(User, SummaryContext(question, answers))])
  }

  const SummaryFallback := "Er kon geen samenvatting worden gemaakt van de antwoorden."

  /** generateSummary: the first choice's content, or the fixed fallback when it cannot be read. */
  function GenerateSummary(answers: seq<ModelAnswer>, question: string, net: Network): (summary: string)
    ensures var reply := net(SummaryRequest(question, answers));
      if ChoiceContent(reply).Some? then summary == ChoiceContent(reply).value else summary == SummaryFallback
  {
    match ChoiceContent(net(SummaryRequest(question, answers)))
    case Some(content) => content
    case None => SummaryFallback
  }

  // ---------------------------------------------------------------------------
  // The request handler
  // ---------------------------------------------------------------------------

  /** The JSON values a `question` field can hold; only truthiness and typeof matter. */
  datatype JsonValue = JNull | JBool(b: bool) | JNumber(x: real) | JString(s: string) | JArray | JObject

  /**
   * The request body as the handler sees it. Unparsable: req.json() throws.
   * NullBody: the body is JSON null, so destructuring it throws. Parsed: any
   * other JSON value; `question` is None when the field is undefined (which is
   * also the case for a body that is not an object).
   */
  datatype RequestBody = Unparsable | NullBody | Parsed(question: Option<JsonValue>)

  datatype HttpRequest = HttpRequest(httpMethod: string, body: RequestBody)

  datatype ConsultResponse = ConsultResponse(summary: string, answers: seq<ModelAnswer>)

  /** Status 200 with CORS headers only; 200 with a result; 400; 500 (its details are not modelled). */
  datatype HttpResponse =
    | PreflightOk
    | Ok(result: ConsultResponse)
    | BadRequest(error: string)
    | InternalError(error: string)

  /** The response together with the provider calls made, in the order they were started. */
  datatype Exchange = Exchange(response: HttpResponse, requests: seq<Request>)

  const InvalidQuestionText := "Vraag ontbreekt of is ongeldig"
  const InternalErrorText := "Er is een fout opgetreden bij het verwerken van uw vraag."

  /** JavaScript truthiness of a field value (undefined is None). */
  predicate Truthy(v: Option<JsonValue>) {
    match v
    case None => false
    case Some(JNull) => false
    case Some(JBool(b)) => b
    case Some(JNumber(x)) => x != 0.0
    case Some(JString(s)) => s != ""
    case Some(_) => true
  }

  /** The JavaScript typeof operator on a field value. */
  function TypeOf(v: Option<JsonValue>): string {
    match v
    case None => "undefined"
    case Some(JBool(_)) => "boolean"
    case Some(JNumber(_)) => "number"
    case Some(JString(_)) => "string"
    case Some(_) => "object"
  }

  /** The check `!question || typeof question !== 'string'`: the question, when it passes. */
  function AcceptedQuestion(q: Option<JsonValue>): (r: Option<string>)
    ensures r.Some? <==> q.Some? && q.value.JString? && q.value.s != ""
    ensures r.Some? ==> q == Some(JString(r.value))
  {
    if !Truthy(q) || TypeOf(q) != "string" then None else Some(q.value.s)
  }

  /** The serve handler. */
  function Serve(req: HttpRequest, net: Network, timings: Timings): (x: Exchange)
    requires timings.Valid()
    ensures !x.response.Ok? ==> x.requests == []
    ensures x.response.Ok? ==>
      req.httpMethod != "OPTIONS" && req.body.Parsed? && AcceptedQuestion(req.body.question).Some? &&
      |x.response.result.answers| == |ProviderNames| &&
      (forall i :: 0 <= i < |ProviderNames| ==> x.response.result.answers[i].model == ProviderNames[i]) &&
      |x.requests| == |ProviderNames| + 1 &&
      x.requests[|ProviderNames|] == SummaryRequest(AcceptedQuestion(req.body.question).value, x.response.result.answers)
  {
    if req.httpMethod == "OPTIONS" then Exchange(PreflightOk, [])
    else
      match req.body
      case Unparsable => Exchange(InternalError(InternalErrorText), [])
      case NullBody => Exchange(InternalError(InternalErrorText), [])
      case Parsed(q) =>
        match AcceptedQuestion(q)
        case None => Exchange(BadRequest(InvalidQuestionText), [])
        case Some(question) =>
          var answers := QueryAll(question, net, timings);
          var summary := GenerateSummary(answers, question, net);
          Exchange(Ok(ConsultResponse(summary, answers)), ProviderRequests(question) + [SummaryRequest(question, answers)])
  }

  // ---------------------------------------------------------------------------
  // Properties
  // ---------------------------------------------------------------------------

  /** Each provider call carries the question verbatim as the end of its user message. */
  lemma QuestionReachesEveryProvider(question: string)
    ensures forall r :: r in ProviderRequests(question) ==>
      |r.messages| > 0 && r.messages[|r.messages| - 1].role == User &&
      |question| <= |r.messages[|r.messages| - 1].content| &&
      r.messages[|r.messages| - 1].content[|r.messages[|r.messages| - 1].content| - |question|..] == question
  {
    var c := ClaudePromptPrefix + question;
    assert c[|c| - |question|..] == question;
  }

  /** The configured provider names are pairwise distinct, so answers[i].model identifies provider i. */
  lemma ProviderNamesDistinct()
    ensures forall i, j :: 0 <= i < j < |ProviderNames| ==> ProviderNames[i] != ProviderNames[j]
  {
  }

  /**
   * A Claude answer is the failure placeholder exactly when its reply could not
   * be read: a genuine reply with the placeholder's text would carry a non-zero estimate.
   */
  lemma ClaudePlaceholderIffFailure(question: string, net: Network, span: Span)
    requires span.Valid()
    ensures var a := QueryClaude(question, net, span);
      (a.text == ClaudeFailureText && a.tokens == 0) <==> ContentText(net(ClaudeRequest(question))).None?
  {
    var a := QueryClaude(question, net, span);
    if ContentText(net(ClaudeRequest(question))).Some? && a.text == ClaudeFailureText {
      assert |ClaudeFailureText| > 2;
    }
  }

  /** The same holds for Grok: a readable reply never yields the placeholder. */
  lemma GrokPlaceholderIffFailure(question: string, net: Network, span: Span)
    requires span.Valid()
    ensures var a := QueryGrok(question, net, span);
      (a.text == GrokFailureText && a.tokens == 0) <==> ChoiceContent(net(GrokRequest(question))).None?
  {
    var a := QueryGrok(question, net, span);
    if ChoiceContent(net(GrokRequest(question))).Some? && a.text == GrokFailureText {
      assert |GrokFailureText| > 2;
    }
  }

  /**
   * GPT answers carry no such guarantee: a reply whose content is the placeholder
   * text with a reported usage of 0 is indistinguishable from a failed call.
   */
  lemma GptPlaceholderAmbiguous(question: string, span: Span)
    requires span.Valid()
    ensures var failing: Network := _ => Rejected;
      var odd: Network := _ => Received(ReplyBody(Some(GptFailureText), None, Some(0)));
      QueryGpt(question, odd, span) == QueryGpt(question, failing, span)
  {
  }

  /**
   * Which call finishes first changes nothing but latencies: the answers for two
   * sets of clock readings agree on model, text and tokens, position by position.
   */
  lemma AnswersIndependentOfTiming(question: string, net: Network, t1: Timings, t2: Timings)
    requires t1.Valid() && t2.Valid()
    ensures var a1, a2 := QueryAll(question, net, t1), QueryAll(question, net, t2);
      |a1| == |a2| && forall i :: 0 <= i < |a1| ==> a1[i].(latency := 0) == a2[i].(latency := 0)
  {
  }

  /** parts[k] appears in Join(parts, sep) starting at PartOffset(parts, sep, k). */
  lemma {:induction false} JoinPartAt(parts: seq<string>, sep: string, k: nat)
    requires k < |parts|
    ensures PartOffset(parts, sep, k) + |parts[k]| <= |Join(parts, sep)|
    ensures Join(parts, sep)[PartOffset(parts, sep, k)..PartOffset(parts, sep, k) + |parts[k]|] == parts[k]
  {
    if |parts| == 1 {
    } else if k == 0 {
      assert Join(parts, sep) == parts[0] + (sep + Join(parts[1..], sep));
    } else {
      var rest := parts[1..];
      JoinPartAt(rest, sep, k - 1);
      var head := parts[0] + sep;
      var o := PartOffset(rest, sep, k - 1);
      assert rest[k - 1] == parts[k];
      assert Join(parts, sep) == head + Join(rest, sep);
      assert PartOffset(parts, sep, k) == |head| + o;
      assert (head + Join(rest, sep))[|head| + o..|head| + o + |parts[k]|] == Join(rest, sep)[o..o + |parts[k]|];
    }
  }

  /** Parts follow one another in order, each followed by the separator. */
  lemma {:induction false} JoinSeparatorAfter(parts: seq<string>, sep: string, k: nat)
    requires k + 1 < |parts|
    ensures PartOffset(parts, sep, k + 1) == PartOffset(parts, sep, k) + |parts[k]| + |sep|
    ensures PartOffset(parts, sep, k + 1) <= |Join(parts, sep)|
    ensures Join(parts, sep)[PartOffset(parts, sep, k) + |parts[k]|..PartOffset(parts, sep, k + 1)] == sep
  {
    JoinPartAt(parts, sep, k + 1);
    var rest := parts[1..];
    var j := Join(parts, sep);
    assert j == parts[0] + sep + Join(rest, sep);
    if k == 0 {
      assert j[|parts[0]|..|parts[0]| + |sep|] == sep;
    } else {
      JoinSeparatorAfter(rest, sep, k - 1);
      JoinPartAt(rest, sep, k);
      var head := parts[0] + sep;
      var o := PartOffset(rest, sep, k - 1) + |rest[k - 1]|;
      assert j == head + Join(rest, sep);
      assert j[|head| + o..|head| + o + |sep|] == Join(rest, sep)[o..o + |sep|];
    }
  }

  /**
   * The summary context starts with "Vraag: " and the question, and holds every
   * answer, failure placeholders included, rendered as "model: text" at its place
   * in the blank-line-separated list.
   */
  lemma ContextShowsEveryAnswer(question: string, answers: seq<ModelAnswer>, k: nat)
    requires k < |answers|
    ensures var ctx, o := SummaryContext(question, answers), |ContextHead(question)| + PartOffset(RenderAnswers(answers), AnswerSeparator, k);
      ctx[..|"Vraag: " + question|] == "Vraag: " + question &&
      o + |RenderAnswer(answers[k])| <= |ctx| &&
      ctx[o..o + |RenderAnswer(answers[k])|] == answers[k].model + ": " + answers[k].text
  {
    var head := ContextHead(question);
    var lines := RenderAnswers(answers);
    JoinPartAt(lines, AnswerSeparator, k);
    var o := PartOffset(lines, AnswerSeparator, k);
    assert (head + Join(lines, AnswerSeparator))[|head| + o..|head| + o + |lines[k]|] == Join(lines, AnswerSeparator)[o..o + |lines[k]|];
    assert (head + Join(lines, AnswerSeparator))[..|"Vraag: " + question|] == head[..|"Vraag: " + question|];
  }

  /** With the three collected answers, the context is written out in full. */
  lemma ContextOfThreeAnswers(question: string, answers: seq<ModelAnswer>)
    requires |answers| == 3
    ensures SummaryContext(question, answers) ==
      "Vraag: " + question + "\n\nAntwoorden van verschillende AI-modellen:\n\n" +
      answers[0].model + ": " + answers[0].text + "\n\n" +
      answers[1].model + ": " + answers[1].text + "\n\n" +
      answers[2].model + ": " + answers[2].text
  {
    var lines := RenderAnswers(answers);
    assert lines[1..][1..] == [lines[2]];
    assert Join(lines[1..], AnswerSeparator) == lines[1] + AnswerSeparator + lines[2];
    assert Join(lines, AnswerSeparator) == lines[0] + AnswerSeparator + (lines[1] + AnswerSeparator + lines[2]);
  }

  /**
   * The summary is empty only when the summary call itself returned empty content;
   * when the call fails it is the non-empty fallback.
   */
  lemma SummaryEmptyOnlyIfReplyEmpty(answers: seq<ModelAnswer>, question: string, net: Network)
    ensures GenerateSummary(answers, question, net) == "" ==>
      ChoiceContent(net(SummaryRequest(question, answers))) == Some("")
    ensures ChoiceContent(net(SummaryRequest(question, answers))).None? ==>
      GenerateSummary(answers, question, net) == SummaryFallback && |SummaryFallback| > 0
  {
  }

  /** OPTIONS is answered by the preflight response and nothing else happens. */
  lemma ServePreflight(req: HttpRequest, net: Network, timings: Timings)
    requires timings.Valid() && req.httpMethod == "OPTIONS"
    ensures Serve(req, net, timings) == Exchange(PreflightOk, [])
  {
  }

  /** A missing, empty or non-string question gets a 400 and no provider is queried. */
  lemma ServeRejectsInvalidQuestion(req: HttpRequest, net: Network, timings: Timings)
    requires timings.Valid() && req.httpMethod != "OPTIONS" && req.body.Parsed?
    requires req.body.question.None? || !req.body.question.value.JString? || req.body.question.value.s == ""
    ensures Serve(req, net, timings) == Exchange(BadRequest(InvalidQuestionText), [])
  {
  }

  /**
   * A non-empty string question yields a 200 carrying the three answers in
   * configuration order and a summary of them; the four calls are made in order,
   * the summary call last. Every call settles here, since `net` is total.
   */
  lemma ServeAnswersValidQuestion(req: HttpRequest, net: Network, timings: Timings, question: string)
    requires timings.Valid() && req.httpMethod != "OPTIONS"
    requires req.body == Parsed(Some(JString(question))) && question != ""
    ensures var answers := QueryAll(question, net, timings);
      var x := Serve(req, net, timings);
      x.response == Ok(ConsultResponse(GenerateSummary(answers, question, net), answers)) &&
      x.requests == ProviderRequests(question) + [SummaryRequest(question, answers)] &&
      (forall i :: 0 <= i < |answers| ==> answers[i].model == ProviderNames[i])
  {
  }

  /**
   * The handler does not trim: any non-empty question made only of whitespace,
   * which trim() would reduce to "", is accepted and sent to every provider as
   * it is. This is the instance of ServeAnswersValidQuestion for such questions.
   */
  lemma ServeAcceptsWhitespaceQuestion(req: HttpRequest, net: Network, timings: Timings, question: string)
    requires timings.Valid() && req.httpMethod != "OPTIONS"
    requires req.body == Parsed(Some(JString(question))) && question != ""
    requires ChatComponents.AllWhitespace(question)
    ensures var x := Serve(req, net, timings);
      x.response.Ok? && x.requests[..3] == ProviderRequests(question) && ChatComponents.Trim(question) == ""
  {
    ServeAnswersValidQuestion(req, net, timings, question);
  }

  /** The 500 response arises exactly from a body that cannot be read; every later failure is absorbed. */
  lemma ServeInternalErrorOnlyForUnreadableBody(req: HttpRequest, net: Network, timings: Timings)
    requires timings.Valid()
    ensures Serve(req, net, timings).response.InternalError? <==>
      req.httpMethod != "OPTIONS" && (req.body.Unparsable? || req.body.NullBody?)
  {
  }
}
