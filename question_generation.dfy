/** The interview-question generation endpoint: a POST handler that checks for the API key, reads
    the request body, asks a hosted chat-completion API for a numbered list of questions and
    answers with the completion text or an error. The network, the key lookup and the JSON
    parsing are inputs: the handler is a total function of them. */
module QuestionGeneration {
  import opened Options
  import opened JsText

  /** The JSON request body; a field is None when it is absent or null. */
  datatype RequestBody = RequestBody(numberOfQuestions: Option<int>, role: Option<string>,
                                     objective: Option<string>)

  /** One element of the upstream `choices` array: its `message.content` and `delta.content`. */
  datatype Choice = Choice(messageContent: Option<string>, deltaContent: Option<string>)

  /** The parsed upstream JSON: its `error.message`, and its `choices` ([] when absent). */
  datatype Payload = Payload(errorMessage: Option<string>, choices: seq<Choice>)

  /** The upstream HTTP reply: its `ok` flag and its parsed body. */
  datatype Reply = Reply(ok: bool, data: Payload)

  /** The chat-completion request: model, the single user message, temperature, token cap. */
  datatype Completion = Completion(model: string, userContent: string, temperature: real,
                                   maxTokens: int)

  /** The JSON body of the handler's response. */
  datatype ResponseBody = TextBody(text: string) | ErrorBody(error: string)

  datatype Response = Response(status: int, body: ResponseBody)

  /** One run of the handler: the request it sent upstream, if any, and its response. */
  datatype Exchange = Exchange(sent: Option<Completion>, response: Response)

  const MissingKeyMessage: string := "GROQ_API_KEY missing"
  const UpstreamErrorMessage: string := "Groq error"
  const EmptyResponseMessage: string := "Empty AI response"
  const DefaultCount: int := 5
  const DefaultRole: string := "software"
  const DefaultObjective: string := "Assess candidate skills"
  const ModelName: string := "llama-3.1-8b-instant"
  const Temperature: real := 0.7
  const MaxTokens: int := 400

  /** JavaScript truthiness of an optional number and of an optional string. */
  predicate TruthyNumber(v: Option<int>) {
    v.Some? && v.value != 0
  }

  predicate TruthyString(v: Option<string>) {
    v.Some? && v.value != ""
  }

  /** `v || fallback` for numbers and for strings. */
  function OrNumber(v: Option<int>, fallback: int): int {
    if TruthyNumber(v) then v.value else fallback
  }

  function OrString(v: Option<string>, fallback: string): string {
    if TruthyString(v) then v.value else fallback
  }

  /** The three values interpolated into the prompt. */
  datatype PromptFields = PromptFields(count: int, role: string, objective: string)

  /** The prompt's values: each is the body's own when that is truthy and the default otherwise,
      so none of them is ever falsy. */
  function Fields(body: RequestBody): (f: PromptFields)
    ensures f.count != 0 && f.role != "" && f.objective != ""
    ensures f.count == DefaultCount || Some(f.count) == body.numberOfQuestions
    ensures f.role == DefaultRole || Some(f.role) == body.role
    ensures f.objective == DefaultObjective || Some(f.objective) == body.objective
    ensures TruthyNumber(body.numberOfQuestions) <==>
              body.numberOfQuestions.Some? && f.count == body.numberOfQuestions.value
    ensures TruthyString(body.role) <==> body.role.Some? && f.role == body.role.value
    ensures TruthyString(body.objective) <==> body.objective.Some? && f.objective == body.objective.value
  {
    PromptFields(OrNumber(body.numberOfQuestions, DefaultCount),
                 OrString(body.role, DefaultRole),
                 OrString(body.objective, DefaultObjective))
  }

  /** The fixed text in front of the question count in the prompt. */
  const PromptLead: string := "\nYou are an AI interviewer.\n\nGenerate "

  /** The fixed text between the count and the role. */
  const CountEnd: string := " interview questions for a "

  /** The fixed text between the role and the objective. */
  const RoleEnd: string := " role.\n\nObjective:\n"

  /** The fixed text after the objective: the answer format. */
  const PromptEnd: string := "\n\nReturn ONLY a numbered list of questions.\n"

  /** The text after the count in the prompt: role, objective and the answer format. */
  function PromptTail(f: PromptFields): (t: string)
    ensures |t| > 0 && t[0] == ' '
  {
    CountEnd + f.role + RoleEnd + f.objective + PromptEnd
  }

  /** The prompt text of the template literal: the fixed lead, the numeral of the count, and the
      rest, which starts with a space that ends the numeral. */
  function Prompt(f: PromptFields): (p: string)
    ensures |PromptLead| + |IntToDecimal(f.count)| < |p|
    ensures p[..|PromptLead|] == PromptLead
    ensures p[|PromptLead|..|PromptLead| + |IntToDecimal(f.count)|] == IntToDecimal(f.count)
    ensures p[|PromptLead| + |IntToDecimal(f.count)|] == ' '
  {
    var s := IntToDecimal(f.count);
    var t := PromptTail(f);
    Parts(PromptLead, s, t);
    PromptLead + s + t
  }

  /** The pieces of a three-part concatenation. */
  lemma Parts(a: string, b: string, c: string)
    requires c != ""
    ensures var p := a + b + c;
      |a| + |b| < |p| && p[..|a|] == a && p[|a|..|a| + |b|] == b && p[|a| + |b|] == c[0]
  {
    var p := a + b + c;
    assert p[..|a|] == a;
    assert p[|a|..|a| + |b|] == b;
  }

  /** Where the role and the objective land: after the numeral come the words up to "for a ",
      then the role, then " role." and the "Objective:" heading on its own line, then the
      objective, and last the answer format. */
  lemma PromptLayout(f: PromptFields)
    ensures var p := Prompt(f);
      var a := |PromptLead| + |IntToDecimal(f.count)|;
      var b := a + |CountEnd|;
      var c := b + |f.role|;
      var d := c + |RoleEnd|;
      var e := d + |f.objective|;
      e + |PromptEnd| == |p| &&
      p[a..b] == CountEnd && p[b..c] == f.role && p[c..d] == RoleEnd &&
      p[d..e] == f.objective && p[e..] == PromptEnd
  {
    var p := Prompt(f);
    var a := |PromptLead| + |IntToDecimal(f.count)|;
    var t := PromptTail(f);
    assert p == PromptLead + IntToDecimal(f.count) + t;
    assert p[a..] == t;
    Tail(CountEnd, f.role, RoleEnd, f.objective, PromptEnd);
  }

  /** The pieces of a five-part concatenation. */
  lemma Tail(u: string, v: string, w: string, x: string, y: string)
    ensures var t := u + v + w + x + y;
      var b := |u|; var c := b + |v|; var d := c + |w|; var e := d + |x|;
      e + |y| == |t| && t[..b] == u && t[b..c] == v && t[c..d] == w && t[d..e] == x && t[e..] == y
  {
    var t := u + v + w + x + y;
    var b := |u|; var c := b + |v|; var d := c + |w|; var e := d + |x|;
    assert t[..b] == u;
    assert t[b..c] == v;
    assert t[c..d] == w;
    assert t[d..e] == x;
    assert t[e..] == y;
  }

  /** Read back, the numeral in the prompt is the question count: digits only for a count of at
      least 0, and a minus sign followed by the digits of its magnitude for a negative count,
      which is truthy and so is not replaced by the default. */
  lemma PromptCount(f: PromptFields)
    ensures var p := Prompt(f); var k := |PromptLead| + |IntToDecimal(f.count)|;
      k < |p| && p[k] == ' ' &&
      (f.count >= 0 ==> (forall i :: |PromptLead| <= i < k ==> IsDigit(p[i])) &&
                        DecimalValue(p[|PromptLead|..k]) == f.count) &&
      (f.count < 0 ==> p[|PromptLead|] == '-' &&
                       (forall i :: |PromptLead| < i < k ==> IsDigit(p[i])) &&
                       DecimalValue(p[|PromptLead| + 1..k]) == -f.count)
  {
    var p := Prompt(f);
    var s := IntToDecimal(f.count);
    var k := |PromptLead| + |s|;
    assert p[|PromptLead|..k] == s;
    forall i | |PromptLead| <= i < k ensures p[i] == s[i - |PromptLead|] {
      assert p[i] == p[|PromptLead|..k][i - |PromptLead|];
    }
    if f.count < 0 {
      assert p[|PromptLead| + 1..k] == s[1..];
    }
  }

  /** The request posted upstream for a given body. */
  function CompletionFor(body: RequestBody): Completion {
    Completion(ModelName, Prompt(Fields(body)), Temperature, MaxTokens)
  }

  /** The completion text: `choices[0].message.content` when truthy, else
      `choices[0].delta.content` when truthy, else "". */
  function CompletionText(data: Payload): (t: string)
    ensures t != "" <==> (|data.choices| > 0 &&
      (TruthyString(data.choices[0].messageContent) || TruthyString(data.choices[0].deltaContent)))
    ensures |data.choices| > 0 && TruthyString(data.choices[0].messageContent) ==>
              Some(t) == data.choices[0].messageContent
    ensures |data.choices| > 0 && !TruthyString(data.choices[0].messageContent) && t != "" ==>
              Some(t) == data.choices[0].deltaContent
  {
    if |data.choices| > 0 && TruthyString(data.choices[0].messageContent) then
      data.choices[0].messageContent.value
    else if |data.choices| > 0 && TruthyString(data.choices[0].deltaContent) then
      data.choices[0].deltaContent.value
    else ""
  }

  /** The `try` block, with each `throw` as a Threw outcome, checked in source order: the key,
      the body, the upstream call and its JSON, the `ok` flag, the blank text. */
  function Attempt(keyPresent: bool, body: Outcome<RequestBody>, upstream: Outcome<Reply>): (r: Outcome<string>)
    ensures !keyPresent ==> r == Threw(MissingKeyMessage)
    ensures keyPresent && body.Threw? ==> r == Threw(body.message)
    ensures keyPresent && body.Done? && upstream.Threw? ==> r == Threw(upstream.message)
    ensures r.Done? <==> keyPresent && body.Done? && upstream.Done? && upstream.value.ok &&
                         !Blank(CompletionText(upstream.value.data))
    ensures r.Done? ==> r.value == CompletionText(upstream.value.data) && !Blank(r.value)
  {
    if !keyPresent then Threw(MissingKeyMessage)
    else if body.Threw? then Threw(body.message)
    else if upstream.Threw? then Threw(upstream.message)
    else if !upstream.value.ok then
      Threw(OrString(upstream.value.data.errorMessage, UpstreamErrorMessage))
    else
      TrimEmptyIffBlank(CompletionText(upstream.value.data));
      if Trim(CompletionText(upstream.value.data)) == "" then Threw(EmptyResponseMessage)
      else Done(CompletionText(upstream.value.data))
  }

  /** The handler: the request it sends upstream (only with a key and a readable body) and the
      response the `catch` turns every outcome into. */
  function Post(keyPresent: bool, body: Outcome<RequestBody>, upstream: Outcome<Reply>): (r: Exchange)
    ensures r.sent.Some? <==> keyPresent && body.Done?
    ensures (r.response.status == 200 && r.response.body.TextBody? && !Blank(r.response.body.text)) ||
            (r.response.status == 500 && r.response.body.ErrorBody?)
  {
    var sent := if keyPresent && body.Done? then Some(CompletionFor(body.value)) else None;
    match Attempt(keyPresent, body, upstream)
    case Done(text) => Exchange(sent, Response(200, TextBody(text)))
    case Threw(message) => Exchange(sent, Response(500, ErrorBody(message)))
  }

  /** Without the key the handler answers 500 "GROQ_API_KEY missing" before it reads the body,
      and sends nothing upstream. */
  lemma PostWithoutKey(body: Outcome<RequestBody>, upstream: Outcome<Reply>)
    ensures Post(false, body, upstream) == Exchange(None, Response(500, ErrorBody(MissingKeyMessage)))
  {
  }

  /** A non-ok upstream reply gives 500 with the upstream's error message, or "Groq error" when it
      has none. */
  lemma PostUpstreamFailure(body: RequestBody, data: Payload)
    ensures Post(true, Done(body), Done(Reply(false, data))).response ==
      Response(500, ErrorBody(if TruthyString(data.errorMessage) then data.errorMessage.value
                              else UpstreamErrorMessage))
  {
  }

  /** The handler answers 200 exactly when the key is present, the body and the upstream reply
      were read, the reply is ok and its completion text is not blank; the response then holds
      that text untrimmed. */
  lemma PostSucceeds(keyPresent: bool, body: Outcome<RequestBody>, upstream: Outcome<Reply>)
    ensures Post(keyPresent, body, upstream).response.status == 200 <==>
      keyPresent && body.Done? && upstream.Done? && upstream.value.ok &&
      !Blank(CompletionText(upstream.value.data))
    ensures Post(keyPresent, body, upstream).response.status == 200 ==>
      Post(keyPresent, body, upstream).response.body == TextBody(CompletionText(upstream.value.data))
  {
  }

  /** An ok reply whose text is empty or white space only gives 500 "Empty AI response". */
  lemma PostBlankText(body: RequestBody, data: Payload)
    requires Blank(CompletionText(data))
    ensures Post(true, Done(body), Done(Reply(true, data))).response ==
      Response(500, ErrorBody(EmptyResponseMessage))
  {
  }

  /** A body that cannot be read, or an upstream call or reply JSON that throws, gives 500 with
      the thrown error's message. */
  lemma PostThrows(message: string, body: RequestBody, upstream: Outcome<Reply>)
    ensures Post(true, Threw(message), upstream) == Exchange(None, Response(500, ErrorBody(message)))
    ensures Post(true, Done(body), Threw(message)) ==
      Exchange(Some(CompletionFor(body)), Response(500, ErrorBody(message)))
  {
  }

  /** A request that goes upstream carries the model, the prompt built from the body's values with
      the defaults filled in, temperature 0.7 and 400 tokens. */
  lemma PostSends(keyPresent: bool, body: Outcome<RequestBody>, upstream: Outcome<Reply>)
    ensures Post(keyPresent, body, upstream).sent.Some? ==>
      Post(keyPresent, body, upstream).sent.value ==
        Completion(ModelName, Prompt(Fields(body.value)), Temperature, MaxTokens)
  {
  }

  /** A body { role: "backend", numberOfQuestions: 3 } asks for 3 questions for a backend role with
      the default objective; an empty body, and a body with count 0 and role "", ask for 5
      questions for a software role. */
  lemma FieldsExamples()
    ensures Fields(RequestBody(Some(3), Some("backend"), None)) ==
      PromptFields(3, "backend", "Assess candidate skills")
    ensures Fields(RequestBody(None, None, None)) ==
      PromptFields(5, "software", "Assess candidate skills")
    ensures Fields(RequestBody(Some(0), Some(""), None)) ==
      PromptFields(5, "software", "Assess candidate skills")
  {
  }

  /** The body { role: "backend", numberOfQuestions: 3 } with an ok reply whose message content
      is "1. Why backend?" gives 200 with that text. */
  lemma PostExampleText()
    ensures Post(true, Done(RequestBody(Some(3), Some("backend"), None)),
                 Done(Reply(true, Payload(None, [Choice(Some("1. Why backend?"), None)])))).response ==
      Response(200, TextBody("1. Why backend?"))
  {
    var text := "1. Why backend?";
    assert !IsWhiteSpace(text[0]);
    assert CompletionText(Payload(None, [Choice(Some(text), None)])) == text;
  }

  /** The same body with an ok reply whose only content is "" gives 500 "Empty AI response". */
  lemma PostExampleEmpty()
    ensures Post(true, Done(RequestBody(Some(3), Some("backend"), None)),
                 Done(Reply(true, Payload(None, [Choice(Some(""), None)])))).response ==
      Response(500, ErrorBody(EmptyResponseMessage))
  {
    assert CompletionText(Payload(None, [Choice(Some(""), None)])) == "";
  }
}
