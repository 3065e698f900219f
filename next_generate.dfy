/** The Next.js `POST /api/generate` route: the same decision as the Flask
    handler, written against `fetch`, with JavaScript's truthiness and
    optional chaining, and passing a failing provider status through. */
module NextGenerate {
  import opened Json
  import opened Provider
  import FlaskGenerate

  /** The outcome of the `fetch` to the provider: it threw (network failure),
      it answered with a status outside 200-299, or it answered OK with a body
      that `response.json()` may or may not decode. */
  datatype FetchOutcome = Threw | NotOk(status: nat) | Delivered(body: Payload)

  /** Whether `NextResponse.json(body, { status })` can build its answer: the
      Response constructor throws a RangeError for a status outside 200-599, and
      a TypeError for a body on one of the null-body statuses 204, 205 and 304. */
  predicate CarriesBody(status: nat) {
    200 <= status <= 599 && status != 204 && status != 205 && status != 304
  }

  /** The HTTP request the route sends. */
  datatype HttpCall = HttpCall(url: string, headers: seq<(string, string)>, request: ChatRequest)

  /** What one request did: the fetch it made, and what it answered. */
  datatype Exchange = Exchange(call: Option<HttpCall>, response: Response)

  const CompletionsUrl := "https://api.openai.com/v1/chat/completions"
  const GenerationFailed := "Failed to generate website idea"

  /** `const { userInput } = await req.json()`: `None` when this throws (the
      body does not decode, or decodes to null); otherwise the member, where
      the inner `None` is `undefined` (absent, or a body that is not an object). */
  function Destructure(body: Payload): (r: Option<Option<Json>>)
    ensures r.None? <==> body.Unreadable? || body == Parsed(JNull)
    ensures body.Parsed? && body.value.JObj? ==> r == Some(Get(body.value.fields, "userInput"))
    ensures body.Parsed? && !body.value.JObj? && body.value != JNull ==> r == Some(None)
  {
    match body
    case Unreadable(_) => None
    case Parsed(JNull) => None
    case Parsed(v) => Some(JsProp(Some(v), "userInput"))
  }

  /** `data.choices?.[0]?.message?.content` for a non-null `data`. */
  function Content(data: Json): (r: Option<Json>)
    // every step of the chain must find an object member, else the result is undefined
    ensures r.Some? ==> data.JObj? && Get(data.fields, "choices").Some?
    ensures data.JObj? && Get(data.fields, "choices") == Some(JArr([])) ==> r.None?
  {
    JsProp(JsProp(JsIndex0(JsProp(Some(data), "choices")), "message"), "content")
  }

  /** The content the chain finds in a provider answer of the documented shape:
      the `content` member of the first choice's `message`. */
  lemma ContentOfFirstChoice(fields: seq<(string, Json)>, first: seq<(string, Json)>, rest: seq<Json>,
                             message: seq<(string, Json)>)
    requires Get(fields, "choices") == Some(JArr([JObj(first)] + rest))
    requires Get(first, "message") == Some(JObj(message))
    ensures Content(JObj(fields)) == Get(message, "content")
  {
    assert JsIndex0(JsProp(Some(JObj(fields)), "choices")) == Some(JObj(first));
  }

  /** The fetch the route makes for a user input, authorised with the configured key. */
  function Call(apiKey: string, input: Json): HttpCall {
    HttpCall(CompletionsUrl,
      [("Content-Type", "application/json"), ("Authorization", "Bearer " + apiKey)],
      SuggestionRequest(input))
  }

  /** The route handler; `apiKey` is the configured `config.openai.apiKey`. */
  function Post(body: Payload, apiKey: string, outcome: FetchOutcome): (r: Exchange)
    // the provider is called exactly when the destructured userInput is truthy, with that value verbatim
    ensures r.call.Some? <==> Destructure(body).Some? && JsTruthy(Destructure(body).value)
    ensures r.call.Some? ==> r.call.value == Call(apiKey, Destructure(body).value.value)
    ensures r.response == ErrorReply(400, FlaskGenerate.InputRequired) <==>
      Destructure(body).Some? && !JsTruthy(Destructure(body).value)
    // a provider failure status is passed through unchanged when a response can carry it;
    // otherwise building the answer throws and the catch answers the generic 500
    ensures r.call.Some? && outcome.NotOk? ==>
      r.response == if CarriesBody(outcome.status) then ErrorReply(outcome.status, GenerationFailed)
                    else ErrorReply(500, FlaskGenerate.Unexpected)
    ensures r.call.Some? && outcome.Delivered? && outcome.body.Parsed? && outcome.body.value != JNull ==>
      var c := Content(outcome.body.value);
      r.response == if JsTruthy(c) then Reply(200, [("suggestion", c.value)])
                    else ErrorReply(500, FlaskGenerate.InvalidResponse)
    ensures r.call.None? && Destructure(body).None? ==> r.response == ErrorReply(500, FlaskGenerate.Unexpected)
    ensures r.call.Some? && (outcome.Threw? || outcome == Delivered(Parsed(JNull)) || (outcome.Delivered? && outcome.body.Unreadable?)) ==>
      r.response == ErrorReply(500, FlaskGenerate.Unexpected)
  {
    match Destructure(body)
    case None => Exchange(None, ErrorReply(500, FlaskGenerate.Unexpected))
    case Some(input) =>
      if !JsTruthy(input) then Exchange(None, ErrorReply(400, FlaskGenerate.InputRequired))
      else
        var call := Some(Call(apiKey, input.value));
        match outcome
        case Threw => Exchange(call, ErrorReply(500, FlaskGenerate.Unexpected))
        case NotOk(status) =>
          if CarriesBody(status) then Exchange(call, ErrorReply(status, GenerationFailed))
          else Exchange(call, ErrorReply(500, FlaskGenerate.Unexpected))
        case Delivered(Unreadable(_)) => Exchange(call, ErrorReply(500, FlaskGenerate.Unexpected))
        case Delivered(Parsed(data)) =>
          if data == JNull then Exchange(call, ErrorReply(500, FlaskGenerate.Unexpected))
          else
            var c := Content(data);
            if !JsTruthy(c) then Exchange(call, ErrorReply(500, FlaskGenerate.InvalidResponse))
            else Exchange(call, Reply(200, [("suggestion", c.value)]))
  }

  /** The provider body the Python client's choices stand for, with None content as null. */
  function ChoicesJson(contents: seq<Option<string>>): Json {
    JObj([("choices", JArr(seq(|contents|, i requires 0 <= i < |contents| =>
      JObj([("message", JObj([("content", match contents[i] case None => JNull case Some(s) => JStr(s))]))]))))])
  }

  /** The fetch outcome that corresponds to an outcome of the Python client. */
  function Mirror(outcome: Completion): FetchOutcome {
    match outcome
    case Raised(_) => Threw
    case Choices(cs) => Delivered(Parsed(ChoicesJson(cs)))
  }

  /** For an object body whose userInput is not an empty list or dict (where
      Python and JavaScript truthiness agree), the two handlers send the same
      provider request and give the same answer for corresponding provider outcomes. */
  lemma HandlersAgree(fields: seq<(string, Json)>, apiKey: string, outcome: Completion)
    requires GetOr(fields, "userInput", JNull) != JArr([]) && GetOr(fields, "userInput", JNull) != JObj([])
    ensures var py := FlaskGenerate.Generate(FlaskGenerate.Post, Parsed(JObj(fields)), outcome);
            var js := Post(Parsed(JObj(fields)), apiKey, Mirror(outcome));
            && (py.call.Some? <==> js.call.Some?)
            && (js.call.Some? ==> js.call.value.request == py.call.value)
            && js.response == py.response
  {
    var input := GetOr(fields, "userInput", JNull);
    assert Destructure(Parsed(JObj(fields))) == Some(Get(fields, "userInput"));
    assert JsTruthy(Get(fields, "userInput")) == PyTruthy(input);
    if PyTruthy(input) && outcome.Choices? {
      var cs := outcome.contents;
      var data := ChoicesJson(cs);
      assert JsProp(Some(data), "choices") == Some(data.fields[0].1);
      if |cs| > 0 {
        var first := data.fields[0].1.items[0];
        assert JsIndex0(JsProp(Some(data), "choices")) == Some(first);
        assert JsProp(Some(first), "message") == Some(first.fields[0].1);
        assert Content(data) == Some(first.fields[0].1.fields[0].1);
      } else {
        assert JsIndex0(JsProp(Some(data), "choices")) == None;
      }
    }
  }

  /** Where the handlers part ways: an empty list is falsy in Python but truthy
      in JavaScript, so Flask answers 400 while the route calls the provider. */
  lemma EmptyListInputDiverges(apiKey: string, outcome: Completion, fetched: FetchOutcome)
    ensures FlaskGenerate.Generate(FlaskGenerate.Post, Parsed(JObj([("userInput", JArr([]))])), outcome)
            == FlaskGenerate.Exchange(None, ErrorReply(400, FlaskGenerate.InputRequired))
    ensures Post(Parsed(JObj([("userInput", JArr([]))])), apiKey, fetched).call == Some(Call(apiKey, JArr([])))
  {
  }

  /** A provider 304 cannot be passed on: the answer is the generic 500. */
  lemma NotModifiedIsUnexpected(body: Payload, apiKey: string)
    requires Destructure(body).Some? && JsTruthy(Destructure(body).value)
    ensures Post(body, apiKey, NotOk(304)).response == ErrorReply(500, FlaskGenerate.Unexpected)
  {
  }

  /** A body that decodes to a list or string: Flask's `data.get` raises (500),
      while destructuring yields undefined in JavaScript (400). */
  lemma NonObjectBodyDiverges(v: Json, apiKey: string, outcome: Completion, fetched: FetchOutcome)
    requires v.JArr? || v.JStr? || v.JNum? || v.JBool?
    ensures FlaskGenerate.Generate(FlaskGenerate.Post, Parsed(v), outcome).response == ErrorReply(500, FlaskGenerate.Unexpected)
    ensures Post(Parsed(v), apiKey, fetched) == Exchange(None, ErrorReply(400, FlaskGenerate.InputRequired))
  {
  }
}
