/** The Flask `/api/generate` handler: from the HTTP method, the request body
    and the outcome of the provider call to the response, together with the
    provider request the handler issued, if any. */
module FlaskGenerate {
  import opened Json
  import opened Provider

  /** The route accepts POST and OPTIONS; Flask itself answers 405 to the rest. */
  datatype Method = Post | Options

  /** What one request did: the provider call it made, and what it answered. */
  datatype Exchange = Exchange(call: Option<ChatRequest>, response: Response)

  const InputRequired := "User input is required"
  const InvalidResponse := "Invalid response from AI service"
  const Unexpected := "An unexpected error occurred"

  /** `data.get('userInput')` after `request.get_json()`: `None` when either
      step raises (a body that does not decode, or decodes to anything but an object). */
  function UserInput(body: Payload): (r: Option<Json>)
    ensures r.Some? <==> body.Parsed? && body.value.JObj?
    // a missing member reads as None
    ensures r.Some? && Get(body.value.fields, "userInput").None? ==> r.value == JNull
    ensures r.Some? && Get(body.value.fields, "userInput").Some? ==> r == Get(body.value.fields, "userInput")
  {
    match body
    case Parsed(JObj(fs)) => Some(GetOr(fs, "userInput", JNull))
    case _ => None
  }

  /** The handler. Every exception inside the `try` becomes the same generic 500. */
  function Generate(verb: Method, body: Payload, outcome: Completion): (r: Exchange)
    ensures verb.Options? ==> r == Exchange(None, Response(204, NoContent))
    // the provider is called exactly when a POST carries a truthy userInput, and with that value verbatim
    ensures r.call.Some? <==> verb.Post? && UserInput(body).Some? && PyTruthy(UserInput(body).value)
    ensures r.call.Some? ==> r.call.value == SuggestionRequest(UserInput(body).value)
    ensures r.response.status == 400 <==> verb.Post? && UserInput(body).Some? && !PyTruthy(UserInput(body).value)
    ensures r.response.status == 400 ==> r.response == ErrorReply(400, InputRequired)
    ensures r.response.status == 200 <==> r.call.Some? && Usable(outcome)
    ensures r.response.status == 200 ==>
      r.response == Reply(200, [("suggestion", JStr(outcome.contents[0].value))])
    ensures r.response == ErrorReply(500, InvalidResponse) <==> r.call.Some? && outcome.Choices? && !Usable(outcome)
    ensures r.response.status !in {200, 204, 400} ==>
      r.response == ErrorReply(500, InvalidResponse) || r.response == ErrorReply(500, Unexpected)
  {
    if verb.Options? then Exchange(None, Response(204, NoContent))
    else if UserInput(body).None? then Exchange(None, ErrorReply(500, Unexpected))
    else
        var input := UserInput(body).value;
        if !PyTruthy(input) then Exchange(None, ErrorReply(400, InputRequired))
        else
          var call := Some(SuggestionRequest(input));
          match outcome
          case Raised(_) => Exchange(call, ErrorReply(500, Unexpected))
          case Choices(cs) =>
            if !Usable(outcome) then Exchange(call, ErrorReply(500, InvalidResponse))
            else Exchange(call, Reply(200, [("suggestion", JStr(cs[0].value))]))
  }

  /** The input is neither trimmed nor length-checked: any non-empty string,
      whitespace included, reaches the provider as the user message unchanged. */
  lemma NoTrimmingOrMinimumLength(input: string, outcome: Completion)
    requires input != ""
    ensures var r := Generate(Post, Parsed(JObj([("userInput", JStr(input))])), outcome);
      r.call == Some(SuggestionRequest(JStr(input))) && r.call.value.messages[1].content == JStr(input)
  {
  }

  /** A body that decodes to something other than an object makes `data.get`
      raise, so the answer is the generic 500, not 400, and nothing is sent. */
  lemma NonObjectBodyIsUnexpected(v: Json, outcome: Completion)
    requires !v.JObj?
    ensures Generate(Post, Parsed(v), outcome) == Exchange(None, ErrorReply(500, Unexpected))
  {
  }
}
