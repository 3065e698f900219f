/** The chat prototype's `/chat` endpoints: a store of conversation histories
    keyed by conversation id, one chat turn that reads the history, asks the
    model with the current Gmail and Calendar context, runs the event and
    e-mail follow-ups on the answer and records the exchange, and the
    endpoints that read and clear one history. */
module Conversation {
  import opened Json
  import opened Provider
  import opened Text
  import opened ChatContext
  import CalendarEvent
  import EmailCommand

  /** How many entries a history keeps (line 478). */
  const MaxHistory := 20

  /** A stored history is a run of user/assistant exchanges: user entries at
      even positions, assistant entries at odd ones, so whole turns only. */
  predicate Alternating(h: seq<Message>) {
    |h| % 2 == 0 && forall i :: 0 <= i < |h| ==> h[i].role == (if i % 2 == 0 then User else Assistant)
  }

  /** What every history in the store satisfies. */
  predicate WellFormed(h: seq<Message>) {
    |h| <= MaxHistory && Alternating(h)
  }

  /** Lines 468-479: append the user entry, then the assistant entry, then
      keep only the last twenty. */
  function AppendTurn(h: seq<Message>, user: Message, assistant: Message): (r: seq<Message>)
    ensures |r| == if |h| + 2 > MaxHistory then MaxHistory else |h| + 2
    ensures r[|r| - 2] == user && r[|r| - 1] == assistant
    // what survives is the newest part of the appended list, in order
    ensures r == (h + [user, assistant])[|h| + 2 - |r|..]
    ensures |h| + 2 <= MaxHistory ==> r == h + [user, assistant]
  {
    var full := h + [user, assistant];
    assert |full| == |h| + 2 && full[|full| - 2] == user && full[|full| - 1] == assistant;
    if |full| > MaxHistory then
      var r := full[|full| - MaxHistory..];
      assert r[|r| - 2] == full[|full| - 2] && r[|r| - 1] == full[|full| - 1];
      r
    else
      assert full[0..] == full;
      full
  }

  /** A turn appended to whole turns gives whole turns. */
  lemma AlternatingAppend(h: seq<Message>, user: Message, assistant: Message)
    requires Alternating(h) && user.role == User && assistant.role == Assistant
    ensures Alternating(h + [user, assistant])
  {
    var full := h + [user, assistant];
    forall i | 0 <= i < |full| ensures full[i].role == (if i % 2 == 0 then User else Assistant) {
      if i < |h| { assert full[i] == h[i]; }
    }
  }

  /** Dropping an even number of entries from the front keeps whole turns. */
  lemma AlternatingDrop(h: seq<Message>, d: nat)
    requires Alternating(h) && d <= |h| && d % 2 == 0
    ensures Alternating(h[d..])
  {
    var r := h[d..];
    forall i | 0 <= i < |r| ensures r[i].role == (if i % 2 == 0 then User else Assistant) {
      assert r[i] == h[i + d];
      assert (i + d) % 2 == i % 2 by {
        assert i + d == i + (d / 2) * 2;
      }
    }
  }

  /** A turn keeps a history well formed: the truncation drops an even
      number of entries, so it cuts between whole turns. */
  lemma {:induction false} AppendTurnWellFormed(h: seq<Message>, user: Message, assistant: Message)
    requires WellFormed(h) && user.role == User && assistant.role == Assistant
    ensures WellFormed(AppendTurn(h, user, assistant))
  {
    var full := h + [user, assistant];
    AlternatingAppend(h, user, assistant);
    if |full| > MaxHistory {
      AlternatingDrop(full, |full| - MaxHistory);
    }
  }

  /** A full history loses exactly its oldest turn. */
  lemma FullHistoryDropsOldestTurn(h: seq<Message>, user: Message, assistant: Message)
    requires |h| == MaxHistory
    ensures AppendTurn(h, user, assistant) == h[2..] + [user, assistant]
  {
    var full := h + [user, assistant];
    assert full[2..] == h[2..] + [user, assistant];
  }

  /** Lines 362-380: the persona, the context, the stored history in order,
      and the new user message last. */
  function Prompt(persona: string, context: string, history: seq<Message>, message: Json): (p: seq<Message>)
    ensures |p| == |history| + 3
    ensures p[0] == Message(System, JStr(persona)) && p[1] == Message(System, JStr(context))
    ensures p[2..|p| - 1] == history
    ensures p[|p| - 1] == Message(User, message)
  {
    [Message(System, JStr(persona)), Message(System, JStr(context))] + history + [Message(User, message)]
  }

  /** What reading the Gmail and Calendar context came to. A failure leaves
      whatever e-mail context was built before it: the heading, once the
      listing was non-empty, and a line for each message read. */
  datatype ContextFetch =
    | Fetched(emails: seq<seq<Header>>, events: seq<CalendarEntry>)
    | FetchFailed(listed: bool, emailsRead: seq<seq<Header>>, reason: string)

  const Unavailable := "\nCalendar and Gmail integration currently unavailable.\n"
  const CredentialsMissing := "No valid credentials available"
  const AuthorizeUrl := "http://localhost:5500/calendar/authorize"

  /** A failure whose text names missing credentials stops the turn with a 401. */
  predicate NeedsAuthorization(fetch: ContextFetch) {
    fetch.FetchFailed? && Contains(fetch.reason, CredentialsMissing)
  }

  /** The e-mail context left by a failed fetch. */
  function PartialGmail(listed: bool, read: seq<seq<Header>>): string {
    if listed then GmailHeading + Lines(read, EmailLine) else ""
  }

  /** The second system message: the calendar part, then the e-mail part. */
  function ContextText(fetch: ContextFetch): (r: string)
    ensures |r| >= 16 && r[..16] == "Current context:"
    // after a failure the unavailable note comes straight after the heading
    ensures fetch.FetchFailed? ==> |r| >= 16 + |Unavailable| && r[16..16 + |Unavailable|] == Unavailable
    // after a successful read the calendar part comes first, then the e-mail part
    ensures fetch.Fetched? ==> r == "Current context:" + CalendarContext(fetch.events) + GmailContext(fetch.emails)
  {
    match fetch
    case Fetched(emails, events) => "Current context:" + CalendarContext(events) + GmailContext(emails)
    case FetchFailed(listed, read, _) => "Current context:" + Unavailable + PartialGmail(listed, read)
  }

  /** The answers of the foreign calls the follow-ups make. */
  datatype FollowUpWorld = FollowUpWorld(
    decode: string -> Option<Json>,
    calendar: CalendarEvent.CalendarService,
    insert: CalendarEvent.InsertOutcome,
    format: string -> Result<string>,
    show: Json -> string,
    gmail: EmailCommand.GmailService,
    findAddress: string -> Option<string>,
    send: EmailCommand.SendOutcome)

  /** The reply after both follow-ups, the event submitted and the e-mail sent. */
  datatype Followed = Followed(reply: string, event: Option<seq<(string, Json)>>, email: Option<EmailCommand.Email>)

  /** Lines 391-465: the event follow-up appends its note first, and the
      e-mail follow-up then reads the reply with that note. */
  function FollowUps(reply: string, w: FollowUpWorld): (f: Followed)
    ensures |reply| <= |f.reply| && f.reply[..|reply|] == reply
  {
    var ev := CalendarEvent.EventFollowUp(reply, w.decode, w.calendar, w.insert, w.format, w.show);
    var afterEvent := reply + ev.note;
    var em := EmailCommand.EmailFollowUp(afterEvent, w.gmail, w.findAddress, w.send);
    assert (afterEvent + em.note)[..|reply|] == afterEvent[..|reply|];
    Followed(afterEvent + em.note, ev.submitted, em.sent)
  }

  const NoMessage := "No message provided"
  /** The TypeError text of `None += str`, raised when the model's content is None. */
  const NoneConcat := "unsupported operand type(s) for +=: 'NoneType' and 'str'"

  /** What the handler made of the request body before touching the store. */
  datatype Intake = Refused(response: Response) | Accepted(message: Json, id: Json)

  /** Lines 290-295: `request.json`, `data.get('message')` and the id, defaulting to 'default'. */
  function Take(body: Payload): (r: Intake)
    ensures r.Accepted? ==> PyTruthy(r.message)
    ensures body.Parsed? && body.value.JObj? ==>
      var fs := body.value.fields;
      (r.Refused? <==> !PyTruthy(GetOr(fs, "message", JNull))) &&
      (r.Refused? ==> r.response == ErrorReply(400, NoMessage)) &&
      (r.Accepted? ==> r.message == GetOr(fs, "message", JNull) && r.id == GetOr(fs, "conversation_id", JStr("default")))
  {
    match body
    case Unreadable(reason) => Refused(ErrorReply(500, reason))
    case Parsed(data) =>
      if !data.JObj? then Refused(ErrorReply(500, NoGet(data)))
      else
        var message := GetOr(data.fields, "message", JNull);
        if !PyTruthy(message) then Refused(ErrorReply(400, NoMessage))
        else Accepted(message, GetOr(data.fields, "conversation_id", JStr("default")))
  }

  /** The number a string of decimal digits stands for, most significant first. */
  function DigitsValue(d: string): int {
    if |d| == 0 then 0 else DigitsValue(d[..|d| - 1]) * 10 + (d[|d| - 1] as int - 48)
  }

  /** Python's `str(n)` for an integer. */
  function Decimal(n: int): (r: string)
    ensures |r| > 0
    // the digits of n itself: a sign for a negative number, then the digits of its magnitude
    ensures n >= 0 ==> (forall i :: 0 <= i < |r| ==> '0' <= r[i] <= '9') && DigitsValue(r) == n
    ensures n < 0 ==> r[0] == '-' && (forall i :: 1 <= i < |r| ==> '0' <= r[i] <= '9') && DigitsValue(r[1..]) == -n
    decreases if n < 0 then 1 - n else n
  {
    if n < 0 then
      var r := "-" + Decimal(-n);
      assert r[1..] == Decimal(-n);
      r
    else if n < 10 then [(48 + n) as char]
    else
      var r := Decimal(n / 10) + [(48 + n % 10) as char];
      assert r[..|r| - 1] == Decimal(n / 10);
      r
  }

  /** Distinct integers are written differently. */
  lemma DecimalInjective(a: int, b: int)
    requires Decimal(a) == Decimal(b)
    ensures a == b
  {
    var r := Decimal(a);
    assert r[0] == '-' <==> a < 0;
    assert r[0] == '-' <==> b < 0;
  }

  /** The key `json.dump` writes for a hashable id: a string stays itself,
      anything else becomes its JSON text. */
  function DumpKey(id: Json): (k: string)
    ensures id.JStr? ==> k == id.s
    // a number is written as its own decimal digits, so it can share a key with a string id
    ensures id.JNum? && id.n >= 0 ==> (forall i :: 0 <= i < |k| ==> '0' <= k[i] <= '9') && DigitsValue(k) == id.n
    ensures id.JNum? && id.n < 0 ==> |k| > 0 && k[0] == '-' && DigitsValue(k[1..]) == -id.n
  {
    match id
    case JStr(s) => s
    case JNull => "null"
    case JBool(b) => if b then "true" else "false"
    case JNum(n) => Decimal(n)
    case _ => ""
  }

  /** Distinct numeric ids are saved under distinct keys, so a turn under one
      number leaves the history of any other number alone. */
  lemma DumpKeyKeepsNumbersApart(a: int, b: int)
    requires a != b
    ensures DumpKey(JNum(a)) != DumpKey(JNum(b))
  {
    if DumpKey(JNum(a)) == DumpKey(JNum(b)) {
      DecimalInjective(a, b);
    }
  }

  /** The history a turn starts from. The store is read back from a JSON file,
      so its keys are strings: only a string id can find its history, and any
      other id starts from `[]`. */
  function Lookup(store: map<string, seq<Message>>, id: Json): (h: seq<Message>)
    ensures !id.JStr? ==> h == []
    // a string id finds its stored history, and an unseen one starts from []
    ensures id.JStr? && id.s in store ==> h == store[id.s]
    ensures id.JStr? && id.s !in store ==> h == []
    ensures StoreWellFormed(store) ==> WellFormed(h)
  {
    if id.JStr? && id.s in store then store[id.s] else []
  }

  /** Lines 290-302 and 352-358: the checks that can end a turn before the
      model is asked. Besides the body's, an id that is a list or dict cannot
      key the dict (TypeError), and a context failure that names missing
      credentials answers 401 with the authorisation link. */
  function Admit(body: Payload, fetch: ContextFetch): (r: Intake)
    ensures r.Accepted? ==> Take(body) == r && !r.id.JArr? && !r.id.JObj? && !NeedsAuthorization(fetch)
    ensures Take(body).Refused? ==> r == Take(body)
    // an unhashable id fails before the context is read, whatever the reads would give
    ensures Take(body).Accepted? && (Take(body).id.JArr? || Take(body).id.JObj?) ==>
      r == Refused(ErrorReply(500, "unhashable type: '" + PyTypeName(Take(body).id) + "'"))
    ensures Take(body).Accepted? && !Take(body).id.JArr? && !Take(body).id.JObj? && !NeedsAuthorization(fetch) ==>
      r == Take(body)
    ensures Take(body).Accepted? && NeedsAuthorization(fetch) && !Take(body).id.JArr? && !Take(body).id.JObj? ==>
      r == Refused(Reply(401, [("error", JStr("Authorization required")), ("authorization_url", JStr(AuthorizeUrl))]))
  {
    match Take(body)
    case Refused(response) => Refused(response)
    case Accepted(message, id) =>
      if id.JArr? || id.JObj? then Refused(ErrorReply(500, "unhashable type: '" + PyTypeName(id) + "'"))
      else if NeedsAuthorization(fetch) then
        Refused(Reply(401, [("error", JStr("Authorization required")), ("authorization_url", JStr(AuthorizeUrl))]))
      else Accepted(message, id)
  }

  /** `chat_completion.choices[0].message.content`, and what a None content
      later raises; every failure text becomes the 500 answer. */
  function Answer(completion: Completion): (r: Result<string>)
    ensures r.Ok? <==> completion.Choices? && |completion.contents| > 0 && completion.contents[0].Some?
    ensures r.Ok? ==> r.value == completion.contents[0].value
  {
    match completion
    case Raised(reason) => Err(reason)
    case Choices(cs) =>
      if |cs| == 0 then Err(EmailCommand.IndexErrorText)
      else if cs[0].None? then Err(NoneConcat)
      else Ok(cs[0].value)
  }

  /** The store after recording an exchange, filed under the key the id is saved as. */
  function Record(store: map<string, seq<Message>>, id: Json, message: Json, reply: string): map<string, seq<Message>> {
    store[DumpKey(id) := AppendTurn(Lookup(store, id), Message(User, message), Message(Assistant, JStr(reply)))]
  }

  /** Recording adds or replaces the one entry the id is saved under, which
      ends with the exchange, and keeps every other entry. */
  lemma RecordTouchesOnlyItsEntry(store: map<string, seq<Message>>, id: Json, message: Json, reply: string)
    ensures var r := Record(store, id, message, reply);
      && r.Keys == store.Keys + {DumpKey(id)}
      && (forall k :: k in store && k != DumpKey(id) ==> r[k] == store[k])
      && var h := r[DumpKey(id)];
      && 2 <= |h| <= MaxHistory && h[|h| - 2] == Message(User, message) && h[|h| - 1] == Message(Assistant, JStr(reply))
  {
    var h := AppendTurn(Lookup(store, id), Message(User, message), Message(Assistant, JStr(reply)));
    var r := Record(store, id, message, reply);
    assert r == store[DumpKey(id) := h];
    assert r[DumpKey(id)] == h;
  }

  /** What one chat turn did: the prompt sent to the model, if any, the event
      and e-mail the follow-ups sent out, and the answer. */
  datatype ChatResult = ChatResult(
    prompt: Option<seq<Message>>,
    event: Option<seq<(string, Json)>>,
    email: Option<EmailCommand.Email>,
    response: Response)

  /** A turn's result and the store it leaves behind. */
  datatype Turned = Turned(result: ChatResult, store: map<string, seq<Message>>)

  /** Lines 287-491 as one function of the store and the foreign answers.
      `persona` is the fixed system prompt, `fetch` the context reads,
      `completion` the model's answer to the prompt. The store is written
      back only at the end, so every failure leaves it as it was. */
  function Turn(store: map<string, seq<Message>>, persona: string, body: Payload,
                fetch: ContextFetch, completion: Completion, w: FollowUpWorld): (t: Turned)
    // a turn refused before the model is asked has no effect at all
    ensures t.result.prompt.None? ==> t.store == store && t.result.event.None? && t.result.email.None?
    // only a turn that asked the model can answer 200
    ensures t.result.response.status == 200 ==> t.result.prompt.Some?
  {
    match Admit(body, fetch)
    case Refused(response) => Turned(ChatResult(None, None, None, response), store)
    case Accepted(message, id) =>
      var prompt := Prompt(persona, ContextText(fetch), Lookup(store, id), message);
      match Answer(completion)
      case Err(e) => Turned(ChatResult(Some(prompt), None, None, ErrorReply(500, e)), store)
      case Ok(reply) =>
        var f := FollowUps(reply, w);
        Turned(ChatResult(Some(prompt), f.event, f.email, Reply(200, [("response", JStr(f.reply)), ("conversation_id", id)])),
          Record(store, id, message, f.reply))
  }

  /** Every history in the store is well formed. */
  predicate StoreWellFormed(store: map<string, seq<Message>>) {
    forall k :: k in store ==> WellFormed(store[k])
  }

  /** Only a successful turn changes the store, and then only the entry for
      its own id; a refused message, an unhashable id, a missing
      authorisation and a failed model call leave it as it was. */
  lemma TurnTouchesOnlyItsEntry(store: map<string, seq<Message>>, persona: string, body: Payload,
                                fetch: ContextFetch, completion: Completion, w: FollowUpWorld)
    ensures var t := Turn(store, persona, body, fetch, completion, w);
      && (t.result.response.status != 200 ==> t.store == store)
      && (t.result.response.status == 200 ==>
            && body.Parsed? && body.value.JObj?
            && var id := GetOr(body.value.fields, "conversation_id", JStr("default"));
            && t.store.Keys == store.Keys + {DumpKey(id)}
            && forall k :: k in store && k != DumpKey(id) ==> t.store[k] == store[k])
  {
    var a := Admit(body, fetch);
    if a.Accepted? && Answer(completion).Ok? {
      assert a == Take(body);
      RecordTouchesOnlyItsEntry(store, a.id, a.message, FollowUps(Answer(completion).value, w).reply);
    }
  }

  /** A successful turn records the user's message and the full reply, with
      the follow-up notes, as the newest exchange of the id's history, which
      stays within twenty entries; a short history simply grows by the two. */
  lemma TurnRecordsExchange(store: map<string, seq<Message>>, persona: string, fields: seq<(string, Json)>,
                            fetch: ContextFetch, completion: Completion, w: FollowUpWorld)
    requires Admit(Parsed(JObj(fields)), fetch).Accepted? && Answer(completion).Ok?
    ensures var id := GetOr(fields, "conversation_id", JStr("default"));
      var message := GetOr(fields, "message", JNull);
      var old_ := Lookup(store, id);
      var full := FollowUps(Answer(completion).value, w).reply;
      var t := Turn(store, persona, Parsed(JObj(fields)), fetch, completion, w);
      && t.result.response == Reply(200, [("response", JStr(full)), ("conversation_id", id)])
      && t.result.prompt == Some(Prompt(persona, ContextText(fetch), old_, message))
      && DumpKey(id) in t.store
      && var h := t.store[DumpKey(id)];
      && |h| <= MaxHistory
      && h[|h| - 2] == Message(User, message) && h[|h| - 1] == Message(Assistant, JStr(full))
      && (|old_| + 2 <= MaxHistory ==> h == old_ + [Message(User, message), Message(Assistant, JStr(full))])
  {
  }

  /** Recording an exchange keeps every history in the store well formed. */
  lemma RecordKeepsStoreWellFormed(store: map<string, seq<Message>>, id: Json, message: Json, reply: string)
    requires StoreWellFormed(store)
    ensures StoreWellFormed(Record(store, id, message, reply))
  {
    assert WellFormed(Lookup(store, id));
    AppendTurnWellFormed(Lookup(store, id), Message(User, message), Message(Assistant, JStr(reply)));
  }

  /** A turn keeps every history in the store well formed. */
  lemma TurnKeepsStoreWellFormed(store: map<string, seq<Message>>, persona: string, body: Payload,
                                 fetch: ContextFetch, completion: Completion, w: FollowUpWorld)
    requires StoreWellFormed(store)
    ensures StoreWellFormed(Turn(store, persona, body, fetch, completion, w).store)
  {
    var admitted := Admit(body, fetch);
    if admitted.Accepted? && Answer(completion).Ok? {
      RecordKeepsStoreWellFormed(store, admitted.id, admitted.message, FollowUps(Answer(completion).value, w).reply);
    }
  }

  /** Without a conversation id the turn is filed under "default". */
  lemma DefaultConversation(store: map<string, seq<Message>>, persona: string, fields: seq<(string, Json)>,
                            fetch: ContextFetch, completion: Completion, w: FollowUpWorld)
    requires Admit(Parsed(JObj(fields)), fetch).Accepted? && Answer(completion).Ok?
    requires Get(fields, "conversation_id").None?
    ensures Turn(store, persona, Parsed(JObj(fields)), fetch, completion, w).store
      == Record(store, JStr("default"), GetOr(fields, "message", JNull), FollowUps(Answer(completion).value, w).reply)
  {
    var a := Admit(Parsed(JObj(fields)), fetch);
    assert a == Take(Parsed(JObj(fields)));
    assert a.id == JStr("default") && a.message == GetOr(fields, "message", JNull);
    var reply := FollowUps(Answer(completion).value, w).reply;
    assert Turn(store, persona, Parsed(JObj(fields)), fetch, completion, w).store == Record(store, a.id, a.message, reply);
  }

  /** An id that is not a string never finds its history: the store's keys
      come back from the file as strings, so every turn starts over and the
      entry under the id's JSON text holds only the latest exchange. */
  lemma NumericIdStartsOver(store: map<string, seq<Message>>, persona: string, fields: seq<(string, Json)>, n: int,
                            fetch: ContextFetch, completion: Completion, w: FollowUpWorld)
    requires Admit(Parsed(JObj(fields)), fetch).Accepted? && Answer(completion).Ok?
    requires GetOr(fields, "conversation_id", JStr("default")) == JNum(n)
    ensures var t := Turn(store, persona, Parsed(JObj(fields)), fetch, completion, w).store;
      && Decimal(n) in t
      && t[Decimal(n)] == [Message(User, GetOr(fields, "message", JNull)), Message(Assistant, JStr(FollowUps(Answer(completion).value, w).reply))]
  {
    var turn := [Message(User, GetOr(fields, "message", JNull)), Message(Assistant, JStr(FollowUps(Answer(completion).value, w).reply))];
    var a := Admit(Parsed(JObj(fields)), fetch);
    assert a == Take(Parsed(JObj(fields)));
    assert a.id == JNum(n) && a.message == GetOr(fields, "message", JNull);
    assert Lookup(store, JNum(n)) == [];
    assert [] + turn == turn;
    var reply := FollowUps(Answer(completion).value, w).reply;
    assert Turn(store, persona, Parsed(JObj(fields)), fetch, completion, w).store == Record(store, a.id, a.message, reply);
    assert Record(store, a.id, a.message, reply)[Decimal(n)] == AppendTurn([], turn[0], turn[1]);
  }

  /** A numeric id and the string of its digits share one entry of the saved
      store: a turn under the number replaces the history of the string id. */
  lemma NumericIdSharesStringEntry(store: map<string, seq<Message>>, n: int, message: Json, reply: string)
    ensures Lookup(Record(store, JNum(n), message, reply), JStr(Decimal(n)))
      == [Message(User, message), Message(Assistant, JStr(reply))]
  {
    assert Lookup(store, JNum(n)) == [];
    assert [] + [Message(User, message), Message(Assistant, JStr(reply))] == [Message(User, message), Message(Assistant, JStr(reply))];
  }

  /** The serialised history `get_chat_history` answers with (lines 494-501). */
  function HistoryReply(store: map<string, seq<Message>>, id: string): (r: Response)
    ensures var h := if id in store then store[id] else [];
      && r.status == 200 && r.body.JsonBody? && r.body.value.JObj?
      && Get(r.body.value.fields, "history").Some?
      && var items := Get(r.body.value.fields, "history").value;
      && items.JArr? && |items.items| == |h|
      && forall i :: 0 <= i < |h| ==> items.items[i] == MessageJson(h[i])
  {
    var h := if id in store then store[id] else [];
    Reply(200, [("history", JArr(seq(|h|, i requires 0 <= i < |h| => MessageJson(h[i]))))])
  }

  const Cleared := "Conversation history cleared"

  /** Lines 304-358: the two context parts, built by their loops, or the
      unavailable note in place of the calendar part after a failure. */
  method GatherContext(fetch: ContextFetch) returns (context: string)
    ensures context == ContextText(fetch)
  {
    var calendarContext, gmailContext := "", "";
    match fetch {
      case Fetched(emails, events) =>
        gmailContext := BuildSection(GmailHeading, emails, EmailLine);
        calendarContext := BuildSection(CalendarHeading, events, EventLine);
      case FetchFailed(listed, read, _) =>
        gmailContext := PartialGmail(listed, read);
        calendarContext := Unavailable;
    }
    context := "Current context:" + calendarContext + gmailContext;
  }

  /** Lines 362-380: the list starts with the two system messages, is
      extended by the history and gets the user message appended. */
  method AssemblePrompt(persona: string, context: string, history: seq<Message>, message: Json) returns (messages: seq<Message>)
    ensures messages == Prompt(persona, context, history, message)
  {
    messages := [Message(System, JStr(persona)), Message(System, JStr(context))];
    messages := messages + history;
    messages := messages + [Message(User, message)];
  }

  /** The store of conversation histories, as `chat` and the two history
      endpoints change it in place. */
  class ConversationStore {
    /** The assistant persona the prototype puts first in every prompt. */
    const persona: string
    var histories: map<string, seq<Message>>

    ghost predicate Valid()
      reads this
    {
      StoreWellFormed(histories)
    }

    /** An empty store, as when no history file exists yet. */
    constructor (persona: string)
      ensures Valid() && this.persona == persona && histories == map[]
    {
      this.persona := persona;
      histories := map[];
    }

    /** One POST to `/chat`. */
    method Chat(body: Payload, fetch: ContextFetch, completion: Completion, w: FollowUpWorld) returns (r: ChatResult)
      requires Valid()
      modifies this
      ensures Valid()
      ensures var t := Turn(old(histories), persona, body, fetch, completion, w);
        r == t.result && histories == t.store
    {
      ghost var before := histories;
      var intake := Admit(body, fetch);
      if intake.Refused? {
        return ChatResult(None, None, None, intake.response);
      }
      var message, id := intake.message, intake.id;
      var history := Lookup(histories, id);
      var context := GatherContext(fetch);
      var messages := AssemblePrompt(persona, context, history, message);
      var answer := Answer(completion);
      if answer.Err? {
        return ChatResult(Some(messages), None, None, ErrorReply(500, answer.error));
      }
      var f := FollowUps(answer.value, w);
      RecordKeepsStoreWellFormed(histories, id, message, f.reply);
      var updated := history + [Message(User, message), Message(Assistant, JStr(f.reply))];
      if |updated| > MaxHistory {
        updated := updated[|updated| - MaxHistory..];
      }
      assert updated == AppendTurn(history, Message(User, message), Message(Assistant, JStr(f.reply)));
      histories := histories[DumpKey(id) := updated];
      assert histories == Record(before, id, message, f.reply);
      return ChatResult(Some(messages), f.event, f.email, Reply(200, [("response", JStr(f.reply)), ("conversation_id", id)]));
    }

    /** GET `/chat/history/<id>`. */
    method History(id: string) returns (r: Response)
      ensures r == HistoryReply(histories, id)
    {
      r := HistoryReply(histories, id);
    }

    /** DELETE `/chat/history/<id>`: the entry is gone, every other one kept. */
    method Clear(id: string) returns (r: Response)
      requires Valid()
      modifies this
      ensures Valid()
      ensures histories == old(histories) - {id}
      ensures r == Reply(200, [("message", JStr(Cleared))])
    {
      if id in histories {
        histories := histories - {id};
      }
      r := Reply(200, [("message", JStr(Cleared))]);
    }
  }
}
