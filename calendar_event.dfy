/** The chat prototype's "create event" follow-up: it cuts the `{...}` part out
    of the model's reply, decodes it, builds the Google Calendar event body
    from the `event_details` it carries, and inserts the event. */
module CalendarEvent {
  import opened Json
  import opened Text

  /** `s[s.find("{"):s.rfind("}") + 1]`: from the first `{` to the last `}`.
      Since `find` answers -1 for a missing `{`, the slice then starts at the
      last character; a missing `}` makes the end 0. */
  function JsonSlice(s: string): (r: string)
    ensures var i, j := IndexOf(s, '{'), LastIndexOf(s, '}');
      && (0 <= i <= j ==> r == s[i..j + 1])
      && (0 <= i && j < i ==> r == "")
      && (i < 0 ==> r == if 0 <= j == |s| - 1 then "}" else "")
  {
    PySlice(s, IndexOf(s, '{'), LastIndexOf(s, '}') + 1)
  }

  /** An object written into prose is cut out exactly, whatever it contains,
      when no `{` precedes it and no `}` follows it. */
  lemma JsonSliceEmbedded(before: string, inner: string, after: string)
    requires '{' !in before && '}' !in after
    ensures JsonSlice(before + "{" + inner + "}" + after) == "{" + inner + "}"
  {
    var s := before + "{" + inner + "}" + after;
    var i, j := |before|, |before| + |inner| + 1;
    assert s[i] == '{' && s[j] == '}';
    assert forall k :: 0 <= k < i ==> s[k] == before[k];
    assert forall k :: j < k < |s| ==> s[k] == after[k - j - 1];
    assert IndexOf(s, '{') == i;
    assert LastIndexOf(s, '}') == j;
    assert s[i..j + 1] == "{" + inner + "}";
  }

  const DefaultTimeZone := "America/Phoenix"

  /** The `{'email': e}` entries for the attendees, one per element, in order. */
  function Attendees(emails: seq<Json>): seq<Json> {
    seq(|emails|, i requires 0 <= i < |emails| => JObj([("email", emails[i])]))
  }

  /** `{'dateTime': ..., 'timeZone': ...}` for the start or the end. */
  function When(dateTime: Json, zone: Json): Json {
    JObj([("dateTime", dateTime), ("timeZone", zone)])
  }

  /** The four members every event body starts with. */
  function Fixed(fs: seq<(string, Json)>): seq<(string, Json)> {
    var zone := GetOr(fs, "timezone", JStr(DefaultTimeZone));
    [("summary", GetOr(fs, "summary", JNull)),
     ("description", GetOr(fs, "description", JNull)),
     ("start", When(GetOr(fs, "start_time", JNull), zone)),
     ("end", When(GetOr(fs, "end_time", JNull), zone))]
  }

  /** An inserted key: the member when `present`, nothing otherwise. */
  function Optional(present: bool, key: string, v: Json): seq<(string, Json)> {
    if present then [(key, v)] else []
  }

  /** The attendees entry, for a value that can be iterated. */
  function AttendeeList(attendees: Json): Json {
    if PyIter(attendees).Ok? then JArr(Attendees(PyIter(attendees).value)) else JNull
  }

  /** The event body `create_calendar_event` (lines 733-756) builds from the
      details, or the exception it raises: `.get` on details that are not a
      dict, or iterating attendees that are not iterable. */
  function EventBody(details: Json): (r: Result<seq<(string, Json)>>)
    ensures r.Ok? ==> details.JObj?
  {
    if !details.JObj? then Err(NoGet(details))
    else
      var fs := details.fields;
      var location, attendees, recurrence := GetOr(fs, "location", JNull), GetOr(fs, "attendees", JNull), GetOr(fs, "recurrence", JNull);
      if PyTruthy(attendees) && PyIter(attendees).Err? then Err(PyIter(attendees).error)
      else Ok(Fixed(fs)
        + Optional(PyTruthy(location), "location", location)
        + Optional(PyTruthy(attendees), "attendees", AttendeeList(attendees))
        + Optional(PyTruthy(recurrence), "recurrence", recurrence))
  }

  /** The helper itself: it starts from the four fixed members and inserts
      each optional key in turn when the detail is truthy. */
  method BuildEvent(details: Json) returns (r: Result<seq<(string, Json)>>)
    ensures r == EventBody(details)
  {
    if !details.JObj? {
      return Err(NoGet(details));
    }
    var fs := details.fields;
    var zone := GetOr(fs, "timezone", JStr(DefaultTimeZone));
    var event := [
      ("summary", GetOr(fs, "summary", JNull)),
      ("description", GetOr(fs, "description", JNull)),
      ("start", When(GetOr(fs, "start_time", JNull), zone)),
      ("end", When(GetOr(fs, "end_time", JNull), zone))];
    assert event == Fixed(fs);
    var location := GetOr(fs, "location", JNull);
    if PyTruthy(location) {
      event := event + [("location", location)];
    }
    assert event == Fixed(fs) + Optional(PyTruthy(location), "location", location);
    var attendees := GetOr(fs, "attendees", JNull);
    ghost var before := event;
    if PyTruthy(attendees) {
      match PyIter(attendees)
      case Err(e) =>
        return Err(e);
      case Ok(emails) =>
        event := event + [("attendees", JArr(Attendees(emails)))];
    }
    assert event == before + Optional(PyTruthy(attendees), "attendees", AttendeeList(attendees));
    var recurrence := GetOr(fs, "recurrence", JNull);
    ghost var middle := event;
    if PyTruthy(recurrence) {
      event := event + [("recurrence", recurrence)];
    }
    assert event == middle + Optional(PyTruthy(recurrence), "recurrence", recurrence);
    return Ok(event);
  }

  /** The helper raises exactly for details that are not a dict, or for
      truthy attendees that cannot be iterated. */
  lemma EventBodyFails(details: Json)
    ensures EventBody(details).Err? <==>
      !details.JObj? || (PyTruthy(GetOr(details.fields, "attendees", JNull)) && PyIter(GetOr(details.fields, "attendees", JNull)).Err?)
  {
  }

  /** The fixed members hold the summary and description as given (null when
      absent), and start and end with one and the same time zone, America/Phoenix
      unless the details name one. */
  lemma {:induction false} EventBodyFixed(details: Json)
    requires EventBody(details).Ok?
    ensures var fs, event := details.fields, EventBody(details).value;
      var zone := GetOr(fs, "timezone", JStr(DefaultTimeZone));
      && Get(event, "summary") == Some(GetOr(fs, "summary", JNull))
      && Get(event, "description") == Some(GetOr(fs, "description", JNull))
      && Get(event, "start") == Some(When(GetOr(fs, "start_time", JNull), zone))
      && Get(event, "end") == Some(When(GetOr(fs, "end_time", JNull), zone))
  {
    var fs := details.fields;
    var location, attendees, recurrence := GetOr(fs, "location", JNull), GetOr(fs, "attendees", JNull), GetOr(fs, "recurrence", JNull);
    var rest := Optional(PyTruthy(location), "location", location)
      + Optional(PyTruthy(attendees), "attendees", AttendeeList(attendees))
      + Optional(PyTruthy(recurrence), "recurrence", recurrence);
    assert EventBody(details).value == Fixed(fs) + rest;
    FixedLookup(fs, rest);
  }

  /** The fixed members are found whatever follows them. */
  lemma FixedLookup(fs: seq<(string, Json)>, rest: seq<(string, Json)>)
    ensures var zone := GetOr(fs, "timezone", JStr(DefaultTimeZone));
      && Get(Fixed(fs) + rest, "summary") == Some(GetOr(fs, "summary", JNull))
      && Get(Fixed(fs) + rest, "description") == Some(GetOr(fs, "description", JNull))
      && Get(Fixed(fs) + rest, "start") == Some(When(GetOr(fs, "start_time", JNull), zone))
      && Get(Fixed(fs) + rest, "end") == Some(When(GetOr(fs, "end_time", JNull), zone))
  {
    var f := Fixed(fs);
    assert |"summary"| == 7 && |"description"| == 11 && |"start"| == 5 && |"end"| == 3;
    assert Get(f, "summary") == Some(f[0].1);
    assert Get(f, "description") == Get(f[1..], "description") == Some(f[1].1);
    assert Get(f, "start") == Get(f[1..], "start") == Get(f[2..], "start") == Some(f[2].1) by {
      assert f[1..][1..] == f[2..];
    }
    assert Get(f, "end") == Get(f[1..], "end") == Get(f[2..], "end") == Get(f[3..], "end") == Some(f[3].1) by {
      assert f[1..][1..] == f[2..] && f[2..][1..] == f[3..];
    }
    GetAppend(f, rest, "summary");
    GetAppend(f, rest, "description");
    GetAppend(f, rest, "start");
    GetAppend(f, rest, "end");
  }

  /** A key outside the fixed four is looked up in the optional part. */
  lemma GetPastFixed(fs: seq<(string, Json)>, rest: seq<(string, Json)>, key: string)
    requires key != "summary" && key != "description" && key != "start" && key != "end"
    ensures Get(Fixed(fs) + rest, key) == Get(rest, key)
  {
    GetAppend(Fixed(fs), rest, key);
  }

  /** Looking up one of three distinct optional keys finds its own member. */
  lemma {:induction false} GetOptional(p: bool, q: bool, t: bool, u: Json, v: Json, w: Json)
    ensures var rest := Optional(p, "location", u) + Optional(q, "attendees", v) + Optional(t, "recurrence", w);
      && Get(rest, "location") == (if p then Some(u) else None)
      && Get(rest, "attendees") == (if q then Some(v) else None)
      && Get(rest, "recurrence") == (if t then Some(w) else None)
  {
    var a, b, c := Optional(p, "location", u), Optional(q, "attendees", v), Optional(t, "recurrence", w);
    assert a + b + c == a + (b + c);
    GetAppend(a, b + c, "location");
    GetAppend(a, b + c, "attendees");
    GetAppend(a, b + c, "recurrence");
    GetAppend(b, c, "attendees");
    GetAppend(b, c, "recurrence");
  }

  /** Each optional key is there exactly when its detail is truthy, with the
      detail's value; attendees become `{'email': e}` entries, one per element
      the detail iterates over, in order. */
  lemma {:induction false} EventBodyOptional(details: Json)
    requires EventBody(details).Ok?
    ensures var fs, event := details.fields, EventBody(details).value;
      var location, attendees, recurrence := GetOr(fs, "location", JNull), GetOr(fs, "attendees", JNull), GetOr(fs, "recurrence", JNull);
      && Get(event, "location") == (if PyTruthy(location) then Some(location) else None)
      && Get(event, "recurrence") == (if PyTruthy(recurrence) then Some(recurrence) else None)
      && (Get(event, "attendees").Some? <==> PyTruthy(attendees))
      && (PyTruthy(attendees) ==>
            var emails, entries := PyIter(attendees).value, Get(event, "attendees").value;
            && entries.JArr? && |entries.items| == |emails|
            && forall i :: 0 <= i < |emails| ==> entries.items[i] == JObj([("email", emails[i])]))
  {
    var fs := details.fields;
    var location, attendees, recurrence := GetOr(fs, "location", JNull), GetOr(fs, "attendees", JNull), GetOr(fs, "recurrence", JNull);
    var rest := Optional(PyTruthy(location), "location", location)
      + Optional(PyTruthy(attendees), "attendees", AttendeeList(attendees))
      + Optional(PyTruthy(recurrence), "recurrence", recurrence);
    assert EventBody(details).value == Fixed(fs) + rest;
    GetPastFixed(fs, rest, "location");
    GetPastFixed(fs, rest, "attendees");
    GetPastFixed(fs, rest, "recurrence");
    GetOptional(PyTruthy(location), PyTruthy(attendees), PyTruthy(recurrence), location, AttendeeList(attendees), recurrence);
  }

  /** The member names of an event body. */
  function Keys(fs: seq<(string, Json)>): set<string> {
    set i | 0 <= i < |fs| :: fs[i].0
  }

  lemma KeysAppend(a: seq<(string, Json)>, b: seq<(string, Json)>)
    ensures Keys(a + b) == Keys(a) + Keys(b)
  {
    forall k | k in Keys(a + b) ensures k in Keys(a) + Keys(b) {
      var i :| 0 <= i < |a + b| && (a + b)[i].0 == k;
      if i >= |a| {
        assert b[i - |a|].0 == k;
      }
    }
    forall k | k in Keys(a) + Keys(b) ensures k in Keys(a + b) {
      if k in Keys(a) {
        var i :| 0 <= i < |a| && a[i].0 == k;
        assert (a + b)[i].0 == k;
      } else {
        var i :| 0 <= i < |b| && b[i].0 == k;
        assert (a + b)[|a| + i].0 == k;
      }
    }
  }

  lemma KeysFixed(fs: seq<(string, Json)>)
    ensures Keys(Fixed(fs)) == {"summary", "description", "start", "end"}
  {
    var f := Fixed(fs);
    assert f[0].0 == "summary" && f[1].0 == "description" && f[2].0 == "start" && f[3].0 == "end";
  }

  lemma KeysOptional(present: bool, key: string, v: Json)
    ensures Keys(Optional(present, key, v)) == if present then {key} else {}
  {
    if present {
      assert Optional(present, key, v)[0].0 == key;
    }
  }

  /** The body holds the four fixed members, each optional member whose
      detail is truthy, and nothing else. */
  lemma {:induction false} EventBodyKeys(details: Json)
    requires EventBody(details).Ok?
    ensures var fs := details.fields;
      Keys(EventBody(details).value) == {"summary", "description", "start", "end"}
        + (if PyTruthy(GetOr(fs, "location", JNull)) then {"location"} else {})
        + (if PyTruthy(GetOr(fs, "attendees", JNull)) then {"attendees"} else {})
        + (if PyTruthy(GetOr(fs, "recurrence", JNull)) then {"recurrence"} else {})
  {
    var fs := details.fields;
    var location, attendees, recurrence := GetOr(fs, "location", JNull), GetOr(fs, "attendees", JNull), GetOr(fs, "recurrence", JNull);
    var f := Fixed(fs);
    var a := Optional(PyTruthy(location), "location", location);
    var b := Optional(PyTruthy(attendees), "attendees", AttendeeList(attendees));
    var c := Optional(PyTruthy(recurrence), "recurrence", recurrence);
    assert EventBody(details).value == f + a + b + c;
    KeysAppend(f + a + b, c);
    KeysAppend(f + a, b);
    KeysAppend(f, a);
    KeysFixed(fs);
    KeysOptional(PyTruthy(location), "location", location);
    KeysOptional(PyTruthy(attendees), "attendees", AttendeeList(attendees));
    KeysOptional(PyTruthy(recurrence), "recurrence", recurrence);
  }

  /** What `get_calendar_service()` came to. */
  datatype CalendarService = CalendarReady | CalendarFailed(reason: string)

  /** What `service.events().insert(...).execute()` did. */
  datatype InsertOutcome = InsertDone | InsertRaised(reason: string)

  /** The note the follow-up appends to the reply, and the event body handed
      to the calendar for insertion, if any. */
  datatype EventStep = EventStep(note: string, submitted: Option<seq<(string, Json)>>)

  const DecodeTrouble := "\n\nI had trouble understanding the event details. Could you please provide them again?"
  const CreateError := "\n\nThere was an error creating the event: "
  const RecurringNote := "\nThis is a recurring event."

  /** Whether the reply asks for an event at all (line 393, case-sensitive). */
  predicate AsksForEvent(reply: string) {
    Contains(reply, "action") && Contains(reply, "create_event")
  }

  /** `event_details.get('start_time').replace('Z', '+00:00')` handed to
      `fromisoformat` and `strftime`, which are the `format` parameter; a
      start time that is not a string has no `replace`. */
  function StartTime(start: Json, format: string -> Result<string>): Result<string> {
    if start.JStr? then format(start.s)
    else Err("'" + PyTypeName(start) + "' object has no attribute 'replace'")
  }

  /** The details the decoded reply carries, `{}` when it names none. */
  function Details(data: seq<(string, Json)>): Json {
    GetOr(data, "event_details", JObj([]))
  }

  /** Lines 391-420. `decode` is `json.loads` (None for a JSONDecodeError),
      `format` the time formatting and `show` the f-string rendering of the summary. */
  function EventFollowUp(reply: string, decode: string -> Option<Json>, calendar: CalendarService,
                         insert: InsertOutcome, format: string -> Result<string>, show: Json -> string): (r: EventStep)
    ensures !AsksForEvent(reply) ==> r == EventStep("", None)
    ensures AsksForEvent(reply) && decode(JsonSlice(reply)).None? ==> r == EventStep(DecodeTrouble, None)
    // an event is submitted exactly for a decoded `create_event` action with buildable details and a calendar service
    ensures r.submitted.Some? <==>
      && AsksForEvent(reply)
      && decode(JsonSlice(reply)).Some? && decode(JsonSlice(reply)).value.JObj?
      && GetOr(decode(JsonSlice(reply)).value.fields, "action", JNull) == JStr("create_event")
      && calendar.CalendarReady?
      && EventBody(Details(decode(JsonSlice(reply)).value.fields)).Ok?
    ensures r.submitted.Some? ==> r.submitted == Some(EventBody(Details(decode(JsonSlice(reply)).value.fields)).value)
    // the success note names the recurrence exactly when the event recurs
    ensures r.submitted.Some? && insert.InsertDone? ==>
      var details := Details(decode(JsonSlice(reply)).value.fields).fields;
      match StartTime(GetOr(details, "start_time", JNull), format)
      case Err(e) => r.note == CreateError + e
      case Ok(when) =>
        r.note == "\n\nEvent '" + show(GetOr(details, "summary", JNull)) + "' has been created successfully for " + when + "!"
          + (if PyTruthy(GetOr(details, "recurrence", JNull)) then RecurringNote else "")
    ensures r.submitted.Some? && insert.InsertRaised? ==> r.note == CreateError + insert.reason
  {
    if !AsksForEvent(reply) then EventStep("", None)
    else match decode(JsonSlice(reply))
      case None => EventStep(DecodeTrouble, None)
      case Some(data) =>
        if !data.JObj? then EventStep(CreateError + NoGet(data), None)
        else if GetOr(data.fields, "action", JNull) != JStr("create_event") then EventStep("", None)
        else match calendar
          case CalendarFailed(reason) => EventStep(CreateError + reason, None)
          case CalendarReady =>
            var details := Details(data.fields);
            match EventBody(details)
            case Err(e) => EventStep(CreateError + e, None)
            case Ok(event) =>
              match insert
              case InsertRaised(reason) => EventStep(CreateError + reason, Some(event))
              case InsertDone =>
                var fs := details.fields;
                match StartTime(GetOr(fs, "start_time", JNull), format)
                case Err(e) => EventStep(CreateError + e, Some(event))
                case Ok(when) =>
                  var recurring := if PyTruthy(GetOr(fs, "recurrence", JNull)) then RecurringNote else "";
                  EventStep("\n\nEvent '" + show(GetOr(fs, "summary", JNull)) + "' has been created successfully for " + when + "!" + recurring, Some(event))
  }

  /** An event request without details still creates an event, with null
      summary, description and times in the default zone. */
  lemma MissingDetailsStillCreate()
    ensures EventBody(Details([("action", JStr("create_event"))])) ==
      Ok([("summary", JNull), ("description", JNull),
          ("start", When(JNull, JStr(DefaultTimeZone))), ("end", When(JNull, JStr(DefaultTimeZone)))])
  {
    assert Details([("action", JStr("create_event"))]) == JObj([]);
    assert Fixed([]) + [] + [] + [] == Fixed([]);
  }
}
