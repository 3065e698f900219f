/** The "Current context" text the chat prototype gives the model: one line per
    recent e-mail and one line per upcoming calendar event, built by two loops
    over what the Gmail and Calendar listings returned. */
module ChatContext {
  import opened Json

  /** A message header as the Gmail metadata listing returns it. */
  datatype Header = Header(name: string, value: string)

  /** An upcoming event as the Calendar listing returns it: the `dateTime` and
      `date` of its start, and its summary, each of which may be absent. */
  datatype CalendarEntry = CalendarEntry(dateTime: Option<string>, date: Option<string>, summary: Option<string>)

  const GmailHeading := "\nYour recent emails:\n"
  const CalendarHeading := "\nYour upcoming calendar events:\n"

  /** `next((h['value'] for h in headers if h['name'] == name), default)`. */
  function HeaderValue(headers: seq<Header>, name: string, default: string): string {
    if |headers| == 0 then default
    else if headers[0].name == name then headers[0].value
    else HeaderValue(headers[1..], name, default)
  }

  /** The lookup yields the value of the first header with that name. */
  lemma {:induction false} HeaderValueFirstMatch(headers: seq<Header>, name: string, default: string, i: nat)
    requires i < |headers| && headers[i].name == name
    requires forall j :: 0 <= j < i ==> headers[j].name != name
    ensures HeaderValue(headers, name, default) == headers[i].value
  {
    if i > 0 {
      HeaderValueFirstMatch(headers[1..], name, default, i - 1);
    }
  }

  /** With no header of that name, the lookup yields the default. */
  lemma {:induction false} HeaderValueAbsent(headers: seq<Header>, name: string, default: string)
    requires forall j :: 0 <= j < |headers| ==> headers[j].name != name
    ensures HeaderValue(headers, name, default) == default
  {
    if |headers| > 0 {
      HeaderValueAbsent(headers[1..], name, default);
    }
  }

  /** The context line for one e-mail, from its headers. */
  function EmailLine(headers: seq<Header>): (r: string)
    // one line per e-mail: it starts with the sender field and ends with the line break
    ensures |r| > 8 && r[..8] == "- From: " && r[|r| - 1] == '\n'
  {
    "- From: " + HeaderValue(headers, "From", "Unknown Sender")
      + ", Subject: " + HeaderValue(headers, "Subject", "No Subject") + "\n"
  }

  /** An e-mail is listed with the value of its first From header and of its
      first Subject header, wherever they stand among the headers. */
  lemma EmailLineNamed(headers: seq<Header>, f: nat, s: nat)
    requires f < |headers| && headers[f].name == "From" && forall j :: 0 <= j < f ==> headers[j].name != "From"
    requires s < |headers| && headers[s].name == "Subject" && forall j :: 0 <= j < s ==> headers[j].name != "Subject"
    ensures EmailLine(headers) == "- From: " + headers[f].value + ", Subject: " + headers[s].value + "\n"
  {
    HeaderValueFirstMatch(headers, "From", "Unknown Sender", f);
    HeaderValueFirstMatch(headers, "Subject", "No Subject", s);
  }

  /** An e-mail without From and Subject headers is listed with the defaults. */
  lemma EmailLineDefaults(headers: seq<Header>)
    requires forall j :: 0 <= j < |headers| ==> headers[j].name != "From" && headers[j].name != "Subject"
    ensures EmailLine(headers) == "- From: Unknown Sender, Subject: No Subject\n"
  {
    HeaderValueAbsent(headers, "From", "Unknown Sender");
    HeaderValueAbsent(headers, "Subject", "No Subject");
  }

  /** How an f-string renders an optional value: absent is "None". */
  function Render(v: Option<string>): string {
    match v
    case None => "None"
    case Some(s) => s
  }

  /** The start an event line shows: `dateTime`, or else `date`. */
  function StartText(e: CalendarEntry): (r: string)
    ensures e.dateTime.Some? ==> r == e.dateTime.value
    ensures e.dateTime.None? && e.date.Some? ==> r == e.date.value
    ensures e.dateTime.None? && e.date.None? ==> r == "None"
  {
    if e.dateTime.Some? then e.dateTime.value else Render(e.date)
  }

  /** The context line for one calendar event. */
  function EventLine(e: CalendarEntry): (r: string)
    ensures e.summary.None? ==> r == "- Untitled Event (starts at " + StartText(e) + ")\n"
    ensures e.summary.Some? ==> r == "- " + e.summary.value + " (starts at " + StartText(e) + ")\n"
  {
    var summary := if e.summary.Some? then e.summary.value else "Untitled Event";
    "- " + summary + " (starts at " + StartText(e) + ")\n"
  }

  /** The lines for `xs`, one per element, in order. */
  function Lines<T>(xs: seq<T>, line: T -> string): string {
    if |xs| == 0 then "" else Lines(xs[..|xs| - 1], line) + line(xs[|xs| - 1])
  }

  /** Building lines is compositional: the lines of `a + b` are those of `a`
      followed by those of `b`, so order is kept and nothing is dropped. */
  lemma {:induction false} LinesAppend<T>(a: seq<T>, b: seq<T>, line: T -> string)
    ensures Lines(a + b, line) == Lines(a, line) + Lines(b, line)
  {
    if |b| == 0 {
      assert a + b == a;
    } else {
      assert (a + b)[..|a + b| - 1] == a + b[..|b| - 1];
      LinesAppend(a, b[..|b| - 1], line);
    }
  }

  /** One element contributes exactly its own line. */
  lemma LinesSingle<T>(x: T, line: T -> string)
    ensures Lines([x], line) == line(x)
  {
    assert [x][..0] == [];
  }

  lemma LinesStep<T>(xs: seq<T>, i: nat, line: T -> string)
    requires i < |xs|
    ensures Lines(xs[..i + 1], line) == Lines(xs[..i], line) + line(xs[i])
  {
    assert xs[..i + 1][..i] == xs[..i];
  }

  /** A context section: nothing for an empty listing, otherwise the heading
      and then one line per item. */
  function Section<T>(heading: string, xs: seq<T>, line: T -> string): string {
    if |xs| == 0 then "" else heading + Lines(xs, line)
  }

  /** The e-mail part of the context. */
  function GmailContext(messages: seq<seq<Header>>): string {
    Section(GmailHeading, messages, EmailLine)
  }

  /** The calendar part of the context. */
  function CalendarContext(events: seq<CalendarEntry>): string {
    Section(CalendarHeading, events, EventLine)
  }

  /** The accumulation loop both context parts use (lines 318-331 for e-mails,
      345-350 for events): start from "", and for a non-empty listing set the
      heading and append one line per item. */
  method BuildSection<T>(heading: string, xs: seq<T>, line: T -> string) returns (ctx: string)
    ensures ctx == Section(heading, xs, line)
  {
    ctx := "";
    if |xs| > 0 {
      ctx := heading;
      var i := 0;
      assert xs[..0] == [] && ctx == heading + "";
      while i < |xs|
        invariant 0 <= i <= |xs|
        invariant ctx == heading + Lines(xs[..i], line)
      {
        var next := line(xs[i]);
        LinesStep(xs, i, line);
        assert heading + Lines(xs[..i + 1], line) == (heading + Lines(xs[..i], line)) + next;
        ctx := ctx + next;
        i := i + 1;
      }
      assert xs[..|xs|] == xs;
    }
  }
}
