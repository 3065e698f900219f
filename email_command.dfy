/** The chat prototype's "send email" follow-up: it looks for the
    `send email to: X subject: Y body: Z` command the system prompt asks the
    model to write, takes it apart with split-once and strip, and sends the mail. */
module EmailCommand {
  import opened Json
  import opened Text

  const Trigger := "send email to:"
  const NoBody := "No message content provided"
  /** The text of the IndexError raised by `parts[1]` and `split('to:', 1)[1]`. */
  const IndexErrorText := "list index out of range"

  /** What the parser at lines 432-442 makes of the first line. */
  datatype Command = Malformed | Command(to: string, subject: string, body: string)

  /** Splits a command line: the recipient is the stripped text after the
      first `to:` before the first `subject:`; subject and body split at the
      first `body:`. Without `to:` there, or without `subject:` at all, a list
      index fails. All markers are matched case-sensitively. */
  function ParseCommand(line: string): (r: Command)
    ensures r.Malformed? <==> !Contains(line, "subject:") || !Contains(SplitOnce(line, "subject:")[0], "to:")
    ensures r.Command? && !Contains(SplitOnce(line, "subject:")[1], "body:") ==> r.body == NoBody
  {
    var parts := SplitOnce(line, "subject:");
    var toParts := SplitOnce(parts[0], "to:");
    if |toParts| < 2 || |parts| < 2 then Malformed
    else
      var to := Strip(toParts[1]);
      if Contains(parts[1], "body:") then
        var subjectBody := SplitOnce(parts[1], "body:");
        Command(to, Strip(subjectBody[0]), Strip(subjectBody[1]))
      else
        Command(to, Strip(parts[1]), NoBody)
  }

  /** Every part of a command is stripped of surrounding whitespace; only the
      placeholder body is not taken from the line. */
  lemma ParseCommandStripped(line: string)
    ensures var r := ParseCommand(line);
      r.Command? ==> Stripped(r.to) && Stripped(r.subject) && Stripped(r.body)
  {
    var parts := SplitOnce(line, "subject:");
    var toParts := SplitOnce(parts[0], "to:");
    if |toParts| == 2 && |parts| == 2 {
      var to := Strip(toParts[1]);
      if Contains(parts[1], "body:") {
        var subjectBody := SplitOnce(parts[1], "body:");
        assert Stripped(Strip(subjectBody[0])) && Stripped(Strip(subjectBody[1]));
      } else {
        assert Stripped(Strip(parts[1]));
        assert NoBody[0] == 'N' && NoBody[|NoBody| - 1] == 'd';
      }
    }
  }

  /** The command as the system prompt tells the model to write it (line 48). */
  function Format(to: string, subject: string, body: string): string {
    "send email to: " + to + " subject: " + subject + " body: " + body
  }

  /** An occurrence of `t` at `j` puts `t[m]` at `j + m`. */
  lemma OccurrenceHas(s: string, t: string, j: nat, m: nat)
    requires m < |t| && IsAt(s, t, j)
    ensures s[j + m] == t[m]
  {
    assert s[j..j + |t|][m] == s[j + m];
  }

  /** Where a stretch of `s` lacks the character `t[m]`, no occurrence of `t`
      can put that character there. */
  lemma NoMarkerWhere(s: string, t: string, m: nat, lo: nat, hi: nat)
    requires m < |t|
    requires hi <= |s| && forall k :: lo <= k < hi ==> s[k] != t[m]
    ensures forall j: nat :: lo <= j + m < hi ==> !IsAt(s, t, j)
  {
    forall j: nat | lo <= j + m < hi && IsAt(s, t, j)
      ensures false
    {
      OccurrenceHas(s, t, j, m);
    }
  }

  /** Finding the first occurrence at `p`: it is there and nowhere before. */
  lemma FindIs(s: string, t: string, p: nat)
    requires IsAt(s, t, p)
    requires forall j: nat :: j < p ==> !IsAt(s, t, j)
    ensures Find(s, t) == Some(p)
  {
  }

  /** Splitting at a known first occurrence. */
  lemma SplitAt(s: string, sep: string, a: string, b: string)
    requires s == a + sep + b
    requires forall j: nat :: j < |a| ==> !IsAt(s, sep, j)
    ensures SplitOnce(s, sep) == [a, b]
  {
    assert s[|a|..|a| + |sep|] == sep;
    FindIs(s, sep, |a|);
    assert s[..|a|] == a;
    assert s[|a| + |sep|..] == b;
  }

  /** An occurrence of a space-free `t` that starts inside `x`, or at the
      space right after it, would have to lie within `x`. */
  lemma NoOccurrenceIn(s: string, t: string, lo: nat, x: string)
    requires lo + |x| < |s| && s[lo..lo + |x|] == x && s[lo + |x|] == ' '
    requires ' ' !in t && !Contains(x, t)
    ensures forall j: nat :: lo <= j <= lo + |x| ==> !IsAt(s, t, j)
  {
    forall j: nat | lo <= j <= lo + |x| && IsAt(s, t, j)
      ensures false
    {
      if j + |t| <= lo + |x| {
        forall m | 0 <= m < |t| ensures x[j - lo + m] == t[m] {
          assert x[j - lo + m] == s[lo..lo + |x|][j - lo + m] == s[j + m];
          OccurrenceHas(s, t, j, m);
        }
        assert x[j - lo..j - lo + |t|] == t;
        ContainsAt(x, t, j - lo);
      }
    }
  }

  /** The recipient part: `" " + to + " "` after the first `to:`, which is
      the format's own (a `to:` inside the recipient comes later). */
  lemma HeadSplits(to: string)
    ensures SplitOnce("send email to: " + to + " ", "to:") == ["send email ", " " + to + " "]
  {
    var s := "send email to: " + to + " ";
    assert s == "send email " + "to:" + (" " + to + " ");
    forall k | 0 <= k < 11 ensures s[k] != ':' {
      assert s[k] == "send email "[k];
    }
    NoMarkerWhere(s, "to:", 2, 0, 11);
    assert !IsAt(s, "to:", 9) && !IsAt(s, "to:", 10) by {
      assert s[9..12] == "l t";
      assert s[10..13] == " to";
    }
    SplitAt(s, "to:", "send email ", " " + to + " ");
  }

  /** The subject and body part: `" " + subject + " "` before the first `body:`. */
  lemma RestSplits(subject: string, body: string)
    requires !Contains(subject, "body:")
    ensures SplitOnce(" " + subject + " body: " + body, "body:") == [" " + subject + " ", " " + body]
  {
    var a := " " + subject + " ";
    var s := " " + subject + " body: " + body;
    assert s == a + "body:" + (" " + body);
    assert s[0] == ' ' && s[1..1 + |subject|] == subject && s[1 + |subject|] == ' ';
    assert ' ' !in "body:";
    NoMarkerWhere(s, "body:", 0, 0, 1);
    NoOccurrenceIn(s, "body:", 1, subject);
    SplitAt(s, "body:", a, " " + body);
  }

  /** The line splits at the `subject:` the format put there. */
  lemma LineSplits(to: string, subject: string, body: string)
    requires !Contains(to, "subject:")
    ensures SplitOnce(Format(to, subject, body), "subject:")
      == ["send email to: " + to + " ", " " + subject + " body: " + body]
  {
    var a := "send email to: " + to + " ";
    var b := " " + subject + " body: " + body;
    var s := Format(to, subject, body);
    assert s == a + "subject:" + b;
    // the format's prefix has no `s` after its first character
    forall k | 1 <= k < 15 ensures s[k] != 's' {
      assert s[k] == "send email to: "[k];
    }
    NoMarkerWhere(s, "subject:", 0, 1, 15);
    assert !IsAt(s, "subject:", 0) by {
      assert s[0..8] == "send ema";
    }
    assert s[15..15 + |to|] == to && s[15 + |to|] == ' ';
    assert ' ' !in "subject:";
    NoOccurrenceIn(s, "subject:", 15, to);
    SplitAt(s, "subject:", a, b);
  }

  lemma SpaceIsSpace()
    ensures AllSpace(" ") && AllSpace("")
  {
  }

  /** A line that starts with the trigger, in any case, is triggered. */
  lemma TriggeredByPrefix(line: string, prefix: string)
    requires |prefix| == |Trigger| && prefix <= line
    requires forall k :: 0 <= k < |Trigger| ==> LowerChar(prefix[k]) == Trigger[k]
    ensures Contains(Lower(line), Trigger)
  {
    var low := Lower(line);
    forall k | 0 <= k < |Trigger| ensures low[k] == Trigger[k] {
      assert line[k] == prefix[k];
    }
    assert low[..|Trigger|] == Trigger;
    ContainsAt(low, Trigger, 0);
  }

  /** Parsing inverts formatting: a command written in the prompt's format is
      read back exactly, provided the recipient has no `subject:` and the
      subject no `body:` in it (either would be split at first) and no part
      has surrounding whitespace (strip would remove it). */
  lemma {:induction false} ParseFormatRoundTrip(to: string, subject: string, body: string)
    requires !Contains(to, "subject:") && !Contains(subject, "body:")
    requires Stripped(to) && Stripped(subject) && Stripped(body)
    ensures ParseCommand(Format(to, subject, body)) == Command(to, subject, body)
  {
    LineSplits(to, subject, body);
    HeadSplits(to);
    var rest := " " + subject + " body: " + body;
    RestSplits(subject, body);
    ContainsAt(rest, "body:", |subject| + 2);
    SpaceIsSpace();
    StripSurrounded(" ", to, " ");
    StripSurrounded(" ", subject, " ");
    StripSurrounded(" ", body, "");
    assert " " + body + "" == " " + body;
  }

  /** A subject with its own colon, as in a reply, is read back too. */
  lemma ReplySubjectRoundTrip()
    ensures ParseCommand(Format("a@b.co", "Re: lunch", "See you")) == Command("a@b.co", "Re: lunch", "See you")
  {
    var subject := "Re: lunch";
    forall k | 0 <= k < |subject| ensures subject[k] != 'b' {
      assert subject[k] == "Re: lunch"[k];
    }
    NoMarkerWhere(subject, "body:", 0, 0, |subject|);
    forall k | 0 <= k < |"a@b.co"| ensures "a@b.co"[k] != 's' {
      assert "a@b.co"[k] == "a@b.co"[k];
    }
    NoMarkerWhere("a@b.co", "subject:", 0, 0, |"a@b.co"|);
    assert Stripped("a@b.co") && Stripped(subject) && Stripped("See you");
    ParseFormatRoundTrip("a@b.co", subject, "See you");
  }

  /** The prompt's format always passes the trigger test. */
  lemma FormatIsTriggered(to: string, subject: string, body: string)
    ensures Contains(Lower(Format(to, subject, body)), Trigger)
  {
    TriggeredByPrefix(Format(to, subject, body), "send email to:");
  }

  /** The trigger is case-insensitive but the markers are not: an upper-case
      command passes the trigger test and then fails on the missing `subject:`. */
  lemma UpperCaseCommandIsMalformed()
    ensures Contains(Lower("SEND EMAIL TO: a@b.co SUBJECT: Hi"), Trigger)
    ensures ParseCommand("SEND EMAIL TO: a@b.co SUBJECT: Hi") == Malformed
  {
    var line := "SEND EMAIL TO: a@b.co SUBJECT: Hi";
    TriggeredByPrefix(line, "SEND EMAIL TO:");
    forall k | 0 <= k < |line| ensures line[k] != 's' {
      assert line[k] == "SEND EMAIL TO: a@b.co SUBJECT: Hi"[k];
    }
    NoMarkerWhere(line, "subject:", 0, 0, |line|);
    assert !Contains(line, "subject:");
  }

  /** What the Gmail service at line 426 came to. */
  datatype GmailService = GmailReady | GmailFailed(reason: string)

  /** What `send_email` did: returned a flag, or raised. */
  datatype SendOutcome = SendReturned(success: bool) | SendRaised(reason: string)

  datatype Email = Email(to: string, subject: string, body: string)

  /** The note the follow-up appends to the reply, and the e-mail handed to
      `send_email`, if any. */
  datatype EmailStep = EmailStep(note: string, sent: Option<Email>)

  const ProcessingError := "\n\nAn error occurred while processing the email: "

  /** A trigger on the first line is a trigger in the reply. */
  lemma TriggerOnFirstLine(reply: string)
    ensures Contains(Lower(FirstLine(reply)), Trigger) ==> Contains(Lower(reply), Trigger)
  {
    var line := FirstLine(reply);
    LowerPrefix(reply, |line|);
    if Contains(Lower(line), Trigger) {
      ContainsInPrefix(Lower(reply), |line|, Trigger);
    }
  }

  /** Lines 423-465: what the follow-up appends to `reply` and what it sends.
      `findAddress` is the address regex at line 446. */
  function EmailFollowUp(reply: string, gmail: GmailService, findAddress: string -> Option<string>, send: SendOutcome): (r: EmailStep)
    // an untriggered reply is left alone
    ensures !Contains(Lower(reply), Trigger) ==> r == EmailStep("", None)
    // a mail goes out exactly for a well-formed command on the first line with a recognisable address
    ensures r.sent.Some? <==>
      && Contains(Lower(reply), Trigger) && gmail.GmailReady?
      && Contains(Lower(FirstLine(reply)), Trigger)
      && ParseCommand(FirstLine(reply)).Command?
      && findAddress(ParseCommand(FirstLine(reply)).to).Some?
    ensures r.sent.Some? ==> var c := ParseCommand(FirstLine(reply));
      r.sent.value == Email(findAddress(c.to).value, c.subject, c.body)
    // a malformed command surfaces as the IndexError it raises
    ensures ParseCommand(FirstLine(reply)).Malformed? && Contains(Lower(FirstLine(reply)), Trigger) && gmail.GmailReady? ==>
      r == EmailStep(ProcessingError + IndexErrorText, None)
  {
    if !Contains(Lower(reply), Trigger) then
      TriggerOnFirstLine(reply);
      EmailStep("", None)
    else match gmail
      case GmailFailed(reason) => EmailStep(ProcessingError + reason, None)
      case GmailReady =>
        var line := FirstLine(reply);
        if !Contains(Lower(line), Trigger) then EmailStep("", None)
        else match ParseCommand(line)
          case Malformed => EmailStep(ProcessingError + IndexErrorText, None)
          case Command(to, subject, body) =>
            match findAddress(to)
            case None => EmailStep("\n\nCouldn't extract a valid email address. Please provide a valid email.", None)
            case Some(address) =>
              var email := Some(Email(address, subject, body));
              match send
              case SendReturned(true) => EmailStep("\n\nEmail sent successfully!", email)
              case SendReturned(false) => EmailStep("\n\nFailed to send email. Please try again.", email)
              case SendRaised(reason) => EmailStep("\n\nFailed to send email: " + reason, email)
  }

  /** Notes appended after a line break never change the command line. */
  lemma FirstLineIgnoresAppended(reply: string, note: string)
    ensures FirstLine(reply + "\n" + note) == FirstLine(reply)
  {
    var s := reply + "\n" + note;
    var k := IndexOf(reply, '\n');
    if k < 0 {
      assert s[|reply|] == '\n';
      assert IndexOf(s, '\n') == |reply| by {
        assert forall j :: 0 <= j < |reply| ==> s[j] == reply[j];
      }
      assert s[..|reply|] == reply;
    } else {
      assert s[k] == '\n';
      assert forall j :: 0 <= j < k ==> s[j] == reply[j];
      assert IndexOf(s, '\n') == k;
      assert s[..k] == reply[..k];
    }
  }
}
