/** The contact form (src/app/api/contact/route.ts): all four fields are required, the
    email must match `^[^\s@]+@[^\s@]+\.[^\s@]+$`, and the message is sent to the site's
    inbox with every newline of the message turned into `<br>`. */
module Contact {
  import opened Common

  const DefaultRecipient: string := "familyappconnect@gmail.com"

  /** The characters JavaScript's `\s` class matches: WhiteSpace and LineTerminator. */
  predicate IsWhitespace(c: char)
  {
    c == '\t' || c == '\n' || c == '\U{000B}' || c == '\U{000C}' || c == '\r' || c == ' '
    || c == '\U{00A0}' || c == '\U{1680}' || ('\U{2000}' <= c <= '\U{200A}')
    || c == '\U{2028}' || c == '\U{2029}' || c == '\U{202F}' || c == '\U{205F}'
    || c == '\U{3000}' || c == '\U{FEFF}'
  }

  /** A character of the class `[^\s@]`. */
  predicate Plain(c: char)
  {
    !IsWhitespace(c) && c != '@'
  }

  predicate AllPlain(s: string)
  {
    forall i :: 0 <= i < |s| ==> Plain(s[i])
  }

  /** The first position of `c` in `s`, if any. */
  function IndexOf(s: string, c: char): (r: Option<nat>)
    ensures r.Some? ==> r.value < |s| && s[r.value] == c && c !in s[..r.value]
    ensures r.None? ==> c !in s
  {
    if s == [] then None
    else if s[0] == c then Some(0)
    else match IndexOf(s[1..], c)
      case None => None
      case Some(i) => Some(i + 1)
  }

  /** `d` has a '.' with at least one character on each side of it. */
  predicate HasInnerDot(d: string)
  {
    |d| >= 3 && '.' in d[1..|d| - 1]
  }

  /** The test applied to the two sides of the '@' at position `at`. */
  predicate AcceptsSplit(s: string, at: nat)
    requires at < |s|
  {
    at > 0 && AllPlain(s[..at]) && AllPlain(s[at + 1..]) && HasInnerDot(s[at + 1..])
  }

  /** The language of `^[^\s@]+@[^\s@]+\.[^\s@]+$`, read off the pattern piece by piece. */
  ghost predicate RegexMatch(s: string)
  {
    exists local: string, host: string, tld: string ::
      && |local| > 0 && |host| > 0 && |tld| > 0
      && AllPlain(local) && AllPlain(host) && AllPlain(tld)
      && s == local + "@" + host + "." + tld
  }

  lemma AllPlainSlice(s: string, i: nat, j: nat)
    requires AllPlain(s) && i <= j <= |s|
    ensures AllPlain(s[i..j])
  {
  }

  lemma SplitAround(s: string, i: nat)
    requires i < |s|
    ensures s == s[..i] + ([s[i]] + s[i + 1..])
  {
  }

  lemma RegexMatchIntro(s: string, local: string, host: string, tld: string)
    requires |local| > 0 && |host| > 0 && |tld| > 0
    requires AllPlain(local) && AllPlain(host) && AllPlain(tld)
    requires s == local + (['@'] + (host + (['.'] + tld)))
    ensures RegexMatch(s)
  {
    assert s == local + "@" + host + "." + tld;
  }

  /** Splitting at the first '@' and accepting both sides implies the pattern matches. */
  lemma SplitMatchesRegex(s: string, at: nat)
    requires IndexOf(s, '@') == Some(at) && AcceptsSplit(s, at)
    ensures RegexMatch(s)
  {
    var local, d := s[..at], s[at + 1..];
    assert at > 0 && AllPlain(local) && AllPlain(d) && HasInnerDot(d);
    var j :| 1 <= j < |d| - 1 && d[j] == '.';
    var host, tld := d[..j], d[j + 1..];
    AllPlainSlice(d, 0, j);
    AllPlainSlice(d, j + 1, |d|);
    SplitAround(d, j);
    SplitAround(s, at);
    assert s[at] == '@' && d[j] == '.';
    RegexMatchIntro(s, local, host, tld);
  }

  /** Conversely, a match of the pattern has its first '@' right after the local part,
      and both sides of it pass the test. */
  lemma RegexMatchSplits(s: string, local: string, host: string, tld: string)
    requires |local| > 0 && |host| > 0 && |tld| > 0
    requires AllPlain(local) && AllPlain(host) && AllPlain(tld)
    requires s == local + "@" + host + "." + tld
    ensures IndexOf(s, '@') == Some(|local|) && AcceptsSplit(s, |local|)
  {
    var n := |local|;
    assert s[n] == '@';
    var r := IndexOf(s, '@');
    assert r.Some? by { assert s[n] in s; }
    assert forall k :: 0 <= k < n ==> s[k] == local[k];
    assert r.value == n;
    assert s[..n] == local;
    var d := s[n + 1..];
    assert d == host + "." + tld;
    forall k | 0 <= k < |d| ensures Plain(d[k]) {
      if k < |host| {
        assert d[k] == host[k];
      } else if k > |host| {
        assert d[k] == tld[k - |host| - 1];
      }
    }
    assert d[1..|d| - 1][|host| - 1] == '.';
  }

  /** Splitting at the first '@' accepts a string exactly when the pattern matches it. */
  lemma FirstSplitIffRegex(s: string)
    ensures (IndexOf(s, '@').Some? && AcceptsSplit(s, IndexOf(s, '@').value)) <==> RegexMatch(s)
  {
    if IndexOf(s, '@').Some? && AcceptsSplit(s, IndexOf(s, '@').value) {
      SplitMatchesRegex(s, IndexOf(s, '@').value);
    }
    if RegexMatch(s) {
      var local, host, tld :|
        && |local| > 0 && |host| > 0 && |tld| > 0
        && AllPlain(local) && AllPlain(host) && AllPlain(tld)
        && s == local + "@" + host + "." + tld;
      RegexMatchSplits(s, local, host, tld);
    }
  }

  /** The email check: split at the first '@', then test both sides. It accepts exactly
      the strings the regular expression matches. */
  function ValidEmail(s: string): (b: bool)
    ensures b <==> RegexMatch(s)
  {
    FirstSplitIffRegex(s);
    match IndexOf(s, '@')
    case None => false
    case Some(at) => AcceptsSplit(s, at)
  }

  /** What an accepted address looks like: no whitespace, exactly one '@' with a
      non-empty local part before it, and a '.' after it with text on both sides. */
  lemma ValidEmailShape(s: string, at: nat)
    requires ValidEmail(s) && at < |s| && s[at] == '@'
    ensures 0 < at
    ensures forall k :: 0 <= k < |s| && s[k] == '@' ==> k == at
    ensures exists j :: at + 1 < j < |s| - 1 && s[j] == '.'
    ensures forall k :: 0 <= k < |s| ==> !IsWhitespace(s[k])
  {
    var first := IndexOf(s, '@').value;
    var d := s[first + 1..];
    assert forall k :: 0 <= k < |d| ==> d[k] == s[first + 1 + k];
    forall k | 0 <= k < |s| ensures !IsWhitespace(s[k]) {
      if k < first {
        assert s[..first][k] == s[k];
      } else if k > first {
        assert d[k - first - 1] == s[k];
      }
    }
    var j :| 1 <= j < |d| - 1 && d[j] == '.';
    assert s[first + 1 + j] == '.';
  }

  /** `message.replace(/\n/g, '<br>')`: no line feed survives the replacement. */
  function ReplaceNewlines(s: string): (r: string)
    ensures '\n' !in r
  {
    if s == [] then []
    else
      var head := if s[0] == '\n' then "<br>" else [s[0]];
      assert '\n' !in head;
      head + ReplaceNewlines(s[1..])
  }

  function CountChar(s: string, c: char): nat
  {
    if s == [] then 0 else (if s[0] == c then 1 else 0) + CountChar(s[1..], c)
  }

  /** Each newline grows the text by three characters ("\n" becomes four), nothing else changes length. */
  lemma {:induction false} ReplaceNewlinesLength(s: string)
    ensures |ReplaceNewlines(s)| == |s| + 3 * CountChar(s, '\n')
  {
    if s != [] {
      ReplaceNewlinesLength(s[1..]);
    }
  }

  /** The replacement works piecewise: it distributes over concatenation. */
  lemma {:induction false} ReplaceNewlinesAppend(a: string, b: string)
    ensures ReplaceNewlines(a + b) == ReplaceNewlines(a) + ReplaceNewlines(b)
  {
    if a == [] {
      assert a + b == b;
    } else {
      assert (a + b)[1..] == a[1..] + b;
      ReplaceNewlinesAppend(a[1..], b);
    }
  }

  /** Text without newlines passes through unchanged. */
  lemma {:induction false} ReplaceNewlinesKeepsOtherText(s: string)
    requires '\n' !in s
    ensures ReplaceNewlines(s) == s
  {
    if s != [] {
      assert s[0] != '\n';
      assert '\n' !in s[1..] by {
        forall k | 0 <= k < |s[1..]| ensures s[1..][k] != '\n' { assert s[1..][k] == s[k + 1]; }
      }
      ReplaceNewlinesKeepsOtherText(s[1..]);
      assert s == [s[0]] + s[1..];
    }
  }

  /** A line feed after newline-free text becomes `<br>`, and the rest is rewritten in turn. */
  lemma ReplaceNewlinesAtNewline(a: string, b: string)
    requires '\n' !in a
    ensures ReplaceNewlines(a + "\n" + b) == a + "<br>" + ReplaceNewlines(b)
  {
    assert a + "\n" + b == a + ("\n" + b);
    ReplaceNewlinesAppend(a, "\n" + b);
    ReplaceNewlinesKeepsOtherText(a);
    assert ("\n" + b)[0] == '\n' && ("\n" + b)[1..] == b;
  }

  datatype ContactForm = ContactForm(fullName: Option<string>, email: Option<string>,
                                     phone: Option<string>, message: Option<string>)

  datatype ContactResponse = FieldsRequired | InvalidEmail | MessageSent | SendFailed
  {
    function Status(): int
    {
      match this
      case FieldsRequired => 400
      case InvalidEmail => 400
      case MessageSent => 200
      case SendFailed => 500
    }
  }

  /** The response and the mail handed to the email service, if the route got that far. */
  datatype ContactOutcome = ContactOutcome(response: ContactResponse, attempted: Option<Mail>)

  predicate AllFieldsPresent(form: ContactForm)
  {
    Present(form.fullName) && Present(form.email) && Present(form.phone) && Present(form.message)
  }

  /** The fixed text of the notification's HTML around the submitted values. */
  const HtmlHead: string := "\n        <h1>New Contact Form Submission</h1>\n        <p><strong>Name:</strong> "
  const HtmlMailto: string := "</p>\n        <p><strong>Email:</strong> <a href=\"mailto:"
  const HtmlTel: string := "\n        <p><strong>Phone:</strong> <a href=\"tel:"
  const HtmlLinkEnd: string := "\">"
  const HtmlLinkClose: string := "</a></p>"
  const HtmlMessage: string := "\n        <h2>Message:</h2>\n        <p>"
  const HtmlTail: string := "</p>\n      "

  /** Four values laid out in order between fixed pieces each occur in the result. */
  lemma ContainsEach(a: string, w: string, b: string, x: string, c: string, y: string, d: string, z: string, e: string)
    ensures var t := a + w + b + x + c + y + d + z + e;
      Contains(t, w) && Contains(t, x) && Contains(t, y) && Contains(t, z)
  {
    var t := a + w + b + x + c + y + d + z + e;
    ContainsInfix(a, w, b + x + c + y + d + z + e);
    assert t == a + w + (b + x + c + y + d + z + e);
    ContainsInfix(a + w + b, x, c + y + d + z + e);
    assert t == a + w + b + x + (c + y + d + z + e);
    ContainsInfix(a + w + b + x + c, y, d + z + e);
    assert t == a + w + b + x + c + y + (d + z + e);
    ContainsInfix(a + w + b + x + c + y + d, z, e);
  }

  /** The HTML body of the notification. It carries the name, the email and the phone as
      submitted, and the message with its newlines replaced. */
  function ContactHtml(fullName: string, email: string, phone: string, message: string): (r: string)
    ensures Contains(r, fullName) && Contains(r, email) && Contains(r, phone)
    ensures Contains(r, ReplaceNewlines(message))
  {
    var emailRest := HtmlLinkEnd + email + HtmlLinkClose + HtmlTel;
    var phoneRest := HtmlLinkEnd + phone + HtmlLinkClose + HtmlMessage;
    ContainsEach(HtmlHead, fullName, HtmlMailto, email, emailRest, phone, phoneRest, ReplaceNewlines(message), HtmlTail);
    HtmlHead + fullName + HtmlMailto + email + emailRest + phone + phoneRest + ReplaceNewlines(message) + HtmlTail
  }

  /** The route handler. `emailTo` is the EMAIL_TO setting ("" when unset) and
      `sendSucceeds` is what the email service does with the message. */
  function HandleContact(form: ContactForm, emailTo: string, sendSucceeds: bool): (out: ContactOutcome)
    ensures out.response == FieldsRequired <==> !AllFieldsPresent(form)
    ensures out.response == InvalidEmail <==> AllFieldsPresent(form) && !ValidEmail(form.email.value)
    ensures out.attempted.Some? <==> AllFieldsPresent(form) && ValidEmail(form.email.value)
    ensures out.attempted.Some? ==>
      && out.attempted.value.replyTo == Some(form.email.value)
      && out.attempted.value.to == (if emailTo != "" then emailTo else DefaultRecipient)
      && out.attempted.value.subject == "New Contact Form Submission from " + form.fullName.value
      && out.attempted.value.html
         == ContactHtml(form.fullName.value, form.email.value, form.phone.value, form.message.value)
    ensures out.response == MessageSent <==> out.attempted.Some? && sendSucceeds
    ensures out.response == SendFailed <==> out.attempted.Some? && !sendSucceeds
  {
    if !AllFieldsPresent(form) then ContactOutcome(FieldsRequired, None)
    else if !ValidEmail(form.email.value) then ContactOutcome(InvalidEmail, None)
    else
      var mail := Mail(
        if emailTo != "" then emailTo else DefaultRecipient,
        Some(form.email.value),
        "New Contact Form Submission from " + form.fullName.value,
        ContactHtml(form.fullName.value, form.email.value, form.phone.value, form.message.value));
      ContactOutcome(if sendSucceeds then MessageSent else SendFailed, Some(mail))
  }

  /** A submission is forwarded exactly when every field is filled in and the address
      matches the regular expression; otherwise the answer is 400 and nothing is sent. */
  lemma ContactForwardedIffRegex(form: ContactForm, emailTo: string, sendSucceeds: bool)
    ensures HandleContact(form, emailTo, sendSucceeds).attempted.Some?
            <==> AllFieldsPresent(form) && RegexMatch(form.email.value)
    ensures HandleContact(form, emailTo, sendSucceeds).attempted.None?
            <==> HandleContact(form, emailTo, sendSucceeds).response.Status() == 400
  {
  }
}
