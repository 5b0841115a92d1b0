/** Outgoing email: the HTML-to-text fallback, the message `sendEmail` builds
    and the two HTML templates. The delivery call itself is a parameter. */
module Mail {
  import opened Text

  /** What is left after the `<[^>]*>?` match that starts just after a '<':
      the text after the first '>', or nothing when no '>' follows. */
  function AfterTag(t: string): (r: string)
    ensures |r| <= |t|
    ensures '>' in t ==> |r| < |t|
    ensures '>' !in t ==> r == []
    ensures r == [] || (|r| < |t| && t[|t| - |r| - 1] == '>' && r == t[|t| - |r|..])
    ensures '>' !in t[..|t| - |r|] || t[|t| - |r| - 1] == '>'
  {
    if t == [] then []
    else if t[0] == '>' then t[1..]
    else
      var r := AfterTag(t[1..]);
      assert t[1..][..|t[1..]| - |r|] == t[1..|t| - |r|];
      r
  }

  /** `html.replace(/<[^>]*>?/gm, '')`: every '<' starts a match that runs to
      the next '>' inclusive, or to the end of the text. */
  function StripHtml(s: string): (r: string)
    ensures |r| <= |s|
    decreases |s|
  {
    if s == [] then []
    else if s[0] == '<' then StripHtml(AfterTag(s[1..]))
    else [s[0]] + StripHtml(s[1..])
  }

  /** No '<' survives: each one begins a deleted match. */
  lemma {:induction false} StripHtmlHasNoOpenAngle(s: string)
    ensures '<' !in StripHtml(s)
    decreases |s|
  {
    if s == [] {
    } else if s[0] == '<' {
      StripHtmlHasNoOpenAngle(AfterTag(s[1..]));
    } else {
      StripHtmlHasNoOpenAngle(s[1..]);
    }
  }

  /** Text without '<' is kept as it is. */
  lemma {:induction false} StripHtmlPlainText(s: string)
    requires '<' !in s
    ensures StripHtml(s) == s
  {
    if s != [] {
      StripHtmlPlainText(s[1..]);
      assert [s[0]] + s[1..] == s;
    }
  }

  /** Stripping twice is stripping once. */
  lemma StripHtmlIdempotent(s: string)
    ensures StripHtml(StripHtml(s)) == StripHtml(s)
  {
    StripHtmlHasNoOpenAngle(s);
    StripHtmlPlainText(StripHtml(s));
  }

  /** A closed tag after plain text is removed and what follows is stripped
      in turn: the characters outside matches are kept in order. */
  lemma {:induction false} StripHtmlClosedTag(a: string, tag: string, b: string)
    requires '<' !in a && '>' !in tag
    ensures StripHtml(a + "<" + tag + ">" + b) == a + StripHtml(b)
  {
    if a == [] {
      assert a + "<" + tag + ">" + b == "<" + (tag + ">" + b);
      StripHtmlOpen(tag + ">" + b);
      TagRunsToClose(tag, b);
    } else {
      var rest := a[1..] + "<" + tag + ">" + b;
      assert a + "<" + tag + ">" + b == [a[0]] + rest;
      StripHtmlKeeps(a[0], rest);
      StripHtmlClosedTag(a[1..], tag, b);
      Regroup(a, StripHtml(b));
    }
  }

  lemma {:induction false} TagRunsToClose(tag: string, b: string)
    requires '>' !in tag
    ensures AfterTag(tag + ">" + b) == b
  {
    if tag == [] {
      assert (tag + ">" + b)[1..] == b;
    } else {
      assert (tag + ">" + b)[1..] == tag[1..] + ">" + b;
      TagRunsToClose(tag[1..], b);
    }
  }

  /** An unclosed '<' deletes the rest of the text. */
  lemma {:induction false} StripHtmlUnclosed(a: string, rest: string)
    requires '<' !in a && '>' !in rest
    ensures StripHtml(a + "<" + rest) == a
  {
    if a == [] {
      assert a + "<" + rest == "<" + rest;
      StripHtmlOpen(rest);
    } else {
      var tail := a[1..] + "<" + rest;
      assert a + "<" + rest == [a[0]] + tail;
      StripHtmlKeeps(a[0], tail);
      StripHtmlUnclosed(a[1..], rest);
      assert [a[0]] + a[1..] == a;
    }
  }

  /** A character other than '<' is kept and the rest is stripped. */
  lemma StripHtmlKeeps(c: char, t: string)
    requires c != '<'
    ensures StripHtml([c] + t) == [c] + StripHtml(t)
  {
    assert ([c] + t)[1..] == t;
  }

  /** A '<' starts a match that runs past the next '>'. */
  lemma StripHtmlOpen(t: string)
    ensures StripHtml("<" + t) == StripHtml(AfterTag(t))
  {
    assert ("<" + t)[1..] == t;
  }

  lemma Regroup(a: string, t: string)
    requires a != []
    ensures [a[0]] + (a[1..] + t) == a + t
  {
    assert [a[0]] + a[1..] == a;
  }

  // ---------------------------------------------------------------------
  // sendEmail

  datatype Message = Message(to: string, from: string, subject: string, text: string, html: string)

  /** Without an API key nothing is sent; otherwise the message is sent or
      the delivery failure is thrown on to the caller. */
  datatype SendOutcome = NotConfigured | Sent(msg: Message) | SendFailed(msg: Message)

  const DefaultSender := "noreply@medflow.com"

  /** `sendEmail(to, subject, html, text?)` under the environment's key and
      sender, with `delivered` the outcome of the delivery call. */
  function SendEmail(apiKey: Option<string>, emailFrom: Option<string>, delivered: bool,
                     to: string, subject: string, html: string, text: Option<string>): (r: SendOutcome)
    ensures !Truthy(apiKey) <==> r == NotConfigured
    ensures r.Sent? <==> Truthy(apiKey) && delivered
    ensures r.Sent? || r.SendFailed? ==>
              r.msg.to == to && r.msg.subject == subject && r.msg.html == html &&
              r.msg.from == (if Truthy(emailFrom) then emailFrom.value else DefaultSender) &&
              r.msg.text == (if Truthy(text) then text.value else StripHtml(html))
  {
    if !Truthy(apiKey) then NotConfigured
    else
      var msg := Message(to, OrElse(emailFrom, DefaultSender), subject, OrElse(text, StripHtml(html)), html);
      if delivered then Sent(msg) else SendFailed(msg)
  }

  /** The fallback text body never carries a '<'. */
  lemma DefaultTextHasNoTags(apiKey: Option<string>, emailFrom: Option<string>, delivered: bool,
                             to: string, subject: string, html: string)
    requires Truthy(apiKey)
    ensures '<' !in SendEmail(apiKey, emailFrom, delivered, to, subject, html, None).msg.text
  {
    StripHtmlHasNoOpenAngle(html);
  }

  // ---------------------------------------------------------------------
  // Templates

  const TemplateOpen := "\n    <div style=\"font-family:system-ui, -apple-system, Roboto, 'Segoe UI', Helvetica, Arial; color:#0f172a\">\n      <h2 style=\"color:#0f172a\">"
  const ParagraphOpen := "\n      <p>"
  const ButtonOpen := "\n      <p style=\"margin:18px 0\">\n        "
  const InviteButton := " style=\"display:inline-block;padding:10px 16px;background:#2563eb;color:#fff;border-radius:6px;text-decoration:none\">Accept Invite</a>\n      </p>\n      <p style=\"color:#64748b;font-size:13px\">If you didn't expect this invitation, you can ignore this email.</p>\n    </div>\n  "

  /** `<a href="url"` with the URL inserted verbatim. */
  function Href(url: string): string {
    "<a href=\"" + url + "\""
  }

  /** `inviteTemplate(url, clinicName?, invitedBy?)`. Arguments go in
      verbatim: nothing is escaped. */
  function InviteTemplate(inviteUrl: string, clinicName: Option<string>, invitedBy: Option<string>): (r: string)
    ensures Contains(r, "You were invited to join " + OrElse(clinicName, "your clinic") + "</h2>")
    ensures Contains(r, InviteLead(invitedBy))
    ensures Contains(r, Href(inviteUrl))
  {
    var heading := "You were invited to join " + OrElse(clinicName, "your clinic") + "</h2>";
    var body := ParagraphOpen + "Click the button below to ";
    ThreeParts(TemplateOpen, heading, body, InviteLead(invitedBy), ButtonOpen, Href(inviteUrl), InviteButton);
    TemplateOpen + heading + body + InviteLead(invitedBy) + ButtonOpen + Href(inviteUrl) + InviteButton
  }

  /** The sentence naming who invited: "accept the invitation by X." when
      an inviter is given, "accept the invitation." otherwise. */
  function InviteLead(invitedBy: Option<string>): (r: string)
    ensures Truthy(invitedBy) ==> r == "accept the invitation by " + invitedBy.value + ".</p>"
    ensures !Truthy(invitedBy) ==> r == "accept the invitation.</p>"
  {
    if Truthy(invitedBy) then "accept the invitation by " + invitedBy.value + ".</p>"
    else "accept the invitation.</p>"
  }

  /** Each of three pieces laid between fixed text is contained in the whole. */
  lemma ThreeParts(a: string, x: string, b: string, y: string, c: string, z: string, d: string)
    ensures Contains(a + x + b + y + c + z + d, x)
    ensures Contains(a + x + b + y + c + z + d, y)
    ensures Contains(a + x + b + y + c + z + d, z)
  {
    var s := a + x + b + y + c + z + d;
    assert s == a + x + (b + y + c + z + d);
    ContainsMiddle(a, x, b + y + c + z + d);
    assert s == (a + x + b) + y + (c + z + d);
    ContainsMiddle(a + x + b, y, c + z + d);
    assert s == (a + x + b + y + c) + z + d;
    ContainsMiddle(a + x + b + y + c, z, d);
  }

  const ResetButton := " style=\"display:inline-block;padding:10px 16px;background:#059669;color:#fff;border-radius:6px;text-decoration:none\">Reset password</a>\n      </p>\n      <p style=\"color:#64748b;font-size:13px\">If you didn't request a password reset, you can ignore this email.</p>\n    </div>\n  "

  const ExpiryNotice := "This link expires in one hour."

  /** `resetPasswordTemplate(url)`: the link verbatim, and a one-hour expiry
      notice. */
  function ResetPasswordTemplate(resetUrl: string): (r: string)
    ensures Contains(r, Href(resetUrl))
    ensures Contains(r, ExpiryNotice)
  {
    var heading := "Reset your password</h2>";
    var body := ParagraphOpen + "Use the button below to create a new password. ";
    var close := "</p>" + ButtonOpen;
    ThreeParts(TemplateOpen, heading, body, ExpiryNotice, close, Href(resetUrl), ResetButton);
    TemplateOpen + heading + body + ExpiryNotice + close + Href(resetUrl) + ResetButton
  }
}
