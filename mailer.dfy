/**
 * The mail helpers of the email service: composing the message that
 * `send_email` hands to the transport, the template-name rewrite of
 * `send_template_email`, and the contact-email formatter. The transport and
 * the template renderer are parameters: a transport says whether it accepted
 * a message, a renderer returns None when rendering raises.
 */
module Mailer {
  import opened Wrappers
  import opened Strings

  /** A message as the transport receives it: a plain-text part, an HTML part, or both. */
  datatype Message = Message(
    fromEmail: string, to: seq<string>, subject: string, text: Option<string>, html: Option<string>)

  /** Python truthiness of an optional string: present and non-empty. */
  predicate Truthy(s: Option<string>) {
    s.Some? && s.value != ""
  }

  /** `from_email or DEFAULT_FROM_EMAIL`. */
  function Sender(fromEmail: Option<string>, defaultFrom: string): (r: string)
    ensures !Truthy(fromEmail) ==> r == defaultFrom
    ensures Truthy(fromEmail) ==> r == fromEmail.value
  {
    if Truthy(fromEmail) then fromEmail.value else defaultFrom
  }

  /**
   * The message `send_email` builds as written: given an HTML body, it sends
   * `body` with its content type set to HTML, and `html_body` itself goes
   * nowhere.
   */
  function ComposeAsWritten(to: seq<string>, subject: string, body: string, fromEmail: Option<string>,
                            htmlBody: Option<string>, defaultFrom: string): (m: Message)
    ensures m.fromEmail == Sender(fromEmail, defaultFrom) && m.to == to && m.subject == subject
    ensures Truthy(htmlBody) ==> m.html == Some(body) && m.text == None
    ensures !Truthy(htmlBody) ==> m.text == Some(body) && m.html == None
  {
    var sender := Sender(fromEmail, defaultFrom);
    if Truthy(htmlBody) then Message(sender, to, subject, None, Some(body))
    else Message(sender, to, subject, Some(body), None)
  }

  /** A concrete call on which the HTML body is lost and the plain text is labelled as HTML. */
  lemma HtmlBodyIsDropped()
    ensures var m := ComposeAsWritten(["ana@x.com"], "Hola", "plain text", None, Some("<p>rich</p>"), "noreply@x.com");
            m.html == Some("plain text") && m.text != Some("<p>rich</p>") && m.html != Some("<p>rich</p>")
  {
  }

  /**
   * The message `send_email` is evidently meant to build: the HTML body as
   * the HTML part, `body` as the plain-text alternative.
   */
  function Compose(to: seq<string>, subject: string, body: string, fromEmail: Option<string>,
                   htmlBody: Option<string>, defaultFrom: string): (m: Message)
    ensures m.fromEmail == Sender(fromEmail, defaultFrom) && m.to == to && m.subject == subject
    ensures m.text == Some(body)
    ensures Truthy(htmlBody) ==> m.html == htmlBody
    ensures !Truthy(htmlBody) ==> m.html == None
  {
    var sender := Sender(fromEmail, defaultFrom);
    Message(sender, to, subject, Some(body), if Truthy(htmlBody) then htmlBody else None)
  }

  /** Without an HTML body the two compositions agree, so plain-text callers see no difference. */
  lemma ComposeAgreesWithoutHtml(to: seq<string>, subject: string, body: string, fromEmail: Option<string>,
                                 htmlBody: Option<string>, defaultFrom: string)
    requires !Truthy(htmlBody)
    ensures Compose(to, subject, body, fromEmail, htmlBody, defaultFrom)
         == ComposeAsWritten(to, subject, body, fromEmail, htmlBody, defaultFrom)
  {
  }

  /**
   * `send_email`: never raises; true exactly when the transport accepted the
   * composed message, false when it raised.
   */
  function SendEmail(to: seq<string>, subject: string, body: string, fromEmail: Option<string>,
                     htmlBody: Option<string>, defaultFrom: string, transport: Message -> bool): (ok: bool)
    ensures ok <==> transport(Compose(to, subject, body, fromEmail, htmlBody, defaultFrom))
  {
    transport(Compose(to, subject, body, fromEmail, htmlBody, defaultFrom))
  }

  /**
   * Called without an HTML body, as both tasks call it, `send_email` hands
   * the transport the same message as written and as corrected.
   */
  lemma SendEmailAsWrittenWithoutHtml(to: seq<string>, subject: string, body: string, fromEmail: Option<string>,
                                      htmlBody: Option<string>, defaultFrom: string, transport: Message -> bool)
    requires !Truthy(htmlBody)
    ensures SendEmail(to, subject, body, fromEmail, htmlBody, defaultFrom, transport)
        <==> transport(ComposeAsWritten(to, subject, body, fromEmail, htmlBody, defaultFrom))
  {
    ComposeAgreesWithoutHtml(to, subject, body, fromEmail, htmlBody, defaultFrom);
  }

  const HtmlSuffix: string := ".html"
  const TextSuffix: string := ".txt"

  /** `.html` cannot overlap itself: two occurrences start at least five characters apart. */
  lemma HtmlSuffixDoesNotOverlap(s: string, i: nat, j: nat)
    requires OccursAt(s, HtmlSuffix, i) && OccursAt(s, HtmlSuffix, j) && i < j
    ensures i + |HtmlSuffix| <= j
  {
    assert s[i] == '.' && s[i + 1] == 'h' && s[i + 2] == 't' && s[i + 3] == 'm' && s[i + 4] == 'l';
    assert s[j] == '.';
  }

  /** Rewriting every `.html` of a name that ends in `.html` leaves a name ending in `.txt`. */
  lemma {:induction false} RewriteKeepsTextSuffix(s: string)
    requires EndsWith(s, HtmlSuffix)
    ensures EndsWith(ReplaceAll(s, HtmlSuffix, TextSuffix), TextSuffix)
    decreases |s|
  {
    if StartsWith(s, HtmlSuffix) {
      var rest := s[|HtmlSuffix|..];
      if rest == [] {
        assert ReplaceAll(s, HtmlSuffix, TextSuffix) == TextSuffix + [];
      } else {
        if |s| < 2 * |HtmlSuffix| {
          assert OccursAt(s, HtmlSuffix, 0);
          assert OccursAt(s, HtmlSuffix, |s| - |HtmlSuffix|) by {
            assert s[|s| - |HtmlSuffix|..|s|] == s[|s| - |HtmlSuffix|..];
          }
          HtmlSuffixDoesNotOverlap(s, 0, |s| - |HtmlSuffix|);
          assert false;
        }
        assert rest[|rest| - |HtmlSuffix|..] == s[|s| - |HtmlSuffix|..];
        RewriteKeepsTextSuffix(rest);
        var tail := ReplaceAll(rest, HtmlSuffix, TextSuffix);
        assert (TextSuffix + tail)[|TextSuffix + tail| - |TextSuffix|..] == tail[|tail| - |TextSuffix|..];
      }
    } else {
      if |s| == |HtmlSuffix| {
        assert false;
      }
      var rest := s[1..];
      assert rest[|rest| - |HtmlSuffix|..] == s[|s| - |HtmlSuffix|..];
      RewriteKeepsTextSuffix(rest);
      var tail := ReplaceAll(rest, HtmlSuffix, TextSuffix);
      assert ([s[0]] + tail)[|[s[0]] + tail| - |TextSuffix|..] == tail[|tail| - |TextSuffix|..];
    }
  }

  /**
   * The plain-text template `send_template_email` renders: for a name ending
   * in `.html`, the name with every `.html` rewritten to `.txt`; otherwise
   * none, and the HTML rendering doubles as the text.
   */
  function TextTemplateName(templateName: string): (r: Option<string>)
    ensures r.Some? <==> EndsWith(templateName, HtmlSuffix)
    ensures r.Some? ==> r.value == ReplaceAll(templateName, HtmlSuffix, TextSuffix) && EndsWith(r.value, TextSuffix)
  {
    if EndsWith(templateName, HtmlSuffix) then
      RewriteKeepsTextSuffix(templateName);
      Some(ReplaceAll(templateName, HtmlSuffix, TextSuffix))
    else None
  }

  predicate DotFree(s: string) {
    forall i :: 0 <= i < |s| ==> s[i] != '.'
  }

  /** A dot-free stem cannot hold the start of a `.html`, so the rewrite passes it through. */
  lemma RewritePassesDotFreeStem(stem: string, rest: string)
    requires DotFree(stem)
    ensures ReplaceAll(stem + rest, HtmlSuffix, TextSuffix) == stem + ReplaceAll(rest, HtmlSuffix, TextSuffix)
  {
    assert HtmlSuffix[0] == '.';
    ReplaceAllPassesStem(stem, rest, HtmlSuffix, TextSuffix);
  }

  /** The rewrite turns each of one or two back-to-back `.html` into `.txt`. */
  lemma RewriteOfSuffixes()
    ensures ReplaceAll(HtmlSuffix, HtmlSuffix, TextSuffix) == TextSuffix
    ensures ReplaceAll(HtmlSuffix + HtmlSuffix, HtmlSuffix, TextSuffix) == TextSuffix + TextSuffix
  {
    assert StartsWith(HtmlSuffix, HtmlSuffix) && HtmlSuffix[|HtmlSuffix|..] == [];
    assert ReplaceAll(HtmlSuffix, HtmlSuffix, TextSuffix) == TextSuffix + [];
    assert StartsWith(HtmlSuffix + HtmlSuffix, HtmlSuffix);
    assert (HtmlSuffix + HtmlSuffix)[|HtmlSuffix|..] == HtmlSuffix;
  }

  /** A name whose only dot starts its `.html` suffix gets `.txt` in its place (`welcome.html` becomes `welcome.txt`). */
  lemma TextTemplateNameOfPlainName(stem: string)
    requires DotFree(stem)
    ensures TextTemplateName(stem + HtmlSuffix) == Some(stem + TextSuffix)
  {
    RewritePassesDotFreeStem(stem, HtmlSuffix);
    RewriteOfSuffixes();
    assert EndsWith(stem + HtmlSuffix, HtmlSuffix) by {
      assert (stem + HtmlSuffix)[|stem|..] == HtmlSuffix;
    }
  }

  /** The rewrite is not confined to the suffix: `a.html.html` becomes `a.txt.txt`. */
  lemma TextTemplateNameRewritesEveryOccurrence(stem: string)
    requires DotFree(stem)
    ensures TextTemplateName(stem + HtmlSuffix + HtmlSuffix) == Some(stem + TextSuffix + TextSuffix)
  {
    var name := stem + HtmlSuffix + HtmlSuffix;
    assert name == stem + (HtmlSuffix + HtmlSuffix);
    RewritePassesDotFreeStem(stem, HtmlSuffix + HtmlSuffix);
    RewriteOfSuffixes();
    assert stem + (TextSuffix + TextSuffix) == stem + TextSuffix + TextSuffix;
    assert EndsWith(name, HtmlSuffix) by {
      assert name[|name| - |HtmlSuffix|..] == HtmlSuffix;
    }
  }

  /**
   * The message `send_template_email` hands to `send_email`, or None when a
   * rendering raises (the helper then returns false).
   */
  function TemplateMessage(to: seq<string>, subject: string, templateName: string,
                           render: string -> Option<string>, fromEmail: Option<string>,
                           defaultFrom: string): (r: Option<Message>)
    ensures r.Some? <==> render(templateName).Some?
                         && (TextTemplateName(templateName).Some? ==> render(TextTemplateName(templateName).value).Some?)
    ensures r.Some? && TextTemplateName(templateName).None? ==> r.value.text == render(templateName)
    ensures r.Some? && TextTemplateName(templateName).Some? ==> r.value.text == render(TextTemplateName(templateName).value)
    ensures r.Some? && render(templateName).value != "" ==> r.value.html == render(templateName)
    ensures r.Some? ==> r.value.fromEmail == Sender(fromEmail, defaultFrom) && r.value.to == to
  {
    match render(templateName)
    case None => None
    case Some(html) =>
      var text := match TextTemplateName(templateName)
                  case Some(name) => render(name)
                  case None => Some(html);
      if text.None? then None
      else Some(Compose(to, subject, text.value, fromEmail, Some(html), defaultFrom))
  }

  /** `send_template_email`: true exactly when both renderings succeed and the transport accepts. */
  function SendTemplateEmail(to: seq<string>, subject: string, templateName: string,
                             render: string -> Option<string>, fromEmail: Option<string>,
                             defaultFrom: string, transport: Message -> bool): (ok: bool)
    ensures ok <==> (var m := TemplateMessage(to, subject, templateName, render, fromEmail, defaultFrom);
                     m.Some? && transport(m.value))
  {
    match TemplateMessage(to, subject, templateName, render, fromEmail, defaultFrom)
    case None => false
    case Some(m) => transport(m)
  }

  /**
   * What `send_template_email` sends as written, given the renderings the
   * corrected message carries: with a non-empty HTML rendering, the HTML
   * part holds the text rendering and there is no text part, so the HTML
   * rendering reaches the transport only when the two renderings are equal;
   * with an empty one, both messages are the same.
   */
  lemma TemplateMessageAsWritten(to: seq<string>, subject: string, templateName: string,
                                 render: string -> Option<string>, fromEmail: Option<string>, defaultFrom: string)
    requires TemplateMessage(to, subject, templateName, render, fromEmail, defaultFrom).Some?
    ensures var m := TemplateMessage(to, subject, templateName, render, fromEmail, defaultFrom).value;
            var html := render(templateName).value;
            var sent := ComposeAsWritten(to, subject, m.text.value, fromEmail, Some(html), defaultFrom);
            && (html != "" ==> sent.html == m.text && sent.text == None && (sent.html == m.html <==> m.text == m.html))
            && (html == "" ==> sent == m)
  {
    var m := TemplateMessage(to, subject, templateName, render, fromEmail, defaultFrom).value;
    var html := render(templateName).value;
    if html == "" {
      ComposeAgreesWithoutHtml(to, subject, m.text.value, fromEmail, Some(html), defaultFrom);
    }
  }

  const ContactEmailSubjectPrefix: string := "[Contacto] Mensaje de "
  const ReplyLine: string := "\n    Para responder, usa la dirección: "

  /** A horizontal rule of the formatted body, with its indentation. */
  function Rule(): string {
    "\n    " + Repeat('\U{2500}', 58)
  }

  function Banner(): string {
    "\n    \U{2554}" + Repeat('\U{2550}', 58) + "\U{2557}"
    + "\n    \U{2551}          NUEVO MENSAJE DE CONTACTO RECIBIDO             \U{2551}"
    + "\n    \U{255a}" + Repeat('\U{2550}', 58) + "\U{255d}"
    + "\n    "
    + "\n    De: "
  }

  /** Where the pieces of a body laid out as `a name b email c message d reply email e` sit. */
  lemma LayoutFacts(a: string, name: string, b: string, email: string, c: string, message: string,
                    d: string, reply: string, e: string)
    ensures var s := a + name + b + email + c + message + d + reply + email + e;
            && OccursAt(s, name, |a|)
            && OccursAt(s, email, |a| + |name| + |b|)
            && OccursAt(s, message, |a| + |name| + |b| + |email| + |c|)
            && OccursAt(s, email, |s| - |e| - |email|)
            && EndsWith(s, reply + email + e)
  {
    var s := a + name + b + email + c + message + d + reply + email + e;
    var p := |a| + |name| + |b|;
    assert s[|a|..|a| + |name|] == name;
    assert s[p..p + |email|] == email;
    assert s[p + |email| + |c|..p + |email| + |c| + |message|] == message;
    assert s[|s| - |e| - |email|..|s| - |e|] == email;
    assert s[|s| - |reply + email + e|..] == reply + email + e;
  }

  /**
   * `format_contact_email`: the subject names the sender; the body shows
   * the sender's name, the message, and the sender's address twice, the
   * second time as the address to reply to at its very end.
   */
  function FormatContactEmail(name: string, email: string, message: string): (r: (string, string))
    ensures StartsWith(r.0, ContactEmailSubjectPrefix) && r.0[|ContactEmailSubjectPrefix|..] == name
    ensures Contains(r.1, name) && Contains(r.1, message) && ContainsTwice(r.1, email)
    ensures EndsWith(r.1, ReplyLine + email + "\n    ")
  {
    var a := Banner();
    var b := "\n    Email: ";
    var c := "\n    " + Rule() + "\n    MENSAJE:" + Rule() + "\n    \n    ";
    var d := "\n    " + Rule() + "\n    \n    Este mensaje fue enviado desde el Email Service.";
    var e := "\n    ";
    var body := a + name + b + email + c + message + d + ReplyLine + email + e;
    LayoutFacts(a, name, b, email, c, message, d, ReplyLine, e);
    assert OccursAt(body, email, |a| + |name| + |b|);
    (ContactEmailSubjectPrefix + name, body)
  }
}
