/**
 * `EmailSender` (app/services/email_sender.py): the reply message built from an email
 * and a stored response, and the bookkeeping on the `Response` row after a delivery
 * attempt. The SMTP session (TLS, login, send) is one input: given the settings and the
 * message it either succeeds or fails with the exception's text.
 */
module Sender {
  import opened Wrappers
  import opened Text
  import opened EmailModels

  const I8 := "        "
  const I12 := I8 + "    "
  const I16 := I12 + "    "
  const I20 := I16 + "    "

  /** The HTML wrapped around the response content, before and after it. */
  const HtmlHead := "\n" + I8 + "<div style=\"font-family: Arial, sans-serif; max-width: 600px; margin: 0 auto;\">\n"
    + I12 + "<div style=\"padding: 20px; background-color: #ffffff;\">\n"
    + I16
  const HtmlTail := "\n" + I12 + "</div>\n"
    + I12 + "<div style=\"margin-top: 20px; padding-top: 20px; border-top: 1px solid #eee;\">\n"
    + I16 + "<img src=\"https://www.slyfone.com/images/logo.png\" alt=\"SLYFONE\" style=\"height: 40px;\">\n"
    + I16 + "<p style=\"color: #666; font-size: 12px;\">\n"
    + I20 + "SLYFONE Support Team<br>\n"
    + I20 + "Website: <a href=\"https://www.slyfone.com\">www.slyfone.com</a><br>\n"
    + I20 + "Need Help? Visit our <a href=\"https://support.slyfone.com\">Help Center</a>\n"
    + I16 + "</p>\n"
    + I12 + "</div>\n"
    + I8 + "</div>\n"
    + I8

  /** The HTML wrapped around the quoted original message. */
  const QuoteHead := "\n" + I8 + "<div style=\"margin-top: 20px; padding: 10px; border-left: 2px solid #ccc; color: #666;\">\n"
    + I12 + "<p style=\"font-size: 12px; margin-bottom: 10px;\">Original Message:</p>\n"
    + I12
  const QuoteTail := "\n" + I8 + "</div>\n" + I8

  /** The fixed HTML on either side of the text a frame wraps. */
  datatype Frame = Frame(head: string, tail: string)

  /** The branded frame of the reply and the "Original Message:" frame of the quote. */
  const ReplyFrame := Frame(HtmlHead, HtmlTail)
  const QuoteFrame := Frame(QuoteHead, QuoteTail)

  /** The text, its line breaks turned into `<br>`, inside the frame: the frame's head,
   *  then the text, then its tail, with nothing dropped or added. */
  function Framed(f: Frame, text: string): (html: string)
    ensures IsPrefix(f.head, html) && |html| == |f.head| + |BreakLines(text)| + |f.tail|
    ensures html[|f.head|..|f.head| + |BreakLines(text)|] == BreakLines(text)
    ensures html[|f.head| + |BreakLines(text)|..] == f.tail
  {
    var r := f.head + BreakLines(text) + f.tail;
    assert r[..|f.head|] == f.head;
    r
  }

  /** `_format_html_response(content)`. */
  function FormatHtmlResponse(content: string): string {
    Framed(ReplyFrame, content)
  }

  /** `_format_quoted_text(original_text)`. */
  function FormatQuotedText(original: string): string {
    Framed(QuoteFrame, original)
  }

  /** No newline of the text survives into the HTML: the only line breaks left are the
   *  frame's own. */
  lemma FramedLineBreaks(f: Frame, text: string)
    ensures multiset(Framed(f, text))['\n'] == multiset(f.head + f.tail)['\n']
  {
    var b := BreakLines(text);
    assert Framed(f, text) == f.head + b + f.tail;
    assert multiset(b)['\n'] == 0;
  }

  /** Two texts whose line breaks differ give different HTML: the frame never hides what
   *  was written. */
  lemma FramedInjective(f: Frame, a: string, b: string)
    requires Framed(f, a) == Framed(f, b)
    ensures BreakLines(a) == BreakLines(b)
  {
    var n := |f.head|;
    assert |BreakLines(a)| == |BreakLines(b)|;
    assert BreakLines(a) == Framed(f, a)[n..n + |BreakLines(a)|];
  }

  datatype Header = Header(name: string, value: string)
  /** A `MIMEText(text, "html")` part. */
  datatype Part = Html(text: string)
  /** The `multipart/alternative` message and the envelope recipients. */
  datatype Outgoing = Outgoing(headers: seq<Header>, parts: seq<Part>, recipients: seq<string>)

  /** `if addresses:` — an absent list and an empty one are both skipped. */
  function Listed(addresses: Option<seq<string>>): seq<string> {
    if addresses.None? then [] else addresses.value
  }

  /** The message `send_response` hands to the SMTP session, the reply and the quote
   *  wrapped in the frames `reply` and `quote`. */
  function BuildMessage(from: string, email: Email, content: string,
                        cc: Option<seq<string>>, bcc: Option<seq<string>>, reply: Frame, quote: Frame): (m: Outgoing)
    ensures |m.headers| >= 3
    ensures m.headers[0] == Header("Subject", "Re: " + email.subject)
    ensures m.headers[1] == Header("From", from) && m.headers[2] == Header("To", email.senderEmail)
    ensures |m.headers| == 4 <==> Listed(cc) != []
    ensures |m.headers| == 4 ==> m.headers[3] == Header("Cc", Join(Listed(cc), ", "))
    ensures forall h :: h in m.headers ==> h.name != "Bcc"
    ensures 1 <= |m.parts| <= 2 && m.parts[0] == Html(Framed(reply, content))
    ensures |m.parts| == 2 <==> email.body != ""
    ensures |m.parts| == 2 ==> m.parts[1] == Html(Framed(quote, email.body))
    ensures m.recipients == [email.senderEmail] + Listed(cc) + Listed(bcc)
  {
    var base := [Header("Subject", "Re: " + email.subject), Header("From", from), Header("To", email.senderEmail)];
    var headers := if Listed(cc) != [] then base + [Header("Cc", Join(Listed(cc), ", "))] else base;
    var quoted := if email.body != "" then [Html(Framed(quote, email.body))] else [];
    Outgoing(headers, [Html(Framed(reply, content))] + quoted,
             [email.senderEmail] + Listed(cc) + Listed(bcc))
  }

  /** Everyone the envelope names is the customer or a listed copy, and every listed copy
   *  is in the envelope; blind copies reach the envelope without any header naming them. */
  lemma RecipientsAreExactlyTheAddressees(from: string, email: Email, content: string,
                                          cc: Option<seq<string>>, bcc: Option<seq<string>>,
                                          reply: Frame, quote: Frame)
    ensures var m := BuildMessage(from, email, content, cc, bcc, reply, quote);
      && (forall a :: a in m.recipients <==> a == email.senderEmail || a in Listed(cc) || a in Listed(bcc))
      && |m.recipients| == 1 + |Listed(cc)| + |Listed(bcc)|
  {
    var m := BuildMessage(from, email, content, cc, bcc, reply, quote);
    forall a ensures a in m.recipients <==> a == email.senderEmail || a in Listed(cc) || a in Listed(bcc) {
      assert m.recipients == [email.senderEmail] + (Listed(cc) + Listed(bcc));
    }
  }

  /** The message construction at the top of `send_response`: headers, the HTML reply,
   *  the quoted original when there is one, and the recipient list grown by `extend`. */
  method ComposeMessage(from: string, email: Email, content: string,
                        cc: Option<seq<string>>, bcc: Option<seq<string>>, reply: Frame, quote: Frame)
    returns (msg: Outgoing)
    ensures msg == BuildMessage(from, email, content, cc, bcc, reply, quote)
  {
    var headers := [Header("Subject", "Re: " + email.subject), Header("From", from),
                    Header("To", email.senderEmail)];
    if cc.Some? && cc.value != [] {
      headers := headers + [Header("Cc", Join(cc.value, ", "))];
    }
    var html := Framed(reply, content);
    var parts := [Html(html)];
    if email.body != "" {
      var quoted := Framed(quote, email.body);
      parts := parts + [Html(quoted)];
    }
    var recipients := [email.senderEmail];
    if cc.Some? && cc.value != [] {
      recipients := recipients + cc.value;
    }
    if bcc.Some? && bcc.value != [] {
      recipients := recipients + bcc.value;
    }
    msg := Outgoing(headers, parts, recipients);
  }

  /** The text of the `AttributeError` that `None.replace(...)` raises. */
  const NoneReplaceError := "'NoneType' object has no attribute 'replace'"

  /** The SMTP settings the sender is built with. */
  datatype Smtp = Smtp(server: string, port: int, user: string, password: string)

  class EmailSender {
    const smtp: Smtp
    const defaultSender: string
    /** The frames `_format_html_response` and `_format_quoted_text` wrap text in. */
    const replyFrame: Frame
    const quoteFrame: Frame

    constructor (smtp: Smtp)
      ensures this.smtp == smtp && defaultSender == "support@slyfone.com"
      ensures replyFrame == ReplyFrame && quoteFrame == QuoteFrame
    {
      this.smtp := smtp;
      defaultSender := "support@slyfone.com";
      replyFrame := ReplyFrame;
      quoteFrame := QuoteFrame;
    }

    /** `send_response(email, response, cc_addresses, bcc_addresses)`. `deliver` is the
     *  SMTP session: `None` when the message went out, else the exception's text. Every
     *  attempt is counted; a delivered message marks the response sent at `now`, a failed
     *  one records the error and leaves the sent state alone. A NULL `content` raises in
     *  `_format_html_response` before the session is opened, and takes the failure path. */
    method SendResponse(email: Email, response: Response, cc: Option<seq<string>>,
                        bcc: Option<seq<string>>, deliver: (Smtp, Outgoing) -> Option<string>, now: int)
      returns (sent: bool)
      modifies response
      ensures old(response.content).None? ==>
        && !sent && response.errorMessage == Some(NoneReplaceError)
        && response.isSent == old(response.isSent) && response.sentAt == old(response.sentAt)
      ensures old(response.content).Some? ==>
        var outcome := deliver(smtp, BuildMessage(defaultSender, email, old(response.content).value, cc, bcc,
                                                  replyFrame, quoteFrame));
        && (sent <==> outcome.None?)
        && (sent ==> response.isSent && response.sentAt == Some(now) && response.errorMessage == old(response.errorMessage))
        && (!sent ==> response.errorMessage == outcome && response.isSent == old(response.isSent)
                      && response.sentAt == old(response.sentAt))
      ensures response.sendAttempts == old(response.sendAttempts) + 1
      ensures response.content == old(response.content) && response.emailId == old(response.emailId)
      ensures response.createdAt == old(response.createdAt) && response.wasHelpful == old(response.wasHelpful)
      ensures response.customerReplied == old(response.customerReplied)
      ensures response.modelVersion == old(response.modelVersion) && response.totalTokens == old(response.totalTokens)
      ensures response.promptTokens == old(response.promptTokens)
      ensures response.completionTokens == old(response.completionTokens)
      ensures response.responseTimeMs == old(response.responseTimeMs)
    {
      if response.content.None? {
        response.errorMessage := Some(NoneReplaceError);
        response.sendAttempts := response.sendAttempts + 1;
        return false;
      }
      var msg := ComposeMessage(defaultSender, email, response.content.value, cc, bcc, replyFrame, quoteFrame);
      var outcome := deliver(smtp, msg);
      if outcome.None? {
        response.isSent := true;
        response.sentAt := Some(now);
        response.sendAttempts := response.sendAttempts + 1;
        return true;
      }
      response.errorMessage := outcome;
      response.sendAttempts := response.sendAttempts + 1;
      return false;
    }
  }
}
