/** The privacy-request (DSAR, data subject access request) endpoint:
    `sanitize`, the HTML escaping of user text, and the request handler that
    validates the form, verifies the reCAPTCHA token and mails the request to
    the privacy inbox. */
module Dsar {
  import opened Http
  import opened Text

  // ---------------------------------------------------------------------------
  // sanitize

  /** Neither angle bracket occurs in `s`. */
  predicate NoBrackets(s: string) {
    '<' !in s && '>' !in s
  }

  /** `sanitize(text)`: a missing or empty value becomes the empty string;
      otherwise every `<` is replaced by `&lt;`, then every `>` by `&gt;`. */
  function Sanitize(text: Option<string>): (r: string)
    ensures !Given(text) ==> r == ""
    ensures NoBrackets(r)
  {
    if !Given(text) then ""
    else
      var once := ReplaceAll(text.value, '<', "&lt;");
      ReplaceAllRemoves(text.value, '<', "&lt;");
      ReplaceAllKeepsAbsent(once, '>', "&gt;", '<');
      ReplaceAllRemoves(once, '>', "&gt;");
      ReplaceAll(once, '>', "&gt;")
  }

  /** The escaping of one character, as a reference for `Sanitize`. */
  function EscapeChar(ch: char): string {
    if ch == '<' then "&lt;" else if ch == '>' then "&gt;" else [ch]
  }

  /** Escaping character by character, in a single pass. */
  function EscapeEach(s: string): string {
    if s == [] then "" else EscapeChar(s[0]) + EscapeEach(s[1..])
  }

  /** The two chained global replacements escape each character independently:
      no `>` introduced by the first pass is there for the second to rewrite. */
  lemma {:induction false} SanitizeEscapesEachChar(s: string)
    ensures Sanitize(Some(s)) == EscapeEach(s)
  {
    if s != [] {
      var once := ReplaceAll(s, '<', "&lt;");
      assert s == [s[0]] + s[1..];
      ReplaceAllAppend([s[0]], s[1..], '<', "&lt;");
      var head := ReplaceAll([s[0]], '<', "&lt;");
      assert head == (if s[0] == '<' then "&lt;" else [s[0]]);
      ReplaceAllAppend(head, ReplaceAll(s[1..], '<', "&lt;"), '>', "&gt;");
      if s[0] == '<' {
        ReplaceAllUnchanged("&lt;", '>', "&gt;");
      } else {
        assert ReplaceAll(head, '>', "&gt;") == ReplaceAll([s[0]][1..], '>', "&gt;")
          + (if s[0] == '>' then "&gt;" else [s[0]]);
      }
      if s[1..] == [] {
        assert Sanitize(Some(s[1..])) == "";
      } else {
        assert Given(Some(s[1..]));
      }
      SanitizeEscapesEachChar(s[1..]);
    }
  }

  /** A value without angle brackets is interpolated as it is. */
  lemma SanitizeUnchanged(s: string)
    requires NoBrackets(s)
    ensures Sanitize(Some(s)) == s
  {
    ReplaceAllUnchanged(s, '<', "&lt;");
    ReplaceAllUnchanged(s, '>', "&gt;");
  }

  /** Each bracket grows by three characters (`&lt;`, `&gt;` are four long). */
  lemma SanitizeLength(s: string)
    ensures |Sanitize(Some(s))| == |s| + 3 * Occurrences(s, '<') + 3 * Occurrences(s, '>')
  {
    var once := ReplaceAll(s, '<', "&lt;");
    ReplaceAllGrowth(s, '<', "&lt;", 3);
    ReplaceAllKeepsCount(s, '<', "&lt;", '>');
    ReplaceAllGrowth(once, '>', "&gt;", 3);
    SanitizeGiven(s);
  }

  /** For a string argument, only the empty string takes the `!text` branch,
      and the replacements leave it empty anyway. */
  lemma SanitizeGiven(s: string)
    ensures Sanitize(Some(s)) == ReplaceAll(ReplaceAll(s, '<', "&lt;"), '>', "&gt;")
  {
  }

  /** Sanitizing a concatenation is concatenating the sanitized parts. */
  lemma SanitizeAppend(a: string, b: string)
    ensures Sanitize(Some(a + b)) == Sanitize(Some(a)) + Sanitize(Some(b))
  {
    ReplaceAllAppend(a, b, '<', "&lt;");
    ReplaceAllAppend(ReplaceAll(a, '<', "&lt;"), ReplaceAll(b, '<', "&lt;"), '>', "&gt;");
  }

  /** Sanitizing twice gives what sanitizing once gives. */
  lemma SanitizeIdempotent(text: Option<string>)
    ensures Sanitize(Some(Sanitize(text))) == Sanitize(text)
  {
    SanitizeUnchanged(Sanitize(text));
  }

  // ---------------------------------------------------------------------------
  // The email

  const Sender := "Sticki.one Privacy <privacy@firstdrop.sticki.one>"
  const Recipient := "privacy@sticki.one"
  const SubjectPrefix := "New Privacy Request (DSAR): "

  /** One `<li>` line of the request summary. */
  function ListItem(caption: string, value: string): string {
    "        <li><strong>" + caption + ":</strong> " + value + "</li>\n"
  }

  const Intro := "\n      <p>A new data subject access request has been submitted.</p>\n      <ul>\n"
  const ListEnd := "      </ul>\n      <p><strong>Message:</strong></p>\n      "
  const Closing := "\n    "

  /** The paragraph that holds the message. */
  function MessageParagraph(message: string): string {
    "<p>" + message + "</p>"
  }

  /** The email body template literal, with its four interpolation holes. */
  function Template(name: string, email: string, requestType: string, message: string): string {
    Intro
      + ListItem("Name", name)
      + ListItem("Email", email)
      + ListItem("Request Type", requestType)
      + ListEnd + MessageParagraph(message) + Closing
  }

  /** The email body: the template filled with the sanitized fields. */
  function Body(name: Option<string>, email: Option<string>, requestType: Option<string>,
                message: Option<string>): string
  {
    Template(Sanitize(name), Sanitize(email), Sanitize(requestType), Sanitize(message))
  }

  /** The characters `c` a list item has beyond those of its value. */
  function ListItemOwn(caption: string, value: string, c: char): int {
    Occurrences(ListItem(caption, value), c) - Occurrences(value, c)
  }

  /** The characters `c` the message paragraph has beyond those of the message. */
  function MessageParagraphOwn(message: string, c: char): int {
    Occurrences(MessageParagraph(message), c) - Occurrences(message, c)
  }

  /** The characters `c` a filled template has beyond those of its four values. */
  function TemplateOwn(name: string, email: string, requestType: string, message: string, c: char): int {
    Occurrences(Template(name, email, requestType, message), c)
      - Occurrences(name, c) - Occurrences(email, c) - Occurrences(requestType, c) - Occurrences(message, c)
  }

  lemma ListItemCount(caption: string, value: string, other: string, c: char)
    ensures ListItemOwn(caption, value, c) == ListItemOwn(caption, other, c)
  {
    var open := "        <li><strong>" + caption + ":</strong> ";
    OccurrencesAppend(open, value, c);
    OccurrencesAppend(open + value, "</li>\n", c);
    OccurrencesAppend(open, other, c);
    OccurrencesAppend(open + other, "</li>\n", c);
  }

  lemma MessageParagraphCount(message: string, other: string, c: char)
    ensures MessageParagraphOwn(message, c) == MessageParagraphOwn(other, c)
  {
    OccurrencesAppend("<p>", message, c);
    OccurrencesAppend("<p>" + message, "</p>", c);
    OccurrencesAppend("<p>", other, c);
    OccurrencesAppend("<p>" + other, "</p>", c);
  }

  lemma TemplateOwnParts(name: string, email: string, requestType: string, message: string, c: char)
    ensures TemplateOwn(name, email, requestType, message, c)
         == Occurrences(Intro, c) + Occurrences(ListEnd, c) + Occurrences(Closing, c)
          + ListItemOwn("Name", name, c) + ListItemOwn("Email", email, c)
          + ListItemOwn("Request Type", requestType, c) + MessageParagraphOwn(message, c)
  {
    OccurrencesOfSeven(Intro, ListItem("Name", name), ListItem("Email", email), ListItem("Request Type", requestType),
                       ListEnd, MessageParagraph(message), Closing, c);
  }

  /** Every character of a filled template comes either from one of the four
      values or from the template's own text, which is the same whatever
      fills the holes. */
  lemma TemplateCount(name: string, email: string, requestType: string, message: string,
                      name': string, email': string, requestType': string, message': string, c: char)
    ensures TemplateOwn(name, email, requestType, message, c) == TemplateOwn(name', email', requestType', message', c)
  {
    TemplateOwnParts(name, email, requestType, message, c);
    TemplateOwnParts(name', email', requestType', message', c);
    ListItemCount("Name", name, name', c);
    ListItemCount("Email", email, email', c);
    ListItemCount("Request Type", requestType, requestType', c);
    MessageParagraphCount(message, message', c);
  }

  /** Whatever two requests hold, their bodies have the same number of each
      angle bracket: user text cannot add markup. */
  lemma BodyMarkupFixed(name: Option<string>, email: Option<string>, requestType: Option<string>, message: Option<string>,
                        name': Option<string>, email': Option<string>, requestType': Option<string>, message': Option<string>,
                        c: char)
    requires c == '<' || c == '>'
    ensures Occurrences(Body(name, email, requestType, message), c) == Occurrences(Body(name', email', requestType', message'), c)
  {
    var n, e, t, m := Sanitize(name), Sanitize(email), Sanitize(requestType), Sanitize(message);
    var n', e', t', m' := Sanitize(name'), Sanitize(email'), Sanitize(requestType'), Sanitize(message');
    BracketFree(n, c);
    BracketFree(e, c);
    BracketFree(t, c);
    BracketFree(m, c);
    BracketFree(n', c);
    BracketFree(e', c);
    BracketFree(t', c);
    BracketFree(m', c);
    TemplateCount(n, e, t, m, n', e', t', m', c);
  }

  lemma BracketFree(s: string, c: char)
    requires NoBrackets(s) && (c == '<' || c == '>')
    ensures Occurrences(s, c) == 0
  {
    OccurrencesZero(s, c);
  }

  /** The body has a list item per field, each showing the sanitized value
      under its caption, and the sanitized message in its own paragraph. */
  lemma BodyShowsFields(name: Option<string>, email: Option<string>,
                        requestType: Option<string>, message: Option<string>)
    ensures Infix(ListItem("Name", Sanitize(name)), Body(name, email, requestType, message))
    ensures Infix(ListItem("Email", Sanitize(email)), Body(name, email, requestType, message))
    ensures Infix(ListItem("Request Type", Sanitize(requestType)), Body(name, email, requestType, message))
    ensures Infix(MessageParagraph(Sanitize(message)), Body(name, email, requestType, message))
  {
    var n, e, t, m := Sanitize(name), Sanitize(email), Sanitize(requestType), Sanitize(message);
    var nameItem, emailItem, typeItem := ListItem("Name", n), ListItem("Email", e), ListItem("Request Type", t);
    var messageLine := MessageParagraph(m);
    // the template associates to the left: ((((((Intro + nameItem) + emailItem) + typeItem) + ListEnd) + messageLine) + Closing)
    var a := Intro + nameItem;
    var b := a + emailItem;
    var c := b + typeItem;
    var d := c + ListEnd + messageLine;
    assert Infix(nameItem, a) by {
      InfixSelf(nameItem);
      InfixPrepend(nameItem, nameItem, Intro);
    }
    assert Infix(nameItem, b) && Infix(emailItem, b) by {
      InfixAppend(nameItem, a, emailItem);
      InfixSelf(emailItem);
      InfixPrepend(emailItem, emailItem, a);
    }
    assert Infix(nameItem, c) && Infix(emailItem, c) && Infix(typeItem, c) by {
      InfixAppend(nameItem, b, typeItem);
      InfixAppend(emailItem, b, typeItem);
      InfixSelf(typeItem);
      InfixPrepend(typeItem, typeItem, b);
    }
    assert Infix(nameItem, d) && Infix(emailItem, d) && Infix(typeItem, d) && Infix(messageLine, d) by {
      InfixAppend(nameItem, c, ListEnd + messageLine);
      InfixAppend(emailItem, c, ListEnd + messageLine);
      InfixAppend(typeItem, c, ListEnd + messageLine);
      assert c + ListEnd + messageLine == c + (ListEnd + messageLine);
      InfixSelf(messageLine);
      InfixPrepend(messageLine, messageLine, c + ListEnd);
    }
    InfixAppend(nameItem, d, Closing);
    InfixAppend(emailItem, d, Closing);
    InfixAppend(typeItem, d, Closing);
    InfixAppend(messageLine, d, Closing);
  }

  // ---------------------------------------------------------------------------
  // The handler

  /** The body fields of a DSAR submission (`type` is `requestType`, the token is
      the `g-recaptcha-response` field). */
  datatype Request = Request(
    httpMethod: string,
    name: Option<string>,
    email: Option<string>,
    requestType: Option<string>,
    message: Option<string>,
    token: Option<string>)

  /** Name, email, type and token are given; the message is optional. */
  predicate RequiredGiven(req: Request) {
    Given(req.name) && Given(req.email) && Given(req.requestType) && Given(req.token)
  }

  const MissingFields := "Please fill out all required fields and complete the reCAPTCHA."
  const CaptchaFailed := "reCAPTCHA verification failed. Please try again."
  const Submitted := "Your request has been submitted successfully. We will respond within 30 days."
  const InternalError := "An internal error occurred. Please try again later."

  /** The email sent for a request that passed every check. */
  function Notification(req: Request): Email {
    Email(Sender, Recipient, SubjectPrefix + Sanitize(req.requestType),
          Body(req.name, req.email, req.requestType, req.message))
  }

  /** The handler: method gate, required-field check, reCAPTCHA, email, response.
      Validation comes before any network call and does not require the
      message; the reCAPTCHA gates the email, and the response follows the
      send. Any throw inside the try block becomes a 500. */
  function Handle(req: Request, captcha: CaptchaOutcome, delivery: SendOutcome): (out: Outcome)
    ensures req.httpMethod != "POST" ==> out == Outcome(Response(405, MethodNotAllowed), [])
    ensures req.httpMethod == "POST" && !RequiredGiven(req) ==> out == Outcome(Response(400, MissingFields), [])
    ensures out.calls != [] <==> req.httpMethod == "POST" && RequiredGiven(req)
    ensures out.calls != [] ==> out.calls[0] == VerifyCaptcha(req.token)
    ensures SentEmails(out.calls) != [] ==> captcha == Replied(true)
    ensures |SentEmails(out.calls)| <= 1
    ensures out.calls != [] && captcha == Replied(false) ==> out.resp == Response(400, CaptchaFailed) && |out.calls| == 1
    ensures out.calls != [] && captcha == CaptchaThrows ==> out.resp == Response(500, InternalError) && |out.calls| == 1
    ensures out.calls != [] && captcha == Replied(true) ==> out.calls == [VerifyCaptcha(req.token), SendEmail(Notification(req))]
    ensures out.resp.status == 200 <==> SentEmails(out.calls) != [] && delivery == Resolved
    ensures out.resp.status == 200 ==> out.resp.message == Submitted
    ensures SentEmails(out.calls) != [] && delivery == SendThrows ==> out.resp == Response(500, InternalError)
  {
    if req.httpMethod != "POST" then Outcome(Response(405, MethodNotAllowed), [])
    else if !Given(req.name) || !Given(req.email) || !Given(req.requestType) || !Given(req.token) then
      Outcome(Response(400, MissingFields), [])
    else
      var verified := [VerifyCaptcha(req.token)];
      if captcha.CaptchaThrows? then Outcome(Response(500, InternalError), verified)
      else if !captcha.success then Outcome(Response(400, CaptchaFailed), verified)
      else
        var sent := verified + [SendEmail(Notification(req))];
        if delivery.SendThrows? then Outcome(Response(500, InternalError), sent)
        else Outcome(Response(200, Submitted), sent)
  }
}
