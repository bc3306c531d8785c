/** The waitlist ("join") endpoint: verifies the reCAPTCHA token, then mails
    every submitted form entry, unescaped, to the team inbox. There is no field
    validation in this handler. */
module Join {
  import opened Http
  import opened Text

  const Sender := "Sticki.one Waitlist <waitlist@firstdrop.sticki.one>"
  const Recipient := "maxime@sticki.one"
  const DriverSubject := "New Driver Waitlist Submission!"
  const AdvertiserSubject := "New Advertiser Interest!"

  const CaptchaFailed := "reCAPTCHA failed. Please try again."
  const Joined := "Success! Check your inbox/sms to confirm."
  const InternalError := "An internal error occurred."

  /** `formType === 'driver' ? … : …`: only the exact string "driver" picks
      the driver subject; anything else, a missing form type included, is an
      advertiser. */
  function Subject(formType: Option<string>): (subject: string)
    ensures subject == DriverSubject <==> formType == Some("driver")
    ensures subject == AdvertiserSubject <==> formType != Some("driver")
  {
    if formType == Some("driver") then DriverSubject else AdvertiserSubject
  }

  // ---------------------------------------------------------------------------
  // The body: Object.entries(formData).map(...).join('')

  /** The paragraph for one form entry; the colon is inside `<strong>` and
      neither key nor value is escaped. */
  function Paragraph(key: string, value: string): string {
    "<p><strong>" + key + ":</strong> " + value + "</p>"
  }

  /** The `map` step: one paragraph per entry, in entry order. */
  function Paragraphs(entries: seq<(string, string)>): seq<string> {
    seq(|entries|, i requires 0 <= i < |entries| => Paragraph(entries[i].0, entries[i].1))
  }

  /** The `join('')` step. */
  function Concat(parts: seq<string>): string {
    if parts == [] then "" else parts[0] + Concat(parts[1..])
  }

  function Body(entries: seq<(string, string)>): string {
    Concat(Paragraphs(entries))
  }

  lemma {:induction false} ConcatAppend(a: seq<string>, b: seq<string>)
    ensures Concat(a + b) == Concat(a) + Concat(b)
  {
    if a == [] {
      assert a + b == b;
    } else {
      assert (a + b)[0] == a[0];
      assert (a + b)[1..] == a[1..] + b;
      ConcatAppend(a[1..], b);
    }
  }

  /** No entries, no body; and the body of two runs of entries is the two
      bodies one after the other. */
  lemma BodyAppend(a: seq<(string, string)>, b: seq<(string, string)>)
    ensures Body([]) == ""
    ensures Body(a + b) == Body(a) + Body(b)
  {
    assert Paragraphs(a + b) == Paragraphs(a) + Paragraphs(b);
    ConcatAppend(Paragraphs(a), Paragraphs(b));
  }

  /** Entry `i`'s paragraph sits between the paragraphs of the entries before
      it and those of the entries after it. */
  lemma BodyInOrder(entries: seq<(string, string)>, i: nat)
    requires i < |entries|
    ensures Body(entries) == Body(entries[..i]) + Paragraph(entries[i].0, entries[i].1) + Body(entries[i + 1..])
  {
    assert entries == entries[..i] + [entries[i]] + entries[i + 1..];
    BodyAppend(entries[..i] + [entries[i]], entries[i + 1..]);
    BodyAppend(entries[..i], [entries[i]]);
    var p := Paragraph(entries[i].0, entries[i].1);
    assert Paragraphs([entries[i]]) == [p];
    assert Concat([p]) == p + Concat([]);
  }

  /** Every key and value reaches the body verbatim. */
  lemma BodyShowsEntries(entries: seq<(string, string)>, i: nat)
    requires i < |entries|
    ensures Infix(entries[i].0, Body(entries))
    ensures Infix(entries[i].1, Body(entries))
  {
    var (key, value) := entries[i];
    var before, after := Body(entries[..i]), Body(entries[i + 1..]);
    BodyInOrder(entries, i);
    InfixSelf(key);
    InfixPrepend(key, key, "<p><strong>");
    InfixAppend(key, "<p><strong>" + key, ":</strong> ");
    InfixAppend(key, "<p><strong>" + key + ":</strong> ", value);
    InfixAppend(key, "<p><strong>" + key + ":</strong> " + value, "</p>");
    InfixSelf(value);
    InfixPrepend(value, value, "<p><strong>" + key + ":</strong> ");
    InfixAppend(value, "<p><strong>" + key + ":</strong> " + value, "</p>");
    var p := Paragraph(key, value);
    InfixPrepend(key, p, before);
    InfixPrepend(value, p, before);
    InfixAppend(key, before + p, after);
    InfixAppend(value, before + p, after);
  }

  /** The text the user supplied: every key followed by its value. */
  function EntryText(entries: seq<(string, string)>): string {
    if entries == [] then "" else entries[0].0 + entries[0].1 + EntryText(entries[1..])
  }

  /** The characters `c` the body has beyond those of the keys and values. */
  function Markup(entries: seq<(string, string)>, c: char): int {
    Occurrences(Body(entries), c) - Occurrences(EntryText(entries), c)
  }

  /** The body holds every character of every key and value, none escaped or
      dropped, plus markup that depends only on how many entries there are:
      a `<` or `>` the user typed is a `<` or `>` in the email. */
  lemma {:induction false} BodyKeepsEntryText(entries: seq<(string, string)>, others: seq<(string, string)>, c: char)
    requires |entries| == |others|
    ensures Markup(entries, c) == Markup(others, c)
  {
    if entries != [] {
      var (key, value) := entries[0];
      var (key', value') := others[0];
      BodyFirst(entries);
      BodyFirst(others);
      OccurrencesAppend(Paragraph(key, value), Body(entries[1..]), c);
      OccurrencesAppend(Paragraph(key', value'), Body(others[1..]), c);
      OccurrencesAppend(key + value, EntryText(entries[1..]), c);
      OccurrencesAppend(key' + value', EntryText(others[1..]), c);
      OccurrencesAppend(key, value, c);
      OccurrencesAppend(key', value', c);
      ParagraphMarkup(key, value, key', value', c);
      BodyKeepsEntryText(entries[1..], others[1..], c);
    }
  }

  lemma BodyFirst(entries: seq<(string, string)>)
    requires entries != []
    ensures Body(entries) == Paragraph(entries[0].0, entries[0].1) + Body(entries[1..])
  {
    BodyInOrder(entries, 0);
    assert entries[..0] == [];
  }

  /** A paragraph's own characters do not depend on its key and value. */
  lemma ParagraphMarkup(key: string, value: string, key': string, value': string, c: char)
    ensures Occurrences(Paragraph(key, value), c) - Occurrences(key, c) - Occurrences(value, c)
         == Occurrences(Paragraph(key', value'), c) - Occurrences(key', c) - Occurrences(value', c)
  {
    OccurrencesOfFive("<p><strong>", key, ":</strong> ", value, "</p>", c);
    OccurrencesOfFive("<p><strong>", key', ":</strong> ", value', "</p>", c);
  }

  // ---------------------------------------------------------------------------
  // The handler

  /** The body fields of a join submission. `formData` is `None` when it is
      missing (then `Object.entries` throws); otherwise its entries in order. */
  datatype Request = Request(
    httpMethod: string,
    formData: Option<seq<(string, string)>>,
    token: Option<string>,
    formType: Option<string>)

  /** The email sent for the given form type and entries. */
  function Notification(formType: Option<string>, entries: seq<(string, string)>): Email {
    var subject := Subject(formType);
    Email(Sender, Recipient, subject, "<h1>" + subject + "</h1>" + Body(entries))
  }

  /** The handler: method gate, reCAPTCHA, subject and body, email, response.
      Every POST verifies the token first, whatever the fields hold; the
      reCAPTCHA gates the email, and a missing formData throws after the
      reCAPTCHA and before any email. Any throw inside the try block becomes
      a 500. */
  function Handle(req: Request, captcha: CaptchaOutcome, delivery: SendOutcome): (out: Outcome)
    ensures req.httpMethod != "POST" ==> out == Outcome(Response(405, MethodNotAllowed), [])
    ensures out.calls != [] <==> req.httpMethod == "POST"
    ensures out.calls != [] ==> out.calls[0] == VerifyCaptcha(req.token)
    ensures SentEmails(out.calls) != [] ==> captcha == Replied(true) && req.formData.Some?
    ensures |SentEmails(out.calls)| <= 1
    ensures out.calls != [] && captcha == Replied(false) ==> out.resp == Response(400, CaptchaFailed) && |out.calls| == 1
    ensures out.calls != [] && captcha == CaptchaThrows ==> out.resp == Response(500, InternalError) && |out.calls| == 1
    ensures out.calls != [] && captcha == Replied(true) && req.formData.None? ==>
              out.resp == Response(500, InternalError) && |out.calls| == 1
    ensures out.calls != [] && captcha == Replied(true) && req.formData.Some? ==>
              out.calls == [VerifyCaptcha(req.token), SendEmail(Notification(req.formType, req.formData.value))]
    ensures out.resp.status == 200 <==> SentEmails(out.calls) != [] && delivery == Resolved
    ensures out.resp.status == 200 ==> out.resp.message == Joined
    ensures SentEmails(out.calls) != [] && delivery == SendThrows ==> out.resp == Response(500, InternalError)
  {
    if req.httpMethod != "POST" then Outcome(Response(405, MethodNotAllowed), [])
    else
      var verified := [VerifyCaptcha(req.token)];
      if captcha.CaptchaThrows? then Outcome(Response(500, InternalError), verified)
      else if !captcha.success then Outcome(Response(400, CaptchaFailed), verified)
      else
        if req.formData.None? then Outcome(Response(500, InternalError), verified)
        else
          var sent := verified + [SendEmail(Notification(req.formType, req.formData.value))];
          if delivery.SendThrows? then Outcome(Response(500, InternalError), sent)
          else Outcome(Response(200, Joined), sent)
  }
}
