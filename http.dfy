/** Request, response and external-call vocabulary shared by the two form handlers.

    Both handlers are stateless: one request comes in, at most two external
    services are called (the reCAPTCHA verifier, then the email provider), and
    one status with a JSON message goes out. The outcomes of the external calls
    are inputs of the model; the calls the handler makes are recorded in a trace. */
module Http {

  datatype Option<T> = None | Some(value: T)

  /** A request field passes a JavaScript `!field` test: it is present and not
      the empty string. */
  predicate Given(field: Option<string>) {
    field.Some? && field.value != ""
  }

  /** What `res.status(status).json({ message })` sends back. */
  datatype Response = Response(status: int, message: string)

  /** The object handed to the email provider's `emails.send`. */
  datatype Email = Email(from: string, to: string, subject: string, html: string)

  /** The result of the siteverify round trip: a reply whose `success` field is
      truthy or not, or a throw from `fetch` or from decoding the JSON reply. */
  datatype CaptchaOutcome = Replied(success: bool) | CaptchaThrows

  /** The result of awaiting `emails.send`: it resolves, or it throws. */
  datatype SendOutcome = Resolved | SendThrows

  /** One call to an external service, with the data the handler passed. */
  datatype Call = VerifyCaptcha(token: Option<string>) | SendEmail(email: Email)

  /** What one request produces: the response sent back and the external
      calls made on the way, in order. */
  datatype Outcome = Outcome(resp: Response, calls: seq<Call>)

  const MethodNotAllowed := "Method Not Allowed"

  /** The emails a trace sends, in order. */
  function SentEmails(calls: seq<Call>): (sent: seq<Email>)
    ensures |sent| <= |calls|
    ensures forall e :: e in sent <==> SendEmail(e) in calls
  {
    if calls == [] then []
    else (if calls[0].SendEmail? then [calls[0].email] else []) + SentEmails(calls[1..])
  }
}
