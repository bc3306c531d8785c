# Sticki.one form handlers

The repository has two serverless HTTP endpoints behind the site's forms:

- `api/dsar.js` handles a privacy (DSAR, data subject access request) form.
  It escapes user text with `sanitize`, checks the required fields, verifies
  the reCAPTCHA token and mails the request to the privacy inbox.
- `api/join.js` handles the waitlist form. It verifies the reCAPTCHA token and
  mails every submitted form entry, unescaped, to the team inbox. It picks the
  subject by form type and does no field validation.

The model is split into four modules:

- `Http` (`http.dfy`) holds the vocabulary both handlers share:
  - optional request fields, with `Given`, which is JavaScript truthiness for a
    string field;
  - the response, and the `Outcome` of one request;
  - the email object handed to the provider;
  - the outcomes of the two external calls;
  - the trace of calls a handler makes.
- `Text` (`text.dfy`) holds the string operations:
  - `ReplaceAll`, a global one-character `String.prototype.replace`;
  - `Occurrences`, a character count;
  - `Infix`, substring containment.
- `Dsar` (`dsar.dfy`) holds `sanitize`, the email template, and the handler.
- `Join` (`join.dfy`) holds the subject choice, the `formData` body builder, and
  the handler.

Each handler is a function with one branch per early return of the source. It
takes the request's fields, the outcome of the reCAPTCHA round trip and the
outcome of the email send as inputs. It returns an `Outcome`: the response and
the sequence of external calls made, in order. The call outcomes are:

- reCAPTCHA: `Replied(success)` or `CaptchaThrows`;
- email send: `Resolved` or `SendThrows`.

A throw inside the handler's `try` block is a 500 response. Nothing is kept
between requests.

In `api/join.js`:

- No field is validated. There is no email-format check and no confirmation
  flag.
- A join paragraph is `<p><strong>key:</strong> value</p>`, with the colon
  inside `<strong>`.
- The join success message is "Success! Check your inbox/sms to confirm.".

## Model

| member | source | states |
|---|---|---|
| Dsar.Sanitize | api/dsar.js:8-11 | a missing or empty value gives `""`, and no result ever contains `<` or `>` |
| Dsar.SanitizeEscapesEachChar | api/dsar.js:10 | the two chained global replacements equal escaping each character on its own in one pass (`<` to `&lt;`, `>` to `&gt;`, anything else kept), so the `&gt;` pass never touches text from the `&lt;` pass |
| Dsar.SanitizeUnchanged | api/dsar.js:10 | a string with neither `<` nor `>` comes back unchanged |
| Dsar.SanitizeLength | api/dsar.js:10 | the result is the input's length plus 3 for every `<` and every `>` |
| Dsar.SanitizeAppend | api/dsar.js:10 | sanitizing distributes over concatenation |
| Dsar.SanitizeIdempotent | api/dsar.js:9-10 | sanitizing a sanitized value changes nothing |
| Dsar.BodyMarkupFixed | api/dsar.js:40-49 | any two requests give bodies with the same number of `<` (and of `>`), so no field value can add markup to the email |
| Dsar.BodyShowsFields | api/dsar.js:40-49 | the body has the `Name`, `Email` and `Request Type` list items, each with the sanitized field, and the sanitized message in its own paragraph |
| Dsar.Handle | api/dsar.js:13-65 | a non-POST request gets 405 with no external call. A missing or empty name, email, type or token gets 400 with no external call; the message is optional. Otherwise the handler calls reCAPTCHA first, with the token. A throw there gets 500. A reply without success gets 400 and no email. On success exactly one email is sent: the fixed sender and recipient, subject `New Privacy Request (DSAR): ` plus the sanitized type, and the sanitized body. The response is 200 with the 30-day message exactly when that send resolves, and 500 when it throws |
| Text.ReplaceAllAppend | api/dsar.js:10 | a global replacement distributes over concatenation |
| Text.ReplaceAllUnchanged | api/dsar.js:10 | a global replacement leaves a string without the pattern character unchanged |
| Text.ReplaceAllCounts | api/dsar.js:10 | each character's count in the result: the pattern character contributes the replacement's characters, and every other character is kept |
| Text.ReplaceAllRemoves | api/dsar.js:10 | when the replacement lacks the pattern character, the result lacks it too |
| Text.ReplaceAllLength | api/dsar.js:10 | the result grows by `|rep| - 1` per occurrence of the pattern character |
| Join.Subject | api/join.js:31 | the driver subject exactly when the form type is the string `"driver"`, the advertiser subject exactly otherwise (a missing form type included) |
| Join.BodyAppend | api/join.js:32-34 | no entries give an empty body, and the body of two runs of entries is their two bodies joined |
| Join.BodyInOrder | api/join.js:32-34 | entry `i`'s `<p><strong>key:</strong> value</p>` paragraph sits between the bodies of the entries before it and after it |
| Join.BodyShowsEntries | api/join.js:32-34 | every key and every value appears verbatim in the body |
| Join.BodyKeepsEntryText | api/join.js:32-34 | the body's count of any character is the count in the keys and values plus an amount set by the number of entries alone, so nothing the user typed is escaped or dropped |
| Join.Handle | api/join.js:8-50 | a non-POST request gets 405 with no external call. Every POST calls reCAPTCHA first, with the token, and validates nothing. A throw there gets 500. A reply without success gets 400 and no email. After success, a missing `formData` throws, which gives 500 and no email. Otherwise exactly one email is sent: the fixed sender and recipient, the chosen subject, and html `<h1>` + subject + `</h1>` + body. The response is 200 with "Success! Check your inbox/sms to confirm." exactly when that send resolves, and 500 when it throws |

## Left out

- The reCAPTCHA `fetch` to siteverify and the JSON decoding of its reply are I/O. They are one input outcome: a reply with a truthy or falsy `success`, or a throw. The un-URL-encoded interpolation of secret and token into the request body is not modelled.
- The email provider client and the internals of `emails.send` are a foreign library and I/O. The send is one input outcome, resolves or throws.
- `process.env` secrets are configuration, not logic.
- `console.error` logging is a diagnostic side effect only.
- async scheduling and the framework's `req`/`res` objects are left out. The response is a returned value.
- A request without a body is left out. The handlers destructure `req.body` outside their `try`, so the framework, not the handler, answers that case.
- Field values other than strings are left out, and so is JavaScript truthiness beyond "missing or empty string". A field is `Option<string>`; `None` and `""` both count as absent. Join's `formData` is an ordered sequence of string pairs, or missing. The order is the one `Object.entries` returns: integer-like keys first, in ascending order, then the other keys in insertion order. That is not necessarily the order the client sent.
- Dsar.Sanitize: `replace` on a non-string truthy value (a number, say, which would throw) is not modelled, because fields are strings.
- No lemma evaluates the handlers on particular sample strings, such as the DSAR message `<b>hi</b>` giving `&lt;b&gt;hi&lt;/b&gt;`. The verifier cannot unfold the escaping over literal strings within its resource limit. The general lemmas cover these cases: `SanitizeEscapesEachChar`, `SanitizeAppend` and `BodyShowsFields`.
