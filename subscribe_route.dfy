/** The email subscription endpoint (POST /api/subscribe): validate the email,
    optionally verify a captcha token, send one of two confirmation mails, and
    map every failure to a JSON response. The captcha verifier and the mail
    provider are outside the model: the handler receives what they would do
    (reply or throw) as parameters and returns the calls it made, in order. */
module SubscribeRoute {
  import opened JsCore

  /** The environment variables the handler reads; None is an unset variable. */
  datatype Env = Env(
    captchaSecret: Option<string>,   // HCAPTCHA_SECRET_KEY
    contactEmail: Option<string>,    // CONTACT_EMAIL
    siteUrl: Option<string>)         // NEXT_PUBLIC_SITE_URL

  /** The request body: either `request.json()` throws, or it yields the three
      fields, each possibly absent (or null). */
  datatype RequestBody =
    | Unparsable
    | Body(email: Option<string>, context: Option<string>, captchaToken: Option<string>)

  /** What the captcha verifier does: answer with its `success` flag, or throw
      (network failure, or a reply that is not JSON). */
  datatype CaptchaOutcome = CaptchaReply(success: bool) | CaptchaThrows

  /** What the mail provider's send does: return, or throw. */
  datatype SendOutcome = Delivered | SendThrows

  datatype Mail = Mail(from: string, to: string, subject: string, html: string)

  /** An outbound call the handler makes. */
  datatype Call =
    | VerifyCaptcha(token: string, secret: string)
    | SendEmail(mail: Mail)

  datatype Payload =
    | ErrorPayload(error: string)
    | SuccessPayload(message: string, success: bool)

  datatype Response = Response(status: int, payload: Payload)

  const InvalidEmail := Response(400, ErrorPayload("Invalid email address"))
  const CaptchaFailed := Response(400, ErrorPayload("Captcha verification failed"))
  const ServerError := Response(500, ErrorPayload("Something went wrong. Please try again."))
  const Subscribed := Response(200, SuccessPayload("Thanks! Check your email to confirm.", true))

  const WaitlistContext := "android_waitlist"
  const DefaultSender := "no-reply@buli.app"
  const WaitlistSubject := "You're on the Buli Android waitlist!"
  const NewsletterSubject := "Welcome to Buli newsletter!"

  /** The email check `!email || !email.includes('@')`, negated: an email is
      accepted exactly when it is present and has an '@' somewhere. */
  function IsValidEmail(email: Option<string>): (ok: bool)
    ensures ok <==> email.Some? && '@' in email.value
  {
    if email.Some? then
      IncludesChar(email.value, '@');
      Truthy(email) && Includes(email.value, "@")
    else
      false
  }

  /** The captcha gate fires only when a secret is configured and a token was
      sent; with a secret but no token, verification is skipped. */
  predicate CaptchaGateOpen(secret: Option<string>, token: Option<string>) {
    Truthy(secret) && Truthy(token)
  }

  /** A template literal `${v}` of an environment variable: an unset variable
      renders as the text "undefined". */
  function Interpolated(v: Option<string>): string {
    if v.Some? then v.value else "undefined"
  }

  datatype Template = Template(subject: string, html: string)

  // The two mail bodies, each split around its one interpolated link.
  const WaitlistHead := "\n          <h1>Thanks for joining the Android waitlist!</h1>\n"
    + "          <p>We'll notify you as soon as Buli launches on Android.</p>\n"
    + "          <p>In the meantime, check out our <a href=\""
  const WaitlistTail := "\">blog</a> for training tips.</p>\n          <p>- The Buli Team</p>\n        "
  const NewsletterHead := "\n          <h1>Welcome to the Buli community!</h1>\n"
    + "          <p>You'll receive monthly training guides, science breakdowns, and product updates.</p>\n"
    + "          <p>Start training today: <a href=\""
  const NewsletterTail := "\">Download Buli</a></p>\n          <p>- The Buli Team</p>\n        "

  function WaitlistHtml(site: string): string {
    WaitlistHead + (site + "/blog") + WaitlistTail
  }

  function NewsletterHtml(site: string): string {
    NewsletterHead + (site + "/download") + NewsletterTail
  }

  /** The subject and body chosen by `context`: only the exact tag
      "android_waitlist" selects the waitlist mail; every other value, and a
      missing one, selects the newsletter mail. Each body links to the site. */
  function SelectTemplate(context: Option<string>, siteUrl: Option<string>): (t: Template)
    ensures context == Some(WaitlistContext) ==>
              t.subject == WaitlistSubject && Includes(t.html, Interpolated(siteUrl) + "/blog")
    ensures context != Some(WaitlistContext) ==>
              t.subject == NewsletterSubject && Includes(t.html, Interpolated(siteUrl) + "/download")
  {
    var site := Interpolated(siteUrl);
    if context == Some(WaitlistContext) then
      IncludesInfix(WaitlistHead, site + "/blog", WaitlistTail);
      Template(WaitlistSubject, WaitlistHtml(site))
    else
      IncludesInfix(NewsletterHead, site + "/download", NewsletterTail);
      Template(NewsletterSubject, NewsletterHtml(site))
  }

  /** The two subjects are different texts, so the subject alone tells which
      template was chosen. */
  lemma {:induction false} WaitlistSubjectIff(context: Option<string>, siteUrl: Option<string>)
    ensures SelectTemplate(context, siteUrl).subject == WaitlistSubject <==> context == Some(WaitlistContext)
  {
    assert WaitlistSubject[0] != NewsletterSubject[0];
  }

  /** The mail sent to a subscriber: to exactly the submitted address, from
      CONTACT_EMAIL when it is set and non-empty, else the fixed no-reply sender. */
  function ConfirmationMail(env: Env, email: string, context: Option<string>): (m: Mail)
    ensures m.to == email
    ensures Truthy(env.contactEmail) ==> m.from == env.contactEmail.value
    ensures !Truthy(env.contactEmail) ==> m.from == DefaultSender
    ensures (m.subject == WaitlistSubject) <==> context == Some(WaitlistContext)
  {
    var t := SelectTemplate(context, env.siteUrl);
    WaitlistSubjectIff(context, env.siteUrl);
    Mail(OrElse(env.contactEmail, DefaultSender), email, t.subject, t.html)
  }

  predicate Verifies(calls: seq<Call>) {
    exists c :: c in calls && c.VerifyCaptcha?
  }

  predicate Sends(calls: seq<Call>) {
    exists c :: c in calls && c.SendEmail?
  }

  /** The handler. Stages run in order: body parse, email validation, captcha
      gate, mail send; each failure ends the request before any later stage.
      The mail client is constructed unconditionally when the module loads, so
      the `if (resend)` guard never skips the send. */
  method Post(env: Env, body: RequestBody, captcha: CaptchaOutcome, send: SendOutcome)
    returns (resp: Response, calls: seq<Call>)
    // a body that does not parse is a thrown error: 500, nothing called
    ensures body.Unparsable? ==> resp == ServerError && calls == []
    // a missing email or one without '@': 400, neither verifier nor sender called
    ensures body.Body? && !IsValidEmail(body.email) ==> resp == InvalidEmail && calls == []
    // the verifier is called iff the email is valid, a secret is set and a token was sent
    ensures Verifies(calls) <==>
              body.Body? && IsValidEmail(body.email) && CaptchaGateOpen(env.captchaSecret, body.captchaToken)
    ensures Verifies(calls) ==>
              calls[0] == VerifyCaptcha(body.captchaToken.value, env.captchaSecret.value)
    // a verifier reply without success: 400 and no send
    ensures Verifies(calls) && captcha == CaptchaReply(false) ==> resp == CaptchaFailed && !Sends(calls)
    // a send happens only after validation and, when the gate is open, a successful verification
    ensures Sends(calls) <==>
              body.Body? && IsValidEmail(body.email) &&
              (CaptchaGateOpen(env.captchaSecret, body.captchaToken) ==> captcha == CaptchaReply(true))
    ensures Sends(calls) ==>
              calls[|calls| - 1] == SendEmail(ConfirmationMail(env, body.email.value, body.context))
    // order: at most one verification, then at most one send
    ensures |calls| <= 2
    ensures forall i, j :: 0 <= i < j < |calls| ==> calls[i].VerifyCaptcha? && calls[j].SendEmail?
    // outcomes
    ensures resp.status == 200 <==> Sends(calls) && send == Delivered
    ensures resp.status == 200 ==> resp == Subscribed
    ensures resp.status == 500 <==>
              body.Unparsable? ||
              (Verifies(calls) && captcha == CaptchaThrows) ||
              (Sends(calls) && send == SendThrows)
    ensures resp == InvalidEmail || resp == CaptchaFailed || resp == ServerError || resp == Subscribed
  {
    calls := [];
    if body.Unparsable? {
      resp := ServerError;
      return;
    }
    if !IsValidEmail(body.email) {
      resp := InvalidEmail;
      return;
    }
    if CaptchaGateOpen(env.captchaSecret, body.captchaToken) {
      calls := calls + [VerifyCaptcha(body.captchaToken.value, env.captchaSecret.value)];
      match captcha
      case CaptchaThrows =>
        assert calls[0] in calls;
        resp := ServerError;
        return;
      case CaptchaReply(success) =>
        if !success {
          assert calls[0] in calls;
          resp := CaptchaFailed;
          return;
        }
    }
    var mail := ConfirmationMail(env, body.email.value, body.context);
    calls := calls + [SendEmail(mail)];
    assert calls[|calls| - 1] in calls;
    assert |calls| == 2 ==> calls[0] in calls;
    if send.SendThrows? {
      resp := ServerError;
      return;
    }
    resp := Subscribed;
  }
}
