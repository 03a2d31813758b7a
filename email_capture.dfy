/** The client-side email capture form: local checks, a loading state while
    the POST to /api/subscribe is in flight, then success or error. The submit
    handler is split at its `await`: Submit runs the checks and issues the
    request; Settle runs when the request resolves, with the outcome as a
    parameter (a response, or a thrown error). */
module EmailCapture {
  import opened JsCore
  import SubscribeRoute

  datatype Status = Idle | Loading | Success | Error

  /** The JSON body the form posts. */
  datatype SubscribeRequest = SubscribeRequest(email: string, context: string, captchaToken: Option<string>)

  /** What `response.json()` yields: a JSON object's two fields of interest,
      or a throw because the body is not JSON. */
  datatype ResponseJson = NotJson | Json(message: Option<string>, error: Option<string>)

  /** How the request resolves: `fetch` throws, or a response arrives. */
  datatype FetchOutcome = Threw | Answered(ok: bool, json: ResponseJson)

  const InvalidEmailMessage := "Please enter a valid email address"
  const CaptchaMessage := "Please complete the captcha"
  const DefaultSuccessMessage := "Thanks! Check your email to confirm."
  const DefaultErrorMessage := "Something went wrong. Please try again."
  const NetworkErrorMessage := "Network error. Please try again."
  const SendingLabel := "Sending..."

  /** The status a resolved request leaves the form in. */
  function SettledStatus(outcome: FetchOutcome): (s: Status)
    ensures s == Success <==> outcome.Answered? && outcome.ok && outcome.json.Json?
    ensures s != Success ==> s == Error
  {
    match outcome
    case Threw => Error
    case Answered(ok, json) => if json.NotJson? then Error else if ok then Success else Error
  }

  /** The message a resolved request shows: the server's own text when it sent
      one, a fixed fallback otherwise; any throw, including a body that is not
      JSON, shows the network error. */
  function SettledMessage(outcome: FetchOutcome): (m: string)
    ensures outcome.Threw? || (outcome.Answered? && outcome.json.NotJson?) ==> m == NetworkErrorMessage
    ensures outcome.Answered? && outcome.json.Json? && outcome.ok ==>
              m == OrElse(outcome.json.message, DefaultSuccessMessage)
    ensures outcome.Answered? && outcome.json.Json? && !outcome.ok ==>
              m == OrElse(outcome.json.error, DefaultErrorMessage)
    ensures m != ""
  {
    match outcome
    case Threw => NetworkErrorMessage
    case Answered(ok, json) =>
      match json
      case NotJson => NetworkErrorMessage
      case Json(msg, err) => if ok then OrElse(msg, DefaultSuccessMessage) else OrElse(err, DefaultErrorMessage)
  }

  /** How the form sees a response of the subscription endpoint: `ok` is a 2xx
      status, and the JSON carries `message` or `error`. */
  function AsOutcome(resp: SubscribeRoute.Response): FetchOutcome {
    Answered(200 <= resp.status < 300,
      match resp.payload
      case ErrorPayload(e) => Json(None, Some(e))
      case SuccessPayload(m, _) => Json(Some(m), None))
  }

  /** End to end: whatever the endpoint answers, the form shows the endpoint's
      own text, and reaches Success exactly on the endpoint's 200. */
  lemma {:induction false} FormShowsServerText(resp: SubscribeRoute.Response)
    requires resp == SubscribeRoute.InvalidEmail || resp == SubscribeRoute.CaptchaFailed ||
             resp == SubscribeRoute.ServerError || resp == SubscribeRoute.Subscribed
    ensures SettledStatus(AsOutcome(resp)) == Success <==> resp.status == 200
    ensures SettledMessage(AsOutcome(resp)) ==
              match resp.payload
              case ErrorPayload(e) => e
              case SuccessPayload(m, _) => m
  {
    var o := AsOutcome(resp);
    if resp == SubscribeRoute.Subscribed {
      assert o == Answered(true, Json(Some("Thanks! Check your email to confirm."), None));
    } else if resp == SubscribeRoute.ServerError {
      assert o == Answered(false, Json(None, Some("Something went wrong. Please try again.")));
    } else if resp == SubscribeRoute.InvalidEmail {
      assert o == Answered(false, Json(None, Some("Invalid email address")));
    } else {
      assert o == Answered(false, Json(None, Some("Captcha verification failed")));
    }
  }

  class Form {
    const context: string
    const siteKeyConfigured: bool   // NEXT_PUBLIC_HCAPTCHA_SITE_KEY is set
    const buttonText: string

    var email: string
    var status: Status
    var message: string
    var captchaToken: Option<string>
    /** Every request the form has posted, oldest first. */
    var requests: seq<SubscribeRequest>
    /** How many times the captcha widget was reset. */
    var captchaResets: nat

    /** What every state of the form satisfies: only requests that passed both
        local checks were posted, and a request is in flight while loading. */
    ghost predicate Valid()
      reads this
    {
      (forall r :: r in requests ==>
         r.context == context &&
         SubscribeRoute.IsValidEmail(Some(r.email)) &&
         (siteKeyConfigured ==> Truthy(r.captchaToken))) &&
      (status == Loading ==> |requests| > 0)
    }

    constructor(context: string, siteKeyConfigured: bool, buttonText: string)
      ensures Valid()
      ensures this.context == context && this.siteKeyConfigured == siteKeyConfigured
      ensures this.buttonText == buttonText
      ensures email == "" && status == Idle && message == "" && captchaToken == None
      ensures requests == [] && captchaResets == 0
    {
      this.context := context;
      this.siteKeyConfigured := siteKeyConfigured;
      this.buttonText := buttonText;
      email := "";
      status := Idle;
      message := "";
      captchaToken := None;
      requests := [];
      captchaResets := 0;
    }

    /** The input and the button are disabled while loading and after success. */
    predicate Disabled()
      reads this
    {
      status == Loading || status == Success
    }

    /** The captcha widget is rendered when a site key is configured, until success. */
    predicate CaptchaRendered()
      reads this
    {
      siteKeyConfigured && status != Success
    }

    /** The status line renders whenever there is a message. */
    predicate MessageShown()
      reads this
    {
      message != ""
    }

    /** The "we'll send a confirmation email" hint renders until success. */
    predicate HintShown()
      reads this
    {
      status != Success
    }

    /** Success is terminal: input and button are disabled, the captcha is
        gone and no request is in flight, so no handler of the form can run. */
    lemma SuccessIsTerminal()
      requires status == Success
      ensures Disabled() && !CaptchaRendered() && status != Loading && !HintShown()
    {
    }

    /** The button reads "Sending..." exactly while loading. */
    function ButtonLabel(): (text: string)
      reads this
      ensures status == Loading ==> text == SendingLabel
      ensures status != Loading ==> text == buttonText
    {
      if status == Loading then SendingLabel else buttonText
    }

    /** onChange of the input; a disabled input fires none. */
    method TypeEmail(value: string)
      requires Valid() && !Disabled()
      modifies this`email
      ensures Valid() && email == value
    {
      email := value;
    }

    /** onVerify of the captcha widget, which exists only while rendered. */
    method CaptchaVerified(token: string)
      requires Valid() && CaptchaRendered()
      modifies this`captchaToken
      ensures Valid() && captchaToken == Some(token)
    {
      captchaToken := Some(token);
    }

    /** The submit handler up to its `await`. A disabled button submits nothing,
        so the form can be submitted only when idle or after an error. */
    method Submit()
      requires Valid() && !Disabled()
      modifies this`status, this`message, this`requests
      ensures Valid()
      // first check: the same '@' rule as the server
      ensures !SubscribeRoute.IsValidEmail(Some(email)) ==>
                status == Error && message == InvalidEmailMessage && requests == old(requests)
      // second check, only after the first passed
      ensures SubscribeRoute.IsValidEmail(Some(email)) && !Truthy(captchaToken) && siteKeyConfigured ==>
                status == Error && message == CaptchaMessage && requests == old(requests)
      // both passed: loading, and exactly one request with the current fields
      ensures SubscribeRoute.IsValidEmail(Some(email)) && (siteKeyConfigured ==> Truthy(captchaToken)) ==>
                status == Loading && message == old(message) &&
                requests == old(requests) + [SubscribeRequest(email, context, captchaToken)]
    {
      if !SubscribeRoute.IsValidEmail(Some(email)) {
        status := Error;
        message := InvalidEmailMessage;
        return;
      }
      if !Truthy(captchaToken) && siteKeyConfigured {
        status := Error;
        message := CaptchaMessage;
        return;
      }
      status := Loading;
      requests := requests + [SubscribeRequest(email, context, captchaToken)];
    }

    /** The submit handler after its `await`: settle on the outcome, then reset
        the captcha widget (a no-op when no widget is rendered). A local
        rejection in Submit never gets here, so it never resets the widget. */
    method Settle(outcome: FetchOutcome)
      requires Valid() && status == Loading
      modifies this`status, this`message, this`email, this`captchaToken, this`captchaResets
      ensures Valid()
      ensures status == SettledStatus(outcome) && message == SettledMessage(outcome)
      // success clears the typed email and the token; an error keeps both
      ensures status == Success ==> email == "" && captchaToken == None
      ensures status == Error ==> email == old(email) && captchaToken == old(captchaToken)
      ensures captchaResets == old(captchaResets) + (if siteKeyConfigured then 1 else 0)
    {
      match outcome {
        case Threw =>
          status := Error;
          message := NetworkErrorMessage;
        case Answered(ok, json) =>
          if json.NotJson? {
            status := Error;
            message := NetworkErrorMessage;
          } else if ok {
            status := Success;
            message := OrElse(json.message, DefaultSuccessMessage);
            email := "";
            captchaToken := None;
          } else {
            status := Error;
            message := OrElse(json.error, DefaultErrorMessage);
          }
      }
      if siteKeyConfigured {
        captchaResets := captchaResets + 1;
      }
    }
  }
}
