/** The browser adapter that sends verification codes through the EmailJS
    relay. Its one piece of state is the `initialized` flag that `init` sets;
    the three NEXT_PUBLIC_EMAILJS_* variables and the presence of a browser
    window are an explicit environment record, and the two EmailJS calls are
    replaced by their outcomes: whether `emailjs.init` throws, and what
    `emailjs.send` would answer. */
module EmailService {

  datatype Option<T> = None | Some(value: T)

  /** What the adapter reads from its surroundings: whether `window` is
      defined, and each environment variable (None when undefined). */
  datatype Env = Env(
    hasWindow: bool,
    publicKey: Option<string>,
    serviceId: Option<string>,
    templateId: Option<string>)

  /** The response object `emailjs.send` resolves with. */
  datatype Response = Response(status: int, text: string)

  /** What `emailjs.send` does: resolve with a response, or reject with an
      error whose `status` is a number or absent. */
  datatype SendReply = Delivered(response: Response) | Rejected(status: Option<int>)

  /** The arguments handed to `emailjs.send`. */
  datatype SendRequest = SendRequest(serviceId: string, templateId: string, params: map<string, string>)

  /** The record a successful send resolves with. */
  datatype SendSuccess = SendSuccess(success: bool, message: string, result: Response)

  /** How an async call settles: resolves with a value or throws an Error. */
  datatype Settled<T> = Resolved(value: T) | Thrown(message: string)

  /** The record `testConfiguration` resolves with. */
  datatype ConfigReport = ConfigReport(initialized: bool, serviceId: bool, templateId: bool, publicKey: bool)

  /** The provider's rejection classes. */
  datatype FailureKind =
    TemplateMismatch | InvalidRequest | Unauthorized | PaymentRequired | NetworkError | Unknown

  const NOT_INITIALIZED_ERROR := "EmailJS not initialized. Check your public key."
  const MISSING_SERVICE_ID_ERROR := "EmailJS Service ID is missing"
  const MISSING_TEMPLATE_ID_ERROR := "EmailJS Template ID is missing"
  const SENT_MESSAGE := "Verification code sent successfully"
  const FAILURE_PREFIX := "Failed to send verification email. "

  const FROM_NAME := "Admin Registration System"
  const REPLY_TO := "noreply@yourapp.com"
  const SUBJECT := "Your Verification Code"

  /** The keys under which the template receives the code. */
  const CODE_KEYS: set<string> := {"verification_code", "code", "message"}
  /** The keys whose values never depend on the call's arguments. */
  const CONSTANT_KEYS: set<string> := {"from_name", "reply_to", "subject"}
  const PARAM_KEYS: set<string> := {"to_email", "user_name"} + CODE_KEYS + CONSTANT_KEYS

  /** JavaScript truthiness of an environment variable: defined and not empty. */
  predicate IsSet(v: Option<string>)
  {
    v.Some? && v.value != []
  }

  /** `init` sets the flag when a window exists, the public key is set and
      `emailjs.init` does not throw. */
  predicate InitSucceeds(env: Env, initThrows: bool)
  {
    env.hasWindow && IsSet(env.publicKey) && !initThrows
  }

  // ---------------------------------------------------------------------------
  // Pure parts of sendVerificationCode
  // ---------------------------------------------------------------------------

  /** The configuration guards in the order the adapter runs them: the error
      of the first that fails, or None when the send is reached. */
  function GuardError(initialized: bool, env: Env): (e: Option<string>)
    ensures e.Some? ==> e.value in {NOT_INITIALIZED_ERROR, MISSING_SERVICE_ID_ERROR, MISSING_TEMPLATE_ID_ERROR}
  {
    if !initialized then Some(NOT_INITIALIZED_ERROR)
    else if !IsSet(env.serviceId) then Some(MISSING_SERVICE_ID_ERROR)
    else if !IsSet(env.templateId) then Some(MISSING_TEMPLATE_ID_ERROR)
    else None
  }

  /** The template parameters: the address, the user's name, the code under
      three keys, and three constant fields. */
  function TemplateParams(email: string, userName: string, code: string): (p: map<string, string>)
    ensures p.Keys == PARAM_KEYS
    ensures forall k :: k in CODE_KEYS ==> p[k] == code
  {
    map[
      "to_email" := email,
      "user_name" := userName,
      "verification_code" := code,
      "code" := code,
      "message" := code,
      "from_name" := FROM_NAME,
      "reply_to" := REPLY_TO,
      "subject" := SUBJECT]
  }

  /** The if/else chain over the rejection's status. */
  function Classify(status: Option<int>): FailureKind
  {
    if status == Some(412) then TemplateMismatch
    else if status == Some(400) then InvalidRequest
    else if status == Some(401) then Unauthorized
    else if status == Some(402) then PaymentRequired
    else if status == Some(0) then NetworkError
    else Unknown
  }

  /** The sentence appended to the failure prefix for each class. */
  function Reason(k: FailureKind): string
  {
    match k
    case TemplateMismatch => "Template parameter mismatch. Check your EmailJS template variables."
    case InvalidRequest => "Invalid request parameters."
    case Unauthorized => "Unauthorized. Check your EmailJS API keys."
    case PaymentRequired => "Payment required. Check your EmailJS account."
    case NetworkError => "Network error. Check your internet connection."
    case Unknown => "Please try again later."
  }

  /** The message of the Error thrown when the send is rejected. */
  function FailureMessage(status: Option<int>): (m: string)
    ensures |FAILURE_PREFIX| < |m| && m[..|FAILURE_PREFIX|] == FAILURE_PREFIX
  {
    FAILURE_PREFIX + Reason(Classify(status))
  }

  // ---------------------------------------------------------------------------
  // The adapter object
  // ---------------------------------------------------------------------------

  class Service {
    /** The environment, fixed for the life of the page. */
    const env: Env
    var initialized: bool

    /** The flag is only ever set where a window and a public key exist. */
    ghost predicate Valid()
      reads this
    {
      initialized ==> env.hasWindow && IsSet(env.publicKey)
    }

    /** The constructor clears the flag and runs `init`. */
    constructor (env: Env, initThrows: bool)
      ensures this.env == env
      ensures initialized == InitSucceeds(env, initThrows)
      ensures Valid()
    {
      this.env := env;
      initialized := false;
      new;
      Init(initThrows);
    }

    /** `init` sets the flag when it succeeds and otherwise leaves it as it
        was; a failure is only logged. */
    method Init(initThrows: bool)
      requires Valid()
      modifies this`initialized
      ensures Valid()
      ensures initialized == (old(initialized) || InitSucceeds(env, initThrows))
    {
      if env.hasWindow && IsSet(env.publicKey) {
        if !initThrows {
          initialized := true;
        }
      }
    }

    /** `sendVerificationCode`: the guards, then the call to `emailjs.send`
        with the template parameters, then the success record or the Error
        thrown on rejection. `request` is the call made to `emailjs.send`, if
        any; `reply` is what that call answers when it is made. The method
        changes no state. */
    method SendVerificationCode(email: string, userName: string, code: string, reply: SendReply)
      returns (request: Option<SendRequest>, outcome: Settled<SendSuccess>)
      ensures request.None? <==> GuardError(initialized, env).Some?
      ensures request.None? ==> outcome == Thrown(GuardError(initialized, env).value)
      ensures request.Some? ==>
        request.value == SendRequest(env.serviceId.value, env.templateId.value, TemplateParams(email, userName, code))
      ensures request.Some? && reply.Delivered? ==>
        outcome == Resolved(SendSuccess(true, SENT_MESSAGE, reply.response))
      ensures request.Some? && reply.Rejected? ==> outcome == Thrown(FailureMessage(reply.status))
      ensures outcome.Resolved? ==> outcome.value.success && outcome.value.message == SENT_MESSAGE
      ensures reply.Rejected? ==> outcome.Thrown?
    {
      if !initialized {
        return None, Thrown(NOT_INITIALIZED_ERROR);
      }
      if !IsSet(env.serviceId) {
        return None, Thrown(MISSING_SERVICE_ID_ERROR);
      }
      if !IsSet(env.templateId) {
        return None, Thrown(MISSING_TEMPLATE_ID_ERROR);
      }
      var params := TemplateParams(email, userName, code);
      request := Some(SendRequest(env.serviceId.value, env.templateId.value, params));
      match reply {
        case Delivered(response) =>
          outcome := Resolved(SendSuccess(true, SENT_MESSAGE, response));
        case Rejected(status) =>
          outcome := Thrown(FailureMessage(status));
      }
    }

    /** `testConfiguration`: the flag and the truthiness of each variable. */
    method TestConfiguration() returns (report: ConfigReport)
      requires Valid()
      ensures report.initialized == initialized
      ensures report.serviceId == IsSet(env.serviceId)
      ensures report.templateId == IsSet(env.templateId)
      ensures report.publicKey == IsSet(env.publicKey)
      ensures report.initialized ==> report.publicKey
    {
      report := ConfigReport(initialized, IsSet(env.serviceId), IsSet(env.templateId), IsSet(env.publicKey));
    }
  }

  /** The module's exported singleton used once: where the constructor's
      `init` cannot succeed (no window or no public key), the first send
      fails with the not-initialised error and `emailjs.send` is never
      called, whatever the other variables hold. */
  method SendFromFreshService(env: Env, initThrows: bool, email: string, userName: string, code: string, reply: SendReply)
    returns (request: Option<SendRequest>, outcome: Settled<SendSuccess>)
    ensures !InitSucceeds(env, initThrows) ==> request == None && outcome == Thrown(NOT_INITIALIZED_ERROR)
    ensures InitSucceeds(env, initThrows) && IsSet(env.serviceId) && IsSet(env.templateId) ==> request.Some?
  {
    var service := new Service(env, initThrows);
    request, outcome := service.SendVerificationCode(email, userName, code, reply);
  }

  /** The configuration report of an adapter predicts whether its next send
      is attempted: `emailjs.send` is called exactly when the report's
      initialized, serviceId and templateId entries are all true. */
  method ConfigurationPredictsSend(env: Env, initThrows: bool, email: string, userName: string, code: string, reply: SendReply)
    returns (report: ConfigReport, request: Option<SendRequest>)
    ensures request.Some? <==> report.initialized && report.serviceId && report.templateId
    ensures report.initialized == InitSucceeds(env, initThrows)
  {
    var service := new Service(env, initThrows);
    report := service.TestConfiguration();
    var outcome;
    request, outcome := service.SendVerificationCode(email, userName, code, reply);
  }

  // ---------------------------------------------------------------------------
  // Properties
  // ---------------------------------------------------------------------------

  /** The guards run in order: an uninitialised adapter fails with the
      not-initialised error whatever the environment holds; a missing service
      ID is reported before a missing template ID; and the send is reached
      exactly when the flag is set and both IDs are. */
  lemma GuardOrder(initialized: bool, env: Env)
    ensures !initialized ==> GuardError(initialized, env) == Some(NOT_INITIALIZED_ERROR)
    ensures initialized && !IsSet(env.serviceId) ==> GuardError(initialized, env) == Some(MISSING_SERVICE_ID_ERROR)
    ensures GuardError(initialized, env) == Some(MISSING_TEMPLATE_ID_ERROR) <==>
      initialized && IsSet(env.serviceId) && !IsSet(env.templateId)
    ensures GuardError(initialized, env).None? <==>
      initialized && IsSet(env.serviceId) && IsSet(env.templateId)
  {
  }

  /** The three guard errors are distinct from each other and from every
      send-failure message, so a caller can tell which guard stopped it. */
  lemma GuardErrorsDistinct(status: Option<int>)
    ensures NOT_INITIALIZED_ERROR != MISSING_SERVICE_ID_ERROR
    ensures NOT_INITIALIZED_ERROR != MISSING_TEMPLATE_ID_ERROR
    ensures MISSING_SERVICE_ID_ERROR != MISSING_TEMPLATE_ID_ERROR
    ensures FailureMessage(status) !in {NOT_INITIALIZED_ERROR, MISSING_SERVICE_ID_ERROR, MISSING_TEMPLATE_ID_ERROR}
  {
  }

  /** The parameters determine the call's arguments and nothing else: equal
      parameter maps come from equal (email, userName, code), and the
      constant fields are the same for every call. */
  lemma TemplateParamsFaithful(e1: string, u1: string, c1: string, e2: string, u2: string, c2: string)
    ensures TemplateParams(e1, u1, c1) == TemplateParams(e2, u2, c2) <==> e1 == e2 && u1 == u2 && c1 == c2
    ensures forall k :: k in CONSTANT_KEYS ==> TemplateParams(e1, u1, c1)[k] == TemplateParams(e2, u2, c2)[k]
    ensures TemplateParams(e1, u1, c1)["to_email"] == e1 && TemplateParams(e1, u1, c1)["user_name"] == u1
  {
  }

  /** The status classes: 412, 400, 401, 402 and 0 each have their own class,
      and every other status, or none, is Unknown. */
  lemma ClassifyExactly(status: Option<int>)
    ensures Classify(status) == TemplateMismatch <==> status == Some(412)
    ensures Classify(status) == InvalidRequest <==> status == Some(400)
    ensures Classify(status) == Unauthorized <==> status == Some(401)
    ensures Classify(status) == PaymentRequired <==> status == Some(402)
    ensures Classify(status) == NetworkError <==> status == Some(0)
    ensures Classify(status) == Unknown <==>
      status.None? || status.value !in {412, 400, 401, 402, 0}
  {
  }

  /** The failure message tells the class of the rejection and nothing more:
      two statuses give the same message exactly when they fall in the same
      class. */
  lemma FailureMessageDeterminesKind(s1: Option<int>, s2: Option<int>)
    ensures FailureMessage(s1) == FailureMessage(s2) <==> Classify(s1) == Classify(s2)
  {
  }
}
