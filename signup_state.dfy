/**
 The values of the signup page and the pure transition that each of its
 handlers performs. The page holds a draft of the registration form, the
 current step (1 = details, 2 = OTP, 3 = password), a busy flag, the last
 notice shown in the snackbar and whether it has navigated to the login page.
 Every remote call of the page is replaced by an Outcome argument.
 */
module SignupState {

  datatype Option<T> = None | Some(value: T)

  /** Severity of a snackbar notice. */
  datatype Severity = Info | Success | Warning | Error

  /** The last (message, severity) written to the snackbar. */
  datatype Notice = Notice(message: string, severity: Severity)

  /** The names of the inputs of the form. */
  datatype Field = Fullname | Mobile | Email | Otp | Password

  /** The form data, one string per input. */
  datatype Draft = Draft(fullname: string, mobile: string, email: string, otp: string, password: string)
  {
    function Get(f: Field): string {
      match f
      case Fullname => fullname
      case Mobile => mobile
      case Email => email
      case Otp => otp
      case Password => password
    }

    function With(f: Field, v: string): Draft {
      match f
      case Fullname => this.(fullname := v)
      case Mobile => this.(mobile := v)
      case Email => this.(email := v)
      case Otp => this.(otp := v)
      case Password => this.(password := v)
    }
  }

  /** What a remote call came back with: a reply whose body may carry a
      message, or a thrown error of any kind. */
  datatype Outcome = Succeeded(reply: Option<string>) | Failed

  /** The request a handler sends to the account service. */
  datatype Request =
    | SendOtpRequest(email: string)
    | VerifyOtpRequest(email: string, otp: string)
    | RegisterRequest(draft: Draft)

  /** The whole state of the page. */
  datatype PageState = PageState(draft: Draft, step: int, loading: bool, notice: Notice, navigatedToLogin: bool)

  /** A handler's effect: the page afterwards and the call it issued, if any. */
  datatype Transition = Transition(page: PageState, call: Option<Request>)

  const EmptyDraft := Draft("", "", "", "", "")

  /** The page as it is first rendered. */
  function Initial(): (p: PageState)
    ensures p.step == 1 && !p.loading && !p.navigatedToLogin
    ensures p.notice == Notice("", Info)
    ensures forall f :: p.draft.Get(f) == ""
  {
    PageState(EmptyDraft, 1, false, Notice("", Info), false)
  }

  /** The message of a success notice: the server's message unless it is
      missing or empty, else the handler's fallback text. */
  function ReplyOr(reply: Option<string>, fallback: string): (m: string)
    ensures m == fallback || (reply == Some(m) && m != "")
    ensures reply.Some? && reply.value != "" ==> m == reply.value
    ensures fallback != "" ==> m != ""
  {
    if reply.Some? && reply.value != "" then reply.value else fallback
  }

  /** The inputs the first step needs. */
  predicate DetailsFilled(d: Draft) {
    d.email != "" && d.fullname != "" && d.mobile != ""
  }

  /** Every input of the form is non-empty. */
  predicate Complete(d: Draft) {
    forall f :: d.Get(f) != ""
  }

  /** handleChange: one input is overwritten, nothing else moves. */
  function Change(p: PageState, f: Field, v: string): (r: PageState)
    ensures r.draft.Get(f) == v
    ensures forall g :: g != f ==> r.draft.Get(g) == p.draft.Get(g)
    ensures r.step == p.step && r.loading == p.loading
    ensures r.notice == p.notice && r.navigatedToLogin == p.navigatedToLogin
  {
    p.(draft := p.draft.With(f, v))
  }

  /** handleSendOtp. */
  function SendOtp(p: PageState, outcome: Outcome): (r: Transition)
    // the call is made exactly when the three details are present, and then carries the email
    ensures r.call.Some? <==> DetailsFilled(p.draft)
    ensures r.call.Some? ==> r.call.value == SendOtpRequest(p.draft.email) && !r.page.loading
    // a rejected form only gets a warning
    ensures r.call.None? ==> r.page == p.(notice := Notice("Fill all fields", Warning))
    // success moves to the OTP step
    ensures r.call.Some? && outcome.Succeeded? ==>
      r.page.step == 2 && r.page.notice == Notice(ReplyOr(outcome.reply, "OTP sent!"), Success)
    // failure keeps the step and shows a fixed error
    ensures r.call.Some? && outcome.Failed? ==>
      r.page.step == p.step && r.page.notice == Notice("Failed to send OTP", Error)
    ensures r.page.draft == p.draft && r.page.navigatedToLogin == p.navigatedToLogin
  {
    if !DetailsFilled(p.draft) then
      Transition(p.(notice := Notice("Fill all fields", Warning)), None)
    else
      var busy := p.(loading := true);
      var settled := match outcome
        case Succeeded(reply) => busy.(notice := Notice(ReplyOr(reply, "OTP sent!"), Success), step := 2)
        case Failed => busy.(notice := Notice("Failed to send OTP", Error));
      Transition(settled.(loading := false), Some(SendOtpRequest(p.draft.email)))
  }

  /** handleVerifyOtp. */
  function VerifyOtp(p: PageState, outcome: Outcome): (r: Transition)
    ensures r.call.Some? <==> p.draft.otp != ""
    ensures r.call.Some? ==> r.call.value == VerifyOtpRequest(p.draft.email, p.draft.otp) && !r.page.loading
    ensures r.call.None? ==> r.page == p.(notice := Notice("Enter OTP", Warning))
    ensures r.call.Some? && outcome.Succeeded? ==>
      r.page.step == 3 && r.page.notice == Notice(ReplyOr(outcome.reply, "OTP verified!"), Success)
    ensures r.call.Some? && outcome.Failed? ==>
      r.page.step == p.step && r.page.notice == Notice("Invalid OTP", Error)
    ensures r.page.draft == p.draft && r.page.navigatedToLogin == p.navigatedToLogin
  {
    if p.draft.otp == "" then
      Transition(p.(notice := Notice("Enter OTP", Warning)), None)
    else
      var busy := p.(loading := true);
      var settled := match outcome
        case Succeeded(reply) => busy.(notice := Notice(ReplyOr(reply, "OTP verified!"), Success), step := 3)
        case Failed => busy.(notice := Notice("Invalid OTP", Error));
      Transition(settled.(loading := false), Some(VerifyOtpRequest(p.draft.email, p.draft.otp)))
  }

  /** handleRegister. */
  function Register(p: PageState, outcome: Outcome): (r: Transition)
    ensures r.call.Some? <==> p.draft.password != ""
    // the whole draft is sent, not only the password
    ensures r.call.Some? ==> r.call.value == RegisterRequest(p.draft) && !r.page.loading
    ensures r.call.None? ==> r.page == p.(notice := Notice("Enter password", Warning))
    // navigation happens exactly on a successful call
    ensures r.page.navigatedToLogin <==> p.navigatedToLogin || (r.call.Some? && outcome.Succeeded?)
    ensures r.call.Some? && outcome.Succeeded? ==>
      r.page.notice == Notice(ReplyOr(outcome.reply, "Registered!"), Success)
    ensures r.call.Some? && outcome.Failed? ==> r.page.notice == Notice("Registration failed", Error)
    // registering never changes the step, so a failed attempt can be retried
    ensures r.page.step == p.step && r.page.draft == p.draft
  {
    if p.draft.password == "" then
      Transition(p.(notice := Notice("Enter password", Warning)), None)
    else
      var busy := p.(loading := true);
      var settled := match outcome
        case Succeeded(reply) => busy.(notice := Notice(ReplyOr(reply, "Registered!"), Success), navigatedToLogin := true)
        case Failed => busy.(notice := Notice("Registration failed", Error));
      Transition(settled.(loading := false), Some(RegisterRequest(p.draft)))
  }
}
