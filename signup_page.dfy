/**
 The signup page component as an object: its state cells are fields, and each
 handler is a method that updates them step by step in the order the handler
 does. The remote call of a handler is its `outcome` argument; the request it
 would send is returned. Each method is tied to the pure transition of
 SignupState, whose properties are proved there and in SignupFlow.
 */
module SignupComponent {
  import opened SignupState

  class SignupPage {
    // formData
    var fullname: string
    var mobile: string
    var email: string
    var otp: string
    var password: string
    // 1 = details, 2 = OTP, 3 = password
    var step: int
    var loading: bool
    // the snackbar's message and severity
    var notice: Notice
    // navigate("/login") has been called
    var navigatedToLogin: bool

    /** What holds between two handlers: the step is one of the three, no
        call is outstanding, and only the password step navigates. */
    ghost predicate Valid()
      reads this
    {
      1 <= step <= 3 && !loading && (navigatedToLogin ==> step == 3)
    }

    /** The abstract value of the page. */
    ghost function State(): PageState
      reads this
    {
      PageState(Draft(fullname, mobile, email, otp, password), step, loading, notice, navigatedToLogin)
    }

    constructor ()
      ensures Valid() && State() == Initial()
    {
      fullname, mobile, email, otp, password := "", "", "", "", "";
      step := 1;
      loading := false;
      notice := Notice("", Info);
      navigatedToLogin := false;
    }

    /** handleChange: the input named `f` takes the value `v`. */
    method HandleChange(f: Field, v: string)
      requires Valid()
      modifies this
      ensures Valid()
      ensures State() == Change(old(State()), f, v)
    {
      match f
      case Fullname => fullname := v;
      case Mobile => mobile := v;
      case Email => email := v;
      case Otp => otp := v;
      case Password => password := v;
    }

    /** handleSendOtp, reachable only from the enabled "Send OTP" button of step 1. */
    method HandleSendOtp(outcome: Outcome) returns (call: Option<Request>)
      requires Valid() && step == 1 && !loading
      modifies this
      ensures Valid()
      ensures Transition(State(), call) == SendOtp(old(State()), outcome)
    {
      if email == "" || fullname == "" || mobile == "" {
        notice := Notice("Fill all fields", Warning);
        return None;
      }
      loading := true;
      call := Some(SendOtpRequest(email));
      match outcome {
        case Succeeded(reply) =>
          notice := Notice(ReplyOr(reply, "OTP sent!"), Success);
          step := 2;
        case Failed =>
          notice := Notice("Failed to send OTP", Error);
      }
      loading := false;
    }

    /** handleVerifyOtp, reachable only from the enabled "Verify OTP" button of step 2. */
    method HandleVerifyOtp(outcome: Outcome) returns (call: Option<Request>)
      requires Valid() && step == 2 && !loading
      modifies this
      ensures Valid()
      ensures Transition(State(), call) == VerifyOtp(old(State()), outcome)
    {
      if otp == "" {
        notice := Notice("Enter OTP", Warning);
        return None;
      }
      loading := true;
      call := Some(VerifyOtpRequest(email, otp));
      match outcome {
        case Succeeded(reply) =>
          notice := Notice(ReplyOr(reply, "OTP verified!"), Success);
          step := 3;
        case Failed =>
          notice := Notice("Invalid OTP", Error);
      }
      loading := false;
    }

    /** handleRegister, reachable only from the enabled "Register" button of step 3. */
    method HandleRegister(outcome: Outcome) returns (call: Option<Request>)
      requires Valid() && step == 3 && !loading
      modifies this
      ensures Valid()
      ensures Transition(State(), call) == Register(old(State()), outcome)
    {
      if password == "" {
        notice := Notice("Enter password", Warning);
        return None;
      }
      loading := true;
      call := Some(RegisterRequest(Draft(fullname, mobile, email, otp, password)));
      match outcome {
        case Succeeded(reply) =>
          notice := Notice(ReplyOr(reply, "Registered!"), Success);
          navigatedToLogin := true;
        case Failed =>
          notice := Notice("Registration failed", Error);
      }
      loading := false;
    }
  }

  /** A client walking through the three steps with a server that accepts
      everything: the contracts above are enough to follow it. */
  method HappyPath()
  {
    var page := new SignupPage();
    page.HandleChange(Fullname, "Jo");
    page.HandleChange(Mobile, "123");
    page.HandleChange(Email, "a@b.com");
    var c1 := page.HandleSendOtp(Succeeded(Some("Code sent")));
    assert c1 == Some(SendOtpRequest("a@b.com"));
    assert page.step == 2 && page.notice == Notice("Code sent", Success);
    page.HandleChange(Otp, "0000");
    var c2 := page.HandleVerifyOtp(Succeeded(None));
    assert page.step == 3 && page.notice == Notice("OTP verified!", Success);
    page.HandleChange(Password, "p1");
    var c3 := page.HandleRegister(Succeeded(Some("")));
    assert c3 == Some(RegisterRequest(Draft("Jo", "123", "a@b.com", "0000", "p1")));
    assert page.navigatedToLogin && page.notice == Notice("Registered!", Success) && !page.loading;
  }
}
