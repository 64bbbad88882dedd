/**
 Runs of the signup page: the events a user can cause, which of them the
 rendered page makes available, and what holds of every run that only uses
 available events. A button for a step is rendered only while `step` is that
 step and is disabled while `loading`; an input is rendered only on the step
 that asks for it; after navigating to the login page nothing of this page
 is on screen any more.
 */
module SignupFlow {
  import opened SignupState

  /** A user action together with the outcome of the remote call it may make. */
  datatype Event =
    | Edit(field: Field, value: string)
    | ClickSendOtp(outcome: Outcome)
    | ClickVerifyOtp(outcome: Outcome)
    | ClickRegister(outcome: Outcome)

  /** The step on which the input for `f` is rendered. */
  function FieldStep(f: Field): int {
    match f
    case Fullname | Mobile | Email => 1
    case Otp => 2
    case Password => 3
  }

  /** The step on which the control that raises `e` is rendered. */
  function EventStep(e: Event): int {
    match e
    case Edit(f, _) => FieldStep(f)
    case ClickSendOtp(_) => 1
    case ClickVerifyOtp(_) => 2
    case ClickRegister(_) => 3
  }

  /** The control that raises `e` is on screen and enabled: each step renders
      its own inputs and button, a button is disabled while `loading` (the
      inputs are not), and nothing is rendered once the page has navigated. */
  predicate Enabled(p: PageState, e: Event)
    ensures Enabled(p, e) ==> !p.navigatedToLogin && p.step == EventStep(e)
    ensures !e.Edit? && p.loading ==> !Enabled(p, e)
    ensures e.Edit? && !p.navigatedToLogin && p.step == EventStep(e) ==> Enabled(p, e)
    ensures !e.Edit? && !p.navigatedToLogin && p.step == EventStep(e) && !p.loading ==> Enabled(p, e)
  {
    && !p.navigatedToLogin
    && match e
       case Edit(f, _) => p.step == FieldStep(f)
       case ClickSendOtp(_) => p.step == 1 && !p.loading
       case ClickVerifyOtp(_) => p.step == 2 && !p.loading
       case ClickRegister(_) => p.step == 3 && !p.loading
  }

  /** The request is made only with the inputs its step relies on. */
  predicate WellFormed(c: Request) {
    match c
    case SendOtpRequest(email) => email != ""
    case VerifyOtpRequest(email, otp) => email != "" && otp != ""
    case RegisterRequest(d) => Complete(d)
  }

  /** What holds of the page between two events: the step is one of the three,
      no call is outstanding, and the inputs of every finished step are filled
      in (their inputs are no longer rendered, and with atomic handlers no edit
      can fall between a click and the step change it causes). */
  predicate Settled(p: PageState) {
    && 1 <= p.step <= 3
    && !p.loading
    && (p.step >= 2 ==> DetailsFilled(p.draft))
    && (p.step == 3 ==> p.draft.otp != "")
    && (p.navigatedToLogin ==> p.step == 3 && Complete(p.draft))
  }

  /** The handler that the event runs. */
  function Dispatch(p: PageState, e: Event): (r: Transition)
    // an enabled event keeps the page settled and sends only well-formed requests
    ensures Settled(p) && Enabled(p, e) ==>
      Settled(r.page) && (r.call.Some? ==> WellFormed(r.call.value))
    // an enabled event stays on its step or moves exactly one step forward,
    // and it moves only on a successful call
    ensures Settled(p) && Enabled(p, e) ==>
      || r.page.step == p.step
      || (r.page.step == p.step + 1 && r.call.Some? && !e.Edit? && e.outcome.Succeeded?)
    // edits issue no call
    ensures e.Edit? ==> r.call.None?
  {
    match e
    case Edit(f, v) => Transition(Change(p, f, v), None)
    case ClickSendOtp(o) => SendOtp(p, o)
    case ClickVerifyOtp(o) => VerifyOtp(p, o)
    case ClickRegister(o) => Register(p, o)
  }

  /** Every event of the sequence is enabled when it happens. */
  predicate Admissible(p: PageState, events: seq<Event>)
    decreases |events|
  {
    events == [] || (Enabled(p, events[0]) && Admissible(Dispatch(p, events[0]).page, events[1..]))
  }

  /** The page after all events. */
  function Run(p: PageState, events: seq<Event>): PageState
    decreases |events|
  {
    if events == [] then p else Run(Dispatch(p, events[0]).page, events[1..])
  }

  /** The requests issued along the way, in order. */
  function Calls(p: PageState, events: seq<Event>): seq<Request>
    decreases |events|
  {
    if events == [] then []
    else
      var t := Dispatch(p, events[0]);
      (if t.call.Some? then [t.call.value] else []) + Calls(t.page, events[1..])
  }

  /** The pages visited, the start included. */
  function Trace(p: PageState, events: seq<Event>): seq<PageState>
    decreases |events|
  {
    if events == [] then [p] else [p] + Trace(Dispatch(p, events[0]).page, events[1..])
  }

  /** Any run of enabled events keeps the page settled, never moves the step
      backward and only sends well-formed requests. */
  lemma {:induction false} RunStaysSettled(p: PageState, events: seq<Event>)
    requires Settled(p) && Admissible(p, events)
    ensures Settled(Run(p, events))
    ensures p.step <= Run(p, events).step
    ensures forall c :: c in Calls(p, events) ==> WellFormed(c)
    decreases |events|
  {
    if events != [] {
      var t := Dispatch(p, events[0]);
      RunStaysSettled(t.page, events[1..]);
    }
  }

  /** From the freshly rendered page, a registration request is only ever sent
      with all five inputs filled in, and reaching the login page implies the
      password step was reached with a complete draft. */
  lemma RegistrationCarriesCompleteDraft(events: seq<Event>)
    requires Admissible(Initial(), events)
    ensures forall c :: c in Calls(Initial(), events) && c.RegisterRequest? ==> Complete(c.draft)
    ensures Run(Initial(), events).navigatedToLogin ==>
      Run(Initial(), events).step == 3 && Complete(Run(Initial(), events).draft)
  {
    RunStaysSettled(Initial(), events);
  }

  /** Along any run of enabled events, each page is on the step of the one
      before it or on the next one: no step is skipped or revisited. */
  lemma {:induction false} TraceAdvancesOneStepAtATime(p: PageState, events: seq<Event>)
    requires Settled(p) && Admissible(p, events)
    ensures |Trace(p, events)| == |events| + 1
    ensures Trace(p, events)[0] == p && Trace(p, events)[|events|] == Run(p, events)
    ensures forall i :: 0 <= i < |events| ==>
      var t := Trace(p, events);
      1 <= t[i].step <= 3 && (t[i + 1].step == t[i].step || t[i + 1].step == t[i].step + 1)
    decreases |events|
  {
    if events != [] {
      var q := Dispatch(p, events[0]).page;
      TraceAdvancesOneStepAtATime(q, events[1..]);
      var t, u := Trace(p, events), Trace(q, events[1..]);
      assert t == [p] + u;
      forall i | 0 <= i < |events|
        ensures 1 <= t[i].step <= 3 && (t[i + 1].step == t[i].step || t[i + 1].step == t[i].step + 1)
      {
        if i > 0 {
          assert t[i] == u[i - 1] && t[i + 1] == u[i];
        }
      }
    }
  }

  /** A click that makes no progress: its form check rejects the draft, or its
      remote call fails. */
  predicate Stalls(p: PageState, e: Event) {
    match e
    case Edit(_, _) => false
    case ClickSendOtp(o) => !DetailsFilled(p.draft) || o.Failed?
    case ClickVerifyOtp(o) => p.draft.otp == "" || o.Failed?
    case ClickRegister(o) => p.draft.password == "" || o.Failed?
  }

  /** One stalled click: step and draft stay, the same click stalls again,
      stays available, and a second one changes nothing at all. */
  lemma StallIsIdempotent(p: PageState, e: Event)
    requires Stalls(p, e)
    ensures var q := Dispatch(p, e).page;
      && q.step == p.step && q.draft == p.draft && q.navigatedToLogin == p.navigatedToLogin
      && Stalls(q, e)
      && (Enabled(p, e) ==> Enabled(q, e))
      && Dispatch(q, e) == Dispatch(p, e).(page := q)
  {
  }

  /** The same event `n` times over. */
  function Repeat(p: PageState, e: Event, n: nat): PageState
    decreases n
  {
    if n == 0 then p else Repeat(Dispatch(p, e).page, e, n - 1)
  }

  /** Repeating a stalled click any number of times leaves step and draft as
      they were, and any positive number of repetitions ends exactly where one
      does. */
  lemma {:induction false} RepeatedStallChangesNothing(p: PageState, e: Event, n: nat)
    requires Stalls(p, e)
    ensures Repeat(p, e, n).step == p.step && Repeat(p, e, n).draft == p.draft
    ensures n >= 1 ==> Repeat(p, e, n) == Dispatch(p, e).page
    decreases n
  {
    if n > 0 {
      var q := Dispatch(p, e).page;
      StallIsIdempotent(p, e);
      RepeatedStallChangesNothing(q, e, n - 1);
    }
  }
}
