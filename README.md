# Signup page state machine

A model of the signup page of the blog front end (`src/pages/SignupPage.js`).
The page takes a new user through three steps. On step 1 the user enters a
full name, mobile number and email, and asks for a one-time passcode (OTP).
On step 2 the user enters the OTP and has the server verify it. On step 3 the
user chooses a password and registers. A successful registration navigates to
`/login`.

The page keeps four state cells: the form data, the step counter, a `loading`
flag and a snackbar notice. It has four handlers:

- `handleChange` overwrites one input.
- `handleSendOtp`, `handleVerifyOtp` and `handleRegister` first check their
  inputs. If an input is missing they post a warning and make no call.
  Otherwise they set `loading`, make one remote call, post a success or error
  notice, advance the step (or navigate) on success, and clear `loading`.

The model has three modules:

- `SignupState` (signup_state.dfy) holds the values: `Draft`, `Notice`,
  `PageState`, the remote `Outcome` and the `Request` a handler sends. It
  defines one pure transition per handler. The contract of each transition
  states the handler's branches: when the call is made, what is sent, the
  notice, the step, and that `loading` is clear once a call has returned.
- `SignupFlow` (signup_flow.dfy) models the rendering that decides which
  events are possible. A step's button exists only on that step and is
  disabled while `loading`. An input exists only on the step that asks for
  it. Nothing of the page remains once it has navigated away. Over any run of
  possible events the module proves four things. The step stays in {1, 2, 3}
  and moves forward one step at a time, only on a successful call. Every
  request carries the inputs it relies on; a registration carries all five.
  A failed or rejected click is idempotent. Repeating it leaves the step and
  the draft unchanged.
- `SignupComponent` (signup_page.dfy) holds the page as a class `SignupPage`.
  Its fields are the state cells. It has one method per handler, and each
  method updates the fields in the handler's order (`loading` on, notice,
  step or navigation, `loading` off). Each method's postcondition equates the
  new state and the issued request with the pure transition. The button
  gating is each method's precondition.

The remote account service is not modelled. Each handler receives the
outcome of its call as an argument: `Succeeded(reply)` or `Failed`. The reply
may carry a message. Navigation is the boolean `navigatedToLogin`.

Three points of the code the model keeps as written:

- The handlers never check the step themselves. `setStep(2)` and `setStep(3)`
  are absolute assignments. The transitions are therefore total, and the
  forward-only property rests on the render gating. The gating is stated as
  preconditions of the class methods and as `SignupFlow.Enabled`.
- A successful registration leaves the step at 3 and sets
  `navigatedToLogin`; the step counter has no value beyond 3.
- The details are never locked by the handlers. In the model they stay
  unchanged after step 1 because their inputs are rendered only on step 1
  and each handler is one atomic transition. The inputs stay editable while
  a call is pending (only the buttons are disabled), and the step is set
  after the call returns, so in the program an input cleared during a
  pending call can reach the next step empty. `SignupFlow.Settled` and the
  lemmas built on it do not cover that interleaving (see "Left out").

## Model

| member | source | states |
|---|---|---|
| `SignupState.Initial` | src/pages/SignupPage.js:17-26 | the page starts on step 1, not loading, not navigated, with every input empty and the empty "info" notice |
| `SignupState.Change` | src/pages/SignupPage.js:29 | the named input takes the new value; every other input, the step, `loading`, the notice and navigation are unchanged |
| `SignupState.SendOtp` | src/pages/SignupPage.js:32-44 | a call is made iff email, full name and mobile are all non-empty, and it sends the email. Otherwise the page only gets the warning "Fill all fields" (step and `loading` kept). On success: step 2 and a success notice with the server message, or "OTP sent!". On failure: step kept and the error "Failed to send OTP". After a call `loading` is false. The draft and navigation are never touched |
| `SignupState.VerifyOtp` | src/pages/SignupPage.js:47-58 | a call is made iff the OTP is non-empty, and it sends email and OTP. Otherwise the page only gets the warning "Enter OTP". On success: step 3 and the server message, or "OTP verified!". On failure: step kept and the error "Invalid OTP". After a call `loading` is false |
| `SignupState.Register` | src/pages/SignupPage.js:61-72 | a call is made iff the password is non-empty, and it sends the whole draft. Otherwise the page only gets the warning "Enter password". The page navigates iff the call succeeds, with the server message or "Registered!". On failure: the error "Registration failed" and no navigation. The step never changes, so the user can retry. After a call `loading` is false |
| `SignupState.ReplyOr` | src/pages/SignupPage.js:39-67 | the success message is either the server's non-empty message or the handler's fallback; a non-empty server message always wins, and the message is never empty when the fallback is not |
| `SignupFlow.Enabled` | src/pages/SignupPage.js:116-224 | an event is possible only while the page is shown, on the step whose input or button raises it; a button also needs `loading` to be false, while an input does not |
| `SignupFlow.Dispatch` | src/pages/SignupPage.js:116-224 | an event whose control is rendered and enabled keeps the page settled and sends only well-formed requests. It stays on its step or moves exactly one step forward, and it moves only on a successful call; edits make no call |
| `SignupFlow.RunStaysSettled` | src/pages/SignupPage.js:24-72 | over any run of enabled events the step stays in {1, 2, 3} and never decreases. `loading` is false between events, the inputs of finished steps stay filled in, and every request issued is well-formed |
| `SignupFlow.RegistrationCarriesCompleteDraft` | src/pages/SignupPage.js:61-72 | from the initial page, every registration request carries all five inputs non-empty, and navigating to `/login` happens only on step 3 with a complete draft |
| `SignupFlow.TraceAdvancesOneStepAtATime` | src/pages/SignupPage.js:116-206 | along any run of enabled events, each visited page is on the previous page's step or the next one, so no step is skipped or revisited |
| `SignupFlow.StallIsIdempotent` | src/pages/SignupPage.js:32-72 | a click rejected by its input check or by a failed call keeps the step, draft and navigation. The same click stalls again, stays enabled, and a second one changes nothing |
| `SignupFlow.RepeatedStallChangesNothing` | src/pages/SignupPage.js:32-72 | repeating a stalled click any number of times leaves step and draft unchanged, and any positive number of repetitions ends in the state one repetition reaches |
| `SignupComponent.SignupPage.constructor` | src/pages/SignupPage.js:17-26 | the new page is the initial state |
| `SignupComponent.SignupPage.HandleChange` | src/pages/SignupPage.js:29 | the fields change exactly as `SignupState.Change` says |
| `SignupComponent.SignupPage.HandleSendOtp` | src/pages/SignupPage.js:32-44 | on step 1 while not loading, the new fields and the request made are those of `SignupState.SendOtp` |
| `SignupComponent.SignupPage.HandleVerifyOtp` | src/pages/SignupPage.js:47-58 | on step 2 while not loading, the new fields and the request made are those of `SignupState.VerifyOtp` |
| `SignupComponent.SignupPage.HandleRegister` | src/pages/SignupPage.js:61-72 | on step 3 while not loading, the new fields and the request made are those of `SignupState.Register` |

## Left out

- Presentation: the JSX layout, MUI styling and framer-motion animation. Only the step and `loading` conditions that decide which buttons and inputs exist are kept.
- The snackbar's `open` flag, its close handler and the 3000 ms auto-hide. The notice is only the last message and severity written.
- The `api` HTTP client, its URLs and its request encoding. Each call is an `Outcome` argument, and the request is a `Request` value. The body of a failed response is never read by the page, so it is not modelled.
- Asynchrony and React's batched state updates. Each handler is one atomic transition, so the busy window between `setLoading(true)` and the `finally` is not observable between events. A second click while a call is pending is excluded only by the `!loading` precondition that mirrors the disabled button. Edits made while a call is pending cannot be expressed either (see the two lines below).
- `useNavigate` and the router. Navigation is the boolean `navigatedToLogin`.
- `e.preventDefault()` in `handleSendOtp`, a DOM detail.
- `SignupFlow.RegistrationCarriesCompleteDraft`: edits made while a call is pending are not modelled, because each handler is atomic. In the program an input cleared during a pending send-otp or verify-otp call reaches the next step empty, and `handleRegister` can then post a draft with an empty field; this lemma's conclusion holds only of the atomic model.
- `SignupFlow.Settled`: its clauses "step 2 or 3 implies the details are filled" and "step 3 implies the OTP is filled" rely on the same atomicity and do not hold of the program when an input is cleared during a pending call. `SignupFlow.RunStaysSettled` and `SignupFlow.Dispatch` inherit this.
- `SignupState.ReplyOr`: JavaScript's `||` also falls back for reply messages such as `null`, `0` or `false`. Only a missing message and an empty string are modelled.
- `SignupState.Change`: `handleChange` writes whatever key the event target names. Only the five names of the rendered inputs are modelled, so no extra keys can be added to the form data.
