# Login form lockout, modelled in Dafny

The login form of this web front end collects an email and a password,
validates them on the client, sends them to an authentication call and
shows the result. After repeated failures it locks itself for a few seconds.
Four pieces of component state carry that behaviour:

- the failed-attempt counter;
- `isBlocked`;
- `blockTimeRemaining`, the countdown in seconds;
- `isProcessing`, true while an attempt is in flight.

Three kinds of event change that state:

- the submit handler starts an attempt, unless the form is blocked;
- the attempt settles. A success clears the counter. A failure adds one, and
  from five failures on it blocks the form for five seconds. Either way the
  form stops processing;
- a one-second interval, running only while the form is blocked, counts down.
  On the last second it unblocks the form and clears the countdown. It
  leaves the counter alone.

The inputs and the submit button are disabled while the form is blocked or
processing.

The project has three modules:

- `LoginSchema` (`schema.dfy`): the validation schema. The password needs at
  least 8 characters. The email format verdict comes in as a parameter.
- `LoginLockout` (`lockout.dfy`): the state as a value `FormState`. The three
  transitions `OnSubmit`, `OnSettled` and `OnTick` are pure functions, and the
  button label is one too. The class `LoginForm` holds the four cells as
  fields and updates them in place in `Submit`, `Settle` and `Tick`. Each
  method is proved equal to its function, and each keeps the class invariant
  `Valid()`.
- `LoginSession` (`session.dfy`): the form over time. An attempt is two
  events: the press that starts it and the settlement that ends it. The
  authentication call is awaited, so ticks and other presses can come in
  between. A session also counts the calls still in flight. `Trace` says
  which event sequences can happen. With `uiGated`, it also says that a
  press needs the controls enabled, as in the rendered form.

What the proofs show:

- Every handler keeps the countdown between 1 and 5 while blocked and at 0
  otherwise, so it is never negative.
- The counter equals the number of failures since the last success.
- A failure that reaches five failures blocks the form for five seconds.
- The countdown falls by exactly one per second and unblocks exactly when it
  runs out.
- Unblocking never resets the counter. On traces that respect the disabled
  controls, a blocked form has counted five failures or more, so once the
  lockout runs out the next failure blocks again at once.
- A press whose password is shorter than 8 characters never changes the
  session, wherever it occurs in a trace.
- The simulated call always succeeds, so with it the form never blocks.

The submit handler checks `isBlocked` but not `isProcessing`. Only the
disabled controls stop a second attempt while one is in flight. On traces
that respect the disabled controls, three things are proved:

- at most one attempt is in flight;
- `isProcessing` is true exactly when one is;
- a blocked form has nothing in flight and has counted at least five
  failures.

Without that gate the last invariant fails. Take two overlapping attempts
made from a counter of four. If the first fails and the second succeeds, the
form is blocked with a counter of 0
(`OverlappingAttemptsClearCounterWhileBlocked`). So the class invariant
`Valid()` is the weaker one that every handler keeps on its own.

## Model

| member | source | states |
|---|---|---|
| `LoginSchema.SchemaErrors` | src/components/login-form.tsx:37-44 | The schema reports an email error exactly when the address is not well formed, and a password error exactly when the password is shorter than 8. The credentials pass exactly when both rules hold. |
| `LoginLockout.OnSubmit` | src/components/login-form.tsx:71-77 | While blocked, submitting changes nothing. Otherwise it sets processing, which disables the controls. It never touches the counter or the lockout fields, and it keeps the countdown invariant. |
| `LoginLockout.OnSettled` | src/components/login-form.tsx:86-100 | Processing ends whatever the outcome. A success sets the counter to 0. A failure adds exactly 1. If that makes 5 or more, the form is blocked with 5 seconds; otherwise the lockout fields are unchanged. The countdown invariant is kept. |
| `LoginLockout.OnTick` | src/components/login-form.tsx:54-69 | When not blocked, nothing changes (no interval is running). When blocked with more than 1 second left, the countdown drops by exactly 1 and the form stays blocked. At 1 or less, the form unblocks and the countdown becomes 0. The counter and processing flag are untouched. The countdown never increases or goes negative. |
| `LoginLockout.SubmitButtonLabel` | src/components/login-form.tsx:179-181 | The button shows a countdown exactly when the form is blocked. The countdown is the seconds remaining, between 1 and 5. |
| `LoginLockout.LoginForm.constructor` | src/components/login-form.tsx:32-35 | A mounted form starts with counter 0, unblocked, countdown 0 and not processing. |
| `LoginLockout.LoginForm.Submit` | src/components/login-form.tsx:71-77 | The handler's field updates equal `OnSubmit`. It reports that an attempt started exactly when the form was not blocked, and it keeps `Valid()`. |
| `LoginLockout.LoginForm.Settle` | src/components/login-form.tsx:86-100 | The updates of the success path, the catch block and the finally block equal `OnSettled`, and they keep `Valid()`. |
| `LoginLockout.LoginForm.Tick` | src/components/login-form.tsx:56-65 | The interval callback's updates equal `OnTick`, and they keep `Valid()`. |
| `LoginSession.Step` | src/components/login-form.tsx:54-102 | A press with schema errors, or while blocked, changes nothing. An accepted press adds one call in flight and applies `OnSubmit` to the form. A settlement of a pending call removes one call in flight and applies `OnSettled` with its outcome; a settlement with nothing pending changes nothing. A tick leaves the calls in flight alone and applies `OnTick`. Every event keeps the countdown invariant. |
| `LoginSession.ShortPasswordPressesChangeNothing` | src/components/login-form.tsx:41 | Taking every press with a password shorter than 8 out of any trace leaves the resulting session unchanged: such presses are stopped by the schema before the submit handler and touch neither the lockout nor the calls in flight. |
| `LoginSession.Run` | src/components/login-form.tsx:54-102 | Any sequence of events from a consistent state ends in a consistent state. |
| `LoginSession.UiGatingKeepsOneAttemptInFlight` | src/components/login-form.tsx:143-177 | The controls are disabled exactly when `InputsDisabled` holds (blocked or processing). When presses only reach the handler while the controls are enabled: at most one call is in flight; processing is true exactly when one is; a blocked form has none in flight and has counted at least 5 failures. |
| `LoginSession.CounterCountsTrailingFailures` | src/components/login-form.tsx:87-97 | On every possible trace from a fresh form, the counter is the number of failed settlements since the last successful one. |
| `LoginSession.FailureAtThresholdLocksOut` | src/components/login-form.tsx:90-97 | A failed settlement that brings the failures since the last success to 5 or more leaves the form blocked for the full 5 seconds. |
| `LoginSession.CountdownExpires` | src/components/login-form.tsx:57-65 | From a blocked form with n seconds left, k ticks with k < n leave it blocked with n - k left. Once k >= n it is unblocked with 0 left. The counter, the processing flag and the calls in flight do not change. |
| `LoginSession.ReblockAfterExpiry` | src/components/login-form.tsx:59-95 | Unblocking does not reset the counter. From a blocked form that has counted at least 5 failures (every blocked form on a gated trace, by `UiGatingKeepsOneAttemptInFlight`), after the lockout runs out one more failed attempt blocks the form again at once with 5 seconds and counter + 1 (6 after the first lockout). |
| `LoginSession.SimulatedBackendNeverLocksOut` | src/components/login-form.tsx:79-88 | If no attempt ever settles as a failure, as with the simulated call that always resolves, the counter stays 0 and the form is never blocked. |
| `LoginSession.OverlappingAttemptsClearCounterWhileBlocked` | src/components/login-form.tsx:73-100 | The handler alone admits two overlapping attempts, which the disabled controls rule out. From a counter of 4, a failure then a success leaves the form blocked with counter 0. |

## Left out

- Rendering (the card, inputs, buttons and links) is left out. Only the
  disabled condition and the button's label are modelled, as `InputsDisabled`
  and `SubmitButtonLabel`.
- Toast notifications (loading, success with the submitted data, error) are
  left out. They belong to an external notification library.
- Translated strings are left out. The localization provider is external.
- The email format check is an external validation library. Its verdict is
  the parameter `emailWellFormed`.
- `LoginSchema.SchemaErrors` counts password length in Unicode characters.
  The validation library counts UTF-16 code units, so the two differ for
  characters outside the Basic Multilingual Plane.
- Scheduling is left out: `setTimeout`, `setInterval` and `clearInterval`,
  and the one-second delay of the simulated call. A tick is the event
  `SecondElapsed` or the method `Tick`.
- The outcome of the authentication call is an input. As written, the
  simulated call always resolves, so it only ever produces `Success`.
- React hook semantics are left out: `useMemo`, `useCallback` dependencies,
  stale closures, re-render timing and batching of state updates. Each state
  update is applied at once, in the order written.
- Component teardown is left out. It clears the interval; the model has no
  unmount event.
