/**
 * The lockout state machine of the login form. Four state cells (the failed
 * attempt counter, the blocked flag, the blocking countdown in seconds and the
 * processing flag) change on three kinds of event: the submit handler starting
 * an attempt, the attempt settling with success or failure, and a one-second
 * tick of the countdown timer.
 *
 * FormState and the On* functions describe the transitions as values;
 * the class LoginForm holds the same four cells as fields and updates them in
 * place, and each of its methods is proved to agree with its function.
 */
module LoginLockout {

  /** Failures in a row after which the form blocks itself. */
  const MaxFailedAttempts: nat := 5

  /** Length of a lockout, in one-second ticks. */
  const BlockSeconds: int := 5

  /** How an authentication attempt settles. */
  datatype Outcome = Success | Failure

  datatype FormState = FormState(
    failedAttempts: nat,
    isBlocked: bool,
    blockTimeRemaining: int,
    isProcessing: bool)

  /** The state of a freshly mounted form. */
  const Initial := FormState(0, false, 0, false)

  /**
   * What every handler keeps true: a blocked form counts down from at most
   * BlockSeconds and has at least one second left; an unblocked form shows no
   * countdown. In particular the countdown is never negative.
   */
  predicate Consistent(s: FormState) {
    && (s.isBlocked ==> 1 <= s.blockTimeRemaining <= BlockSeconds)
    && (!s.isBlocked ==> s.blockTimeRemaining == 0)
  }

  /** The submit handler returns at once, making no attempt, while blocked. */
  predicate SubmitIgnored(s: FormState) {
    s.isBlocked
  }

  /** The email and password inputs and the submit button are disabled. */
  predicate InputsDisabled(s: FormState) {
    s.isBlocked || s.isProcessing
  }

  /** The submit handler, up to the point where the attempt is in flight. */
  function OnSubmit(s: FormState): (r: FormState)
    ensures SubmitIgnored(s) ==> r == s
    ensures !SubmitIgnored(s) ==> r.isProcessing && InputsDisabled(r)
    ensures r.failedAttempts == s.failedAttempts
    ensures r.isBlocked == s.isBlocked && r.blockTimeRemaining == s.blockTimeRemaining
    ensures Consistent(s) ==> Consistent(r)
  {
    if SubmitIgnored(s) then s else s.(isProcessing := true)
  }

  /**
   * The attempt settles: a success clears the counter, a failure counts one
   * more and, from the threshold on, blocks the form for BlockSeconds.
   * Either way the form stops processing.
   */
  function OnSettled(s: FormState, outcome: Outcome): (r: FormState)
    ensures !r.isProcessing
    ensures outcome == Success ==> r.failedAttempts == 0
    ensures outcome == Failure ==> r.failedAttempts == s.failedAttempts + 1
    ensures outcome == Failure && s.failedAttempts + 1 >= MaxFailedAttempts ==>
              r.isBlocked && r.blockTimeRemaining == BlockSeconds
    ensures (outcome == Success || s.failedAttempts + 1 < MaxFailedAttempts) ==>
              r.isBlocked == s.isBlocked && r.blockTimeRemaining == s.blockTimeRemaining
    ensures Consistent(s) ==> Consistent(r)
  {
    match outcome
    case Success =>
      s.(failedAttempts := 0, isProcessing := false)
    case Failure =>
      var newAttempts := s.failedAttempts + 1;
      if newAttempts >= MaxFailedAttempts then
        s.(failedAttempts := newAttempts, isBlocked := true,
           blockTimeRemaining := BlockSeconds, isProcessing := false)
      else
        s.(failedAttempts := newAttempts, isProcessing := false)
  }

  /**
   * One second passes. The countdown timer runs only while the form is
   * blocked; it counts down by one and, on its last second, unblocks the form
   * and clears the countdown. The counter is never touched.
   */
  function OnTick(s: FormState): (r: FormState)
    ensures r.failedAttempts == s.failedAttempts && r.isProcessing == s.isProcessing
    ensures !s.isBlocked ==> r == s
    ensures s.isBlocked && s.blockTimeRemaining > 1 ==>
              r.isBlocked && r.blockTimeRemaining == s.blockTimeRemaining - 1
    ensures s.isBlocked && s.blockTimeRemaining <= 1 ==>
              !r.isBlocked && r.blockTimeRemaining == 0
    ensures Consistent(s) ==> Consistent(r) && 0 <= r.blockTimeRemaining <= s.blockTimeRemaining
  {
    if !s.isBlocked then s
    else if s.blockTimeRemaining <= 1 then s.(isBlocked := false, blockTimeRemaining := 0)
    else s.(blockTimeRemaining := s.blockTimeRemaining - 1)
  }

  /** What the submit button says: the usual prompt, or the seconds left. */
  datatype SubmitLabel = SubmitPrompt | BlockedCountdown(seconds: int)

  function SubmitButtonLabel(s: FormState): (shown: SubmitLabel)
    ensures shown.BlockedCountdown? <==> s.isBlocked
    ensures shown.BlockedCountdown? ==> shown.seconds == s.blockTimeRemaining
    ensures Consistent(s) && shown.BlockedCountdown? ==> 1 <= shown.seconds <= BlockSeconds
  {
    if s.isBlocked then BlockedCountdown(s.blockTimeRemaining) else SubmitPrompt
  }

  /** The form component, its four state cells updated in place. */
  class LoginForm {
    var failedAttempts: nat
    var isBlocked: bool
    var blockTimeRemaining: int
    var isProcessing: bool

    function State(): FormState
      reads this
    {
      FormState(failedAttempts, isBlocked, blockTimeRemaining, isProcessing)
    }

    ghost predicate Valid()
      reads this
    {
      Consistent(State())
    }

    constructor ()
      ensures Valid() && State() == Initial
    {
      failedAttempts := 0;
      isBlocked := false;
      blockTimeRemaining := 0;
      isProcessing := false;
    }

    /** The submit handler; `started` tells whether an attempt went out. */
    method Submit() returns (started: bool)
      requires Valid()
      modifies this
      ensures Valid()
      ensures started <==> !old(isBlocked)
      ensures State() == OnSubmit(old(State()))
    {
      if isBlocked {
        return false;
      }
      isProcessing := true;
      started := true;
    }

    /** The rest of the attempt, once the authentication call settles. */
    method Settle(outcome: Outcome)
      requires Valid()
      modifies this
      ensures Valid()
      ensures State() == OnSettled(old(State()), outcome)
    {
      match outcome {
        case Success =>
          failedAttempts := 0;
        case Failure =>
          var newAttempts := failedAttempts + 1;
          if newAttempts >= MaxFailedAttempts {
            isBlocked := true;
            blockTimeRemaining := BlockSeconds;
          }
          failedAttempts := newAttempts;
      }
      isProcessing := false;
    }

    /** One second of wall-clock time; the countdown runs only while blocked. */
    method Tick()
      requires Valid()
      modifies this
      ensures Valid()
      ensures State() == OnTick(old(State()))
    {
      if isBlocked {
        if blockTimeRemaining <= 1 {
          isBlocked := false;
          blockTimeRemaining := 0;
        } else {
          blockTimeRemaining := blockTimeRemaining - 1;
        }
      }
    }
  }
}
