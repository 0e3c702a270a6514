/**
 * A login form over time: the events the browser delivers to it, the number
 * of authentication calls still pending, and what sequences of events do to
 * the lockout state.
 *
 * An attempt is two events, because the authentication call is awaited: the
 * submit press that starts it and the settlement that ends it. Timer ticks and
 * further presses can come in between.
 */
module LoginSession {
  import opened LoginSchema
  import opened LoginLockout

  datatype Event =
    | SubmitPressed(emailWellFormed: bool, password: string)
    | AttemptSettled(outcome: Outcome)
    | SecondElapsed

  /** The form's state and the number of authentication calls in flight. */
  datatype Session = Session(form: FormState, inFlight: nat)

  const Start := Session(Initial, 0)

  /**
   * One event. A press reaches the submit handler only when the schema finds
   * no error; a settlement ends one pending call (with none pending there is
   * nothing to settle).
   */
  function Step(ss: Session, e: Event): (r: Session)
    ensures Consistent(ss.form) ==> Consistent(r.form)
    ensures e.SubmitPressed? && SchemaErrors(e.emailWellFormed, e.password) != {} ==> r == ss
    ensures e.SubmitPressed? && ss.form.isBlocked ==> r == ss
    ensures e.SubmitPressed? && SchemaErrors(e.emailWellFormed, e.password) == {} && !ss.form.isBlocked ==>
              r.inFlight == ss.inFlight + 1 && r.form.isProcessing && r.form == OnSubmit(ss.form)
    ensures e.AttemptSettled? && ss.inFlight > 0 ==>
              r.inFlight == ss.inFlight - 1 && !r.form.isProcessing && r.form == OnSettled(ss.form, e.outcome)
    ensures e.AttemptSettled? && ss.inFlight == 0 ==> r == ss
    ensures e.SecondElapsed? ==> r.inFlight == ss.inFlight && r.form == OnTick(ss.form)
  {
    match e
    case SubmitPressed(emailWellFormed, password) =>
      if SchemaErrors(emailWellFormed, password) != {} || SubmitIgnored(ss.form) then ss
      else Session(OnSubmit(ss.form), ss.inFlight + 1)
    case AttemptSettled(outcome) =>
      if ss.inFlight == 0 then ss
      else Session(OnSettled(ss.form, outcome), ss.inFlight - 1)
    case SecondElapsed =>
      Session(OnTick(ss.form), ss.inFlight)
  }

  /** The events in order, from the given session on. */
  function Run(ss: Session, evs: seq<Event>): (r: Session)
    ensures Consistent(ss.form) ==> Consistent(r.form)
    decreases |evs|
  {
    if evs == [] then ss
    else Step(Run(ss, evs[..|evs| - 1]), evs[|evs| - 1])
  }

  /**
   * Whether an event can happen in a session. A settlement needs a pending
   * call. When `uiGated`, a press also needs the submit button enabled, as the
   * rendered form has it; without it the press goes straight to the handler.
   */
  predicate Allowed(ss: Session, e: Event, uiGated: bool) {
    match e
    case SubmitPressed(_, _) => !uiGated || !InputsDisabled(ss.form)
    case AttemptSettled(_) => ss.inFlight > 0
    case SecondElapsed => true
  }

  /** Every event of the sequence can happen where it occurs. */
  predicate Trace(ss: Session, evs: seq<Event>, uiGated: bool)
    decreases |evs|
  {
    evs == [] ||
    (Trace(ss, evs[..|evs| - 1], uiGated) && Allowed(Run(ss, evs[..|evs| - 1]), evs[|evs| - 1], uiGated))
  }

  /** Failed settlements since the last successful one. */
  function TrailingFailures(evs: seq<Event>): nat
    decreases |evs|
  {
    if evs == [] then 0
    else match evs[|evs| - 1]
      case AttemptSettled(Success) => 0
      case AttemptSettled(Failure) => TrailingFailures(evs[..|evs| - 1]) + 1
      case _ => TrailingFailures(evs[..|evs| - 1])
  }

  lemma RunAppend(ss: Session, evs: seq<Event>, e: Event)
    ensures Run(ss, evs + [e]) == Step(Run(ss, evs), e)
  {
    assert (evs + [e])[..|evs|] == evs;
  }

  /** The trace with every press of a too-short password taken out. */
  function WithoutShortPasswordPresses(evs: seq<Event>): seq<Event>
    decreases |evs|
  {
    if evs == [] then []
    else
      var rest := WithoutShortPasswordPresses(evs[..|evs| - 1]);
      var e := evs[|evs| - 1];
      if e.SubmitPressed? && !PasswordAccepted(e.password) then rest else rest + [e]
  }

  /**
   * A press whose password is shorter than the schema's minimum never reaches
   * the submit handler: wherever such presses occur in a trace, taking them
   * out leaves the session exactly as it was.
   */
  lemma {:induction false} ShortPasswordPressesChangeNothing(ss: Session, evs: seq<Event>)
    ensures Run(ss, evs) == Run(ss, WithoutShortPasswordPresses(evs))
  {
    if evs != [] {
      var prefix := evs[..|evs| - 1];
      var e := evs[|evs| - 1];
      ShortPasswordPressesChangeNothing(ss, prefix);
      assert evs == prefix + [e];
      RunAppend(ss, prefix, e);
      if !(e.SubmitPressed? && !PasswordAccepted(e.password)) {
        RunAppend(ss, WithoutShortPasswordPresses(prefix), e);
      }
    }
  }

  function Seconds(k: nat): (evs: seq<Event>)
    ensures |evs| == k
    ensures forall i :: 0 <= i < k ==> evs[i] == SecondElapsed
  {
    seq(k, _ => SecondElapsed)
  }

  /**
   * With the controls disabled while blocked or processing, at most one call
   * is in flight, `isProcessing` says exactly whether one is, and a blocked
   * form has nothing in flight and has seen at least MaxFailedAttempts
   * failures.
   */
  lemma {:induction false} UiGatingKeepsOneAttemptInFlight(evs: seq<Event>)
    requires Trace(Start, evs, true)
    ensures Run(Start, evs).inFlight <= 1
    ensures Run(Start, evs).form.isProcessing <==> Run(Start, evs).inFlight == 1
    ensures Run(Start, evs).form.isBlocked ==>
              Run(Start, evs).inFlight == 0 && Run(Start, evs).form.failedAttempts >= MaxFailedAttempts
  {
    if evs != [] {
      UiGatingKeepsOneAttemptInFlight(evs[..|evs| - 1]);
    }
  }

  /** The counter is the number of failures since the last success. */
  lemma {:induction false} CounterCountsTrailingFailures(evs: seq<Event>)
    requires Trace(Start, evs, false)
    ensures Run(Start, evs).form.failedAttempts == TrailingFailures(evs)
  {
    if evs != [] {
      CounterCountsTrailingFailures(evs[..|evs| - 1]);
    }
  }

  /**
   * A failure that brings the failures since the last success to the
   * threshold leaves the form blocked for the full BlockSeconds.
   */
  lemma FailureAtThresholdLocksOut(evs: seq<Event>)
    requires Trace(Start, evs, false)
    requires evs != [] && evs[|evs| - 1] == AttemptSettled(Failure)
    requires TrailingFailures(evs) >= MaxFailedAttempts
    ensures Run(Start, evs).form.isBlocked
    ensures Run(Start, evs).form.blockTimeRemaining == BlockSeconds
  {
    CounterCountsTrailingFailures(evs);
  }

  /**
   * The countdown falls by exactly one a second while it is above one, and
   * the form unblocks exactly when the seconds run out; the counter and the
   * pending calls are left alone.
   */
  lemma {:induction false} CountdownExpires(ss: Session, k: nat)
    requires Consistent(ss.form) && ss.form.isBlocked
    ensures Run(ss, Seconds(k)).inFlight == ss.inFlight
    ensures Run(ss, Seconds(k)).form.failedAttempts == ss.form.failedAttempts
    ensures Run(ss, Seconds(k)).form.isProcessing == ss.form.isProcessing
    ensures k < ss.form.blockTimeRemaining ==>
              Run(ss, Seconds(k)).form.isBlocked &&
              Run(ss, Seconds(k)).form.blockTimeRemaining == ss.form.blockTimeRemaining - k
    ensures k >= ss.form.blockTimeRemaining ==>
              !Run(ss, Seconds(k)).form.isBlocked && Run(ss, Seconds(k)).form.blockTimeRemaining == 0
  {
    if k > 0 {
      CountdownExpires(ss, k - 1);
      assert Seconds(k)[..k - 1] == Seconds(k - 1);
    }
  }

  /**
   * Unblocking keeps the counter, so once a lockout has run out the next
   * failed attempt blocks the form again at once.
   */
  lemma ReblockAfterExpiry(ss: Session, password: string)
    requires Consistent(ss.form) && ss.form.isBlocked
    requires ss.form.failedAttempts >= MaxFailedAttempts
    requires PasswordAccepted(password)
    ensures var evs := Seconds(ss.form.blockTimeRemaining) +
                       [SubmitPressed(true, password), AttemptSettled(Failure)];
            Run(ss, evs).form == FormState(ss.form.failedAttempts + 1, true, BlockSeconds, false)
            && Run(ss, evs).inFlight == ss.inFlight
  {
    var ticks := Seconds(ss.form.blockTimeRemaining);
    CountdownExpires(ss, ss.form.blockTimeRemaining);
    var pressed := ticks + [SubmitPressed(true, password)];
    assert pressed[..|pressed| - 1] == ticks;
    var evs := pressed + [AttemptSettled(Failure)];
    assert evs[..|evs| - 1] == pressed;
    assert evs == ticks + [SubmitPressed(true, password), AttemptSettled(Failure)];
  }

  /**
   * With an authentication call that always succeeds, as the simulated one
   * does, the form never counts a failure and never blocks.
   */
  lemma {:induction false} SimulatedBackendNeverLocksOut(evs: seq<Event>)
    requires AttemptSettled(Failure) !in evs
    ensures Run(Start, evs).form.failedAttempts == 0
    ensures !Run(Start, evs).form.isBlocked && Run(Start, evs).form.blockTimeRemaining == 0
  {
    if evs != [] {
      var prefix := evs[..|evs| - 1];
      assert forall e :: e in prefix ==> e in evs;
      SimulatedBackendNeverLocksOut(prefix);
    }
  }

  /**
   * The submit handler alone does not stop a second attempt while one is in
   * flight. From the state after four failures, two quick presses followed by
   * a failure and a success leave the form blocked with a counter of zero;
   * the disabled controls rule this sequence out.
   */
  lemma OverlappingAttemptsClearCounterWhileBlocked()
    ensures var ss := Session(FormState(4, false, 0, false), 0);
            var evs := [SubmitPressed(true, "password1"), SubmitPressed(true, "password1"),
                        AttemptSettled(Failure), AttemptSettled(Success)];
            Trace(ss, evs, false) && !Trace(ss, evs, true) &&
            Run(ss, evs).form == FormState(0, true, BlockSeconds, false)
  {
    var ss := Session(FormState(4, false, 0, false), 0);
    var press := SubmitPressed(true, "password1");
    assert SchemaErrors(true, "password1") == {};
    RunAppend(ss, [], press);
    assert [] + [press] == [press];
    RunAppend(ss, [press], press);
    RunAppend(ss, [press, press], AttemptSettled(Failure));
    RunAppend(ss, [press, press, AttemptSettled(Failure)], AttemptSettled(Success));
    var evs := [press, press, AttemptSettled(Failure), AttemptSettled(Success)];
    assert evs[..3] == [press, press, AttemptSettled(Failure)];
    assert evs[..3][..2] == [press, press];
    assert evs[..3][..2][..1] == [press];
    assert Run(ss, [press]) == Session(FormState(4, false, 0, true), 1);
    assert Run(ss, [press, press]) == Session(FormState(4, false, 0, true), 2);
    assert Run(ss, evs[..3]) == Session(FormState(5, true, BlockSeconds, false), 1);
    assert Trace(ss, [press], false) && Trace(ss, [press, press], false);
    assert !Trace(ss, [press, press], true);
  }
}
