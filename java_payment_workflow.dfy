/** The Java expirable payment workflow (ExpirablePaymentWorkflowImpl.java): the pipeline runs
    inside a cancellation scope, and the callback of the expiration timer marks the workflow
    expired and cancels that scope. */
module JavaPaymentWorkflow {
  import opened Wrappers
  import opened Strings
  import opened Payments
  import Act = JavaPaymentActivities

  /** The activities the Java worker registers. */
  const JavaActivities: PaymentActivities := PaymentActivities(Act.ValidatePayment, Act.CheckFraud, Act.AcceptPayment)

  /** The status `processPaymentInternal` leaves and how it ends: it catches nothing. */
  datatype Internal = Internal(status: PaymentStatus, outcome: Completion<PaymentWorkflowResult>)

  function InternalSpec(acts: PaymentActivities, paymentId: string, amount: real, intr: Interrupt): Internal
  {
    match PipelineWith(acts, paymentId, amount, intr).end
    case Rejected(m) => Internal(Cancelled, Normal(PaymentWorkflowResult(paymentId, Cancelled, m)))
    case Paid(t) => Internal(Completed, Normal(PaymentWorkflowResult(paymentId, Completed, CompletedMessage(t))))
    case Stopped(st, stop) => Internal(st, Raised(stop))
  }

  const UnexpectedMessage: string := "Workflow completed unexpectedly"

  /** The reason the timer's callback gives when it cancels the scope. */
  function ExpiryReason(expireIn: int): (reason: string)
    ensures |reason| > 23 && reason[..23] == "Workflow expired after "
  {
    "Workflow expired after " + IntToString(expireIn) + " seconds"
  }

  /** The answer after the scope has run: the recorded result, or, when none was recorded,
      the current status with "Workflow completed unexpectedly". */
  function Conclude(paymentId: string, status: PaymentStatus, paymentResult: Option<PaymentWorkflowResult>): (r: PaymentWorkflowResult)
    ensures paymentResult.Some? ==> r == paymentResult.value
    ensures paymentResult.None? ==> r == PaymentWorkflowResult(paymentId, status, UnexpectedMessage)
  {
    if paymentResult.Some? then paymentResult.value else PaymentWorkflowResult(paymentId, status, UnexpectedMessage)
  }

  /** What `processPayment` changes: the final status, whether it marks the workflow expired,
      the result it records (None when it records nothing), the reasons the scope was
      cancelled with, and how it ends. */
  datatype RunState = RunState(
    status: PaymentStatus, marksExpired: bool, recorded: Option<PaymentWorkflowResult>,
    cancelReasons: seq<string>, outcome: Completion<PaymentWorkflowResult>)

  /** How the scope's outcome is answered. The timer's callback runs when the timer fires
      while the payment awaits an activity, that is when the payment ends by what the timer
      raised or by an activity failure that came with it; it marks the workflow expired and
      cancels the scope. A cancellation that
      surfaces as a `CanceledFailure` inside the scope records an EXPIRED result; one that
      surfaces as an activity failure caused by it escapes the scope and is answered there,
      again with EXPIRED, and marks the workflow expired; any other activity failure is
      rethrown. */
  function Settle(input: PaymentWorkflowInput, inner: Internal, byTimer: bool): RunState
  {
    var fired := byTimer && inner.outcome.Raised?;
    var reasons := if fired then [ExpiryReason(input.expireIn)] else [];
    var expired := PaymentWorkflowResult(input.paymentId, Expired, ExpiredMessage);
    match inner.outcome
    case Normal(res) => RunState(inner.status, fired, Some(res), reasons, Normal(res))
    case Raised(Cancellation(CancelledDirectly)) => RunState(Expired, fired, Some(expired), reasons, Normal(expired))
    case Raised(Cancellation(CancelledThroughActivity)) => RunState(Expired, true, None, reasons, Normal(expired))
    case Raised(ActivityFailed) => RunState(inner.status, fired, None, reasons, Raised(ActivityFailed))
  }

  /** The run: the pipeline is interrupted as the race says, and its outcome is settled. */
  function RunSpec(acts: PaymentActivities, input: PaymentWorkflowInput, race: Race): RunState
  {
    Settle(input, InternalSpec(acts, input.paymentId, input.amount, RaceInterrupt(race)), !race.PaymentFirst?)
  }

  class ExpirablePaymentWorkflowImpl {
    /** The activity stub: what its calls return is up to the implementations the worker
        registers. */
    const activities: PaymentActivities
    var paymentId: string
    var amount: real
    var expireIn: int
    var status: PaymentStatus
    var expired: bool
    /** The result recorded by the scope; None stands for Java's null. */
    var paymentResult: Option<PaymentWorkflowResult>
    /** The activities run, in order. */
    var calls: seq<PaymentCall>
    /** The durations of the timers started. */
    var timers: seq<int>
    /** The reasons the payment scope was cancelled with, in order. */
    var cancelReasons: seq<string>

    /** The field initialisers: PENDING, not expired, no result. The payment fields are set
        when the workflow method starts; the empty id and zeros stand for Java's defaults. */
    constructor (activities: PaymentActivities)
      ensures this.activities == activities
      ensures status == Pending && !expired && paymentResult == None
      ensures calls == [] && timers == [] && cancelReasons == []
    {
      this.activities := activities;
      paymentId := "";
      amount := 0.0;
      expireIn := 0;
      status := Pending;
      expired := false;
      paymentResult := None;
      calls := [];
      timers := [];
      cancelReasons := [];
    }

    /** The timer's callback. */
    method OnTimerFired()
      modifies this`expired, this`cancelReasons
      ensures expired
      ensures cancelReasons == old(cancelReasons) + [ExpiryReason(expireIn)]
    {
      expired := true;
      cancelReasons := cancelReasons + [ExpiryReason(expireIn)];
    }

    /** One activity call through the stub: the call is recorded with the current status, and
        the await ends as the interrupt says. */
    method ExecuteActivity(activity: PaymentActivity, arg: PaymentArg, step: nat, intr: Interrupt)
      returns (stop: Option<Stop>)
      modifies this`calls
      ensures calls == old(calls) + [Call(activity, paymentId, arg, status)]
      ensures stop == StopAt(intr, step)
    {
      calls := calls + [Call(activity, paymentId, arg, status)];
      stop := StopAt(intr, step);
    }

    method ProcessPaymentInternal(intr: Interrupt) returns (r: Completion<PaymentWorkflowResult>)
      modifies this`status, this`calls
      ensures Internal(status, r) == InternalSpec(activities, paymentId, amount, intr)
      ensures calls == old(calls) + PipelineWith(activities, paymentId, amount, intr).calls
    {
      ghost var spec := PipelineWith(activities, paymentId, amount, intr);
      ghost var validate := Call(ValidatePayment, paymentId, Amount(amount), Validating);
      ghost var check := Call(CheckFraud, paymentId, Amount(amount), FraudCheck);
      ghost var accept := Call(AcceptPayment, paymentId, Amount(amount), Accepted);
      var stop: Option<Stop>;
      status := Validating;
      stop := ExecuteActivity(ValidatePayment, Amount(amount), 0, intr);
      if stop.Some? {
        assert spec == PipelineRun([validate], Stopped(Validating, stop.value));
        return Raised(stop.value);
      }
      var isValid := activities.validatePayment(paymentId, amount);
      if !isValid {
        assert spec == PipelineRun([validate], Rejected(ValidationFailedMessage));
        status := Cancelled;
        return Normal(PaymentWorkflowResult(paymentId, status, ValidationFailedMessage));
      }

      status := FraudCheck;
      stop := ExecuteActivity(CheckFraud, Amount(amount), 1, intr);
      if stop.Some? {
        assert spec == PipelineRun([validate, check], Stopped(FraudCheck, stop.value));
        return Raised(stop.value);
      }
      var isNotFraudulent := activities.checkFraud(paymentId, amount);
      if !isNotFraudulent {
        assert spec == PipelineRun([validate, check], Rejected(FraudFlaggedMessage));
        status := Cancelled;
        return Normal(PaymentWorkflowResult(paymentId, status, FraudFlaggedMessage));
      }

      status := Accepted;
      stop := ExecuteActivity(AcceptPayment, Amount(amount), 2, intr);
      if stop.Some? {
        assert spec == PipelineRun([validate, check, accept], Stopped(Accepted, stop.value));
        return Raised(stop.value);
      }
      var transactionId := activities.acceptPayment(paymentId, amount);
      ghost var notify := Call(NotifyCustomer, paymentId, Transaction(transactionId), Notified);

      status := Notified;
      stop := ExecuteActivity(NotifyCustomer, Transaction(transactionId), 3, intr);
      if stop.Some? {
        assert spec == PipelineRun([validate, check, accept, notify], Stopped(Notified, stop.value));
        return Raised(stop.value);
      }

      assert spec == PipelineRun([validate, check, accept, notify], Paid(transactionId));
      status := Completed;
      r := Normal(PaymentWorkflowResult(paymentId, status, CompletedMessage(transactionId)));
    }

    method ProcessPayment(input: PaymentWorkflowInput, race: Race) returns (r: Completion<PaymentWorkflowResult>)
      modifies this
      ensures paymentId == input.paymentId && amount == input.amount && expireIn == input.expireIn
      ensures var spec := RunSpec(activities, input, race);
        && status == spec.status
        && expired == (old(expired) || spec.marksExpired)
        && paymentResult == (if spec.recorded.Some? then spec.recorded else old(paymentResult))
        && cancelReasons == old(cancelReasons) + spec.cancelReasons
        && r == spec.outcome
      ensures calls == old(calls) + PipelineWith(activities, input.paymentId, input.amount, RaceInterrupt(race)).calls
      ensures timers == old(timers) + [input.expireIn]
    {
      paymentId := input.paymentId;
      amount := input.amount;
      expireIn := input.expireIn;
      timers := timers + [expireIn];

      // The scope's body.
      var inner := ProcessPaymentInternal(RaceInterrupt(race));
      assert RunSpec(activities, input, race) == Settle(input, Internal(status, inner), !race.PaymentFirst?);
      if !race.PaymentFirst? && inner.Raised? {
        // The timer fired during the await that its cancellation, or the failure that came
        // with it, ended.
        OnTimerFired();
      }
      match inner {
      case Normal(res) =>
        paymentResult := Some(res);
      case Raised(Cancellation(CancelledDirectly)) =>
        status := Expired;
        paymentResult := Some(PaymentWorkflowResult(paymentId, status, ExpiredMessage));
      case Raised(Cancellation(CancelledThroughActivity)) =>
        // The activity failure escapes the scope and is caught around `run`.
        expired := true;
        status := Expired;
        return Normal(PaymentWorkflowResult(paymentId, status, ExpiredMessage));
      case Raised(ActivityFailed) =>
        return Raised(ActivityFailed);
      }
      r := Normal(Conclude(paymentId, status, paymentResult));
    }

    method GetStatus() returns (s: PaymentStatus)
      ensures s == status
    {
      s := status;
    }

    method IsExpired() returns (e: bool)
      ensures e == expired
    {
      e := expired;
    }
  }

  // ---------------------------------------------------------------------------------------
  // Properties of a run.

  /** Every cancellation that reaches the pipeline, in either form and whatever caused it,
      ends the run with status EXPIRED and "Payment workflow expired". */
  lemma CancellationsExpire(acts: PaymentActivities, input: PaymentWorkflowInput, race: Race)
    requires var intr := RaceInterrupt(race);
      PipelineWith(acts, input.paymentId, input.amount, intr).end.Stopped? && intr.stop.Cancellation?
    ensures var run := RunSpec(acts, input, race);
      && run.status == Expired
      && run.outcome == Normal(PaymentWorkflowResult(input.paymentId, Expired, ExpiredMessage))
  {
  }

  /** A timer that fires while the payment awaits an activity runs its callback: the workflow
      is marked expired and the scope cancelled with "Workflow expired after N seconds". A
      timer that would fire later never fires: the run is the uninterrupted one. */
  lemma TimerMarksExpired(acts: PaymentActivities, input: PaymentWorkflowInput, step: nat, form: CancelForm)
    ensures var run := RunSpec(acts, input, TimerFirst(step, form));
      var id, a := input.paymentId, input.amount;
      var awaited := StepsAwaited(acts.validatePayment(id, a), acts.checkFraud(id, a));
      && (step < awaited ==> run.marksExpired && run.cancelReasons == [ExpiryReason(input.expireIn)] && run.status == Expired)
      && (step >= awaited ==> run == RunSpec(acts, input, PaymentFirst(Runs)))
  {
    var id, a := input.paymentId, input.amount;
    var valid, notFraud, t := acts.validatePayment(id, a), acts.checkFraud(id, a), acts.acceptPayment(id, a);
    PipelineInterrupted(id, a, valid, notFraud, t, StopsAt(step, Cancellation(form)));
    PipelineInterrupted(id, a, valid, notFraud, t, Runs);
  }

  /** A cancellation the timer did not cause, surfacing as a `CanceledFailure`, still reports
      EXPIRED, but leaves the workflow not marked expired; surfacing as an activity failure it
      marks it expired. */
  lemma OtherCancellations(acts: PaymentActivities, input: PaymentWorkflowInput, step: nat, form: CancelForm)
    requires PipelineWith(acts, input.paymentId, input.amount, StopsAt(step, Cancellation(form))).end.Stopped?
    ensures var run := RunSpec(acts, input, PaymentFirst(StopsAt(step, Cancellation(form))));
      && run.status == Expired
      && run.marksExpired == (form == CancelledThroughActivity)
      && run.cancelReasons == []
  {
  }

  /** Only an activity failure not caused by a cancellation escapes the workflow, and it
      leaves the status of the step it ended. */
  lemma FailuresRethrown(acts: PaymentActivities, input: PaymentWorkflowInput, race: Race)
    ensures var run := RunSpec(acts, input, race);
      var p := PipelineWith(acts, input.paymentId, input.amount, RaceInterrupt(race));
      && (run.outcome.Raised? <==> p.end.Stopped? && p.end.stop == ActivityFailed)
      && (run.outcome.Raised? ==>
            && run.outcome.stop == ActivityFailed && run.status == p.end.status && !race.TimerFirst?
            && (run.marksExpired <==> race.TimerWithFailure?))
  {
  }

  /** An activity failure that comes with the timer is rethrown all the same, after the
      callback has marked the workflow expired and cancelled the scope; the status is that of
      the failed step. A timer that would fire later never fires. */
  lemma TimerWithFailureRethrown(acts: PaymentActivities, input: PaymentWorkflowInput, step: nat, paymentDone: bool)
    ensures var run := RunSpec(acts, input, TimerWithFailure(step, paymentDone));
      var id, a := input.paymentId, input.amount;
      var awaited := StepsAwaited(acts.validatePayment(id, a), acts.checkFraud(id, a));
      && (step < awaited ==>
            && run.marksExpired && run.cancelReasons == [ExpiryReason(input.expireIn)]
            && run.outcome == Raised(ActivityFailed) && run.status == StepStatuses[step])
      && (step >= awaited ==> run == RunSpec(acts, input, PaymentFirst(Runs)))
  {
    var id, a := input.paymentId, input.amount;
    var valid, notFraud, t := acts.validatePayment(id, a), acts.checkFraud(id, a), acts.acceptPayment(id, a);
    PipelineInterrupted(id, a, valid, notFraud, t, StopsAt(step, ActivityFailed));
    PipelineInterrupted(id, a, valid, notFraud, t, Runs);
    PipelineOrder(id, a, valid, notFraud, t, StopsAt(step, ActivityFailed));
  }

  /** The fallback answer is never given: whenever the scope completes, a result has been
      recorded, and no run answers "Workflow completed unexpectedly". */
  lemma FallbackNeverUsed(acts: PaymentActivities, input: PaymentWorkflowInput, race: Race)
    ensures var run := RunSpec(acts, input, race);
      && (run.outcome.Normal? ==> run.outcome.value.message != UnexpectedMessage)
      && (run.recorded.Some? ==> run.outcome == Normal(run.recorded.value))
  {
    var run := RunSpec(acts, input, race);
    var p := PipelineWith(acts, input.paymentId, input.amount, RaceInterrupt(race));
    if run.outcome.Normal? {
      var m := run.outcome.value.message;
      // The fallback message has 31 characters, and no other message has.
      if p.end.Paid? && run.status == Completed {
        assert m == CompletedMessage(p.end.transactionId);
        assert |m| >= |CompletedMessagePrefix| == 48;
      } else {
        assert m == ValidationFailedMessage || m == FraudFlaggedMessage || m == ExpiredMessage;
        assert |m| in {25, 41, 24};
      }
      assert |UnexpectedMessage| == 31;
    }
  }

  /** With the repository's activities and without interruption the thresholds decide, as in
      the Python version. */
  lemma UninterruptedOutcomes(input: PaymentWorkflowInput)
    ensures var run := RunSpec(JavaActivities, input, PaymentFirst(Runs)); var id := input.paymentId; var a := input.amount;
      && !run.marksExpired
      && (!(0.0 < a < 10000.0) ==> run.outcome == Normal(PaymentWorkflowResult(id, Cancelled, ValidationFailedMessage)))
      && (5000.0 < a < 10000.0 ==> run.outcome == Normal(PaymentWorkflowResult(id, Cancelled, FraudFlaggedMessage)))
      && (0.0 < a <= 5000.0 ==>
            run.outcome == Normal(PaymentWorkflowResult(id, Completed, CompletedMessage(Act.AcceptPayment(id, a)))))
  {
    Act.ChecksAgree(input.paymentId, input.amount);
  }
}
