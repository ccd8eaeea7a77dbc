/** The Python expirable payment workflow (python/expirable_workflow/workflow.py): the
    pipeline updates the status step by step, and the run races it against the expiration
    timer. */
module PythonPaymentWorkflow {
  import opened Wrappers
  import opened Payments
  import Act = PythonPaymentActivities

  /** The activities the Python worker registers. */
  const PythonActivities: PaymentActivities := PaymentActivities(Act.ValidatePayment, Act.CheckFraud, Act.AcceptPayment)

  /** The status `_process_payment` leaves and how it ends. */
  datatype Process = Process(status: PaymentStatus, outcome: Completion<Option<PaymentWorkflowResult>>)

  /** A rejection or a payment returns a result carrying the final status; a cancellation, in
      either form, sets CANCELLED and is swallowed, so the coroutine returns nothing; any other
      activity error propagates and leaves the status of the step it ended. */
  function ProcessSpec(acts: PaymentActivities, paymentId: string, amount: real, intr: Interrupt): Process
  {
    match PipelineWith(acts, paymentId, amount, intr).end
    case Rejected(m) => Process(Cancelled, Normal(Some(PaymentWorkflowResult(paymentId, Cancelled, m))))
    case Paid(t) => Process(Completed, Normal(Some(PaymentWorkflowResult(paymentId, Completed, CompletedMessage(t)))))
    case Stopped(st, stop) =>
      if stop.Cancellation? then Process(Cancelled, Normal(None)) else Process(st, Raised(ActivityFailed))
  }

  datatype RunState = RunState(status: PaymentStatus, isExpired: bool, outcome: Completion<Option<PaymentWorkflowResult>>)

  /** The run: when the payment wins, its outcome is the run's and the workflow has not
      expired. When the timer is done, a payment still pending is cancelled and awaited: an
      error other than a cancellation escapes that await, and the run raises it without
      being marked expired. Otherwise (the payment swallowed the cancellation, or was done
      too) the workflow is marked expired and returns the status the payment was left with
      and "Payment workflow expired", dropping any error of a payment that was done. */
  function RunSpec(acts: PaymentActivities, paymentId: string, amount: real, race: Race): RunState
  {
    var p := ProcessSpec(acts, paymentId, amount, RaceInterrupt(race));
    if race.PaymentFirst? then RunState(p.status, false, p.outcome)
    else if race.TimerWithFailure? && !race.paymentDone && p.outcome.Raised? then RunState(p.status, false, p.outcome)
    else RunState(p.status, true, Normal(Some(PaymentWorkflowResult(paymentId, p.status, ExpiredMessage))))
  }

  class ExpirablePaymentWorkflow {
    /** What the activity calls return: the implementations the worker registers. */
    const activities: PaymentActivities
    var paymentId: string
    var amount: real
    var expireIn: int
    var status: PaymentStatus
    var isExpired: bool
    /** The activities run, in order. */
    var calls: seq<PaymentCall>
    /** The durations of the timers started. */
    var timers: seq<int>

    /** The workflow starts PENDING, not expired, with the input's id, amount and expiry. */
    constructor (input: PaymentWorkflowInput, activities: PaymentActivities)
      ensures this.activities == activities
      ensures paymentId == input.paymentId && amount == input.amount && expireIn == input.expireIn
      ensures status == Pending && !isExpired
      ensures calls == [] && timers == []
    {
      this.activities := activities;
      paymentId := input.paymentId;
      amount := input.amount;
      expireIn := input.expireIn;
      status := Pending;
      isExpired := false;
      calls := [];
      timers := [];
    }

    /** One activity execution: the call is recorded with the current status, and the
        environment decides how its await ends. */
    method ExecuteActivity(activity: PaymentActivity, arg: PaymentArg, step: nat, intr: Interrupt)
      returns (stop: Option<Stop>)
      modifies this`calls
      ensures calls == old(calls) + [Call(activity, paymentId, arg, status)]
      ensures stop == StopAt(intr, step)
    {
      calls := calls + [Call(activity, paymentId, arg, status)];
      stop := StopAt(intr, step);
    }

    /** The two `except` clauses around the pipeline. */
    method Except(stop: Stop) returns (r: Completion<Option<PaymentWorkflowResult>>)
      modifies this`status
      ensures stop.Cancellation? ==> status == Cancelled && r == Normal(None)
      ensures stop == ActivityFailed ==> status == old(status) && r == Raised(ActivityFailed)
    {
      if stop.Cancellation? {
        status := Cancelled;
        r := Normal(None);
      } else {
        r := Raised(ActivityFailed);
      }
    }

    method ProcessPayment(intr: Interrupt) returns (r: Completion<Option<PaymentWorkflowResult>>)
      modifies this`status, this`calls
      ensures Process(status, r) == ProcessSpec(activities, paymentId, amount, intr)
      ensures calls == old(calls) + PipelineWith(activities, paymentId, amount, intr).calls
    {
      var stop: Option<Stop>;
      status := Validating;
      stop := ExecuteActivity(ValidatePayment, Amount(amount), 0, intr);
      if stop.Some? {
        r := Except(stop.value);
        return;
      }
      var isValid := activities.validatePayment(paymentId, amount);
      if !isValid {
        status := Cancelled;
        return Normal(Some(PaymentWorkflowResult(paymentId, status, ValidationFailedMessage)));
      }

      status := FraudCheck;
      stop := ExecuteActivity(CheckFraud, Amount(amount), 1, intr);
      if stop.Some? {
        r := Except(stop.value);
        return;
      }
      var isNotFraudulent := activities.checkFraud(paymentId, amount);
      if !isNotFraudulent {
        status := Cancelled;
        return Normal(Some(PaymentWorkflowResult(paymentId, status, FraudFlaggedMessage)));
      }

      status := Accepted;
      stop := ExecuteActivity(AcceptPayment, Amount(amount), 2, intr);
      if stop.Some? {
        r := Except(stop.value);
        return;
      }
      var transactionId := activities.acceptPayment(paymentId, amount);

      status := Notified;
      stop := ExecuteActivity(NotifyCustomer, Transaction(transactionId), 3, intr);
      if stop.Some? {
        r := Except(stop.value);
        return;
      }

      status := Completed;
      r := Normal(Some(PaymentWorkflowResult(paymentId, status, CompletedMessage(transactionId))));
    }

    /** The race: the timer task sleeps `expire_in` seconds; the payment task runs the
        pipeline. Whichever is pending when the other is done is cancelled, and a cancelled
        timer is awaited silently. */
    method Run(race: Race) returns (r: Completion<Option<PaymentWorkflowResult>>)
      modifies this`status, this`isExpired, this`calls, this`timers
      ensures var spec := RunSpec(activities, paymentId, amount, race);
        && status == spec.status
        && isExpired == (old(isExpired) || spec.isExpired)
        && r == spec.outcome
      ensures calls == old(calls) + PipelineWith(activities, paymentId, amount, RaceInterrupt(race)).calls
      ensures timers == old(timers) + [expireIn]
    {
      timers := timers + [expireIn];
      var payment := ProcessPayment(RaceInterrupt(race));
      if race.PaymentFirst? {
        return payment;
      }
      if race.TimerWithFailure? && !race.paymentDone && payment.Raised? {
        // Awaiting the cancelled payment task re-raises its error.
        return payment;
      }
      isExpired := true;
      r := Normal(Some(PaymentWorkflowResult(paymentId, status, ExpiredMessage)));
    }

    method GetStatus() returns (s: PaymentStatus)
      ensures s == status
    {
      s := status;
    }

    method IsWorkflowExpired() returns (e: bool)
      ensures e == isExpired
    {
      e := isExpired;
    }
  }

  // ---------------------------------------------------------------------------------------
  // Properties of a run.

  /** When the payment wins, the run returns the payment's own outcome and the workflow is not
      expired; a cancellation not caused by the timer is swallowed and the run returns
      nothing, with status CANCELLED; any other activity error is raised. */
  lemma PaymentWinsUnchanged(acts: PaymentActivities, paymentId: string, amount: real, intr: Interrupt)
    ensures var run := RunSpec(acts, paymentId, amount, PaymentFirst(intr));
      var p := PipelineWith(acts, paymentId, amount, intr);
      && !run.isExpired
      && run.outcome == ProcessSpec(acts, paymentId, amount, intr).outcome
      && (run.outcome == Normal(None) <==> p.end.Stopped? && intr.stop.Cancellation?)
      && (run.outcome.Raised? <==> p.end.Stopped? && intr.stop == ActivityFailed)
  {
    PipelineOrder(paymentId, amount, acts.validatePayment(paymentId, amount), acts.checkFraud(paymentId, amount),
                  acts.acceptPayment(paymentId, amount), intr);
  }

  /** When the timer's cancellation reaches the payment, the workflow is expired and returns
      "Payment workflow expired" with the status the payment was left with: CANCELLED if the
      timer cut an activity short, the payment's own final status if the payment had finished
      too. */
  lemma TimerWinsExpires(acts: PaymentActivities, paymentId: string, amount: real, step: nat, form: CancelForm)
    ensures var run := RunSpec(acts, paymentId, amount, TimerFirst(step, form));
      var awaited := StepsAwaited(acts.validatePayment(paymentId, amount), acts.checkFraud(paymentId, amount));
      && run.isExpired
      && run.outcome == Normal(Some(PaymentWorkflowResult(paymentId, run.status, ExpiredMessage)))
      && (step < awaited ==> run.status == Cancelled)
      && (step >= awaited ==> run.status == ProcessSpec(acts, paymentId, amount, Runs).status)
      && run.status in {Cancelled, Completed}
  {
    var valid, notFraud := acts.validatePayment(paymentId, amount), acts.checkFraud(paymentId, amount);
    var t := acts.acceptPayment(paymentId, amount);
    PipelineInterrupted(paymentId, amount, valid, notFraud, t, StopsAt(step, Cancellation(form)));
    PipelineInterrupted(paymentId, amount, valid, notFraud, t, Runs);
  }

  /** When the timer fires as an await of the payment fails with an error other than a
      cancellation, the status is that of the failed step. If the payment had already failed
      when the race was decided, both tasks are done: the error is dropped and the run answers
      as expired. If the payment was still pending, awaiting it after its cancellation
      re-raises the error, and the workflow is not marked expired. A timer that fires as the
      payment finishes gives the expired answer with the payment's final status. */
  lemma TimerWithFailureOutcomes(acts: PaymentActivities, paymentId: string, amount: real, step: nat, paymentDone: bool)
    ensures var run := RunSpec(acts, paymentId, amount, TimerWithFailure(step, paymentDone));
      var awaited := StepsAwaited(acts.validatePayment(paymentId, amount), acts.checkFraud(paymentId, amount));
      && (step < awaited ==> run.status == StepStatuses[step])
      && (step < awaited && paymentDone ==>
            run.isExpired && run.outcome == Normal(Some(PaymentWorkflowResult(paymentId, run.status, ExpiredMessage))))
      && (step < awaited && !paymentDone ==> !run.isExpired && run.outcome == Raised(ActivityFailed))
      && (step >= awaited ==>
            && run.isExpired && run.status == ProcessSpec(acts, paymentId, amount, Runs).status
            && run.outcome == Normal(Some(PaymentWorkflowResult(paymentId, run.status, ExpiredMessage))))
  {
    var valid, notFraud := acts.validatePayment(paymentId, amount), acts.checkFraud(paymentId, amount);
    var t := acts.acceptPayment(paymentId, amount);
    PipelineInterrupted(paymentId, amount, valid, notFraud, t, StopsAt(step, ActivityFailed));
    PipelineInterrupted(paymentId, amount, valid, notFraud, t, Runs);
    PipelineOrder(paymentId, amount, valid, notFraud, t, StopsAt(step, ActivityFailed));
  }

  /** Every run leaves a status the pipeline sets: never PENDING and never EXPIRED; a run that
      returns a result carries the run's final status in it. */
  lemma RunStatuses(acts: PaymentActivities, paymentId: string, amount: real, race: Race)
    ensures var run := RunSpec(acts, paymentId, amount, race);
      && run.status != Pending && run.status != Expired
      && (run.outcome.Normal? && run.outcome.value.Some? ==>
            run.outcome.value.value.status == run.status && run.outcome.value.value.paymentId == paymentId)
  {
  }

  /** With the repository's activities and without interruption the thresholds decide: an
      amount outside (0, 10000) is rejected by validation, one in (5000, 10000) by the fraud
      check, and one in (0, 5000] completes with a message naming its transaction id. */
  lemma UninterruptedOutcomes(paymentId: string, amount: real)
    ensures var run := RunSpec(PythonActivities, paymentId, amount, PaymentFirst(Runs));
      && (!(0.0 < amount < 10000.0) ==>
            run.outcome == Normal(Some(PaymentWorkflowResult(paymentId, Cancelled, ValidationFailedMessage))))
      && (5000.0 < amount < 10000.0 ==>
            run.outcome == Normal(Some(PaymentWorkflowResult(paymentId, Cancelled, FraudFlaggedMessage))))
      && (0.0 < amount <= 5000.0 ==>
            run.outcome == Normal(Some(PaymentWorkflowResult(paymentId, Completed,
                                                             CompletedMessage(Act.AcceptPayment(paymentId, amount))))))
  {
    Act.ChecksTogether(paymentId, amount);
  }
}
