/** What the Python and the Java expirable payment workflows share: the payment status, the
    input and result records, the activity calls, the events that can interrupt the pipeline,
    and the pipeline itself (validate, fraud check, accept, notify), stated once as a function
    (python/expirable_workflow/schemas.py and the Java records beside
    ExpirablePaymentWorkflowImpl.java). */
module Payments {
  import opened Wrappers
  import opened Temporal

  datatype PaymentStatus =
    | Pending
    | Validating
    | FraudCheck
    | Accepted
    | Notified
    | Completed
    | Cancelled
    | Expired

  /** Amounts are decimals; floating-point rounding is not modelled. */
  datatype PaymentWorkflowInput = PaymentWorkflowInput(paymentId: string, amount: real, expireIn: int)

  /** Seconds until a payment expires when the caller does not say. */
  const DefaultExpireIn: int := 5

  /** An input built without an expiry takes the default of five seconds. */
  function NewPaymentWorkflowInput(paymentId: string, amount: real): (arg: PaymentWorkflowInput)
    ensures arg.paymentId == paymentId && arg.amount == amount && arg.expireIn == 5
  {
    PaymentWorkflowInput(paymentId, amount, DefaultExpireIn)
  }

  datatype PaymentWorkflowResult = PaymentWorkflowResult(paymentId: string, status: PaymentStatus, message: string)

  const ValidationFailedMessage: string := "Payment validation failed"
  const FraudFlaggedMessage: string := "Payment flagged as potentially fraudulent"
  const ExpiredMessage: string := "Payment workflow expired"
  const CompletedMessagePrefix: string := "Payment completed successfully. Transaction ID: "

  function CompletedMessage(transactionId: string): (m: string)
    ensures |m| == |CompletedMessagePrefix| + |transactionId|
    ensures m[..|CompletedMessagePrefix|] == CompletedMessagePrefix
    ensures m[|CompletedMessagePrefix|..] == transactionId
  {
    CompletedMessagePrefix + transactionId
  }

  /** The four activities, in the order the pipeline runs them. */
  datatype PaymentActivity = ValidatePayment | CheckFraud | AcceptPayment | NotifyCustomer

  /** The second argument of an activity: the amount, or the transaction id for the
      notification. */
  datatype PaymentArg = Amount(amount: real) | Transaction(transactionId: string)

  /** One activity the workflow ran, with the status the workflow had set when it started it. */
  datatype PaymentCall = PaymentCall(
    activity: PaymentActivity, paymentId: string, arg: PaymentArg, status: PaymentStatus, options: ActivityOptions)

  /** Every payment activity has a 30 second start-to-close timeout and retries at most every
      5 seconds. */
  const PaymentActivityOptions: ActivityOptions := ActivityOptions(30, RetryPolicy(5))

  /** The activity of each step and the status set just before it. */
  const StepActivities: seq<PaymentActivity> := [ValidatePayment, CheckFraud, AcceptPayment, NotifyCustomer]
  const StepStatuses: seq<PaymentStatus> := [Validating, FraudCheck, Accepted, Notified]

  /** How a cancellation reaches the awaiting code: Python's `asyncio.CancelledError` or Java's
      `CanceledFailure` directly, or an activity error whose cause is the cancellation. */
  datatype CancelForm = CancelledDirectly | CancelledThroughActivity

  /** How an awaited activity can end other than by returning. */
  datatype Stop = Cancellation(form: CancelForm) | ActivityFailed

  /** What the environment does to the pipeline: nothing, or it ends the await of step `step`
      (0 validate, 1 fraud check, 2 accept, 3 notify). A step the pipeline never reaches is
      never interrupted. */
  datatype Interrupt = Runs | StopsAt(step: nat, stop: Stop)

  /** The race between the payment and the expiration timer.
      - PaymentFirst: the payment finishes first.
      - TimerFirst: the timer fires while the payment awaits step `step` and cancels it in
        the given form.
      - TimerWithFailure: the timer fires while the payment awaits step `step`, and that await
        ends with an activity error that is not a cancellation. Either the payment had already
        failed when the race was decided (`paymentDone`), or it was still pending, was
        cancelled, and the error arrived in place of the cancellation.
      A timer step beyond the last activity the payment awaits means the timer fires as the
      payment finishes. */
  datatype Race =
    | PaymentFirst(intr: Interrupt)
    | TimerFirst(step: nat, form: CancelForm)
    | TimerWithFailure(step: nat, paymentDone: bool)

  /** What the race does to the pipeline: the timer's cancellation, or the failure that
      coincides with the timer, reaches the step the timer fires at. */
  function RaceInterrupt(race: Race): (intr: Interrupt)
    ensures race.TimerFirst? ==> intr == StopsAt(race.step, Cancellation(race.form))
    ensures race.TimerWithFailure? ==> intr == StopsAt(race.step, ActivityFailed)
  {
    match race
    case PaymentFirst(intr) => intr
    case TimerFirst(step, form) => StopsAt(step, Cancellation(form))
    case TimerWithFailure(step, _) => StopsAt(step, ActivityFailed)
  }

  /** How a piece of workflow code ends: returning a value, or raising what ended an await. */
  datatype Completion<+T> = Normal(value: T) | Raised(stop: Stop)

  /** How the await of `step` ends. */
  function StopAt(intr: Interrupt, step: nat): (o: Option<Stop>)
    ensures o.Some? <==> intr.StopsAt? && intr.step == step
  {
    if intr.StopsAt? && intr.step == step then Some(intr.stop) else None
  }

  function Call(activity: PaymentActivity, paymentId: string, arg: PaymentArg, status: PaymentStatus): PaymentCall
  {
    PaymentCall(activity, paymentId, arg, status, PaymentActivityOptions)
  }

  /** How the pipeline ends: rejected by validation or the fraud check, paid with a
      transaction id, or stopped while awaiting the step whose status is `status`. */
  datatype PipelineEnd = Rejected(message: string) | Paid(transactionId: string) | Stopped(status: PaymentStatus, stop: Stop)

  datatype PipelineRun = PipelineRun(calls: seq<PaymentCall>, end: PipelineEnd)

  /** The payment pipeline, given what the validation and fraud activities return for the
      amount and the transaction id the accept activity returns. */
  function Pipeline(paymentId: string, amount: real, valid: bool, notFraudulent: bool, transactionId: string,
                    intr: Interrupt): PipelineRun
  {
    var validate := Call(ValidatePayment, paymentId, Amount(amount), Validating);
    var check := Call(CheckFraud, paymentId, Amount(amount), FraudCheck);
    var accept := Call(AcceptPayment, paymentId, Amount(amount), Accepted);
    var notify := Call(NotifyCustomer, paymentId, Transaction(transactionId), Notified);
    if StopAt(intr, 0).Some? then PipelineRun([validate], Stopped(Validating, StopAt(intr, 0).value))
    else if !valid then PipelineRun([validate], Rejected(ValidationFailedMessage))
    else if StopAt(intr, 1).Some? then PipelineRun([validate, check], Stopped(FraudCheck, StopAt(intr, 1).value))
    else if !notFraudulent then PipelineRun([validate, check], Rejected(FraudFlaggedMessage))
    else if StopAt(intr, 2).Some? then PipelineRun([validate, check, accept], Stopped(Accepted, StopAt(intr, 2).value))
    else if StopAt(intr, 3).Some? then PipelineRun([validate, check, accept, notify], Stopped(Notified, StopAt(intr, 3).value))
    else PipelineRun([validate, check, accept, notify], Paid(transactionId))
  }

  /** The activity implementations the workflow's calls reach: the worker registers them, and
      the workflow sees only what they return. */
  datatype PaymentActivities = PaymentActivities(
    validatePayment: (string, real) -> bool,
    checkFraud: (string, real) -> bool,
    acceptPayment: (string, real) -> string)

  /** The pipeline run against the given activity implementations. */
  function PipelineWith(acts: PaymentActivities, paymentId: string, amount: real, intr: Interrupt): PipelineRun
  {
    Pipeline(paymentId, amount, acts.validatePayment(paymentId, amount), acts.checkFraud(paymentId, amount),
             acts.acceptPayment(paymentId, amount), intr)
  }

  /** The number of activities the pipeline awaits when nothing interrupts it. */
  function StepsAwaited(valid: bool, notFraudulent: bool): (n: nat)
    ensures 1 <= n <= 4
  {
    if !valid then 1 else if !notFraudulent then 2 else 4
  }

  /** The activities run in the fixed order validate, fraud check, accept, notify, each at
      most once and each after its status was set; a run stopped at a step has made the calls
      up to that step and keeps that step's status. */
  lemma PipelineOrder(paymentId: string, amount: real, valid: bool, notFraudulent: bool, transactionId: string, intr: Interrupt)
    ensures var run := Pipeline(paymentId, amount, valid, notFraudulent, transactionId, intr);
      && 1 <= |run.calls| <= 4
      && (forall i :: 0 <= i < |run.calls| ==>
            run.calls[i].activity == StepActivities[i] && run.calls[i].status == StepStatuses[i]
            && run.calls[i].paymentId == paymentId && run.calls[i].options == PaymentActivityOptions)
      && (forall i, j :: 0 <= i < j < |run.calls| ==> run.calls[i].activity != run.calls[j].activity)
      && (run.end.Stopped? ==>
            && intr.StopsAt? && intr.step == |run.calls| - 1 && intr.stop == run.end.stop
            && run.end.status == StepStatuses[|run.calls| - 1])
  {
  }

  /** A failed validation ends the pipeline after the validation alone; a failed fraud check
      ends it before accept and notify. */
  lemma PipelineRejections(paymentId: string, amount: real, valid: bool, notFraudulent: bool, transactionId: string, intr: Interrupt)
    ensures var run := Pipeline(paymentId, amount, valid, notFraudulent, transactionId, intr);
      && (run.end == Rejected(ValidationFailedMessage) <==> StopAt(intr, 0).None? && !valid)
      && (run.end == Rejected(ValidationFailedMessage) ==> |run.calls| == 1)
      && (run.end == Rejected(FraudFlaggedMessage) <==>
            StopAt(intr, 0).None? && valid && StopAt(intr, 1).None? && !notFraudulent)
      && (run.end == Rejected(FraudFlaggedMessage) ==> |run.calls| == 2)
      && (run.end.Rejected? ==> run.end.message in {ValidationFailedMessage, FraudFlaggedMessage})
  {
  }

  /** The pipeline pays exactly when both checks pass and nothing interrupts its four awaits;
      the notification then carries the id the accept activity returned. */
  lemma PipelinePays(paymentId: string, amount: real, valid: bool, notFraudulent: bool, transactionId: string, intr: Interrupt)
    ensures var run := Pipeline(paymentId, amount, valid, notFraudulent, transactionId, intr);
      && (run.end.Paid? <==> valid && notFraudulent && forall k :: 0 <= k < 4 ==> StopAt(intr, k).None?)
      && (run.end.Paid? ==> run.end.transactionId == transactionId && |run.calls| == 4
                            && run.calls[3].arg == Transaction(transactionId))
  {
    var run := Pipeline(paymentId, amount, valid, notFraudulent, transactionId, intr);
    if valid && notFraudulent && forall k :: 0 <= k < 4 ==> StopAt(intr, k).None? {
      assert StopAt(intr, 0).None? && StopAt(intr, 1).None? && StopAt(intr, 2).None? && StopAt(intr, 3).None?;
    }
  }

  /** An interrupt is met exactly when it targets a step the pipeline awaits. */
  lemma PipelineInterrupted(paymentId: string, amount: real, valid: bool, notFraudulent: bool, transactionId: string, intr: Interrupt)
    ensures var run := Pipeline(paymentId, amount, valid, notFraudulent, transactionId, intr);
      run.end.Stopped? <==> intr.StopsAt? && intr.step < StepsAwaited(valid, notFraudulent)
  {
  }
}
