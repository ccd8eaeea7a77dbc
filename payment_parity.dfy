/** The Python and the Java expirable payment workflows side by side, each with the activities
    its own worker registers. */
module PaymentParity {
  import opened Wrappers
  import opened Payments
  import Py = PythonPaymentWorkflow
  import J = JavaPaymentWorkflow
  import JAct = JavaPaymentActivities

  /** Both versions run the same activity calls with the same arguments, whatever interrupts
      them: the transaction ids can differ only for amounts that fail validation, and those
      never reach the accept activity. */
  lemma SamePipeline(paymentId: string, amount: real, intr: Interrupt)
    ensures PipelineWith(Py.PythonActivities, paymentId, amount, intr) == PipelineWith(J.JavaActivities, paymentId, amount, intr)
  {
    JAct.ChecksAgree(paymentId, amount);
    if JAct.ValidatePayment(paymentId, amount) {
      JAct.TransactionIdsAgree(paymentId, amount);
    }
  }

  /** When nothing interrupts the payment, both versions end with the same status and answer
      with the same result. */
  lemma UninterruptedRunsAgree(input: PaymentWorkflowInput)
    ensures var py := Py.RunSpec(Py.PythonActivities, input.paymentId, input.amount, PaymentFirst(Runs));
      var j := J.RunSpec(J.JavaActivities, input, PaymentFirst(Runs));
      && j.outcome.Normal?
      && py.status == j.status
      && py.outcome == Normal(Some(j.outcome.value))
      && !py.isExpired && !j.marksExpired
  {
    SamePipeline(input.paymentId, input.amount, Runs);
  }

  /** When the timer cuts an activity short, the versions disagree on the status they report:
      Python answers CANCELLED, Java EXPIRED; both mark the workflow expired and answer
      "Payment workflow expired". */
  lemma ExpiryStatusesDiffer(input: PaymentWorkflowInput, step: nat, form: CancelForm)
    requires step < StepsAwaited(JAct.ValidatePayment(input.paymentId, input.amount), JAct.CheckFraud(input.paymentId, input.amount))
    ensures var py := Py.RunSpec(Py.PythonActivities, input.paymentId, input.amount, TimerFirst(step, form));
      var j := J.RunSpec(J.JavaActivities, input, TimerFirst(step, form));
      && py.status == Cancelled && j.status == Expired
      && py.isExpired && j.marksExpired
      && py.outcome == Normal(Some(PaymentWorkflowResult(input.paymentId, Cancelled, ExpiredMessage)))
      && j.outcome == Normal(PaymentWorkflowResult(input.paymentId, Expired, ExpiredMessage))
  {
    JAct.ChecksAgree(input.paymentId, input.amount);
    Py.TimerWinsExpires(Py.PythonActivities, input.paymentId, input.amount, step, form);
    J.TimerMarksExpired(J.JavaActivities, input, step, form);
    J.CancellationsExpire(J.JavaActivities, input, TimerFirst(step, form));
  }

  /** When an activity failure comes with the timer, Java always rethrows it and marks the
      workflow expired. Python rethrows it without marking the workflow expired when the
      payment was still pending, and drops it for the expired answer when the payment had
      already failed. Both leave the status of the failed step. */
  lemma FailureAtExpiryDiffers(input: PaymentWorkflowInput, step: nat, paymentDone: bool)
    requires step < StepsAwaited(JAct.ValidatePayment(input.paymentId, input.amount), JAct.CheckFraud(input.paymentId, input.amount))
    ensures var py := Py.RunSpec(Py.PythonActivities, input.paymentId, input.amount, TimerWithFailure(step, paymentDone));
      var j := J.RunSpec(J.JavaActivities, input, TimerWithFailure(step, paymentDone));
      && j.outcome == Raised(ActivityFailed) && j.marksExpired
      && py.status == j.status == StepStatuses[step]
      && (paymentDone ==>
            py.isExpired && py.outcome == Normal(Some(PaymentWorkflowResult(input.paymentId, py.status, ExpiredMessage))))
      && (!paymentDone ==> !py.isExpired && py.outcome == Raised(ActivityFailed))
  {
    JAct.ChecksAgree(input.paymentId, input.amount);
    Py.TimerWithFailureOutcomes(Py.PythonActivities, input.paymentId, input.amount, step, paymentDone);
    J.TimerWithFailureRethrown(J.JavaActivities, input, step, paymentDone);
  }
}
