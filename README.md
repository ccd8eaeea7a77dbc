# Temporal samples: order notifications, expirable payments, simulated failures

This project models three parts of a collection of Temporal workflow samples in Dafny and proves
properties of the model.

1. **The order-notification workflow** (Python).
   - An order moves through a fixed lifecycle: ORDER_PLACED, VENDOR_NOTIFIED, ORDER_ACCEPTED or
     ORDER_DECLINED, ORDER_PREPARATION, ORDER_READY, ORDER_PICKED_UP.
   - The transition table is in `order_notification/schemas/order.py`.
   - The workflow notifies the vendor of a new order.
   - Signals from the vendor and courier move the order along the table.
   - The workflow waits for each new state against an absolute deadline. When the deadline
     passes, it declines the order, or forces it to READY if it can no longer be declined.
   - It tells the user about each state over the user's preferred channel.
   - It waits for the pickup and then announces completion.
2. **The expirable payment workflow**, in its Python and its Java version.
   - A four-step pipeline (validate, fraud check, accept, notify the customer) updates a
     status field.
   - The pipeline races an expiration timer.
   - The two versions share the pipeline but differ in how an expiry is reported.
3. **The `simulate_failure` decorator**.
   - It wraps a function with a call counter of its own.
   - The first `failure_count` calls raise "Simulated failure k/n for function 'name'".
   - Later calls run the wrapped function.

## How the model is built

- **Data.** Every value record of the source is a `datatype`: order and payment states,
  inputs, results, notification inputs and activity calls. Decimal formatting of integers is
  written out in `Strings`.
- **Classes.** Every workflow object whose fields the source updates is a `class`:
  `OrderWorkflow.Orders`, `PythonPaymentWorkflow.ExpirablePaymentWorkflow`,
  `JavaPaymentWorkflow.ExpirablePaymentWorkflowImpl` and `Decorators.SimulatedFailure`.
  - Their signal handlers, queries and run methods are methods with `modifies` clauses.
  - Each run method is proved against a pure specification function: `OrderWorkflow.RunSpec`,
    `PythonPaymentWorkflow.RunSpec` and `JavaPaymentWorkflow.RunSpec`.
  - The lemmas about the run are proved about that function.
- **The Temporal runtime** is replaced by what the environment supplies:
  - Signals arrive only while the workflow is suspended. The signals that arrive at one
    suspension point are given as a sequence (`OrderWorkflow.History`, `OrderWorkflow.Wake`).
  - The clock is an integer number of seconds read at each wake-up.
  - A wait with a positive timeout wakes when its batch of signals raised the new-state flag.
    Otherwise its timer fires.
  - A wait with a timeout of zero or less times out at once, in the activation it starts in.
    No signal arrives during it, and the flag is not consulted.
  - For the payments, the race with the timer is a `Payments.Race`, with three cases.
    - The payment finishes first, possibly interrupted by some other cancellation or failure.
    - The timer fires while a given step is awaited. Its cancellation then reaches that await
      in one of two forms: directly, or as the cause of an activity error.
    - The timer fires while that await fails with an activity error that is not a
      cancellation. The payment may already have failed when the race is decided, or it may
      still be pending.
- **Activities.** Executing an activity is modelled by the call it records: the activity, its
  arguments, its status and its options.
  - The payment workflows see the activities only through the values they return
    (`Payments.PaymentActivities`).
  - Each workflow's lemmas hold for any implementation.
  - A second set of lemmas instantiates the implementations each worker registers:
    `PythonPaymentActivities` and `JavaPaymentActivities`.

## Behaviours worth knowing

These follow from the code as written. The model keeps them, and a lemma names each one.

- **The flag reset at `order_notification/workflows/orders.py:173` loses a signal.**
  - The reset comes after the user notification, so it also clears a flag raised by a signal
    handled during that notification.
  - A READY reached that way wakes nothing. A later pickup is then announced as
    ORDER_CANCELED (`OrderRunProperties.ReadyDuringNotificationIsAnnouncedAsCanceled`). If
    nothing else arrives, the wait expires, the expiry keeps READY, and READY is announced
    only at the deadline.
- **A deadline that has already passed overrides the flag.**
  - A wait whose timeout is zero or less expires even when the flag is up, and applies the
    fallback to the state as it stands.
  - With an expiration time of zero or less, a decline that arrives while the user
    preference is fetched leaves DECLINED with the flag up. The first wait then forces READY,
    and the run announces ORDER_READY instead of ORDER_CANCELED
    (`OrderRunProperties.NonPositiveExpirationForcesReady`).
- **The expiry fallback bypasses the transition table.**
  - It moves ACCEPTED straight to READY.
  - It moves an order already PICKED_UP (by signals during a notification) back to READY
    (`OrderWorkflow.WaitOutcome`, `OrderRunProperties.ExpiryAfterSilentPickupMovesBack`).
- **The two payment versions report an expiry differently.**
  - When the timer cuts an activity short, Python reports CANCELLED and Java reports
    EXPIRED. Both say "Payment workflow expired" (`PaymentParity.ExpiryStatusesDiffer`).
  - Python never reports EXPIRED (`PythonPaymentWorkflow.RunStatuses`).
- **An activity failure that comes with the timer is handled differently.**
  - Java rethrows it, after marking the workflow expired
    (`JavaPaymentWorkflow.TimerWithFailureRethrown`).
  - Python drops it and answers "Payment workflow expired" if the payment had already
    failed. If the payment was still pending, Python rethrows it from the await of the
    cancelled task, without marking the workflow expired
    (`PythonPaymentWorkflow.TimerWithFailureOutcomes`, `PaymentParity.FailureAtExpiryDiffers`).
- **In Java, a cancellation the timer did not cause still looks like an expiry.**
  - When it surfaces as a `CanceledFailure`, it reports EXPIRED while `isExpired()` stays
    false (`JavaPaymentWorkflow.OtherCancellations`).
  - The fallback "Workflow completed unexpectedly" is never returned
    (`JavaPaymentWorkflow.FallbackNeverUsed`).
- **Java's `(int)` cast saturates.**
  - For amounts whose cents exceed the 32-bit range, Java's transaction id differs from
    Python's (`JavaPaymentActivities.TransactionIdsDifferWhenSaturated`).
  - Validation rejects every such amount, so both workflows run the same calls
    (`PaymentParity.SamePipeline`).

## Model

| member | source | states |
|---|---|---|
| OrderSchema.Description | order_notification/schemas/order.py:26-28 | the description lookup never falls back to "Unknown state" and is never empty |
| OrderSchema.DescribedStates | order_notification/schemas/order.py:63-71 | every state has an entry in the description table |
| OrderSchema.CanTransitionToIsEdge | order_notification/schemas/order.py:49-59 | `can_transition_to` holds exactly for the pairs of the lifecycle, written out independently of the table |
| OrderSchema.AllowedNextStatesDistinct | order_notification/schemas/order.py:74-85 | no state lists itself or a successor twice |
| OrderSchema.TerminalIffNoSuccessor | order_notification/schemas/order.py:31-33 | the terminal states are PICKED_UP and DECLINED, exactly the states without successors |
| OrderSchema.VendorActionStates | order_notification/schemas/order.py:36-42 | a state flagged as needing the vendor has a successor and is not terminal; the flag holds exactly for the states with a successor other than ORDER_PLACED and ACCEPTED |
| OrderSchema.TransitionsMoveForward | order_notification/schemas/order.py:74-85 | every allowed transition raises the lifecycle rank by exactly one, so the table is acyclic |
| OrderSchema.PathRankGrows | order_notification/schemas/order.py:74-85 | along a path of allowed transitions, the rank grows by exactly the path length |
| OrderSchema.PathsVisitEachStateOnce | order_notification/schemas/order.py:74-85 | no path of allowed transitions visits a state twice |
| OrderSchema.PathsFromPlacedEndTerminal | order_notification/schemas/order.py:74-85 | a path from ORDER_PLACED has as many steps as the rank of its last state, at most five; one that cannot be extended ends DECLINED after two steps or PICKED_UP after five |
| OrderSchema.Predecessor | order_notification/schemas/order.py:74-85 | every state but ORDER_PLACED has a state that may transition to it, one rank lower |
| OrderSchema.PathTo | order_notification/schemas/order.py:74-85 | every state is reachable from ORDER_PLACED by a path as long as its rank |
| OrderSchema.LongestPathHasFiveSteps | order_notification/schemas/order.py:74-85 | some path from ORDER_PLACED has exactly five steps |
| OrderSchema.NewOrderWorkflowInput | order_notification/schemas/order.py:88-94 | an input built without an expiration time gets 60 seconds |
| Notifications.NotifyUser | order_notification/activities/notifications.py:61-86 | exactly one user activity on the preferred channel with the input unchanged and 10 s / 5 s options; none without a preference |
| Notifications.NotifyVendor | order_notification/activities/notifications.py:133-158 | exactly one vendor activity on the preferred channel with the input unchanged and 10 s / 5 s options; none without a preference |
| Notifications.ActivityDeterminedByChannel | order_notification/activities/notifications.py:72-86 | the recipient kind and the channel determine the leaf activity |
| Notifications.UserMessagesOfNotifications | order_notification/activities/notifications.py:61-86 | a user notification with a preference delivers exactly its message; a vendor notification delivers no user message |
| OrderWorkflow.SignalAppliesExactlyWhenAllowed | order_notification/workflows/orders.py:195-255 | a signal changes the state exactly when the table allows its target, then sets the target and raises the flag; otherwise it changes nothing |
| OrderWorkflow.NoSignalTargetsVendorNotified | order_notification/workflows/orders.py:195-255 | no signal asks for ORDER_PLACED or VENDOR_NOTIFIED |
| OrderWorkflow.SignalsWhilePlacedIgnored | order_notification/workflows/orders.py:195-255 | every batch of signals handled in ORDER_PLACED is a no-op |
| OrderWorkflow.DeliverMovesForward | order_notification/workflows/orders.py:195-255 | signals never decrease the rank or lower the flag; a raised flag means the state moved; terminal states are final |
| OrderWorkflow.WaitOutcome | order_notification/workflows/orders.py:264-290 | a wait with a positive timeout ends with the flag raised and the state reached by signals, or by expiry: DECLINED from VENDOR_NOTIFIED, otherwise READY, even from ACCEPTED or PICKED_UP; a wait with a timeout of zero or less ignores its signals and the flag and applies that fallback to the state it starts in |
| OrderWorkflow.WaitEndsPastVendorNotified | order_notification/workflows/orders.py:264-290 | every wait, whatever its timeout, ends past VENDOR_NOTIFIED with the flag raised only for a state a signal can reach |
| OrderWorkflow.Orders.constructor | order_notification/workflows/orders.py:44-49 | a new workflow is ORDER_PLACED with the flag down, the start time now and the input's expiration time |
| OrderWorkflow.Orders.AcceptOrder | order_notification/workflows/orders.py:195-204 | the accept signal moves to ACCEPTED and raises the flag when allowed, and otherwise changes nothing |
| OrderWorkflow.Orders.DeclineOrder | order_notification/workflows/orders.py:206-215 | the decline signal moves to DECLINED and raises the flag when allowed, and otherwise changes nothing |
| OrderWorkflow.Orders.PrepareOrder | order_notification/workflows/orders.py:217-228 | the prepare signal moves to PREPARATION and raises the flag when allowed, and otherwise changes nothing |
| OrderWorkflow.Orders.ReadyOrder | order_notification/workflows/orders.py:230-242 | the ready signal moves to READY and raises the flag when allowed, and otherwise changes nothing |
| OrderWorkflow.Orders.PickUpOrder | order_notification/workflows/orders.py:244-255 | the pick-up signal moves to PICKED_UP and raises the flag when allowed, and otherwise changes nothing |
| OrderWorkflow.Orders.QueryOrderState | order_notification/workflows/orders.py:257-262 | the query returns the current state and changes nothing |
| OrderWorkflow.Orders.HandleSignal | order_notification/workflows/orders.py:195-255 | the runtime dispatches a signal to its handler |
| OrderWorkflow.Orders.Suspend | order_notification/workflows/orders.py:195-255 | the signals arriving at a suspension point are handled in arrival order |
| OrderWorkflow.Orders.WaitWithExpiration | order_notification/workflows/orders.py:264-290 | one timer with the given timeout; a non-positive timeout expires without handling signals; state per WaitOutcome; returns the expiration time minus the time elapsed since the start |
| OrderWorkflow.Orders.Run | order_notification/workflows/orders.py:51-193 | a run of a fresh workflow does exactly what RunSpec says: vendor notification, wait loop, pickup |
| OrderWorkflow.Orders.WaitLoop | order_notification/workflows/orders.py:99-174 | the loop follows LoopSpec, one pass per wake-up |
| OrderWorkflow.Orders.Pass | order_notification/workflows/orders.py:102-173 | one pass: the wait, then the announcement of ACCEPTED, PREPARATION, READY or any other state as canceled, then the flag reset |
| OrderWorkflow.Orders.AwaitPickup | order_notification/workflows/orders.py:176-193 | waits without a timeout for PICKED_UP, then announces ORDER_COMPLETED and returns the state |
| OrderRunProperties.PassPreserves | order_notification/workflows/orders.py:102-173 | a pass started in the loop invariant restores it or ends the run properly |
| OrderRunProperties.LoopOutcomes | order_notification/workflows/orders.py:99-193 | every loop started in the invariant ends properly |
| OrderRunProperties.LoopTimers | order_notification/workflows/orders.py:99-105 | the loop only appends calls and timers; the first timer is the one it starts with; each later one is the time left at the previous wake-up |
| OrderRunProperties.RunLoopEntry | order_notification/workflows/orders.py:51-193 | every run ends properly |
| OrderRunProperties.RunEndings | order_notification/workflows/orders.py:150-193 | a returning run returns its current state, DECLINED or PICKED_UP, after ORDER_CANCELED or ORDER_COMPLETED; DECLINED always ends with ORDER_CANCELED; a run waiting for the pickup announced READY last |
| OrderRunProperties.UserMessagesInLifecycleOrder | order_notification/workflows/orders.py:110-193 | the user hears of each stage at most once and in lifecycle order, at most four messages |
| OrderRunProperties.AtMostThreeWaits | order_notification/workflows/orders.py:99-173 | a run starts at most three timed waits and cannot stay in the loop past its third wake-up |
| OrderRunProperties.DeadlineIsAbsolute | order_notification/workflows/orders.py:287-290 | the first wait gets the whole expiration time; each later wait gets it minus the time elapsed since the start |
| OrderRunProperties.VendorNotifiedFirst | order_notification/workflows/orders.py:75-84 | the first recorded notification call of every run is the NEW_ORDER notification on the vendor's channel |
| OrderRunProperties.SignalsBeforeVendorNotifiedIgnored | order_notification/workflows/orders.py:58-84 | signals before the vendor is notified do not affect the run |
| OrderRunProperties.ExpiryWithoutSignalsDeclines | order_notification/workflows/orders.py:270-279 | without any signal the order is declined at expiry after one wait, and the user is told it is canceled |
| OrderRunProperties.DeclineEndsTheRun | order_notification/workflows/orders.py:150-171 | a decline ends the run with DECLINED after one wait and a single ORDER_CANCELED |
| OrderRunProperties.HappyPath | order_notification/workflows/orders.py:51-193 | accept, prepare, ready and pick up, each before the deadline, give the four user messages in order and return PICKED_UP after three waits |
| OrderRunProperties.ExpiryDuringPreparationForcesReady | order_notification/workflows/orders.py:270-279 | after an accept and a prepare before the deadline, an expiry in PREPARATION forces READY, announces it, and leaves the run waiting for the pickup |
| OrderRunProperties.ReadyDuringNotificationIsAnnouncedAsCanceled | order_notification/workflows/orders.py:173 | a READY reached during a notification is lost by the flag reset; the later pickup is announced as canceled |
| OrderRunProperties.ExpiryAfterSilentPickupMovesBack | order_notification/workflows/orders.py:274-279 | an order picked up during the ACCEPTED notification is moved back to READY by the expiry |
| OrderRunProperties.NonPositiveExpirationForcesReady | order_notification/workflows/orders.py:270-279 | with an expiration time of zero or less, a decline during the user-preference fetch is overridden: the first wait expires at once, forces READY, and the run announces ORDER_READY and waits for the pickup |
| Payments.NewPaymentWorkflowInput | python/expirable_workflow/schemas.py:22-29 | an input built without an expiry gets five seconds |
| Payments.CompletedMessage | python/expirable_workflow/workflow.py:189-193 | the completion message is the fixed prefix followed by the transaction id |
| Payments.RaceInterrupt | python/expirable_workflow/workflow.py:70-81 | a timer that fires during an await cancels that step, or meets the activity failure that ends it |
| Payments.PipelineOrder | python/expirable_workflow/workflow.py:121-180 | the activities run in the order validate, fraud check, accept, notify; each runs at most once, after its status is set, with 30 s / 5 s options; a stopped run keeps its step's status |
| Payments.PipelineRejections | python/expirable_workflow/workflow.py:133-158 | validation failure ends after one call, fraud after two, each with its message, exactly when the check fails uninterrupted |
| Payments.PipelinePays | python/expirable_workflow/workflow.py:160-193 | the pipeline pays exactly when both checks pass and no await is interrupted; the notification carries the accepted transaction id |
| Payments.PipelineInterrupted | python/expirable_workflow/workflow.py:121-180 | an interrupt takes effect exactly when it targets a step the pipeline awaits |
| PythonPaymentActivities.ChecksTogether | python/expirable_workflow/activities.py:22-47 | both checks pass exactly for 0 < amount <= 5000; amounts in (5000, 10000) pass validation and fail the fraud check |
| PythonPaymentActivities.TruncateTowardZero | python/expirable_workflow/activities.py:62 | `int()` truncates toward zero on both signs |
| PythonPaymentActivities.TransactionIdShape | python/expirable_workflow/activities.py:62 | the transaction id is "TXN-", the payment id, "-" and the truncated cents in decimal |
| PythonPaymentActivities.TransactionIdDistinguishesCents | python/expirable_workflow/activities.py:62 | two non-negative amounts whose truncated cents differ get different transaction ids |
| JavaPaymentActivities.ChecksAgree | java/core/src/main/java/io/temporal/samples/expirableWorkflow/PaymentActivitiesImpl.java:18-32 | Java's checks accept exactly what Python's accept |
| JavaPaymentActivities.IntCast | java/core/src/main/java/io/temporal/samples/expirableWorkflow/PaymentActivitiesImpl.java:42 | `(int)` of a double lies in the 32-bit range |
| JavaPaymentActivities.IntCastTruncates | java/core/src/main/java/io/temporal/samples/expirableWorkflow/PaymentActivitiesImpl.java:42 | `(int)` truncates toward zero inside the 32-bit range and saturates outside it |
| JavaPaymentActivities.TransactionIdsAgree | java/core/src/main/java/io/temporal/samples/expirableWorkflow/PaymentActivitiesImpl.java:42 | for every amount that passes validation, Java's transaction id equals Python's |
| JavaPaymentActivities.TransactionIdsDifferWhenSaturated | java/core/src/main/java/io/temporal/samples/expirableWorkflow/PaymentActivitiesImpl.java:42 | for 30 million, Java's id saturates at 2147483647 cents and differs from Python's |
| PythonPaymentWorkflow.ExpirablePaymentWorkflow.constructor | python/expirable_workflow/workflow.py:41-47 | a new workflow is PENDING and not expired, with the input's id, amount and expiry |
| PythonPaymentWorkflow.ExpirablePaymentWorkflow.ExecuteActivity | python/expirable_workflow/workflow.py:126-131 | an activity call is recorded with its status and 30 s / 5 s options; it returns or raises what the interrupt says |
| PythonPaymentWorkflow.ExpirablePaymentWorkflow.Except | python/expirable_workflow/workflow.py:194-206 | a cancellation in either form sets CANCELLED and is swallowed; any other activity error is re-raised |
| PythonPaymentWorkflow.ExpirablePaymentWorkflow.ProcessPayment | python/expirable_workflow/workflow.py:108-206 | `_process_payment` makes the pipeline's calls and leaves the status and outcome ProcessSpec gives |
| PythonPaymentWorkflow.ExpirablePaymentWorkflow.Run | python/expirable_workflow/workflow.py:49-94 | the run starts one timer of `expire_in` seconds and ends in the state RunSpec gives |
| PythonPaymentWorkflow.ExpirablePaymentWorkflow.GetStatus | python/expirable_workflow/workflow.py:208-213 | the query returns the status and changes nothing |
| PythonPaymentWorkflow.ExpirablePaymentWorkflow.IsWorkflowExpired | python/expirable_workflow/workflow.py:215-220 | the query returns the expired flag and changes nothing |
| PythonPaymentWorkflow.PaymentWinsUnchanged | python/expirable_workflow/workflow.py:94 | when the payment wins, the run returns its outcome and is not expired; outcome None exactly for a swallowed cancellation; raised exactly for another failure |
| PythonPaymentWorkflow.TimerWinsExpires | python/expirable_workflow/workflow.py:83-92 | when the timer's cancellation reaches the payment, the run is expired and answers "Payment workflow expired" with CANCELLED, or with the payment's own final status if it had finished |
| PythonPaymentWorkflow.TimerWithFailureOutcomes | python/expirable_workflow/workflow.py:75-94 | a failure that comes with the timer leaves its step's status; it is dropped for the expired answer if the payment was done, and re-raised from the await of the cancelled task, without marking the workflow expired, if it was pending |
| PythonPaymentWorkflow.RunStatuses | python/expirable_workflow/workflow.py:108-206 | no run ends PENDING or EXPIRED, and a returned result carries the final status and the payment id |
| PythonPaymentWorkflow.UninterruptedOutcomes | python/expirable_workflow/workflow.py:121-193 | with the registered activities, amounts outside (0, 10000) fail validation, amounts in (5000, 10000) are flagged, and amounts in (0, 5000] complete with the transaction id |
| JavaPaymentWorkflow.ExpiryReason | java/core/src/main/java/io/temporal/samples/expirableWorkflow/ExpirablePaymentWorkflowImpl.java:75 | the cancellation reason starts "Workflow expired after " and goes on with the seconds |
| JavaPaymentWorkflow.ExpirablePaymentWorkflowImpl.constructor | java/core/src/main/java/io/temporal/samples/expirableWorkflow/ExpirablePaymentWorkflowImpl.java:24-38 | a new workflow is PENDING, not expired, with no result, and uses the activity stub |
| JavaPaymentWorkflow.ExpirablePaymentWorkflowImpl.OnTimerFired | java/core/src/main/java/io/temporal/samples/expirableWorkflow/ExpirablePaymentWorkflowImpl.java:71-77 | the timer callback marks the workflow expired and cancels the scope with the expiry reason |
| JavaPaymentWorkflow.ExpirablePaymentWorkflowImpl.ExecuteActivity | java/core/src/main/java/io/temporal/samples/expirableWorkflow/ExpirablePaymentWorkflowImpl.java:24-31 | a stub call is recorded with its status and 30 s / 5 s options; it returns or stops as the interrupt says |
| JavaPaymentWorkflow.ExpirablePaymentWorkflowImpl.ProcessPaymentInternal | java/core/src/main/java/io/temporal/samples/expirableWorkflow/ExpirablePaymentWorkflowImpl.java:101-142 | the internal pipeline makes the pipeline's calls and leaves the status and outcome InternalSpec gives |
| JavaPaymentWorkflow.ExpirablePaymentWorkflowImpl.ProcessPayment | java/core/src/main/java/io/temporal/samples/expirableWorkflow/ExpirablePaymentWorkflowImpl.java:40-99 | `processPayment` starts one timer of `expireIn` seconds and ends in the state RunSpec gives |
| JavaPaymentWorkflow.ExpirablePaymentWorkflowImpl.GetStatus | java/core/src/main/java/io/temporal/samples/expirableWorkflow/ExpirablePaymentWorkflowImpl.java:144-147 | the query returns the status and changes nothing |
| JavaPaymentWorkflow.ExpirablePaymentWorkflowImpl.IsExpired | java/core/src/main/java/io/temporal/samples/expirableWorkflow/ExpirablePaymentWorkflowImpl.java:149-152 | the query returns the expired flag and changes nothing |
| JavaPaymentWorkflow.CancellationsExpire | java/core/src/main/java/io/temporal/samples/expirableWorkflow/ExpirablePaymentWorkflowImpl.java:61-88 | every cancellation that reaches the pipeline, in either form, ends with EXPIRED and "Payment workflow expired" |
| JavaPaymentWorkflow.TimerMarksExpired | java/core/src/main/java/io/temporal/samples/expirableWorkflow/ExpirablePaymentWorkflowImpl.java:70-77 | a timer firing during an await marks the run expired with one cancellation reason; a later timer never fires and the run is the uninterrupted one |
| JavaPaymentWorkflow.OtherCancellations | java/core/src/main/java/io/temporal/samples/expirableWorkflow/ExpirablePaymentWorkflowImpl.java:59-88 | a cancellation not from the timer reports EXPIRED; it marks the workflow expired only when it surfaces as an activity failure |
| JavaPaymentWorkflow.FailuresRethrown | java/core/src/main/java/io/temporal/samples/expirableWorkflow/ExpirablePaymentWorkflowImpl.java:80-90 | exactly the activity failures not caused by a cancellation escape, leaving the status of their step; the workflow is marked expired exactly when the failure came with the timer |
| JavaPaymentWorkflow.TimerWithFailureRethrown | java/core/src/main/java/io/temporal/samples/expirableWorkflow/ExpirablePaymentWorkflowImpl.java:70-90 | a failure that comes with the timer is rethrown after the callback marks the workflow expired and records the reason; a later timer never fires |
| JavaPaymentWorkflow.FallbackNeverUsed | java/core/src/main/java/io/temporal/samples/expirableWorkflow/ExpirablePaymentWorkflowImpl.java:92-98 | "Workflow completed unexpectedly" is never returned; a recorded result is always the answer |
| JavaPaymentWorkflow.UninterruptedOutcomes | java/core/src/main/java/io/temporal/samples/expirableWorkflow/ExpirablePaymentWorkflowImpl.java:101-142 | with the registered activities the same thresholds decide as in Python, and the run is not expired |
| PaymentParity.SamePipeline | java/core/src/main/java/io/temporal/samples/expirableWorkflow/PaymentActivitiesImpl.java:18-42 | with their own activities, both versions make identical calls with identical results for every input and interrupt |
| PaymentParity.UninterruptedRunsAgree | java/core/src/main/java/io/temporal/samples/expirableWorkflow/ExpirablePaymentWorkflowImpl.java:101-142 | without interruption, both versions end with the same status and result, and neither is expired |
| PaymentParity.ExpiryStatusesDiffer | java/core/src/main/java/io/temporal/samples/expirableWorkflow/ExpirablePaymentWorkflowImpl.java:61-66 | a timer cutting an await short gives CANCELLED in Python and EXPIRED in Java; both are expired and answer "Payment workflow expired" |
| PaymentParity.FailureAtExpiryDiffers | python/expirable_workflow/workflow.py:75-94 | with a failure at expiry, Java always rethrows and marks the workflow expired; Python answers expired if the payment was done and rethrows unmarked otherwise; both keep the step's status |
| Decorators.FailureMessage | common/python/decorators.py:28-30 | the message is "Simulated failure " followed by the call number, "/", the failure count and " for function 'name'" |
| Decorators.SimulatedFailure.constructor | common/python/decorators.py:20-21 | a wrapper carries the function, its name and docstring, and a counter at zero |
| Decorators.SimulatedFailure.Default | common/python/decorators.py:8 | without an argument the failure count is three |
| Decorators.SimulatedFailure.Call | common/python/decorators.py:23-32 | the counter goes up by one; the call raises the numbered message exactly while the counter is at most the failure count, and otherwise returns the function's value |
| Decorators.CallOne | common/python/decorators.py:20-21 | calling one wrapper leaves another wrapper's counter and answers unchanged |
| Decorators.FailuresInCount | common/python/decorators.py:25-30 | of the first n calls, exactly min(n, failure count) raise, and none for a non-positive count |
| Decorators.FailuresComeFirst | common/python/decorators.py:27 | the raising calls come first: after a success, every later call succeeds |
| Decorators.HistoryFailures | common/python/decorators.py:23-32 | a wrapper's answers hold exactly min(calls, failure count) failures |
| Decorators.FailureMessagesDistinct | common/python/decorators.py:28-30 | different calls of one wrapper raise different messages |

## Left out

- **The Temporal runtime:** activity execution, retries, timeouts, event history and replay.
  - Activity options are recorded, not enforced.
  - An activity's effect is the value it returns.
  - Activity failures arrive as `Payments.Stop` values chosen by the environment.
- **Concurrency:** asyncio tasks, `asyncio.wait`, Java `Async.function` and
  `CancellationScope`.
  - These are abstracted as `Payments.Race` and `Payments.Interrupt`.
  - Python's loop over the pending tasks is modelled as cancelling the one pending task.
  - `Payments.Race` names the interleavings of the payment and the timer as three cases.
    The order in which callbacks run within one workflow activation is not modelled beyond
    those cases.
- **Ordering of the Java timer callback.** `JavaPaymentWorkflow.ExpirablePaymentWorkflowImpl.ProcessPayment`
  applies the callback (`expired = true` and the cancellation reason) when the timer's
  cancellation reaches the scope. The real callback runs before the interrupted await
  resumes. `processPaymentInternal` reads neither field, so the final state is the same;
  only the interleaving is not modelled.
- **Floating point.** Amounts are exact reals.
  - No double rounding is modelled in `amount * 100` or in the threshold comparisons.
  - Java's `(int)` is modelled as truncation with saturation. Its NaN case is not modelled.
- **Clocks.** `workflow.now()` and `workflow.info().start_time` are integer seconds
  supplied by the environment. `timedelta` arithmetic is integer arithmetic.
  - `Wake.now` is unconstrained: it need not increase from one wake-up to the next, and it
    is not tied to when a timer fires.
  - The model therefore admits more clocks than the runtime can produce. The lemmas that
    hold for every history hold for the real clocks too.
- **Database activities** (`order_notification/activities/database.py`).
  - They are not part of this model.
  - The order details, the vendor preference and the user preference are inputs of
    `OrderWorkflow.Orders.Run`.
  - The order date of `OrderDetails` is not modelled.
- **The leaf notification and customer-notification activities** only log and sleep. They are
  modelled by the call they record.
- **Logging, sleeps, the starters, workers and runners** are not part of this model, nor are
  the Java interfaces' and records' getters.
- **Decorator restrictions.**
  - `*args, **kwargs` is one argument value of a generic type.
  - The wrapped function is modelled as total, so its own exceptions are not modelled.
  - Only `__name__` and `__doc__` are carried over.
- **OrderWorkflow.Orders.Run requires a freshly initialised workflow**, as the runtime runs
  `run` once right after `__init__`.
- **A run that is still suspended** (in the wait loop or in the wait for the pickup) is
  described by where it stands, not by its future.
