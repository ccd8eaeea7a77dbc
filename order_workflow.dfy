/** The order workflow (order_notification/workflows/orders.py).

    The workflow runtime is abstracted as follows. Signals reach the workflow only while it is
    suspended; the signals that arrive at one suspension point are given, in arrival order, as a
    sequence of SignalKind, and each one runs its handler atomically. A wait with a positive
    timeout wakes when, after the signals of its batch, the new-state flag is set; otherwise its
    timer fires. A wait with a timeout of zero or less times out before any signal arrives. The clock is an integer number of seconds supplied at each wake-up. Activities are
    not executed: each notification is recorded as the activity call it makes, and each wait
    records the timeout it was given. */
module OrderWorkflow {
  import opened Wrappers
  import opened OrderSchema
  import opened Notifications

  /** The five signals; each asks for one target state. */
  datatype SignalKind = Accept | Decline | Prepare | Ready | PickUp

  function Target(k: SignalKind): OrderState
  {
    match k
    case Accept => OrderAccepted
    case Decline => OrderDeclined
    case Prepare => OrderPreparation
    case Ready => OrderReady
    case PickUp => OrderPickedUp
  }

  /** The two fields the signal handlers and the wait change. */
  datatype Snapshot = Snapshot(state: OrderState, isNew: bool)

  /** The effect of one signal handler: move to the target and raise the flag when the table
      allows it, otherwise do nothing. */
  function OnSignal(s: Snapshot, k: SignalKind): Snapshot
  {
    if Target(k) in AllowedNextStates(s.state) then Snapshot(Target(k), true) else s
  }

  /** The effect of a batch of signals handled in order. */
  function Deliver(s: Snapshot, signals: seq<SignalKind>): Snapshot
    decreases |signals|
  {
    if signals == [] then s
    else OnSignal(Deliver(s, signals[..|signals| - 1]), signals[|signals| - 1])
  }

  /** The state the expiry handler forces: DECLINED when the table allows it, READY otherwise. */
  function ExpiryFallback(s: OrderState): OrderState
  {
    if OrderDeclined in AllowedNextStates(s) then OrderDeclined else OrderReady
  }

  /** The wait for a new state, given its timeout in seconds. With a positive timeout the batch
      of signals is handled; if none of them raised the flag, the timer fires and the expiry
      fallback applies (leaving the flag alone). A timeout of zero or less times out at once,
      in the activation the wait starts in: no signal arrives, the flag is not consulted, and
      the fallback applies to the state as it stands. */
  function AfterWait(s: Snapshot, timeout: int, signals: seq<SignalKind>): Snapshot
  {
    if timeout <= 0 then Snapshot(ExpiryFallback(s.state), s.isNew)
    else
      var d := Deliver(s, signals);
      if d.isNew then d else Snapshot(ExpiryFallback(d.state), d.isNew)
  }

  /** The time left before the deadline, measured from the workflow's start. */
  function Remaining(expiration: int, now: int, startTime: int): int
  {
    expiration - (now - startTime)
  }

  /** One pass of the wait loop as the environment drives it: the signals that arrive during the
      wait, the clock when the wait ends, and the signals that arrive during the user
      notification that follows. */
  datatype Wake = Wake(signals: seq<SignalKind>, now: int, duringNotification: seq<SignalKind>)

  /** Everything the environment supplies to one run. */
  datatype History = History(
    beforeVendorNotified: seq<SignalKind>,   // while order details and vendor preference are fetched and the vendor is notified
    duringUserPreference: seq<SignalKind>,   // while the user preference is fetched
    wakes: seq<Wake>,                        // one per wake-up of the wait loop
    beforePickup: seq<SignalKind>)           // while waiting, without a timeout, for the pickup

  /** How far a run gets with the history it is given: it returns a final state, or it is still
      suspended in the wait loop, or in the wait for the pickup. */
  datatype RunResult = Returned(state: OrderState) | WaitingInLoop | WaitingForPickup

  /** The values a run reads once at its start. */
  datatype Context = Context(
    orderId: string,
    userId: string,
    vendorId: string,
    vendorChannel: NotificationChannelType,
    userChannel: NotificationChannelType,
    expiration: int,
    startTime: int)

  /** Where a run ends up: its result, the two mutable fields, the recorded activity calls and
      the timeouts given to the waits. */
  datatype Trace = Trace(result: RunResult, snap: Snapshot, calls: seq<ActivityCall>, timers: seq<int>)

  /** The calls one user notification makes. */
  function UserCall(ctx: Context, m: UserNotificationMessageType): seq<ActivityCall>
  {
    NotifyUser(UserNotificationInput(ctx.orderId, ctx.userId, m, Some(ctx.userChannel)))
  }

  /** After ORDER_READY has been announced: wait until the order is picked up, then announce
      ORDER_COMPLETED and return. */
  function PickupSpec(ctx: Context, s: Snapshot, signals: seq<SignalKind>, calls: seq<ActivityCall>, timers: seq<int>): Trace
  {
    var d := Deliver(s, signals);
    if d.state == OrderPickedUp then Trace(Returned(d.state), d, calls + UserCall(ctx, OrderCompletedMessage), timers)
    else Trace(WaitingForPickup, d, calls, timers)
  }

  /** How one pass of the wait loop ends: the loop goes on with the next wait, or the run
      leaves the loop. */
  datatype PassOutcome =
    | Continue(snap: Snapshot, next: int, calls: seq<ActivityCall>, timers: seq<int>)
    | Finished(trace: Trace)

  /** One pass of the wait loop: the wait, then the announcement of the state it ends in.
      ACCEPTED and PREPARATION are announced and the loop goes on with the flag lowered; READY is
      announced and the run waits for the pickup; any other state is announced as canceled and
      returned. */
  function PassSpec(ctx: Context, s: Snapshot, remaining: int, w: Wake, pickup: seq<SignalKind>,
                    calls: seq<ActivityCall>, timers: seq<int>): PassOutcome
  {
    var woke := AfterWait(s, remaining, w.signals);
    var d := Deliver(woke, w.duringNotification);
    var next := Remaining(ctx.expiration, w.now, ctx.startTime);
    var waited := timers + [remaining];
    match woke.state
    case OrderAccepted => Continue(Snapshot(d.state, false), next, calls + UserCall(ctx, OrderAcceptedMessage), waited)
    case OrderPreparation => Continue(Snapshot(d.state, false), next, calls + UserCall(ctx, OrderBeingPreparedMessage), waited)
    case OrderReady => Finished(PickupSpec(ctx, d, pickup, calls + UserCall(ctx, OrderReadyMessage), waited))
    case _ => Finished(Trace(Returned(d.state), d, calls + UserCall(ctx, OrderCanceledMessage), waited))
  }

  /** The wait loop, from a wait about to start with `remaining` seconds on its timer: one pass
      per wake-up until a pass leaves the loop; with no wake-up left, the run is suspended in
      the wait that has just started. */
  function LoopSpec(
    ctx: Context, s: Snapshot, remaining: int, wakes: seq<Wake>, pickup: seq<SignalKind>,
    calls: seq<ActivityCall>, timers: seq<int>): Trace
    decreases |wakes|
  {
    if wakes == [] then Trace(WaitingInLoop, s, calls, timers + [remaining])
    else
      match PassSpec(ctx, s, remaining, wakes[0], pickup, calls, timers)
      case Finished(t) => t
      case Continue(s', next, calls', timers') => LoopSpec(ctx, s', next, wakes[1..], pickup, calls', timers')
  }

  /** The calls the vendor notification of a run makes. */
  function VendorCall(ctx: Context): seq<ActivityCall>
  {
    NotifyVendor(VendorNotificationInput(ctx.orderId, ctx.vendorId, NewOrder, Some(ctx.vendorChannel)))
  }

  /** A whole run of a freshly initialised workflow. */
  function RunSpec(ctx: Context, h: History): Trace
  {
    var placed := Deliver(Snapshot(OrderPlaced, false), h.beforeVendorNotified);
    var notified := Deliver(Snapshot(VendorNotified, placed.isNew), h.duringUserPreference);
    LoopSpec(ctx, notified, ctx.expiration, h.wakes, h.beforePickup, VendorCall(ctx), [])
  }

  // ---------------------------------------------------------------------------------------
  // Properties of the handlers and of the wait.

  /** A signal changes the state exactly when its target is among the allowed next states;
      it then sets the state to the target and raises the flag, and otherwise changes nothing. */
  lemma SignalAppliesExactlyWhenAllowed(s: Snapshot, k: SignalKind)
    ensures OnSignal(s, k).state != s.state <==> CanTransitionTo(s.state, Target(k))
    ensures CanTransitionTo(s.state, Target(k)) ==> OnSignal(s, k) == Snapshot(Target(k), true)
    ensures !CanTransitionTo(s.state, Target(k)) ==> OnSignal(s, k) == s
  {
    if CanTransitionTo(s.state, Target(k)) {
      TransitionsMoveForward(s.state, Target(k));
    }
  }

  /** No signal asks for VENDOR_NOTIFIED. */
  lemma NoSignalTargetsVendorNotified(k: SignalKind)
    ensures Target(k) != VendorNotified && Target(k) != OrderPlaced
  {
  }

  /** While the order is still ORDER_PLACED every signal is a no-op, since that state only
      allows VENDOR_NOTIFIED. */
  lemma {:induction false} SignalsWhilePlacedIgnored(isNew: bool, signals: seq<SignalKind>)
    ensures Deliver(Snapshot(OrderPlaced, isNew), signals) == Snapshot(OrderPlaced, isNew)
    decreases |signals|
  {
    if signals != [] {
      SignalsWhilePlacedIgnored(isNew, signals[..|signals| - 1]);
    }
  }

  /** The flag is raised only together with a state a signal can reach. */
  predicate Coherent(s: Snapshot)
  {
    s.isNew ==> Rank(s.state) >= 2
  }

  /** The states from ACCEPTED onwards, once the order can no longer be declined. */
  predicate OnMainLine(s: OrderState)
  {
    s in {OrderAccepted, OrderPreparation, OrderReady, OrderPickedUp}
  }

  /** Signals only move an order forward along the table: the rank never decreases, the flag is
      never lowered, a raised flag means the state moved, and a terminal state is final. */
  lemma {:induction false} DeliverMovesForward(s: Snapshot, signals: seq<SignalKind>)
    ensures Rank(s.state) <= Rank(Deliver(s, signals).state)
    ensures s.isNew ==> Deliver(s, signals).isNew
    ensures !Deliver(s, signals).isNew ==> Deliver(s, signals) == s
    ensures Deliver(s, signals).isNew && !s.isNew ==> Rank(s.state) < Rank(Deliver(s, signals).state)
    ensures Coherent(s) ==> Coherent(Deliver(s, signals))
    ensures OnMainLine(s.state) ==> OnMainLine(Deliver(s, signals).state)
    ensures IsTerminalState(s.state) ==> Deliver(s, signals) == s
    decreases |signals|
  {
    if signals != [] {
      var p := Deliver(s, signals[..|signals| - 1]);
      DeliverMovesForward(s, signals[..|signals| - 1]);
      var k := signals[|signals| - 1];
      if CanTransitionTo(p.state, Target(k)) {
        TransitionsMoveForward(p.state, Target(k));
      }
    }
  }

  /** A wait with a positive timeout ends either because a signal raised the flag, with the
      state it reached, or by expiry, which leaves the flag down and forces DECLINED (only
      possible from VENDOR_NOTIFIED) or READY, bypassing the table: from ACCEPTED it jumps to
      READY, and from PICKED_UP it even moves back to READY. A wait with a timeout of zero or
      less ignores its batch and the flag and forces the same fallback on the state it starts
      in, leaving the flag as it was. */
  lemma WaitOutcome(s: Snapshot, timeout: int, signals: seq<SignalKind>)
    ensures timeout > 0 ==> (AfterWait(s, timeout, signals).isNew <==> Deliver(s, signals).isNew)
    ensures timeout > 0 && AfterWait(s, timeout, signals).isNew ==> AfterWait(s, timeout, signals) == Deliver(s, signals)
    ensures timeout > 0 && !AfterWait(s, timeout, signals).isNew ==>
      AfterWait(s, timeout, signals).state == (if Deliver(s, signals).state == VendorNotified then OrderDeclined else OrderReady)
    ensures timeout <= 0 ==>
      AfterWait(s, timeout, signals) == Snapshot(if s.state == VendorNotified then OrderDeclined else OrderReady, s.isNew)
    ensures ExpiryFallback(OrderAccepted) == OrderReady && !CanTransitionTo(OrderAccepted, OrderReady)
    ensures ExpiryFallback(OrderPickedUp) == OrderReady && Rank(OrderReady) < Rank(OrderPickedUp)
  {
  }

  /** A wait started with a coherent flag ends in a state past VENDOR_NOTIFIED, with a coherent
      flag. */
  lemma WaitEndsPastVendorNotified(s: Snapshot, timeout: int, signals: seq<SignalKind>)
    requires Coherent(s)
    ensures Rank(AfterWait(s, timeout, signals).state) >= 2
    ensures Coherent(AfterWait(s, timeout, signals))
  {
    DeliverMovesForward(s, signals);
  }

  // ---------------------------------------------------------------------------------------
  // The workflow object.

  class Orders {
    var orderState: OrderState
    var orderStartTime: int
    var isNewState: bool
    var orderExpirationTime: int
    /** The notification activity calls made so far. */
    var activities: seq<ActivityCall>
    /** The timeout given to each wait of the loop, in order. */
    var timers: seq<int>

    function Snap(): Snapshot
      reads this
    {
      Snapshot(orderState, isNewState)
    }

    /** A new order starts in ORDER_PLACED, with the flag down and the expiration taken from
        the input; `now` is the workflow clock at initialisation. */
    constructor (arg: OrderWorkflowInput, now: int)
      ensures orderState == OrderPlaced && !isNewState
      ensures orderStartTime == now && orderExpirationTime == arg.expirationTime
      ensures activities == [] && timers == []
    {
      orderState := OrderPlaced;
      orderStartTime := now;
      isNewState := false;
      orderExpirationTime := arg.expirationTime;
      activities := [];
      timers := [];
    }

    method AcceptOrder()
      modifies this`orderState, this`isNewState
      ensures Snap() == OnSignal(old(Snap()), Accept)
    {
      if OrderAccepted in AllowedNextStates(orderState) {
        orderState := OrderAccepted;
        isNewState := true;
      }
    }

    method DeclineOrder()
      modifies this`orderState, this`isNewState
      ensures Snap() == OnSignal(old(Snap()), Decline)
    {
      if OrderDeclined in AllowedNextStates(orderState) {
        orderState := OrderDeclined;
        isNewState := true;
      }
    }

    method PrepareOrder()
      modifies this`orderState, this`isNewState
      ensures Snap() == OnSignal(old(Snap()), Prepare)
    {
      if OrderPreparation in AllowedNextStates(orderState) {
        orderState := OrderPreparation;
        isNewState := true;
      }
    }

    method ReadyOrder()
      modifies this`orderState, this`isNewState
      ensures Snap() == OnSignal(old(Snap()), Ready)
    {
      if OrderReady in AllowedNextStates(orderState) {
        orderState := OrderReady;
        isNewState := true;
      }
    }

    method PickUpOrder()
      modifies this`orderState, this`isNewState
      ensures Snap() == OnSignal(old(Snap()), PickUp)
    {
      if OrderPickedUp in AllowedNextStates(orderState) {
        orderState := OrderPickedUp;
        isNewState := true;
      }
    }

    /** The query reads the state and changes nothing. */
    method QueryOrderState() returns (s: OrderState)
      ensures s == orderState
    {
      s := orderState;
    }

    /** The runtime running the handler of one signal. */
    method HandleSignal(k: SignalKind)
      modifies this`orderState, this`isNewState
      ensures Snap() == OnSignal(old(Snap()), k)
    {
      match k
      case Accept => AcceptOrder();
      case Decline => DeclineOrder();
      case Prepare => PrepareOrder();
      case Ready => ReadyOrder();
      case PickUp => PickUpOrder();
    }

    /** A suspension point: the signals that arrive meanwhile are handled in order. */
    method Suspend(signals: seq<SignalKind>)
      modifies this`orderState, this`isNewState
      ensures Snap() == Deliver(old(Snap()), signals)
    {
      var i := 0;
      while i < |signals|
        invariant 0 <= i <= |signals|
        invariant Snap() == Deliver(old(Snap()), signals[..i])
      {
        assert signals[..i + 1][..i] == signals[..i];
        HandleSignal(signals[i]);
        i := i + 1;
      }
      assert signals[..i] == signals;
    }

    /** Wait, at most `expirationTime` seconds, for a new state; on expiry decline the order if
        that is allowed and otherwise force READY. A timeout of zero or less expires at once,
        before any signal arrives. The result is the time left before the deadline counted from
        `startTime`, whatever the timeout was. */
    method WaitWithExpiration(signals: seq<SignalKind>, now: int, startTime: int, expirationTime: int)
      returns (remaining: int)
      modifies this`orderState, this`isNewState, this`timers
      ensures timers == old(timers) + [expirationTime]
      ensures Snap() == AfterWait(old(Snap()), expirationTime, signals)
      ensures remaining == orderExpirationTime - (now - startTime)
    {
      timers := timers + [expirationTime];
      var expired := true;
      if expirationTime > 0 {
        Suspend(signals);
        expired := !isNewState;
      }
      if expired {
        if OrderDeclined in AllowedNextStates(orderState) {
          orderState := OrderDeclined;
        } else {
          orderState := OrderReady;
        }
      }
      remaining := orderExpirationTime - (now - startTime);
    }

    /** The workflow's run: notify the vendor, then announce each new state to the user until
        the order is declined, expires or is picked up. `startTime` is the workflow's start time
        as the runtime reports it. */
    method Run(
      arg: OrderWorkflowInput, details: OrderDetails, vendorPreference: VendorPreference,
      userPreference: UserPreference, startTime: int, h: History)
      returns (r: RunResult)
      requires Snap() == Snapshot(OrderPlaced, false) && activities == [] && timers == []
      modifies this`orderState, this`isNewState, this`activities, this`timers
      ensures Trace(r, Snap(), activities, timers) ==
        RunSpec(Context(arg.orderId, details.userId, details.vendorId, vendorPreference.notificationPreference,
                        userPreference.notificationPreference, orderExpirationTime, startTime), h)
    {
      var ctx := Context(arg.orderId, details.userId, details.vendorId, vendorPreference.notificationPreference,
                         userPreference.notificationPreference, orderExpirationTime, startTime);
      // Steps 1 to 3: the order details and the vendor preference are inputs; the vendor is
      // notified of the new order.
      Suspend(h.beforeVendorNotified);
      activities := activities + VendorCall(ctx);
      orderState := VendorNotified;
      // Step 4: the user preference is an input.
      Suspend(h.duringUserPreference);
      assert activities == VendorCall(ctx) && timers == [];
      // Steps 5 and 6.
      r := WaitLoop(ctx, h.wakes, h.beforePickup);
    }

    /** The wait loop (step 5) and the wait for the pickup (step 6) of a run, from the first
        wait on. */
    method WaitLoop(ctx: Context, wakes: seq<Wake>, pickup: seq<SignalKind>) returns (r: RunResult)
      requires ctx.expiration == orderExpirationTime
      modifies this`orderState, this`isNewState, this`activities, this`timers
      ensures Trace(r, Snap(), activities, timers) ==
        LoopSpec(ctx, old(Snap()), orderExpirationTime, wakes, pickup, old(activities), old(timers))
    {
      ghost var goal := LoopSpec(ctx, Snap(), orderExpirationTime, wakes, pickup, activities, timers);
      var remaining := orderExpirationTime;
      var i := 0;
      while i < |wakes|
        invariant 0 <= i <= |wakes|
        invariant LoopSpec(ctx, Snap(), remaining, wakes[i..], pickup, activities, timers) == goal
      {
        assert wakes[i..][0] == wakes[i] && wakes[i..][1..] == wakes[i + 1..];
        var done;
        done, r, remaining := Pass(ctx, wakes[i], pickup, remaining);
        if done {
          return;
        }
        i := i + 1;
      }
      // The next wait has started and nothing has woken it yet.
      timers := timers + [remaining];
      r := WaitingInLoop;
    }

    /** One pass of the wait loop: wait for a new state or the deadline, then announce the state
        the order is in. `done` says whether the run left the loop, with result `r`; otherwise
        the next wait gets `next` seconds. */
    method Pass(ctx: Context, w: Wake, pickup: seq<SignalKind>, remaining: int)
      returns (done: bool, r: RunResult, next: int)
      requires ctx.expiration == orderExpirationTime
      modifies this`orderState, this`isNewState, this`activities, this`timers
      ensures PassSpec(ctx, old(Snap()), remaining, w, pickup, old(activities), old(timers)) ==
        if done then Finished(Trace(r, Snap(), activities, timers)) else Continue(Snap(), next, activities, timers)
    {
      next := WaitWithExpiration(w.signals, w.now, ctx.startTime, remaining);
      match orderState {
        case OrderAccepted =>
          activities := activities + UserCall(ctx, OrderAcceptedMessage);
          Suspend(w.duringNotification);
          isNewState := false;
          done, r := false, WaitingInLoop;
        case OrderPreparation =>
          activities := activities + UserCall(ctx, OrderBeingPreparedMessage);
          Suspend(w.duringNotification);
          isNewState := false;
          done, r := false, WaitingInLoop;
        case OrderReady =>
          activities := activities + UserCall(ctx, OrderReadyMessage);
          Suspend(w.duringNotification);
          r := AwaitPickup(ctx, pickup);
          done := true;
        case _ =>
          activities := activities + UserCall(ctx, OrderCanceledMessage);
          Suspend(w.duringNotification);
          done, r := true, Returned(orderState);
      }
    }

    /** Step 6: wait, without a timeout, for the order to be picked up, then announce
        ORDER_COMPLETED and return the state. */
    method AwaitPickup(ctx: Context, pickup: seq<SignalKind>) returns (r: RunResult)
      modifies this`orderState, this`isNewState, this`activities
      ensures Trace(r, Snap(), activities, timers) == PickupSpec(ctx, old(Snap()), pickup, old(activities), timers)
    {
      Suspend(pickup);
      if orderState == OrderPickedUp {
        activities := activities + UserCall(ctx, OrderCompletedMessage);
        r := Returned(orderState);
      } else {
        r := WaitingForPickup;
      }
    }
  }
}
