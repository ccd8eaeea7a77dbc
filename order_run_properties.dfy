/** What every run of the order workflow does, proved about the run's specification RunSpec
    (which Orders.Run is proved to follow), and the scenarios the workflow is designed for. */
module OrderRunProperties {
  import opened Wrappers
  import opened OrderSchema
  import opened Notifications
  import opened OrderWorkflow

  /** The lifecycle position of a user message. ORDER_CANCELED and ORDER_COMPLETED share the
      last position: a run sends at most one of them. */
  function MessageRank(m: UserNotificationMessageType): nat
  {
    match m
    case OrderAcceptedMessage => 2
    case OrderBeingPreparedMessage => 3
    case OrderReadyMessage => 4
    case OrderCanceledMessage => 5
    case OrderCompletedMessage => 5
  }

  /** Strictly increasing lifecycle positions: no message twice, never a step back, and
      nothing after ORDER_CANCELED or ORDER_COMPLETED. */
  predicate InLifecycleOrder(ms: seq<UserNotificationMessageType>)
  {
    forall i, j :: 0 <= i < j < |ms| ==> MessageRank(ms[i]) < MessageRank(ms[j])
  }

  lemma AppendInOrder(ms: seq<UserNotificationMessageType>, m: UserNotificationMessageType)
    requires InLifecycleOrder(ms)
    requires ms == [] || MessageRank(ms[|ms| - 1]) < MessageRank(m)
    ensures InLifecycleOrder(ms + [m])
  {
    var ms' := ms + [m];
    forall i, j | 0 <= i < j < |ms'| ensures MessageRank(ms'[i]) < MessageRank(ms'[j]) {
      if j == |ms| && i < |ms| - 1 {
        assert MessageRank(ms[i]) < MessageRank(ms[|ms| - 1]);
      }
    }
  }

  /** In lifecycle order, the k-th message has at least position k + 1. */
  lemma {:induction false} LastPositionBound(ms: seq<UserNotificationMessageType>)
    requires InLifecycleOrder(ms)
    ensures ms != [] ==> MessageRank(ms[|ms| - 1]) >= |ms| + 1
    decreases |ms|
  {
    if |ms| > 1 {
      var p := ms[..|ms| - 1];
      assert forall i, j :: 0 <= i < j < |p| ==> p[i] == ms[i] && p[j] == ms[j];
      LastPositionBound(p);
      assert MessageRank(ms[|ms| - 2]) < MessageRank(ms[|ms| - 1]);
    }
  }

  /** Messages sent while the loop keeps waiting are among ORDER_ACCEPTED and
      ORDER_BEING_PREPARED, so there are at most two. */
  lemma AtMostTwoWhileWaiting(ms: seq<UserNotificationMessageType>)
    requires InLifecycleOrder(ms)
    requires ms != [] ==> MessageRank(ms[|ms| - 1]) <= 3
    ensures |ms| <= 2
  {
    LastPositionBound(ms);
  }

  lemma UserCallMessages(ctx: Context, calls: seq<ActivityCall>, m: UserNotificationMessageType)
    ensures UserMessages(calls + UserCall(ctx, m)) == UserMessages(calls) + [m]
  {
    UserMessagesAppend(calls, UserCall(ctx, m));
    UserMessagesOfNotifications(UserNotificationInput(ctx.orderId, ctx.userId, m, Some(ctx.userChannel)),
                                VendorNotificationInput(ctx.orderId, ctx.vendorId, NewOrder, Some(ctx.vendorChannel)));
  }

  /** What holds at each start of a wait in the loop: one message per finished wait, in
      lifecycle order, and after the first pass the order is past VENDOR_NOTIFIED, at least as
      far as the last message says, with the flag down. */
  predicate LoopEntry(s: Snapshot, calls: seq<ActivityCall>, timers: seq<int>)
  {
    var ms := UserMessages(calls);
    && Coherent(s)
    && InLifecycleOrder(ms)
    && |ms| == |timers|
    && (ms != [] ==>
          && !s.isNew
          && OnMainLine(s.state)
          && MessageRank(ms[|ms| - 1]) <= Rank(s.state)
          && MessageRank(ms[|ms| - 1]) <= 3)
  }

  /** The fixed set of ways a run can stand. */
  predicate ProperEnding(t: Trace)
  {
    var ms := UserMessages(t.calls);
    && InLifecycleOrder(ms)
    && |t.timers| <= 3
    && (t.result.Returned? ==>
          && t.result.state == t.snap.state
          && IsTerminalState(t.result.state)
          && ms != []
          && (ms[|ms| - 1] == OrderCanceledMessage || ms[|ms| - 1] == OrderCompletedMessage))
    && (t.result == Returned(OrderDeclined) ==> ms[|ms| - 1] == OrderCanceledMessage)
    && (ms != [] && ms[|ms| - 1] == OrderCompletedMessage ==> t.result == Returned(OrderPickedUp))
    && (t.result == WaitingForPickup ==> ms != [] && ms[|ms| - 1] == OrderReadyMessage && t.snap.state != OrderPickedUp)
  }

  // ---------------------------------------------------------------------------------------
  // One pass.

  /** A pass appends one timer, the one it was given, and only appends to the calls; when the
      loop goes on, the next timer is the time left before the deadline at the wake-up. */
  lemma PassAppends(ctx: Context, s: Snapshot, remaining: int, w: Wake, pickup: seq<SignalKind>,
                    calls: seq<ActivityCall>, timers: seq<int>)
    ensures match PassSpec(ctx, s, remaining, w, pickup, calls, timers)
      case Continue(_, next, calls', timers') =>
        && timers' == timers + [remaining]
        && next == Remaining(ctx.expiration, w.now, ctx.startTime)
        && |calls| <= |calls'| && calls'[..|calls|] == calls
      case Finished(t) =>
        && t.timers == timers + [remaining]
        && |calls| <= |t.calls| && t.calls[..|calls|] == calls
  {
    var c := calls + UserCall(ctx, OrderReadyMessage);
    assert (c + UserCall(ctx, OrderCompletedMessage))[..|calls|] == calls;
  }

  /** After a wake-up that ends in ACCEPTED or PREPARATION, the announcement and the lowered
      flag restore the loop invariant for the next wait. */
  lemma ContinueEntry(
    ctx: Context, s: Snapshot, signals: seq<SignalKind>, during: seq<SignalKind>,
    calls: seq<ActivityCall>, timers: seq<int>, remaining: int, m: UserNotificationMessageType)
    requires LoopEntry(s, calls, timers)
    requires || (m == OrderAcceptedMessage && AfterWait(s, remaining, signals).state == OrderAccepted)
             || (m == OrderBeingPreparedMessage && AfterWait(s, remaining, signals).state == OrderPreparation)
    ensures LoopEntry(Snapshot(Deliver(AfterWait(s, remaining, signals), during).state, false),
                      calls + UserCall(ctx, m), timers + [remaining])
  {
    var ms := UserMessages(calls);
    DeliverMovesForward(s, signals);
    var woke := AfterWait(s, remaining, signals);
    DeliverMovesForward(woke, during);
    UserCallMessages(ctx, calls, m);
    if ms != [] {
      assert MessageRank(ms[|ms| - 1]) < MessageRank(m);
    }
    AppendInOrder(ms, m);
  }

  /** The wait for the pickup, entered right after ORDER_READY, ends properly. */
  lemma PickupEnding(ctx: Context, e: Snapshot, pickup: seq<SignalKind>, calls: seq<ActivityCall>, timers: seq<int>)
    requires InLifecycleOrder(UserMessages(calls))
    requires UserMessages(calls) != [] && UserMessages(calls)[|UserMessages(calls)| - 1] == OrderReadyMessage
    requires |timers| <= 3
    ensures ProperEnding(PickupSpec(ctx, e, pickup, calls, timers))
  {
    var p := Deliver(e, pickup);
    if p.state == OrderPickedUp {
      UserCallMessages(ctx, calls, OrderCompletedMessage);
      AppendInOrder(UserMessages(calls), OrderCompletedMessage);
      assert PickupSpec(ctx, e, pickup, calls, timers) == Trace(Returned(OrderPickedUp), p, calls + UserCall(ctx, OrderCompletedMessage), timers);
    } else {
      assert PickupSpec(ctx, e, pickup, calls, timers) == Trace(WaitingForPickup, p, calls, timers);
    }
  }

  /** Announcing ORDER_READY keeps the messages in order, which the pickup wait relies on. */
  lemma ReadyEnding(ctx: Context, e: Snapshot, pickup: seq<SignalKind>, calls: seq<ActivityCall>, timers: seq<int>)
    requires InLifecycleOrder(UserMessages(calls)) && |UserMessages(calls)| <= 2 && |timers| <= 3
    requires UserMessages(calls) != [] ==> MessageRank(UserMessages(calls)[|UserMessages(calls)| - 1]) <= 3
    ensures ProperEnding(PickupSpec(ctx, e, pickup, calls + UserCall(ctx, OrderReadyMessage), timers))
  {
    UserCallMessages(ctx, calls, OrderReadyMessage);
    AppendInOrder(UserMessages(calls), OrderReadyMessage);
    PickupEnding(ctx, e, pickup, calls + UserCall(ctx, OrderReadyMessage), timers);
  }

  /** Returning a terminal state after ORDER_CANCELED, with at most two messages before it, is a
      proper ending. */
  lemma CanceledEnding(ctx: Context, d: Snapshot, calls: seq<ActivityCall>, timers: seq<int>)
    requires IsTerminalState(d.state)
    requires InLifecycleOrder(UserMessages(calls)) && |UserMessages(calls)| <= 2 && |timers| <= 3
    requires UserMessages(calls) != [] ==> MessageRank(UserMessages(calls)[|UserMessages(calls)| - 1]) <= 3
    ensures ProperEnding(Trace(Returned(d.state), d, calls + UserCall(ctx, OrderCanceledMessage), timers))
  {
    UserCallMessages(ctx, calls, OrderCanceledMessage);
    AppendInOrder(UserMessages(calls), OrderCanceledMessage);
  }

  /** A pass woken in ACCEPTED or PREPARATION announces it and goes on in the loop invariant. */
  lemma AnnouncingPass(ctx: Context, s: Snapshot, remaining: int, w: Wake, pickup: seq<SignalKind>,
                       calls: seq<ActivityCall>, timers: seq<int>, m: UserNotificationMessageType)
    requires LoopEntry(s, calls, timers)
    requires || (m == OrderAcceptedMessage && AfterWait(s, remaining, w.signals).state == OrderAccepted)
             || (m == OrderBeingPreparedMessage && AfterWait(s, remaining, w.signals).state == OrderPreparation)
    ensures var o := PassSpec(ctx, s, remaining, w, pickup, calls, timers);
      o.Continue? && LoopEntry(o.snap, o.calls, o.timers)
  {
    var woke := AfterWait(s, remaining, w.signals);
    assert PassSpec(ctx, s, remaining, w, pickup, calls, timers)
        == Continue(Snapshot(Deliver(woke, w.duringNotification).state, false), Remaining(ctx.expiration, w.now, ctx.startTime),
                    calls + UserCall(ctx, m), timers + [remaining]);
    ContinueEntry(ctx, s, w.signals, w.duringNotification, calls, timers, remaining, m);
  }

  /** A pass woken in READY announces it and ends in the wait for the pickup. */
  lemma ReadyPass(ctx: Context, s: Snapshot, remaining: int, w: Wake, pickup: seq<SignalKind>,
                  calls: seq<ActivityCall>, timers: seq<int>)
    requires LoopEntry(s, calls, timers)
    requires AfterWait(s, remaining, w.signals).state == OrderReady
    ensures var o := PassSpec(ctx, s, remaining, w, pickup, calls, timers);
      o.Finished? && ProperEnding(o.trace)
  {
    AtMostTwoWhileWaiting(UserMessages(calls));
    var d := Deliver(AfterWait(s, remaining, w.signals), w.duringNotification);
    assert PassSpec(ctx, s, remaining, w, pickup, calls, timers)
        == Finished(PickupSpec(ctx, d, pickup, calls + UserCall(ctx, OrderReadyMessage), timers + [remaining]));
    ReadyEnding(ctx, d, pickup, calls, timers + [remaining]);
  }

  /** A pass woken in any other state, which is then DECLINED or PICKED_UP, announces
      ORDER_CANCELED and returns that state. */
  lemma CancelingPass(ctx: Context, s: Snapshot, remaining: int, w: Wake, pickup: seq<SignalKind>,
                      calls: seq<ActivityCall>, timers: seq<int>)
    requires LoopEntry(s, calls, timers)
    requires AfterWait(s, remaining, w.signals).state !in {OrderAccepted, OrderPreparation, OrderReady}
    ensures var o := PassSpec(ctx, s, remaining, w, pickup, calls, timers);
      o.Finished? && ProperEnding(o.trace)
  {
    AtMostTwoWhileWaiting(UserMessages(calls));
    var woke := AfterWait(s, remaining, w.signals);
    WaitEndsPastVendorNotified(s, remaining, w.signals);
    assert IsTerminalState(woke.state);
    DeliverMovesForward(woke, w.duringNotification);
    assert PassSpec(ctx, s, remaining, w, pickup, calls, timers)
        == Finished(Trace(Returned(woke.state), woke, calls + UserCall(ctx, OrderCanceledMessage), timers + [remaining]));
    CanceledEnding(ctx, woke, calls, timers + [remaining]);
  }

  /** A pass started in the loop invariant either restores it for the next wait or ends the
      run properly. */
  lemma PassPreserves(ctx: Context, s: Snapshot, remaining: int, w: Wake, pickup: seq<SignalKind>,
                      calls: seq<ActivityCall>, timers: seq<int>)
    requires LoopEntry(s, calls, timers)
    ensures var o := PassSpec(ctx, s, remaining, w, pickup, calls, timers);
      && (o.Continue? ==> LoopEntry(o.snap, o.calls, o.timers))
      && (o.Finished? ==> ProperEnding(o.trace))
  {
    var st := AfterWait(s, remaining, w.signals).state;
    if st == OrderAccepted {
      AnnouncingPass(ctx, s, remaining, w, pickup, calls, timers, OrderAcceptedMessage);
    } else if st == OrderPreparation {
      AnnouncingPass(ctx, s, remaining, w, pickup, calls, timers, OrderBeingPreparedMessage);
    } else if st == OrderReady {
      ReadyPass(ctx, s, remaining, w, pickup, calls, timers);
    } else {
      CancelingPass(ctx, s, remaining, w, pickup, calls, timers);
    }
  }

  // ---------------------------------------------------------------------------------------
  // The loop.

  /** The loop invariant yields a proper ending. */
  lemma {:induction false} LoopOutcomes(
    ctx: Context, s: Snapshot, remaining: int, wakes: seq<Wake>, pickup: seq<SignalKind>,
    calls: seq<ActivityCall>, timers: seq<int>)
    requires LoopEntry(s, calls, timers)
    ensures ProperEnding(LoopSpec(ctx, s, remaining, wakes, pickup, calls, timers))
    decreases |wakes|
  {
    AtMostTwoWhileWaiting(UserMessages(calls));
    if wakes != [] {
      var o := PassSpec(ctx, s, remaining, wakes[0], pickup, calls, timers);
      PassPreserves(ctx, s, remaining, wakes[0], pickup, calls, timers);
      PassAppends(ctx, s, remaining, wakes[0], pickup, calls, timers);
      if o.Continue? {
        LoopOutcomes(ctx, o.snap, o.next, wakes[1..], pickup, o.calls, o.timers);
        assert LoopSpec(ctx, s, remaining, wakes, pickup, calls, timers)
            == LoopSpec(ctx, o.snap, o.next, wakes[1..], pickup, o.calls, o.timers);
      } else {
        assert LoopSpec(ctx, s, remaining, wakes, pickup, calls, timers) == o.trace;
      }
    }
  }

  /** What the loop does to the calls and the timers: it appends to both; the first timer it
      adds is the one it starts with, and every later one is the time left before the deadline
      when the previous wait ended. A loop still waiting has used every wake-up. */
  predicate AppendsTimers(ctx: Context, remaining: int, wakes: seq<Wake>, calls: seq<ActivityCall>, timers: seq<int>, t: Trace)
  {
    && |timers| < |t.timers| <= |timers| + |wakes| + 1
    && (t.result == WaitingInLoop ==> |t.timers| == |timers| + |wakes| + 1)
    && t.timers[..|timers|] == timers
    && t.timers[|timers|] == remaining
    && (forall k :: |timers| < k < |t.timers| ==>
          t.timers[k] == Remaining(ctx.expiration, wakes[k - |timers| - 1].now, ctx.startTime))
    && |calls| <= |t.calls|
    && t.calls[..|calls|] == calls
  }

  lemma {:induction false} LoopTimers(
    ctx: Context, s: Snapshot, remaining: int, wakes: seq<Wake>, pickup: seq<SignalKind>,
    calls: seq<ActivityCall>, timers: seq<int>)
    ensures AppendsTimers(ctx, remaining, wakes, calls, timers, LoopSpec(ctx, s, remaining, wakes, pickup, calls, timers))
    decreases |wakes|
  {
    if wakes != [] {
      var o := PassSpec(ctx, s, remaining, wakes[0], pickup, calls, timers);
      PassAppends(ctx, s, remaining, wakes[0], pickup, calls, timers);
      if o.Continue? {
        LoopTimers(ctx, o.snap, o.next, wakes[1..], pickup, o.calls, o.timers);
        var t := LoopSpec(ctx, o.snap, o.next, wakes[1..], pickup, o.calls, o.timers);
        assert LoopSpec(ctx, s, remaining, wakes, pickup, calls, timers) == t;
        ContinueTimers(ctx, remaining, wakes, calls, timers, o.next, o.calls, o.timers, t);
      } else {
        assert LoopSpec(ctx, s, remaining, wakes, pickup, calls, timers) == o.trace;
      }
    }
  }

  /** One pass that goes on, followed by the rest of the loop, appends as the whole loop does. */
  lemma ContinueTimers(ctx: Context, remaining: int, wakes: seq<Wake>, calls: seq<ActivityCall>, timers: seq<int>,
                       next: int, calls': seq<ActivityCall>, waited: seq<int>, t: Trace)
    requires wakes != []
    requires waited == timers + [remaining] && next == Remaining(ctx.expiration, wakes[0].now, ctx.startTime)
    requires |calls| <= |calls'| && calls'[..|calls|] == calls
    requires AppendsTimers(ctx, next, wakes[1..], calls', waited, t)
    ensures AppendsTimers(ctx, remaining, wakes, calls, timers, t)
  {
    assert t.timers[..|timers|] == t.timers[..|waited|][..|timers|];
    assert t.calls[..|calls|] == t.calls[..|calls'|][..|calls|];
    forall k | |timers| < k < |t.timers|
      ensures t.timers[k] == Remaining(ctx.expiration, wakes[k - |timers| - 1].now, ctx.startTime)
    {
      if k > |waited| {
        assert wakes[1..][k - |waited| - 1] == wakes[k - |timers| - 1];
      }
    }
  }

  // ---------------------------------------------------------------------------------------
  // Whole runs.

  /** The first wait of every run starts in the loop invariant. */
  lemma RunLoopEntry(ctx: Context, h: History)
    ensures ProperEnding(RunSpec(ctx, h))
  {
    SignalsWhilePlacedIgnored(false, h.beforeVendorNotified);
    DeliverMovesForward(Snapshot(VendorNotified, false), h.duringUserPreference);
    UserMessagesOfNotifications(UserNotificationInput(ctx.orderId, ctx.userId, OrderAcceptedMessage, None),
                                VendorNotificationInput(ctx.orderId, ctx.vendorId, NewOrder, Some(ctx.vendorChannel)));
    var s := Deliver(Snapshot(VendorNotified, false), h.duringUserPreference);
    LoopOutcomes(ctx, s, ctx.expiration, h.wakes, h.beforePickup, VendorCall(ctx), []);
  }

  /** Every run that returns, returns its current state, which is DECLINED or PICKED_UP, right
      after a final ORDER_CANCELED or ORDER_COMPLETED; a declined order always ends with
      ORDER_CANCELED; ORDER_COMPLETED is sent only by a run that returns PICKED_UP; and a run
      blocked in the wait for the pickup has announced ORDER_READY last. */
  lemma RunEndings(ctx: Context, h: History)
    ensures var t := RunSpec(ctx, h); var ms := UserMessages(t.calls);
      && (t.result.Returned? ==>
            && t.result.state == t.snap.state
            && (t.result.state == OrderDeclined || t.result.state == OrderPickedUp)
            && ms != []
            && (ms[|ms| - 1] == OrderCanceledMessage || ms[|ms| - 1] == OrderCompletedMessage))
      && (t.result == Returned(OrderDeclined) ==> ms[|ms| - 1] == OrderCanceledMessage)
      && (ms != [] && ms[|ms| - 1] == OrderCompletedMessage ==> t.result == Returned(OrderPickedUp))
      && (t.result == WaitingForPickup ==> ms != [] && ms[|ms| - 1] == OrderReadyMessage && t.snap.state != OrderPickedUp)
  {
    RunLoopEntry(ctx, h);
  }

  /** The user hears of each stage at most once and in lifecycle order: ORDER_ACCEPTED,
      ORDER_BEING_PREPARED, ORDER_READY, then one of ORDER_CANCELED or ORDER_COMPLETED, each
      possibly skipped. */
  lemma UserMessagesInLifecycleOrder(ctx: Context, h: History)
    ensures InLifecycleOrder(UserMessages(RunSpec(ctx, h).calls))
    ensures |UserMessages(RunSpec(ctx, h).calls)| <= 4
  {
    RunLoopEntry(ctx, h);
    LastPositionBound(UserMessages(RunSpec(ctx, h).calls));
  }

  /** The wait loop cannot keep waiting beyond its third wake-up: a run starts at most three
      waits with a timeout. */
  lemma AtMostThreeWaits(ctx: Context, h: History)
    ensures |RunSpec(ctx, h).timers| <= 3
    ensures |h.wakes| >= 3 ==> RunSpec(ctx, h).result != WaitingInLoop
  {
    RunLoopEntry(ctx, h);
    var placed := Deliver(Snapshot(OrderPlaced, false), h.beforeVendorNotified);
    var notified := Deliver(Snapshot(VendorNotified, placed.isNew), h.duringUserPreference);
    LoopTimers(ctx, notified, ctx.expiration, h.wakes, h.beforePickup, VendorCall(ctx), []);
  }

  /** The deadline is absolute: the first wait gets the whole expiration time, and each later
      wait gets the expiration time minus the time elapsed since the workflow started, as read
      when the previous wait ended; it is never reset per pass. */
  lemma DeadlineIsAbsolute(ctx: Context, h: History)
    ensures var t := RunSpec(ctx, h);
      && 0 < |t.timers| <= |h.wakes| + 1
      && t.timers[0] == ctx.expiration
      && forall k :: 0 <= k < |t.timers| - 1 ==> t.timers[k + 1] == ctx.expiration - (h.wakes[k].now - ctx.startTime)
  {
    var placed := Deliver(Snapshot(OrderPlaced, false), h.beforeVendorNotified);
    var notified := Deliver(Snapshot(VendorNotified, placed.isNew), h.duringUserPreference);
    LoopTimers(ctx, notified, ctx.expiration, h.wakes, h.beforePickup, VendorCall(ctx), []);
  }

  /** The first thing a run does is one NEW_ORDER notification to the vendor on the vendor's
      channel; every later call comes after it. */
  lemma VendorNotifiedFirst(ctx: Context, h: History)
    ensures var t := RunSpec(ctx, h);
      && |t.calls| > 0
      && t.calls[0] == ActivityCall(
           if ctx.vendorChannel == PUSH then NotifyVendorPush else NotifyVendorSms,
           ToVendor(VendorNotificationInput(ctx.orderId, ctx.vendorId, NewOrder, Some(ctx.vendorChannel))),
           NotificationOptions)
  {
    var placed := Deliver(Snapshot(OrderPlaced, false), h.beforeVendorNotified);
    var notified := Deliver(Snapshot(VendorNotified, placed.isNew), h.duringUserPreference);
    LoopTimers(ctx, notified, ctx.expiration, h.wakes, h.beforePickup, VendorCall(ctx), []);
    var t := RunSpec(ctx, h);
    assert t.calls[..1] == VendorCall(ctx);
  }

  /** Signals that arrive before the vendor has been notified have no effect on the run. */
  lemma SignalsBeforeVendorNotifiedIgnored(ctx: Context, h: History)
    ensures RunSpec(ctx, h) == RunSpec(ctx, h.(beforeVendorNotified := []))
  {
    SignalsWhilePlacedIgnored(false, h.beforeVendorNotified);
  }

  // ---------------------------------------------------------------------------------------
  // Scenarios.

  lemma DeliverOne(s: Snapshot, k: SignalKind)
    ensures Deliver(s, [k]) == OnSignal(s, k)
  {
    assert [k][..0] == [];
  }

  /** A run whose prologue sees no signals starts its loop in VENDOR_NOTIFIED with the flag
      down, with only the vendor notification recorded, and with no user message so far. */
  lemma QuietPrologue(ctx: Context, wakes: seq<Wake>, pickup: seq<SignalKind>)
    ensures RunSpec(ctx, History([], [], wakes, pickup))
         == LoopSpec(ctx, Snapshot(VendorNotified, false), ctx.expiration, wakes, pickup, VendorCall(ctx), [])
    ensures UserMessages(VendorCall(ctx)) == []
  {
    UserMessagesOfNotifications(UserNotificationInput(ctx.orderId, ctx.userId, OrderAcceptedMessage, None),
                                VendorNotificationInput(ctx.orderId, ctx.vendorId, NewOrder, Some(ctx.vendorChannel)));
  }

  /** A pass that keeps the loop going hands over to the loop on the remaining wake-ups. */
  lemma ContinueStep(ctx: Context, s: Snapshot, n: int, w: Wake, rest: seq<Wake>, pickup: seq<SignalKind>,
                     calls: seq<ActivityCall>, timers: seq<int>, o: PassOutcome)
    requires o == PassSpec(ctx, s, n, w, pickup, calls, timers) && o.Continue?
    ensures LoopSpec(ctx, s, n, [w] + rest, pickup, calls, timers) == LoopSpec(ctx, o.snap, o.next, rest, pickup, o.calls, o.timers)
  {
    assert ([w] + rest)[0] == w && ([w] + rest)[1..] == rest;
  }

  /** A pass that leaves the loop decides the run. */
  lemma FinishStep(ctx: Context, s: Snapshot, n: int, w: Wake, rest: seq<Wake>, pickup: seq<SignalKind>,
                   calls: seq<ActivityCall>, timers: seq<int>, o: PassOutcome)
    requires o == PassSpec(ctx, s, n, w, pickup, calls, timers) && o.Finished?
    ensures LoopSpec(ctx, s, n, [w] + rest, pickup, calls, timers) == o.trace
  {
    assert ([w] + rest)[0] == w;
  }

  /** No signal ever arrives: at expiry the order is declined, the user is told it is canceled,
      and the run returns DECLINED after its first wait. */
  lemma ExpiryWithoutSignalsDeclines(ctx: Context, now: int, later: seq<Wake>)
    ensures var t := RunSpec(ctx, History([], [], [Wake([], now, [])] + later, []));
      && t.result == Returned(OrderDeclined)
      && UserMessages(t.calls) == [OrderCanceledMessage]
      && t.timers == [ctx.expiration]
  {
    var vc := VendorCall(ctx);
    QuietPrologue(ctx, [Wake([], now, [])] + later, []);
    UserCallMessages(ctx, vc, OrderCanceledMessage);
    var d := Snapshot(OrderDeclined, false);
    assert AfterWait(Snapshot(VendorNotified, false), ctx.expiration, []) == d;
    var o := PassSpec(ctx, Snapshot(VendorNotified, false), ctx.expiration, Wake([], now, []), [], vc, []);
    assert o == Finished(Trace(Returned(OrderDeclined), d, vc + UserCall(ctx, OrderCanceledMessage), [ctx.expiration]));
    FinishStep(ctx, Snapshot(VendorNotified, false), ctx.expiration, Wake([], now, []), later, [], vc, [], o);
  }

  /** A decline while the vendor has been notified ends the run at once with DECLINED: the user
      gets ORDER_CANCELED and later wake-ups are never reached. */
  lemma DeclineEndsTheRun(ctx: Context, now: int, during: seq<SignalKind>, later: seq<Wake>, pickup: seq<SignalKind>)
    ensures var t := RunSpec(ctx, History([], [], [Wake([Decline], now, during)] + later, pickup));
      && t.result == Returned(OrderDeclined)
      && UserMessages(t.calls) == [OrderCanceledMessage]
      && |t.timers| == 1
  {
    var vc := VendorCall(ctx);
    QuietPrologue(ctx, [Wake([Decline], now, during)] + later, pickup);
    UserCallMessages(ctx, vc, OrderCanceledMessage);
    DeliverOne(Snapshot(VendorNotified, false), Decline);
    var d := Snapshot(OrderDeclined, ctx.expiration > 0);
    assert AfterWait(Snapshot(VendorNotified, false), ctx.expiration, [Decline]) == d;
    DeliverMovesForward(d, during);
    var o := PassSpec(ctx, Snapshot(VendorNotified, false), ctx.expiration, Wake([Decline], now, during), pickup, vc, []);
    assert o == Finished(Trace(Returned(OrderDeclined), d, vc + UserCall(ctx, OrderCanceledMessage), [ctx.expiration]));
    FinishStep(ctx, Snapshot(VendorNotified, false), ctx.expiration, Wake([Decline], now, during), later, pickup, vc, [], o);
  }

  /** An accept wakes the first wait: ORDER_ACCEPTED is announced and the loop goes on. */
  lemma AcceptPass(ctx: Context, n: int, t: int, during: seq<SignalKind>, pickup: seq<SignalKind>,
                   calls: seq<ActivityCall>, timers: seq<int>)
    requires n > 0
    ensures PassSpec(ctx, Snapshot(VendorNotified, false), n, Wake([Accept], t, during), pickup, calls, timers)
         == Continue(Snapshot(Deliver(Snapshot(OrderAccepted, true), during).state, false),
                     Remaining(ctx.expiration, t, ctx.startTime), calls + UserCall(ctx, OrderAcceptedMessage), timers + [n])
  {
    DeliverOne(Snapshot(VendorNotified, false), Accept);
  }

  /** A prepare wakes a wait in ACCEPTED: ORDER_BEING_PREPARED is announced and the loop goes on. */
  lemma PreparePass(ctx: Context, n: int, t: int, during: seq<SignalKind>, pickup: seq<SignalKind>,
                    calls: seq<ActivityCall>, timers: seq<int>)
    requires n > 0
    ensures PassSpec(ctx, Snapshot(OrderAccepted, false), n, Wake([Prepare], t, during), pickup, calls, timers)
         == Continue(Snapshot(Deliver(Snapshot(OrderPreparation, true), during).state, false),
                     Remaining(ctx.expiration, t, ctx.startTime), calls + UserCall(ctx, OrderBeingPreparedMessage), timers + [n])
  {
    DeliverOne(Snapshot(OrderAccepted, false), Prepare);
  }

  /** A ready wakes a wait in PREPARATION: ORDER_READY is announced, then a pickup completes the
      order. */
  lemma ReadyThenPickUpPass(ctx: Context, n: int, t: int, calls: seq<ActivityCall>, timers: seq<int>)
    requires n > 0
    ensures PassSpec(ctx, Snapshot(OrderPreparation, false), n, Wake([Ready], t, []), [PickUp], calls, timers)
         == Finished(Trace(Returned(OrderPickedUp), Snapshot(OrderPickedUp, true),
                           calls + UserCall(ctx, OrderReadyMessage) + UserCall(ctx, OrderCompletedMessage), timers + [n]))
  {
    DeliverOne(Snapshot(OrderPreparation, false), Ready);
    DeliverOne(Snapshot(OrderReady, true), PickUp);
  }

  /** A wait in PREPARATION or PICKED_UP that sees no signal expires into READY: ORDER_READY is
      announced and, with no pickup yet, the run waits for it. */
  lemma ExpiryToReadyPass(ctx: Context, s: OrderState, n: int, t: int, calls: seq<ActivityCall>, timers: seq<int>)
    requires s == OrderPreparation || s == OrderPickedUp
    ensures PassSpec(ctx, Snapshot(s, false), n, Wake([], t, []), [], calls, timers)
         == Finished(Trace(WaitingForPickup, Snapshot(OrderReady, false), calls + UserCall(ctx, OrderReadyMessage), timers + [n]))
  {
  }

  /** A pickup wakes a wait in READY: the loop meets PICKED_UP and returns it after
      ORDER_CANCELED. */
  lemma PickUpInLoopPass(ctx: Context, n: int, t: int, pickup: seq<SignalKind>, calls: seq<ActivityCall>, timers: seq<int>)
    requires n > 0
    ensures PassSpec(ctx, Snapshot(OrderReady, false), n, Wake([PickUp], t, []), pickup, calls, timers)
         == Finished(Trace(Returned(OrderPickedUp), Snapshot(OrderPickedUp, true), calls + UserCall(ctx, OrderCanceledMessage), timers + [n]))
  {
    DeliverOne(Snapshot(OrderReady, false), PickUp);
  }

  /** The loop of the happy path, pass by pass. */
  lemma HappyLoop(ctx: Context, t1: int, t2: int, t3: int)
    requires ctx.expiration > 0 && Remaining(ctx.expiration, t1, ctx.startTime) > 0 && Remaining(ctx.expiration, t2, ctx.startTime) > 0
    ensures var c1 := VendorCall(ctx) + UserCall(ctx, OrderAcceptedMessage);
      var c2 := c1 + UserCall(ctx, OrderBeingPreparedMessage);
      var c3 := c2 + UserCall(ctx, OrderReadyMessage);
      LoopSpec(ctx, Snapshot(VendorNotified, false), ctx.expiration,
               [Wake([Accept], t1, []), Wake([Prepare], t2, []), Wake([Ready], t3, [])], [PickUp], VendorCall(ctx), [])
      == Trace(Returned(OrderPickedUp), Snapshot(OrderPickedUp, true), c3 + UserCall(ctx, OrderCompletedMessage),
               [ctx.expiration, Remaining(ctx.expiration, t1, ctx.startTime), Remaining(ctx.expiration, t2, ctx.startTime)])
  {
    var vc := VendorCall(ctx);
    var w1, w2, w3 := Wake([Accept], t1, []), Wake([Prepare], t2, []), Wake([Ready], t3, []);
    var c1 := vc + UserCall(ctx, OrderAcceptedMessage);
    var c2 := c1 + UserCall(ctx, OrderBeingPreparedMessage);
    var c3 := c2 + UserCall(ctx, OrderReadyMessage);
    var n1 := Remaining(ctx.expiration, t1, ctx.startTime);
    var n2 := Remaining(ctx.expiration, t2, ctx.startTime);
    var final := Trace(Returned(OrderPickedUp), Snapshot(OrderPickedUp, true), c3 + UserCall(ctx, OrderCompletedMessage),
                       [ctx.expiration, n1, n2]);
    assert [w1, w2, w3] == [w1] + [w2, w3] && [w2, w3] == [w2] + [w3] && [w3] == [w3] + [];
    AcceptPass(ctx, ctx.expiration, t1, [], [PickUp], vc, []);
    ContinueStep(ctx, Snapshot(VendorNotified, false), ctx.expiration, w1, [w2, w3], [PickUp], vc, [],
                 Continue(Snapshot(OrderAccepted, false), n1, c1, [ctx.expiration]));
    PreparePass(ctx, n1, t2, [], [PickUp], c1, [ctx.expiration]);
    ContinueStep(ctx, Snapshot(OrderAccepted, false), n1, w2, [w3], [PickUp], c1, [ctx.expiration],
                 Continue(Snapshot(OrderPreparation, false), n2, c2, [ctx.expiration, n1]));
    ReadyThenPickUpPass(ctx, n2, t3, c2, [ctx.expiration, n1]);
    FinishStep(ctx, Snapshot(OrderPreparation, false), n2, w3, [], [PickUp], c2, [ctx.expiration, n1], Finished(final));
  }

  /** Accept, prepare, ready and pick up, each within the deadline (every wait starts with time
      left on its timer): the user is told of each stage and the run returns PICKED_UP. */
  lemma HappyPath(ctx: Context, t1: int, t2: int, t3: int)
    requires ctx.expiration > 0 && Remaining(ctx.expiration, t1, ctx.startTime) > 0 && Remaining(ctx.expiration, t2, ctx.startTime) > 0
    ensures var t := RunSpec(ctx, History([], [], [Wake([Accept], t1, []), Wake([Prepare], t2, []), Wake([Ready], t3, [])], [PickUp]));
      && t.result == Returned(OrderPickedUp)
      && UserMessages(t.calls) == [OrderAcceptedMessage, OrderBeingPreparedMessage, OrderReadyMessage, OrderCompletedMessage]
  {
    var vc := VendorCall(ctx);
    var c1 := vc + UserCall(ctx, OrderAcceptedMessage);
    var c2 := c1 + UserCall(ctx, OrderBeingPreparedMessage);
    var c3 := c2 + UserCall(ctx, OrderReadyMessage);
    QuietPrologue(ctx, [Wake([Accept], t1, []), Wake([Prepare], t2, []), Wake([Ready], t3, [])], [PickUp]);
    HappyLoop(ctx, t1, t2, t3);
    UserCallMessages(ctx, vc, OrderAcceptedMessage);
    UserCallMessages(ctx, c1, OrderBeingPreparedMessage);
    UserCallMessages(ctx, c2, OrderReadyMessage);
    UserCallMessages(ctx, c3, OrderCompletedMessage);
  }

  /** The loop of a run whose preparation outlasts the deadline. */
  lemma ExpiryDuringPreparationLoop(ctx: Context, t1: int, t2: int, t3: int)
    requires ctx.expiration > 0 && Remaining(ctx.expiration, t1, ctx.startTime) > 0
    ensures var c1 := VendorCall(ctx) + UserCall(ctx, OrderAcceptedMessage);
      var c2 := c1 + UserCall(ctx, OrderBeingPreparedMessage);
      LoopSpec(ctx, Snapshot(VendorNotified, false), ctx.expiration,
               [Wake([Accept], t1, []), Wake([Prepare], t2, []), Wake([], t3, [])], [], VendorCall(ctx), [])
      == Trace(WaitingForPickup, Snapshot(OrderReady, false), c2 + UserCall(ctx, OrderReadyMessage),
               [ctx.expiration, Remaining(ctx.expiration, t1, ctx.startTime), Remaining(ctx.expiration, t2, ctx.startTime)])
  {
    var vc := VendorCall(ctx);
    var w1, w2, w3 := Wake([Accept], t1, []), Wake([Prepare], t2, []), Wake([], t3, []);
    var c1 := vc + UserCall(ctx, OrderAcceptedMessage);
    var c2 := c1 + UserCall(ctx, OrderBeingPreparedMessage);
    var n1 := Remaining(ctx.expiration, t1, ctx.startTime);
    var n2 := Remaining(ctx.expiration, t2, ctx.startTime);
    var final := Trace(WaitingForPickup, Snapshot(OrderReady, false), c2 + UserCall(ctx, OrderReadyMessage), [ctx.expiration, n1, n2]);
    assert [w1, w2, w3] == [w1] + [w2, w3] && [w2, w3] == [w2] + [w3] && [w3] == [w3] + [];
    AcceptPass(ctx, ctx.expiration, t1, [], [], vc, []);
    ContinueStep(ctx, Snapshot(VendorNotified, false), ctx.expiration, w1, [w2, w3], [], vc, [],
                 Continue(Snapshot(OrderAccepted, false), n1, c1, [ctx.expiration]));
    PreparePass(ctx, n1, t2, [], [], c1, [ctx.expiration]);
    ContinueStep(ctx, Snapshot(OrderAccepted, false), n1, w2, [w3], [], c1, [ctx.expiration],
                 Continue(Snapshot(OrderPreparation, false), n2, c2, [ctx.expiration, n1]));
    ExpiryToReadyPass(ctx, OrderPreparation, n2, t3, c2, [ctx.expiration, n1]);
    FinishStep(ctx, Snapshot(OrderPreparation, false), n2, w3, [], [], c2, [ctx.expiration, n1], Finished(final));
  }

  /** Accepted and in preparation when the deadline passes: the order cannot be declined any
      more, so it is forced to READY, the user is told it is ready, and the run then waits,
      without a timeout, for the pickup. */
  lemma ExpiryDuringPreparationForcesReady(ctx: Context, t1: int, t2: int, t3: int)
    requires ctx.expiration > 0 && Remaining(ctx.expiration, t1, ctx.startTime) > 0
    ensures var t := RunSpec(ctx, History([], [], [Wake([Accept], t1, []), Wake([Prepare], t2, []), Wake([], t3, [])], []));
      && t.result == WaitingForPickup
      && t.snap.state == OrderReady
      && UserMessages(t.calls) == [OrderAcceptedMessage, OrderBeingPreparedMessage, OrderReadyMessage]
  {
    var vc := VendorCall(ctx);
    var c1 := vc + UserCall(ctx, OrderAcceptedMessage);
    var c2 := c1 + UserCall(ctx, OrderBeingPreparedMessage);
    QuietPrologue(ctx, [Wake([Accept], t1, []), Wake([Prepare], t2, []), Wake([], t3, [])], []);
    ExpiryDuringPreparationLoop(ctx, t1, t2, t3);
    UserCallMessages(ctx, vc, OrderAcceptedMessage);
    UserCallMessages(ctx, c1, OrderBeingPreparedMessage);
    UserCallMessages(ctx, c2, OrderReadyMessage);
  }

  /** The loop of a run whose READY arrives during a notification. */
  lemma ReadyDuringNotificationLoop(ctx: Context, t1: int, t2: int, t3: int)
    requires ctx.expiration > 0 && Remaining(ctx.expiration, t1, ctx.startTime) > 0 && Remaining(ctx.expiration, t2, ctx.startTime) > 0
    ensures var c1 := VendorCall(ctx) + UserCall(ctx, OrderAcceptedMessage);
      var c2 := c1 + UserCall(ctx, OrderBeingPreparedMessage);
      LoopSpec(ctx, Snapshot(VendorNotified, false), ctx.expiration,
               [Wake([Accept], t1, []), Wake([Prepare], t2, [Ready]), Wake([PickUp], t3, [])], [], VendorCall(ctx), [])
      == Trace(Returned(OrderPickedUp), Snapshot(OrderPickedUp, true), c2 + UserCall(ctx, OrderCanceledMessage),
               [ctx.expiration, Remaining(ctx.expiration, t1, ctx.startTime), Remaining(ctx.expiration, t2, ctx.startTime)])
  {
    var vc := VendorCall(ctx);
    var w1, w2, w3 := Wake([Accept], t1, []), Wake([Prepare], t2, [Ready]), Wake([PickUp], t3, []);
    var c1 := vc + UserCall(ctx, OrderAcceptedMessage);
    var c2 := c1 + UserCall(ctx, OrderBeingPreparedMessage);
    var n1 := Remaining(ctx.expiration, t1, ctx.startTime);
    var n2 := Remaining(ctx.expiration, t2, ctx.startTime);
    var final := Trace(Returned(OrderPickedUp), Snapshot(OrderPickedUp, true), c2 + UserCall(ctx, OrderCanceledMessage),
                       [ctx.expiration, n1, n2]);
    assert [w1, w2, w3] == [w1] + [w2, w3] && [w2, w3] == [w2] + [w3] && [w3] == [w3] + [];
    AcceptPass(ctx, ctx.expiration, t1, [], [], vc, []);
    ContinueStep(ctx, Snapshot(VendorNotified, false), ctx.expiration, w1, [w2, w3], [], vc, [],
                 Continue(Snapshot(OrderAccepted, false), n1, c1, [ctx.expiration]));
    PreparePass(ctx, n1, t2, [Ready], [], c1, [ctx.expiration]);
    DeliverOne(Snapshot(OrderPreparation, true), Ready);
    ContinueStep(ctx, Snapshot(OrderAccepted, false), n1, w2, [w3], [], c1, [ctx.expiration],
                 Continue(Snapshot(OrderReady, false), n2, c2, [ctx.expiration, n1]));
    PickUpInLoopPass(ctx, n2, t3, [], c2, [ctx.expiration, n1]);
    FinishStep(ctx, Snapshot(OrderReady, false), n2, w3, [], [], c2, [ctx.expiration, n1], Finished(final));
  }

  /** The flag is lowered after each notification, so a READY reached by a signal that arrives
      while ORDER_BEING_PREPARED is being sent wakes nothing; when the pickup then wakes the
      next wait, the loop meets PICKED_UP, tells the user the order is canceled, and returns
      PICKED_UP without ORDER_READY or ORDER_COMPLETED. */
  lemma ReadyDuringNotificationIsAnnouncedAsCanceled(ctx: Context, t1: int, t2: int, t3: int)
    requires ctx.expiration > 0 && Remaining(ctx.expiration, t1, ctx.startTime) > 0 && Remaining(ctx.expiration, t2, ctx.startTime) > 0
    ensures var t := RunSpec(ctx, History([], [], [Wake([Accept], t1, []), Wake([Prepare], t2, [Ready]), Wake([PickUp], t3, [])], []));
      && t.result == Returned(OrderPickedUp)
      && UserMessages(t.calls) == [OrderAcceptedMessage, OrderBeingPreparedMessage, OrderCanceledMessage]
  {
    var vc := VendorCall(ctx);
    var c1 := vc + UserCall(ctx, OrderAcceptedMessage);
    var c2 := c1 + UserCall(ctx, OrderBeingPreparedMessage);
    QuietPrologue(ctx, [Wake([Accept], t1, []), Wake([Prepare], t2, [Ready]), Wake([PickUp], t3, [])], []);
    ReadyDuringNotificationLoop(ctx, t1, t2, t3);
    UserCallMessages(ctx, vc, OrderAcceptedMessage);
    UserCallMessages(ctx, c1, OrderBeingPreparedMessage);
    UserCallMessages(ctx, c2, OrderCanceledMessage);
  }

  /** The loop of a run picked up during the ORDER_ACCEPTED notification. */
  lemma SilentPickupLoop(ctx: Context, t1: int, t2: int)
    requires ctx.expiration > 0
    ensures var c1 := VendorCall(ctx) + UserCall(ctx, OrderAcceptedMessage);
      LoopSpec(ctx, Snapshot(VendorNotified, false), ctx.expiration,
               [Wake([Accept], t1, [Prepare, Ready, PickUp]), Wake([], t2, [])], [], VendorCall(ctx), [])
      == Trace(WaitingForPickup, Snapshot(OrderReady, false), c1 + UserCall(ctx, OrderReadyMessage),
               [ctx.expiration, Remaining(ctx.expiration, t1, ctx.startTime)])
  {
    var vc := VendorCall(ctx);
    var during := [Prepare, Ready, PickUp];
    var w1, w2 := Wake([Accept], t1, during), Wake([], t2, []);
    var c1 := vc + UserCall(ctx, OrderAcceptedMessage);
    var n1 := Remaining(ctx.expiration, t1, ctx.startTime);
    var final := Trace(WaitingForPickup, Snapshot(OrderReady, false), c1 + UserCall(ctx, OrderReadyMessage), [ctx.expiration, n1]);
    assert [w1, w2] == [w1] + [w2] && [w2] == [w2] + [];
    assert Deliver(Snapshot(OrderAccepted, true), during) == Snapshot(OrderPickedUp, true) by {
      DeliverOne(Snapshot(OrderAccepted, true), Prepare);
      assert during[..2] == [Prepare, Ready] && during[..2][..1] == [Prepare];
      assert Deliver(Snapshot(OrderAccepted, true), [Prepare, Ready]) == Snapshot(OrderReady, true);
    }
    AcceptPass(ctx, ctx.expiration, t1, during, [], vc, []);
    ContinueStep(ctx, Snapshot(VendorNotified, false), ctx.expiration, w1, [w2], [], vc, [],
                 Continue(Snapshot(OrderPickedUp, false), n1, c1, [ctx.expiration]));
    ExpiryToReadyPass(ctx, OrderPickedUp, n1, t2, c1, [ctx.expiration]);
    FinishStep(ctx, Snapshot(OrderPickedUp, false), n1, w2, [], [], c1, [ctx.expiration], Finished(final));
  }

  /** Expiry can move an order backwards: picked up by signals that arrive during the
      ORDER_ACCEPTED notification and so wake nothing, it is put back to READY when the next
      wait expires, and the run then waits for a second pickup. */
  lemma ExpiryAfterSilentPickupMovesBack(ctx: Context, t1: int, t2: int)
    requires ctx.expiration > 0
    ensures var t := RunSpec(ctx, History([], [], [Wake([Accept], t1, [Prepare, Ready, PickUp]), Wake([], t2, [])], []));
      && t.result == WaitingForPickup
      && t.snap.state == OrderReady
      && UserMessages(t.calls) == [OrderAcceptedMessage, OrderReadyMessage]
  {
    var vc := VendorCall(ctx);
    var c1 := vc + UserCall(ctx, OrderAcceptedMessage);
    QuietPrologue(ctx, [Wake([Accept], t1, [Prepare, Ready, PickUp]), Wake([], t2, [])], []);
    SilentPickupLoop(ctx, t1, t2);
    UserCallMessages(ctx, vc, OrderAcceptedMessage);
    UserCallMessages(ctx, c1, OrderReadyMessage);
  }

  /** With an expiration time of zero or less the first wait times out at once, whatever the
      signals did before it. A decline that arrived while the user preference was fetched has
      raised the flag, but a DECLINED order cannot be declined again, so the fallback forces
      READY; a signal that would have woken the wait is never handled; the user is told the
      order is ready, and the run waits for the pickup. With a positive expiration time the same
      history ends DECLINED after ORDER_CANCELED (DeclineEndsTheRun). */
  lemma NonPositiveExpirationForcesReady(ctx: Context, now: int, later: seq<Wake>)
    requires ctx.expiration <= 0
    ensures var t := RunSpec(ctx, History([], [Decline], [Wake([Accept], now, [])] + later, []));
      && t.result == WaitingForPickup
      && t.snap == Snapshot(OrderReady, true)
      && UserMessages(t.calls) == [OrderReadyMessage]
      && t.timers == [ctx.expiration]
  {
    var vc := VendorCall(ctx);
    var w := Wake([Accept], now, []);
    UserMessagesOfNotifications(UserNotificationInput(ctx.orderId, ctx.userId, OrderAcceptedMessage, None),
                                VendorNotificationInput(ctx.orderId, ctx.vendorId, NewOrder, Some(ctx.vendorChannel)));
    UserCallMessages(ctx, vc, OrderReadyMessage);
    DeliverOne(Snapshot(VendorNotified, false), Decline);
    var declined := Snapshot(OrderDeclined, true);
    var ready := Snapshot(OrderReady, true);
    assert AfterWait(declined, ctx.expiration, w.signals) == ready;
    var o := PassSpec(ctx, declined, ctx.expiration, w, [], vc, []);
    assert o == Finished(Trace(WaitingForPickup, ready, vc + UserCall(ctx, OrderReadyMessage), [ctx.expiration]));
    FinishStep(ctx, declined, ctx.expiration, w, later, [], vc, [], o);
  }
}
