/** Notification messages and the dispatch of a notification to the channel the recipient
    prefers (order_notification/schemas/notification.py and
    order_notification/activities/notifications.py). Executing an activity is modelled by the
    call it records: which activity, with which argument and which options. */
module Notifications {
  import opened Wrappers
  import opened Temporal

  datatype NotificationChannelType = SMS | PUSH

  datatype VendorNotificationMessageType = NewOrder

  datatype UserNotificationMessageType =
    | OrderAcceptedMessage
    | OrderCanceledMessage
    | OrderBeingPreparedMessage
    | OrderReadyMessage
    | OrderCompletedMessage

  datatype UserNotificationInput = UserNotificationInput(
    orderId: string,
    userId: string,
    message: UserNotificationMessageType,
    userNotificationPreference: Option<NotificationChannelType>)

  datatype VendorNotificationInput = VendorNotificationInput(
    orderId: string,
    vendorId: string,
    message: VendorNotificationMessageType,
    vendorNotificationPreference: Option<NotificationChannelType>)

  /** Stored preferences; a record without an explicit channel prefers PUSH. */
  datatype UserPreference = UserPreference(userId: string, notificationPreference: NotificationChannelType)
  datatype VendorPreference = VendorPreference(vendorId: string, notificationPreference: NotificationChannelType)

  const DefaultChannel: NotificationChannelType := PUSH

  /** The four leaf activities; each only sends one message over its channel. */
  datatype NotificationActivity = NotifyUserSms | NotifyUserPush | NotifyVendorSms | NotifyVendorPush

  function ChannelOf(a: NotificationActivity): NotificationChannelType
  {
    match a
    case NotifyUserSms => SMS
    case NotifyVendorSms => SMS
    case NotifyUserPush => PUSH
    case NotifyVendorPush => PUSH
  }

  predicate IsUserActivity(a: NotificationActivity)
  {
    a == NotifyUserSms || a == NotifyUserPush
  }

  datatype NotificationArg = ToUser(user: UserNotificationInput) | ToVendor(vendor: VendorNotificationInput)

  datatype ActivityCall = ActivityCall(activity: NotificationActivity, arg: NotificationArg, options: ActivityOptions)

  /** Every notification activity runs with a 10 s start-to-close timeout and retries at most
      5 s apart. */
  const NotificationOptions: ActivityOptions := ActivityOptions(10, RetryPolicy(5))

  /** The activity calls `notify_user` makes: one call on the preferred channel, passing the
      input unchanged, and none when there is no preference (the match has no default arm). */
  function NotifyUser(arg: UserNotificationInput): (calls: seq<ActivityCall>)
    ensures |calls| == (if arg.userNotificationPreference.Some? then 1 else 0)
    ensures forall c <- calls ::
      && IsUserActivity(c.activity)
      && Some(ChannelOf(c.activity)) == arg.userNotificationPreference
      && c.arg == ToUser(arg)
      && c.options.startToCloseTimeout == 10
      && c.options.retryPolicy.maximumInterval == 5
  {
    match arg.userNotificationPreference
    case Some(PUSH) => [ActivityCall(NotifyUserPush, ToUser(arg), NotificationOptions)]
    case Some(SMS) => [ActivityCall(NotifyUserSms, ToUser(arg), NotificationOptions)]
    case None => []
  }

  /** The activity calls `notify_vendor` makes, dispatched the same way. */
  function NotifyVendor(arg: VendorNotificationInput): (calls: seq<ActivityCall>)
    ensures |calls| == (if arg.vendorNotificationPreference.Some? then 1 else 0)
    ensures forall c <- calls ::
      && !IsUserActivity(c.activity)
      && Some(ChannelOf(c.activity)) == arg.vendorNotificationPreference
      && c.arg == ToVendor(arg)
      && c.options.startToCloseTimeout == 10
      && c.options.retryPolicy.maximumInterval == 5
  {
    match arg.vendorNotificationPreference
    case Some(PUSH) => [ActivityCall(NotifyVendorPush, ToVendor(arg), NotificationOptions)]
    case Some(SMS) => [ActivityCall(NotifyVendorSms, ToVendor(arg), NotificationOptions)]
    case None => []
  }

  /** An activity is determined by its recipient kind and its channel. */
  lemma ActivityDeterminedByChannel(a: NotificationActivity, b: NotificationActivity)
    requires IsUserActivity(a) == IsUserActivity(b) && ChannelOf(a) == ChannelOf(b)
    ensures a == b
  {
  }

  /** The user messages carried by a sequence of recorded calls, in order. */
  function UserMessages(calls: seq<ActivityCall>): seq<UserNotificationMessageType>
  {
    if calls == [] then []
    else
      var last := calls[|calls| - 1];
      UserMessages(calls[..|calls| - 1]) + (if last.arg.ToUser? then [last.arg.user.message] else [])
  }

  /** Every user call contributes its message, every message comes from a user call, and
      there are no more messages than calls. */
  lemma {:induction false} UserMessagesFromUserCalls(calls: seq<ActivityCall>)
    ensures |UserMessages(calls)| <= |calls|
    ensures forall i :: 0 <= i < |calls| && calls[i].arg.ToUser? ==> calls[i].arg.user.message in UserMessages(calls)
    ensures forall m :: m in UserMessages(calls) ==>
      exists i :: 0 <= i < |calls| && calls[i].arg.ToUser? && calls[i].arg.user.message == m
    decreases |calls|
  {
    if calls != [] {
      var p := calls[..|calls| - 1];
      UserMessagesFromUserCalls(p);
      assert forall i :: 0 <= i < |p| ==> p[i] == calls[i];
    }
  }

  lemma {:induction false} UserMessagesAppend(a: seq<ActivityCall>, b: seq<ActivityCall>)
    ensures UserMessages(a + b) == UserMessages(a) + UserMessages(b)
    decreases |b|
  {
    if b == [] {
      assert a + b == a;
    } else {
      var b' := b[..|b| - 1];
      assert (a + b)[..|a + b| - 1] == a + b';
      UserMessagesAppend(a, b');
    }
  }

  /** A notification with a preference contributes exactly its message; a vendor
      notification contributes none. */
  lemma UserMessagesOfNotifications(u: UserNotificationInput, v: VendorNotificationInput)
    ensures u.userNotificationPreference.Some? ==> UserMessages(NotifyUser(u)) == [u.message]
    ensures UserMessages(NotifyVendor(v)) == []
  {
    var cu := NotifyUser(u);
    if u.userNotificationPreference.Some? {
      assert cu[..0] == [];
    }
    var cv := NotifyVendor(v);
    if v.vendorNotificationPreference.Some? {
      assert cv[..0] == [];
    }
  }
}
