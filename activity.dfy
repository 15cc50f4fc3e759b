/**
 * The host activity (`MainActivity` in MainActivity.kt): the one-shot holder of the
 * notification that launched the app, the method-channel handler that hands it to
 * Flutter, and the forwarding of notifications tapped while the app is running.
 *
 * Events pushed to Flutter with `invokeMethod` are appended to `outbox`.
 */
module Activity {
  import opened Wrappers
  import opened Extraction

  /** Name of the method channel shared with Flutter. */
  const Channel: string := "com.mobile.modul6/notification"
  /** The one request the channel handler answers. */
  const GetInitialNotification: string := "getInitialNotification"
  /** The event pushed to Flutter for a notification tapped while running. */
  const OnNotificationTapped: string := "onNotificationTapped"

  /** What the handler hands to the channel's `result`: `success(value)` or `notImplemented()`. */
  datatype Response = Success(value: Option<Payload>) | NotImplemented

  /** An `invokeMethod(name, arguments)` call on the channel. */
  datatype Event = Invoke(name: string, arguments: Payload)

  /** A payload as extraction can produce it: non-empty and free of transport keys. */
  ghost predicate Deliverable(p: Payload) {
    p != map[] && forall k :: k in p ==> !IsReserved(k)
  }

  class MainActivity {
    var initialNotificationData: Option<Payload>
    var outbox: seq<Event>

    /** Flutter never receives an empty or transport-only payload, held or pushed. */
    ghost predicate Valid()
      reads this
    {
      && (initialNotificationData.Some? ==> Deliverable(initialNotificationData.value))
      && forall i :: 0 <= i < |outbox| ==>
           outbox[i].name == OnNotificationTapped && Deliverable(outbox[i].arguments)
    }

    /** A fresh activity holds nothing and has pushed nothing. */
    constructor ()
      ensures Valid()
      ensures initialNotificationData == None && outbox == []
    {
      initialNotificationData := None;
      outbox := [];
    }

    /** `onCreate`: the held value becomes the extraction of the launch intent, null included. */
    method OnCreate<V>(intent: Option<Intent<V>>, show: V -> string)
      requires Valid()
      modifies this
      ensures Valid()
      ensures initialNotificationData == NotificationData(intent, show)
      ensures outbox == old(outbox)
    {
      var data := GetNotificationDataFromIntent(intent, show);
      if data.Some? {
        DeliverableResult(intent, show);
      }
      initialNotificationData := data;
    }

    /** The method-call handler: `getInitialNotification` returns the held value and clears it. */
    method HandleMethodCall(name: string) returns (response: Response)
      requires Valid()
      modifies this
      ensures Valid()
      ensures name == GetInitialNotification ==>
                response == Success(old(initialNotificationData)) && initialNotificationData == None
      ensures name != GetInitialNotification ==>
                response == NotImplemented && initialNotificationData == old(initialNotificationData)
      ensures response.Success? && response.value.Some? ==> Deliverable(response.value.value)
      ensures outbox == old(outbox)
    {
      if name == GetInitialNotification {
        response := Success(initialNotificationData);
        initialNotificationData := None;
      } else {
        response := NotImplemented;
      }
    }

    /** `onNewIntent`: pushes one tap event when the new intent carries a payload; the held value is untouched. */
    method OnNewIntent<V>(intent: Intent<V>, show: V -> string)
      requires Valid()
      modifies this
      ensures Valid()
      ensures initialNotificationData == old(initialNotificationData)
      ensures NotificationData(Some(intent), show).Some? ==>
                outbox == old(outbox) + [Invoke(OnNotificationTapped, NotificationData(Some(intent), show).value)]
      ensures NotificationData(Some(intent), show).None? ==> outbox == old(outbox)
    {
      var notificationData := GetNotificationDataFromIntent(Some(intent), show);
      if notificationData.Some? {
        DeliverableResult(Some(intent), show);
        outbox := outbox + [Invoke(OnNotificationTapped, notificationData.value)];
      }
    }
  }

  // ---------------------------------------------------------------------------
  // Scenarios over one activity

  /**
   * The launch notification is delivered at most once: the first request returns it,
   * a repeated request returns null, and a notification tapped in between does not replace it.
   */
  method DeliveredOnce<V>(launch: Option<Intent<V>>, relaunch: Intent<V>, show: V -> string)
    returns (first: Response, second: Response, pushed: seq<Event>)
    ensures first == Success(NotificationData(launch, show))
    ensures second == Success(None)
    ensures pushed == if NotificationData(Some(relaunch), show).Some?
                      then [Invoke(OnNotificationTapped, NotificationData(Some(relaunch), show).value)]
                      else []
  {
    var activity := new MainActivity();
    activity.OnCreate(launch, show);
    activity.OnNewIntent(relaunch, show);
    first := activity.HandleMethodCall(GetInitialNotification);
    second := activity.HandleMethodCall(GetInitialNotification);
    pushed := activity.outbox;
  }

  /** Any other request is answered "not implemented" and the launch notification stays available. */
  method OtherRequestsKeepHeldValue<V>(launch: Option<Intent<V>>, name: string, show: V -> string)
    returns (other: Response, initial: Response)
    requires name != GetInitialNotification
    ensures other == NotImplemented
    ensures initial == Success(NotificationData(launch, show))
  {
    var activity := new MainActivity();
    activity.OnCreate(launch, show);
    other := activity.HandleMethodCall(name);
    initial := activity.HandleMethodCall(GetInitialNotification);
  }

  /** A launch and a relaunch made only of transport keys leave nothing to deliver and push nothing. */
  method TransportOnlyLaunch<V>(launch: Bundle<V>, relaunch: Bundle<V>, show: V -> string)
    returns (initial: Response, pushed: seq<Event>)
    requires forall k :: k in launch ==> IsReserved(k)
    requires forall k :: k in relaunch ==> IsReserved(k)
    ensures initial == Success(None)
    ensures pushed == []
  {
    OnlyReservedYieldsNull(launch, show);
    OnlyReservedYieldsNull(relaunch, show);
    var activity := new MainActivity();
    activity.OnCreate(Some(Intent(Some(launch))), show);
    activity.OnNewIntent(Intent(Some(relaunch)), show);
    initial := activity.HandleMethodCall(GetInitialNotification);
    pushed := activity.outbox;
  }

  /** Without extras, launch and relaunch have no observable effect. */
  method NoExtrasNoEffect<V>(show: V -> string) returns (initial: Response, pushed: seq<Event>)
    ensures initial == Success(None)
    ensures pushed == []
  {
    var activity := new MainActivity();
    activity.OnCreate(Some(Intent(None)), show);
    activity.OnNewIntent(Intent(None), show);
    initial := activity.HandleMethodCall(GetInitialNotification);
    pushed := activity.outbox;
  }
}
