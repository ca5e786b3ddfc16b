/** Building and showing local notifications (services/NotificationService.ts):
    the notification record handed to notifee, the per-channel wrappers, the
    permission predicate and channel creation. The notifee calls themselves are
    outside the model; their outcomes are parameters. */
module NotificationService {
  import opened Wrappers
  import opened JsText
  import opened NotificationChannels
  import opened NotificationStyles

  /** `DisplayNotificationOptions`; `data` is the message's string map. */
  datatype DisplayOptions = DisplayOptions(
    title: string,
    body: string,
    channelId: Option<ChannelId>,
    data: Option<map<string, string>>,
    largeIcon: Option<string>)

  /** `{ type: 1, text }`: notifee's big-text style. */
  datatype BigTextStyle = BigText(text: string)

  /** The `android` part of the notification record. */
  datatype AndroidPart = AndroidPart(
    channelId: ChannelId,
    importance: Importance,
    color: string,
    smallIcon: string,
    pressActionId: string,
    largeIcon: Option<string>,
    style: Option<BigTextStyle>)

  datatype Notification = Notification(
    title: string,
    body: string,
    android: AndroidPart,
    data: Option<map<string, string>>)

  /** The record `displayNotification` hands to notifee for the given options,
      in terms of the channel and style tables. */
  function NotificationFor(options: DisplayOptions): (n: Notification)
    ensures n.title == options.title && n.body == options.body && n.data == options.data
    ensures options.channelId.None? ==> n.android.channelId == General
    ensures options.channelId.Some? ==> n.android.channelId == options.channelId.value
    ensures n.android.importance == ChannelFor(n.android.channelId).importance
    ensures n.android.color == StyleFor(n.android.channelId).color
    ensures n.android.pressActionId == "default"
    ensures var style := StyleFor(n.android.channelId);
      && (Truthy(style.smallIcon) ==> n.android.smallIcon == style.smallIcon.value)
      && (!Truthy(style.smallIcon) ==> n.android.smallIcon == "ic_launcher")
      && (Truthy(options.largeIcon) ==> n.android.largeIcon == options.largeIcon)
      && (!Truthy(options.largeIcon) && Truthy(style.largeIcon) ==> n.android.largeIcon == style.largeIcon)
      && (!Truthy(options.largeIcon) && !Truthy(style.largeIcon) ==> n.android.largeIcon.None?)
      && (n.android.style.Some? <==> style.useBigTextStyle == Some(true))
      && (n.android.style.Some? ==> n.android.style.value.text == options.body)
  {
    var channel := options.channelId.GetOr(General);
    var style := StyleFor(channel);
    var finalLargeIcon := FirstTruthy(options.largeIcon, style.largeIcon);
    Notification(
      options.title,
      options.body,
      AndroidPart(
        channel,
        ChannelFor(channel).importance,
        style.color,
        OrElse(style.smallIcon, "ic_launcher"),
        "default",
        if Truthy(finalLargeIcon) then finalLargeIcon else None,
        if style.useBigTextStyle == Some(true) then Some(BigText(options.body)) else None),
      options.data)
  }

  /** `displayNotification` up to the notifee call: the record is built with the
      mandatory fields, then the large icon and the big-text style are added to
      its `android` part when they apply. */
  method BuildNotification(options: DisplayOptions) returns (notification: Notification)
    ensures notification == NotificationFor(options)
  {
    var channelId := if options.channelId.Some? then options.channelId.value else General;
    var styleConfig := StyleFor(channelId);
    var android := AndroidPart(
      channelId,
      ChannelFor(channelId).importance,
      styleConfig.color,
      OrElse(styleConfig.smallIcon, "ic_launcher"),
      "default",
      None,
      None);
    var finalLargeIcon := FirstTruthy(options.largeIcon, styleConfig.largeIcon);
    if Truthy(finalLargeIcon) {
      android := android.(largeIcon := finalLargeIcon);
    }
    if styleConfig.useBigTextStyle == Some(true) {
      android := android.(style := Some(BigText(options.body)));
    }
    notification := Notification(options.title, options.body, android, options.data);
  }

  /** With the shipped style table every notification gets the big-text style
      with its body, the small icon 'ic_notification' and the channel's colour,
      and it has a large icon exactly when the caller passed a non-empty one. */
  lemma ShippedStylesShape(options: DisplayOptions)
    ensures var n := NotificationFor(options);
      && n.android.style == Some(BigText(options.body))
      && n.android.smallIcon == "ic_notification"
      && (n.android.largeIcon.Some? <==> Truthy(options.largeIcon))
      && (n.android.largeIcon.Some? ==> n.android.largeIcon == options.largeIcon)
  {
    StyleTableFacts(options.channelId.GetOr(General), General);
  }

  // ---------------------------------------------------------------------------
  // the per-channel wrappers
  // ---------------------------------------------------------------------------

  function PrayerNotification(title: string, body: string, data: Option<map<string, string>>): DisplayOptions {
    DisplayOptions(title, body, Some(Prayer), data, None)
  }

  function EventNotification(title: string, body: string, data: Option<map<string, string>>): DisplayOptions {
    DisplayOptions(title, body, Some(Events), data, None)
  }

  function CampaignNotification(title: string, body: string, data: Option<map<string, string>>): DisplayOptions {
    DisplayOptions(title, body, Some(Campaigns), data, None)
  }

  function UrgentNotification(title: string, body: string, data: Option<map<string, string>>): DisplayOptions {
    DisplayOptions(title, body, Some(Urgent), data, None)
  }

  /** The wrappers fix the channel and pass title, body and data through: prayer
      and urgent notifications are high importance, events and campaigns
      default, and none has a large icon. */
  lemma WrappersFixTheChannel(title: string, body: string, data: Option<map<string, string>>)
    ensures var n := NotificationFor(PrayerNotification(title, body, data));
      n.android.channelId == Prayer && n.android.importance == HighImportance
      && n.title == title && n.body == body && n.data == data && n.android.largeIcon.None?
    ensures var n := NotificationFor(EventNotification(title, body, data));
      n.android.channelId == Events && n.android.importance == DefaultImportance
      && n.title == title && n.body == body && n.data == data && n.android.largeIcon.None?
    ensures var n := NotificationFor(CampaignNotification(title, body, data));
      n.android.channelId == Campaigns && n.android.importance == DefaultImportance
      && n.title == title && n.body == body && n.data == data && n.android.largeIcon.None?
    ensures var n := NotificationFor(UrgentNotification(title, body, data));
      n.android.channelId == Urgent && n.android.importance == HighImportance
      && n.title == title && n.body == body && n.data == data && n.android.largeIcon.None?
  {
  }

  // ---------------------------------------------------------------------------
  // permission and channels
  // ---------------------------------------------------------------------------

  /** notifee's `authorizationStatus` test: 1 (Android granted) or at least 2
      (iOS authorised or provisional). */
  predicate IsGranted(status: int) {
    status == 1 || status >= 2
  }

  /** The two cases together mean a status of at least 1: denied (0) and not
      determined (-1) are refused. */
  lemma GrantedIffAtLeastOne(status: int)
    ensures IsGranted(status) <==> status >= 1
  {
  }

  /** `areNotificationsEnabled`; `None` stands for a settings read that threw. */
  function NotificationsEnabled(status: Option<int>): (enabled: bool)
    ensures enabled <==> status.Some? && status.value >= 1
  {
    status.Some? && IsGranted(status.value)
  }

  /** `initializeChannels`: create each channel of the table in order.
      `failAt` is the index of the first `createChannel` call that throws, if
      any; the error ends the loop and is rethrown (`ok` false). */
  method InitializeChannels(failAt: Option<nat>) returns (created: seq<Channel>, ok: bool)
    ensures ok <==> failAt.None? || failAt.value >= |AllChannels()|
    ensures ok ==> created == AllChannels()
    ensures !ok ==> created == AllChannels()[..failAt.value]
  {
    var channels := AllChannels();
    created := [];
    var i := 0;
    while i < |channels|
      invariant 0 <= i <= |channels|
      invariant created == channels[..i]
      invariant failAt.Some? ==> i <= failAt.value
    {
      if failAt == Some(i) {
        return created, false;
      }
      created := created + [channels[i]];
      i := i + 1;
    }
    ok := true;
  }

  /** `requestPermission`: ask, and create the channels only when granted.
      `status` is `None` when the request throws; a failure while creating the
      channels is caught too, and both give `false`. */
  method RequestPermission(status: Option<int>, channelFailAt: Option<nat>)
    returns (granted: bool, created: seq<Channel>)
    ensures granted <==>
      status.Some? && IsGranted(status.value) && (channelFailAt.None? || channelFailAt.value >= |AllChannels()|)
    ensures !(status.Some? && IsGranted(status.value)) ==> created == []
    ensures status.Some? && IsGranted(status.value) ==>
      created == AllChannels()[..if granted then |AllChannels()| else channelFailAt.value]
  {
    if status.None? {
      return false, [];
    }
    if IsGranted(status.value) {
      var ok;
      created, ok := InitializeChannels(channelFailAt);
      granted := ok;
    } else {
      granted, created := false, [];
    }
  }
}
