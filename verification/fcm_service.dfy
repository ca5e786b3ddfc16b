/** Push messages (services/FCMService.ts): the background and foreground message
    handlers, which pick a title, a body and a channel for each message and show
    it through the notification service, and the start-up sequence that signs in,
    asks for permission and registers the device token. Firebase Auth, Messaging
    and Firestore are outside the model; their outcomes are parameters. */
module FcmService {
  import opened Wrappers
  import opened JsText
  import opened NotificationChannels
  import opened NotificationService

  /** The `notification` block of a message. */
  datatype NotificationPayload = NotificationPayload(title: Option<string>, body: Option<string>)

  /** A received message: the data map (string values) and the notification block. */
  datatype RemoteMessage = RemoteMessage(
    data: Option<map<string, string>>,
    notification: Option<NotificationPayload>)

  const DefaultTitle: string := "Al-Ansar Masjid"

  /** `data?.<key>` when it is a string: FCM data values are strings, so this is
      the value when the key is present. */
  function DataField(data: Option<map<string, string>>, key: string): (v: Option<string>)
    ensures v.Some? <==> data.Some? && key in data.value
    ensures v.Some? ==> v.value == data.value[key]
  {
    if data.Some? && key in data.value then Some(data.value[key]) else None
  }

  function PayloadTitle(m: RemoteMessage): Option<string> {
    if m.notification.Some? then m.notification.value.title else None
  }

  function PayloadBody(m: RemoteMessage): Option<string> {
    if m.notification.Some? then m.notification.value.body else None
  }

  // ---------------------------------------------------------------------------
  // title, body and channel
  // ---------------------------------------------------------------------------

  /** The background title: a non-empty `data.title`, else the mosque's name. */
  function BackgroundTitle(m: RemoteMessage): (title: string)
    ensures title != ""
    ensures Truthy(DataField(m.data, "title")) ==> title == m.data.value["title"]
    ensures !Truthy(DataField(m.data, "title")) ==> title == DefaultTitle
  {
    OrElse(DataField(m.data, "title"), DefaultTitle)
  }

  /** The background body: a non-empty `data.body`, else empty. */
  function BackgroundBody(m: RemoteMessage): (body: string)
    ensures Truthy(DataField(m.data, "body")) ==> body == m.data.value["body"]
    ensures !Truthy(DataField(m.data, "body")) ==> body == ""
  {
    OrElse(DataField(m.data, "body"), "")
  }

  /** The foreground title: a non-empty `data.title`, else a non-empty
      notification title, else the mosque's name. */
  function ForegroundTitle(m: RemoteMessage): (title: string)
    ensures title != ""
    ensures Truthy(DataField(m.data, "title")) ==> title == m.data.value["title"]
    ensures !Truthy(DataField(m.data, "title")) && Truthy(PayloadTitle(m)) ==> title == PayloadTitle(m).value
    ensures !Truthy(DataField(m.data, "title")) && !Truthy(PayloadTitle(m)) ==> title == DefaultTitle
  {
    OrElse(FirstTruthy(DataField(m.data, "title"), PayloadTitle(m)), DefaultTitle)
  }

  /** The foreground body: a non-empty `data.body`, else a non-empty
      notification body, else empty. */
  function ForegroundBody(m: RemoteMessage): (body: string)
    ensures Truthy(DataField(m.data, "body")) ==> body == m.data.value["body"]
    ensures !Truthy(DataField(m.data, "body")) && Truthy(PayloadBody(m)) ==> body == PayloadBody(m).value
    ensures !Truthy(DataField(m.data, "body")) && !Truthy(PayloadBody(m)) ==> body == ""
  {
    OrElse(FirstTruthy(DataField(m.data, "body"), PayloadBody(m)), "")
  }

  /** The background handler never looks at the notification block; the
      foreground handler agrees with it whenever that block has no usable text. */
  lemma BackgroundIgnoresNotificationBlock(m: RemoteMessage, other: Option<NotificationPayload>)
    ensures BackgroundTitle(m) == BackgroundTitle(m.(notification := other))
    ensures BackgroundBody(m) == BackgroundBody(m.(notification := other))
    ensures !Truthy(PayloadTitle(m)) ==> ForegroundTitle(m) == BackgroundTitle(m)
    ensures !Truthy(PayloadBody(m)) ==> ForegroundBody(m) == BackgroundBody(m)
  {
  }

  /** The `switch` on the message type. */
  function RouteChannel(messageType: Option<string>): (c: ChannelId)
    ensures c == Prayer <==> messageType == Some("prayer")
    ensures c == Events <==> messageType == Some("event")
    ensures c == Campaigns <==> messageType == Some("campaign")
    ensures c == Urgent <==> messageType == Some("urgent")
    ensures c == General <==>
      messageType !in {Some("prayer"), Some("event"), Some("campaign"), Some("urgent")}
  {
    match messageType
    case Some("prayer") => Prayer
    case Some("event") => Events
    case Some("campaign") => Campaigns
    case Some("urgent") => Urgent
    case _ => General
  }

  /** The types are singular while two channel keys are plural: a message whose
      type is the channel key 'events' or 'campaigns' is shown on the general
      channel. */
  lemma PluralKeysRouteToGeneral()
    ensures RouteChannel(Some(Key(Events))) == General
    ensures RouteChannel(Some(Key(Campaigns))) == General
    ensures RouteChannel(Some(Key(Prayer))) == Prayer
    ensures RouteChannel(Some(Key(Urgent))) == Urgent
  {
  }

  /** The options each branch of the switch passes to the notification service:
      one of the four wrappers, or `displayNotification` on 'general'. */
  function HandlerOptions(messageType: Option<string>, title: string, body: string, data: Option<map<string, string>>)
    : (options: DisplayOptions)
    ensures options == DisplayOptions(title, body, Some(RouteChannel(messageType)), data, None)
  {
    if messageType == Some("prayer") then PrayerNotification(title, body, data)
    else if messageType == Some("event") then EventNotification(title, body, data)
    else if messageType == Some("campaign") then CampaignNotification(title, body, data)
    else if messageType == Some("urgent") then UrgentNotification(title, body, data)
    else DisplayOptions(title, body, Some(General), data, None)
  }

  // ---------------------------------------------------------------------------
  // the two handlers
  // ---------------------------------------------------------------------------

  /** The background handler. `displayFails` says whether notifee throws; the
      error is caught, so the handler always completes, showing nothing. */
  method HandleBackgroundMessage(m: RemoteMessage, displayFails: bool) returns (shown: Option<Notification>)
    ensures displayFails <==> shown.None?
    ensures shown.Some? ==>
      shown.value == NotificationFor(DisplayOptions(BackgroundTitle(m), BackgroundBody(m),
        Some(RouteChannel(DataField(m.data, "type"))), m.data, None))
  {
    var title := BackgroundTitle(m);
    var body := BackgroundBody(m);
    var notificationType := DataField(m.data, "type");
    var notification := BuildNotification(HandlerOptions(notificationType, title, body, m.data));
    if displayFails {
      shown := None;
    } else {
      shown := Some(notification);
    }
  }

  /** The foreground handler: the same, with the notification block as a second
      source for the title and the body. */
  method HandleForegroundMessage(m: RemoteMessage, displayFails: bool) returns (shown: Option<Notification>)
    ensures displayFails <==> shown.None?
    ensures shown.Some? ==>
      shown.value == NotificationFor(DisplayOptions(ForegroundTitle(m), ForegroundBody(m),
        Some(RouteChannel(DataField(m.data, "type"))), m.data, None))
  {
    var title := ForegroundTitle(m);
    var body := ForegroundBody(m);
    var notificationType := DataField(m.data, "type");
    var notification := BuildNotification(HandlerOptions(notificationType, title, body, m.data));
    if displayFails {
      shown := None;
    } else {
      shown := Some(notification);
    }
  }

  /** A shown message carries a title, its data map unchanged, the channel its
      type routes to with that channel's importance, and a big-text style with
      its body. */
  lemma ShownMessageShape(m: RemoteMessage)
    ensures var n := NotificationFor(HandlerOptions(DataField(m.data, "type"), ForegroundTitle(m), ForegroundBody(m), m.data));
      && n.title != "" && n.data == m.data
      && n.android.channelId == RouteChannel(DataField(m.data, "type"))
      && n.android.importance == ChannelFor(RouteChannel(DataField(m.data, "type"))).importance
      && n.android.style == Some(BigText(ForegroundBody(m)))
      && n.android.largeIcon.None?
  {
    ShippedStylesShape(HandlerOptions(DataField(m.data, "type"), ForegroundTitle(m), ForegroundBody(m), m.data));
  }

  // ---------------------------------------------------------------------------
  // start-up and the device token
  // ---------------------------------------------------------------------------

  /** The token fields of a `users/{uid}` document (timestamps are left out). */
  datatype TokenRecord = TokenRecord(fcmToken: string, notificationsEnabled: bool)

  /** The signed-in user, the token documents, and which listeners are set up. */
  class FcmClient {
    var currentUid: Option<string>
    var users: map<string, TokenRecord>
    var refreshListenerInstalled: bool
    var foregroundHandlerInstalled: bool

    constructor(currentUid: Option<string>, users: map<string, TokenRecord>)
      ensures this.currentUid == currentUid && this.users == users
      ensures !refreshListenerInstalled && !foregroundHandlerInstalled
    {
      this.currentUid := currentUid;
      this.users := users;
      refreshListenerInstalled := false;
      foregroundHandlerInstalled := false;
    }

    /** `signInAnonymously`: keep the current user, or sign in; `signIn` is the
        outcome of the sign-in call, whose failure is rethrown. */
    method SignInAnonymously(signIn: Result<string, string>) returns (outcome: Result<string, string>)
      modifies this
      ensures old(currentUid).Some? ==> outcome == Success(old(currentUid).value) && currentUid == old(currentUid)
      ensures old(currentUid).None? ==> outcome == signIn
      ensures old(currentUid).None? && signIn.Success? ==> currentUid == Some(signIn.value)
      ensures outcome.Failure? ==> currentUid == old(currentUid)
      ensures users == old(users)
      ensures refreshListenerInstalled == old(refreshListenerInstalled)
      ensures foregroundHandlerInstalled == old(foregroundHandlerInstalled)
    {
      if currentUid.Some? {
        return Success(currentUid.value);
      }
      outcome := signIn;
      if signIn.Success? {
        currentUid := Some(signIn.value);
      }
    }

    /** `registerToken`: without a (non-empty) uid nothing is asked or written;
        otherwise the token is merged into the user's document. A failing token
        request or write is caught and writes nothing. */
    method RegisterToken(token: Result<string, string>, writeFails: bool)
      modifies this
      ensures !Truthy(currentUid) || token.Failure? || writeFails ==> users == old(users)
      ensures Truthy(currentUid) && token.Success? && !writeFails ==>
        users == old(users)[currentUid.value := TokenRecord(token.value, true)]
      ensures currentUid == old(currentUid)
      ensures refreshListenerInstalled == old(refreshListenerInstalled)
      ensures foregroundHandlerInstalled == old(foregroundHandlerInstalled)
    {
      if !Truthy(currentUid) {
        return;
      }
      var uid := currentUid.value;
      if token.Failure? || writeFails {
        return;
      }
      users := users[uid := TokenRecord(token.value, true)];
    }

    /** The token-refresh callback: an `update` of the signed-in user's document,
        which only succeeds when that document exists; without a listener
        nothing is called. */
    method OnTokenRefresh(newToken: string)
      modifies this
      ensures refreshListenerInstalled && Truthy(currentUid) && currentUid.value in old(users) ==>
        users == old(users)[currentUid.value := old(users)[currentUid.value].(fcmToken := newToken)]
      ensures !(refreshListenerInstalled && Truthy(currentUid) && currentUid.value in old(users)) ==>
        users == old(users)
      ensures currentUid == old(currentUid)
      ensures refreshListenerInstalled == old(refreshListenerInstalled)
      ensures foregroundHandlerInstalled == old(foregroundHandlerInstalled)
    {
      if refreshListenerInstalled && Truthy(currentUid) {
        var uid := currentUid.value;
        if uid in users {
          users := users[uid := users[uid].(fcmToken := newToken)];
        }
      }
    }

    /** `initialize`: sign in (a failure aborts it), ask for permission through
        the notification service, and only when that is granted register the
        token and set up the two listeners. The result is the sign-in failure,
        or whether permission was granted. */
    method Initialize(
      signIn: Result<string, string>,
      permissionStatus: Option<int>,
      channelFailAt: Option<nat>,
      token: Result<string, string>,
      writeFails: bool)
      returns (outcome: Result<bool, string>)
      modifies this
      ensures outcome.Failure? <==> old(currentUid).None? && signIn.Failure?
      ensures old(currentUid).Some? ==> currentUid == old(currentUid)
      ensures old(currentUid).None? ==> currentUid == (if signIn.Success? then Some(signIn.value) else None)
      ensures outcome.Success? ==> (outcome.value <==>
        permissionStatus.Some? && IsGranted(permissionStatus.value)
        && (channelFailAt.None? || channelFailAt.value >= |AllChannels()|))
      ensures outcome != Success(true) ==>
        && users == old(users)
        && refreshListenerInstalled == old(refreshListenerInstalled)
        && foregroundHandlerInstalled == old(foregroundHandlerInstalled)
      ensures outcome == Success(true) ==> refreshListenerInstalled && foregroundHandlerInstalled
      ensures outcome == Success(true) && Truthy(currentUid) && token.Success? && !writeFails ==>
        users == old(users)[currentUid.value := TokenRecord(token.value, true)]
      ensures outcome == Success(true) && (!Truthy(currentUid) || token.Failure? || writeFails) ==>
        users == old(users)
    {
      var uid := SignInAnonymously(signIn);
      if uid.Failure? {
        return Failure(uid.error);
      }
      var permissionGranted, _ := RequestPermission(permissionStatus, channelFailAt);
      if permissionGranted {
        RegisterToken(token, writeFails);
        refreshListenerInstalled := true;
        foregroundHandlerInstalled := true;
      }
      outcome := Success(permissionGranted);
    }
  }

  /** With permission denied, start-up writes no token and sets up no listener,
      so a later token refresh changes nothing either. */
  method DeniedPermissionRegistersNothing(uid: string, status: int, refreshed: string)
    returns (outcome: Result<bool, string>, users: map<string, TokenRecord>)
    requires uid != ""
    requires !IsGranted(status)
    ensures outcome == Success(false)
    ensures users == map[]
  {
    var client := new FcmClient(Some(uid), map[]);
    outcome := client.Initialize(Success(uid), Some(status), None, Success("token"), false);
    client.OnTokenRefresh(refreshed);
    users := client.users;
  }

  /** With permission granted the token is stored, and a refresh replaces it. */
  method GrantedPermissionKeepsTokenCurrent(uid: string, first: string, refreshed: string)
    returns (outcome: Result<bool, string>, users: map<string, TokenRecord>)
    requires uid != ""
    ensures outcome == Success(true)
    ensures users == map[uid := TokenRecord(refreshed, true)]
  {
    var client := new FcmClient(None, map[]);
    outcome := client.Initialize(Success(uid), Some(1), None, Success(first), false);
    client.OnTokenRefresh(refreshed);
    users := client.users;
  }

  /** With permission granted but the token request or the write failing, the
      error is caught: start-up still succeeds, the listeners are set up, and
      nothing is written until a refresh finds a document to update. */
  method FailedTokenRegistersNothing(uid: string, tokenFails: bool, refreshed: string)
    returns (outcome: Result<bool, string>, users: map<string, TokenRecord>)
    requires uid != ""
    ensures outcome == Success(true)
    ensures users == map[]
  {
    var client := new FcmClient(Some(uid), map[]);
    var token: Result<string, string> := if tokenFails then Failure("token unavailable") else Success("token");
    outcome := client.Initialize(Success(uid), Some(1), None, token, !tokenFails);
    client.OnTokenRefresh(refreshed);
    users := client.users;
  }
}
