/** The Android notification channels (constants/notificationChannels.ts): five
    channel ids and the table `NOTIFICATION_CHANNELS` describing each. */
module NotificationChannels {
  import opened Wrappers

  /** `NotificationChannelId`. */
  datatype ChannelId = Prayer | Events | Campaigns | General | Urgent

  /** The string each id is written as. */
  function Key(id: ChannelId): string {
    match id
    case Prayer => "prayer"
    case Events => "events"
    case Campaigns => "campaigns"
    case General => "general"
    case Urgent => "urgent"
  }

  /** The id a string names, if it is one of the five. */
  function FromKey(s: string): (r: Option<ChannelId>)
    ensures r.Some? ==> Key(r.value) == s
  {
    if s == "prayer" then Some(Prayer)
    else if s == "events" then Some(Events)
    else if s == "campaigns" then Some(Campaigns)
    else if s == "general" then Some(General)
    else if s == "urgent" then Some(Urgent)
    else None
  }

  /** Every id is named by its key and by nothing else. */
  lemma KeyRoundTrip(id: ChannelId, s: string)
    ensures FromKey(Key(id)) == Some(id)
    ensures Key(id) == s <==> FromKey(s) == Some(id)
  {
  }

  /** `AndroidImportance`, restricted to the two levels the table uses. */
  datatype Importance = DefaultImportance | HighImportance

  datatype Channel = Channel(
    id: ChannelId,
    name: string,
    description: string,
    importance: Importance,
    sound: Option<string>,
    vibrationPattern: Option<seq<int>>)

  /** `NOTIFICATION_CHANNELS[id]`. */
  function ChannelFor(id: ChannelId): Channel {
    match id
    case Prayer =>
      Channel(Prayer, "Prayer Times", "Notifications for prayer times and reminders",
              HighImportance, Some("default"), Some([300, 200, 300, 200]))
    case Events =>
      Channel(Events, "Events", "Notifications about mosque events and programs",
              DefaultImportance, Some("default"), None)
    case Campaigns =>
      Channel(Campaigns, "Donation Campaigns", "Updates about fundraising campaigns",
              DefaultImportance, Some("default"), None)
    case General =>
      Channel(General, "General Announcements", "General mosque announcements and updates",
              DefaultImportance, Some("default"), None)
    case Urgent =>
      Channel(Urgent, "Urgent Alerts", "Important and time-sensitive announcements",
              HighImportance, Some("default"), Some([500, 300, 500, 300]))
  }

  /** `Object.values(NOTIFICATION_CHANNELS)`, in the table's key order: five
      entries, each the table's channel for its own id, with every id listed
      exactly once. */
  function AllChannels(): (cs: seq<Channel>)
    ensures |cs| == 5
    ensures forall i :: 0 <= i < |cs| ==> cs[i] == ChannelFor(cs[i].id)
    ensures forall i, j :: 0 <= i < j < |cs| ==> cs[i].id != cs[j].id
    ensures forall id :: ChannelFor(id) in cs
  {
    [ChannelFor(Prayer), ChannelFor(Events), ChannelFor(Campaigns), ChannelFor(General), ChannelFor(Urgent)]
  }

  /** Each entry's id is its key; prayer and urgent are high importance and are
      the only ones that vibrate, each with a four-step pattern; every channel
      plays the default sound. */
  lemma ChannelTableFacts(id: ChannelId)
    ensures ChannelFor(id).id == id
    ensures ChannelFor(id).importance == HighImportance <==> id == Prayer || id == Urgent
    ensures ChannelFor(id).vibrationPattern.Some? <==> id == Prayer || id == Urgent
    ensures ChannelFor(id).vibrationPattern.Some? ==> |ChannelFor(id).vibrationPattern.value| == 4
    ensures ChannelFor(id).sound == Some("default")
  {
  }
}
