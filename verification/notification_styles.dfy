/** The per-channel look of a notification (constants/notificationStyles.ts):
    the colour palette `NOTIFICATION_COLORS` and the table `NOTIFICATION_STYLES`. */
module NotificationStyles {
  import opened Wrappers
  import opened NotificationChannels

  /** `NOTIFICATION_COLORS`. */
  const PrimaryColor: string := "#1e3a8a"
  const PrayerColor: string := "#059669"
  const EventColor: string := "#7c3aed"
  const CampaignColor: string := "#dc2626"
  const GeneralColor: string := "#0284c7"
  const UrgentColor: string := "#ea580c"

  datatype StyleConfig = StyleConfig(
    color: string,
    smallIcon: Option<string>,
    largeIcon: Option<string>,
    useBigTextStyle: Option<bool>)

  /** `NOTIFICATION_STYLES[id]`. */
  function StyleFor(id: ChannelId): StyleConfig {
    var color := match id
      case Prayer => PrayerColor
      case Events => EventColor
      case Campaigns => CampaignColor
      case General => GeneralColor
      case Urgent => UrgentColor;
    StyleConfig(color, Some("ic_notification"), None, Some(true))
  }

  /** Every style uses the small icon 'ic_notification', asks for the big-text
      style and defines no large icon; its colour is the palette entry of its
      channel, and no two channels share a colour (the primary colour is used by
      none of them). */
  lemma StyleTableFacts(id: ChannelId, other: ChannelId)
    ensures StyleFor(id).smallIcon == Some("ic_notification")
    ensures StyleFor(id).useBigTextStyle == Some(true)
    ensures StyleFor(id).largeIcon.None?
    ensures id == Prayer ==> StyleFor(id).color == PrayerColor
    ensures id == Urgent ==> StyleFor(id).color == UrgentColor
    ensures StyleFor(id).color == StyleFor(other).color <==> id == other
    ensures StyleFor(id).color != PrimaryColor
  {
  }
}
