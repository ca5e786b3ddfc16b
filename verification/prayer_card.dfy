/** One row of the prayer list (components/PrayerCard.tsx): the prayer's name and
    its two times, with a placeholder for a missing time. */
module PrayerCard {
  import opened Wrappers
  import opened JsText

  /** What the card shows instead of a missing time. */
  const Placeholder: string := "--:--"

  /** `time || '--:--'`: the stored string when it is defined and non-empty,
      otherwise the placeholder; the shown text is never blank. */
  function ShownTime(time: Option<string>): (shown: string)
    ensures shown != ""
    ensures Truthy(time) ==> shown == time.value
    ensures !Truthy(time) ==> shown == Placeholder
  {
    OrElse(time, Placeholder)
  }

  /** The texts a card renders. */
  datatype CardText = CardText(name: string, adhan: string, iqama: string)

  function RenderCard(name: string, adhan: Option<string>, iqama: Option<string>): CardText {
    CardText(name, ShownTime(adhan), ShownTime(iqama))
  }

  /** The name is shown unchanged, and each time follows the placeholder rule on
      its own: the iqama shown does not depend on the adhan and vice versa. */
  lemma CardShowsEachTimeIndependently(name: string, adhan: Option<string>, iqama: Option<string>, otherAdhan: Option<string>, otherIqama: Option<string>)
    ensures RenderCard(name, adhan, iqama).name == name
    ensures RenderCard(name, adhan, iqama).iqama == RenderCard(name, otherAdhan, iqama).iqama
    ensures RenderCard(name, adhan, iqama).adhan == RenderCard(name, adhan, otherIqama).adhan
    ensures RenderCard(name, None, iqama).adhan == Placeholder
    ensures RenderCard(name, Some(""), iqama).adhan == Placeholder
    ensures RenderCard(name, adhan, None).iqama == Placeholder
  {
  }
}
