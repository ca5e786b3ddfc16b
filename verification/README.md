# Al-Ansar Masjid app: a verified model of its decision logic

This project models, in Dafny, the logic of the mosque's mobile app that decides
what is fetched, stored, shown and sent, and proves properties of it:

- the two hooks that refresh the adhan times once a day from the prayer-times
  API (all five prayers, or only Maghrib when the mosque opts in), with their
  24-hour to 12-hour conversion, daily gate, re-entry guard and record update;
- the prayer-times screen and its prayer cards, with the `--:--` placeholder;
- the event-category list: active categories sorted by `order`, or a fixed
  default table;
- local notifications: the channel and style tables, the notification record
  built from them, the per-channel wrappers, the permission test and channel
  creation;
- push messages: title, body and channel chosen for each message in the
  background and foreground handlers, and the start-up sequence that signs in,
  asks for permission and registers the device token;
- donations: the payloads sent to the payment callables, the frequency
  precondition, the translation of callable errors, and the hook's loading and
  error state;
- the "manage donations" screen: email check, trimming, link-token extraction
  and its state;
- the campaign card's progress, bar width, colour and "Goal Reached" badge;
- the upcoming-events hook: today's date in YYYY-MM-DD form, the events built
  from a snapshot, and its state.

Every external service (Firestore, Cloud Functions, notifee, Firebase Auth and
Messaging, the prayer-times HTTP API) and the clock are parameters: the model
takes their outcome (a response, an error code and message, a permission
status, the formatted date) as input. A React hook's state is a class whose
methods are the hook's callbacks and effects; an asynchronous function is split
at its `await` where the order of its steps matters (the auto-fetch hooks have
`BeginFetch` before the request and `FinishFetch` after it).

JavaScript's own operations are written out in `js_text.dfy`: `split` on one
character, `trim` with the ECMAScript white-space set, `parseInt` in base 10
(`None` stands for `NaN`), the printing of integers in templates, and the
truthiness used by `||` fallbacks.

The prayer list shows the stored iqama strings as they are. No iqama offset is
added and no next-prayer countdown is computed anywhere in the modelled source
files, so the model has neither; it follows the code.

`MosqueSettings` in types/index.ts:25-33 does not declare `latitude`,
`longitude`, `calculation_method` or `auto_fetch_maghrib`, but both auto-fetch
hooks read them; the model adds them as optional fields. Likewise
`DonationFormData` (types/donation.ts:26-36) has no `campaignId`, which
hooks/useDonation.ts:66 reads; the model's form has it as an optional field.
The `label` field of an event category is called `labelText`, since `label` is
a Dafny keyword.

## Model

| member | source | states |
|---|---|---|
| JsText.JoinSplit | hooks/useAutoFetchPrayerTimes.ts:77 | splitting on a character loses nothing: joining the pieces back gives the input |
| JsText.SplitAfterPiece | hooks/useEvents.ts:35 | a separator-free first piece is split off exactly |
| JsText.LastPieceIsTail | app/manage-donations.tsx:43 | `split(sep).pop()` is the separator-free tail after the last separator, or the whole text |
| JsText.TrimKeeps | app/manage-donations.tsx:24 | `trim` keeps every character that is not white space |
| JsText.TrimEmptyIffAllSpace | app/manage-donations.tsx:24 | the trimmed text is empty exactly when the text is all white space |
| JsText.ParseIntDigits | hooks/useAutoFetchPrayerTimes.ts:78 | `parseInt` of a non-empty run of digits is its decimal value |
| JsText.NatToStringValue | hooks/useAutoFetchPrayerTimes.ts:87 | the printed number reads back as the number |
| AutoFetchPrayerTimes.To12InRange | hooks/useAutoFetchPrayerTimes.ts:79-85 | for hours 0..23 the 12-hour hour is in 1..12, the period is AM exactly before 12, and reading it back gives the hour |
| AutoFetchPrayerTimes.To12Cases | hooks/useAutoFetchPrayerTimes.ts:81-85 | 0 becomes 12 AM, 12 stays 12 PM, 13..23 lose 12 with PM, 1..11 are unchanged with AM |
| AutoFetchPrayerTimes.To12Injective | hooks/useAutoFetchPrayerTimes.ts:79-87 | distinct 24-hour hours give distinct (hour, period) pairs |
| AutoFetchPrayerTimes.ConvertWellFormed | hooks/useAutoFetchPrayerTimes.ts:76-88 | on "HH:MM" the minutes are copied verbatim and the hour is printed in 1..12 without a leading zero, with its period |
| AutoFetchPrayerTimes.CalculationMethod | hooks/useAutoFetchPrayerTimes.ts:57 | the method is the setting when it is non-zero, else 3 |
| AutoFetchPrayerTimes.ApplyAllTimings | hooks/useAutoFetchPrayerTimes.ts:63-107 | a record is written exactly when the response is OK with code 200 and timings, and it is stamped with today |
| AutoFetchPrayerTimes.AllTimingsUpdateFrame | hooks/useAutoFetchPrayerTimes.ts:99-107 | the update sets every adhan to its converted timing and keeps every iqama as read |
| AutoFetchPrayerTimes.ShouldFetch | hooks/useAutoFetchPrayerTimes.ts:25-44 | the gate is open exactly when there is a record, no attempt today and no update today |
| AutoFetchPrayerTimes.WrittenRecordClosesGate | hooks/useAutoFetchPrayerTimes.ts:38-43 | a record written today closes the gate for the rest of the day, whatever the attempt state |
| AutoFetchPrayerTimes.GateReopensNextDay | hooks/useAutoFetchPrayerTimes.ts:31-43 | with attempt and update from another day the gate is open |
| AutoFetchPrayerTimes.AllPrayerTimesFetcher.constructor | hooks/useAutoFetchPrayerTimes.ts:9-10 | not fetching, no attempt recorded |
| AutoFetchPrayerTimes.AllPrayerTimesFetcher.OnInputsChanged | hooks/useAutoFetchPrayerTimes.ts:12-23 | a request starts exactly when the guards pass, the gate is open and no fetch is in flight |
| AutoFetchPrayerTimes.AllPrayerTimesFetcher.BeginFetch | hooks/useAutoFetchPrayerTimes.ts:46-61 | an in-flight fetch blocks another; otherwise the attempt day is recorded before the request is made |
| AutoFetchPrayerTimes.AllPrayerTimesFetcher.FinishFetch | hooks/useAutoFetchPrayerTimes.ts:63-125 | the record written is the all-timings update for the attempt day; `isFetching` is cleared on every path |
| AutoFetchPrayerTimes.FailedFetchIsNotRetried | hooks/useAutoFetchPrayerTimes.ts:49-51 | after a failed fetch the effect makes no second request the same day |
| AutoFetchPrayerTimes.InFlightFetchBlocksAnother | hooks/useAutoFetchPrayerTimes.ts:47 | a fetch in flight blocks a second request, even on another day |
| AutoFetchMaghrib.MaghribTo12Hour | hooks/useAutoFetchMaghrib.ts:76-87 | the inline conversion computes the same text as `convertTo12Hour` |
| AutoFetchMaghrib.ApplyMaghrib | hooks/useAutoFetchMaghrib.ts:65-101 | a record is written exactly when the response is code 200 with a non-empty Maghrib timing, stamped with today |
| AutoFetchMaghrib.MaghribUpdateFrame | hooks/useAutoFetchMaghrib.ts:96-101 | only the Maghrib adhan changes; the other adhans and all iqamas are kept |
| AutoFetchMaghrib.MaghribRejections | hooks/useAutoFetchMaghrib.ts:71-73 | a non-200 code, missing timings or an empty Maghrib writes nothing |
| AutoFetchMaghrib.MaghribGuardsAddOptIn | hooks/useAutoFetchMaghrib.ts:15-17 | the Maghrib guards are the all-prayers guards plus the `auto_fetch_maghrib` opt-in |
| AutoFetchMaghrib.MaghribFetcher.constructor | hooks/useAutoFetchMaghrib.ts:10-11 | not fetching, no attempt recorded |
| AutoFetchMaghrib.MaghribFetcher.OnInputsChanged | hooks/useAutoFetchMaghrib.ts:13-25 | a request starts exactly when the guards and opt-in pass, the gate is open and no fetch is in flight |
| AutoFetchMaghrib.MaghribFetcher.BeginFetch | hooks/useAutoFetchMaghrib.ts:48-63 | an in-flight fetch blocks another; otherwise the attempt day is recorded before the request |
| AutoFetchMaghrib.MaghribFetcher.FinishFetch | hooks/useAutoFetchMaghrib.ts:65-110 | the record written is the Maghrib update for the attempt day; `isFetching` is cleared in `finally` |
| AutoFetchMaghrib.NoOptInNoRequest | hooks/useAutoFetchMaghrib.ts:16 | without the opt-in no request is made |
| AutoFetchMaghrib.RejectedMaghribIsNotRetried | hooks/useAutoFetchMaghrib.ts:49-53 | a rejected response writes nothing and is not retried the same day |
| PrayerCard.ShownTime | components/PrayerCard.tsx:24 | a non-empty time is shown verbatim; a missing or empty one shows `--:--`; the text is never blank |
| PrayerCard.CardShowsEachTimeIndependently | components/PrayerCard.tsx:18-28 | the name is shown unchanged and each time follows the placeholder rule independently of the other |
| PrayerTimesScreen.Prayers | app/index.tsx:49-55 | five entries in the order Fajr, Dhuhr, Asr, Maghrib, Isha, each with the record's adhan and iqama unchanged |
| PrayerTimesScreen.PrayersNamesAndAbsence | app/index.tsx:49-55 | the names read Fajr..Isha; without a record every time is undefined |
| PrayerTimesScreen.RenderScreen | app/index.tsx:44-97 | the loading screen exactly while loading; otherwise five cards and a footer line exactly when `last_updated` is non-empty |
| PrayerTimesScreen.NoRecordShowsPlaceholders | app/index.tsx:49-55 | without a record every card shows `--:--` twice and there is no footer |
| PrayerTimesScreen.ConvertedTimeIsShown | components/PrayerCard.tsx:24 | a converted time is never empty, so it is always shown |
| PrayerTimesScreen.MaghribRefreshChangesOneCard | hooks/useAutoFetchMaghrib.ts:96-101 | after a Maghrib refresh only the Maghrib card's adhan changes on screen |
| PrayerTimesScreen.AllTimesRefreshKeepsIqamas | hooks/useAutoFetchPrayerTimes.ts:98-107 | after a refresh of all adhans every card shows the iqama it showed before |
| EventCategories.FilterActive | hooks/useEventCategories.ts:37 | every kept category is active, and no more are kept than were read |
| EventCategories.FilterActiveCounts | hooks/useEventCategories.ts:37 | each active category is kept exactly as often as it occurs in the input, an inactive one never |
| EventCategories.FilterActiveMembers | hooks/useEventCategories.ts:37 | a category is in the filtered list exactly when it is in the input and active |
| EventCategories.FilterActiveAppend | hooks/useEventCategories.ts:37 | filtering distributes over concatenation, so the input's order is kept |
| EventCategories.InsertPermutes | hooks/useEventCategories.ts:38 | inserting adds exactly one element |
| EventCategories.InsertSorted | hooks/useEventCategories.ts:38 | inserting into a sorted list keeps it sorted by order |
| EventCategories.SortPermutesAndSorts | hooks/useEventCategories.ts:38 | the sort is a permutation and sorted by order |
| EventCategories.ActiveSortedCorrect | hooks/useEventCategories.ts:36-38 | the list is all active, sorted by order, and a permutation of the active input |
| EventCategories.WithOrderOfInsert | hooks/useEventCategories.ts:38 | inserting a category adds it in front of the equal-order ones it goes before |
| EventCategories.SortIsStable | hooks/useEventCategories.ts:38 | categories with equal order keep their relative order |
| EventCategories.DefaultsAreActiveAndOrdered | hooks/useEventCategories.ts:85-134 | six defaults, all active, orders 1..6, so filtering and sorting them changes nothing |
| EventCategories.CategoriesFrom | hooks/useEventCategories.ts:31-50 | a present array (even empty) is filtered and sorted; a missing field or document gives the defaults |
| EventCategories.SnapshotListIsSortedAndActive | hooks/useEventCategories.ts:30-52 | whatever the snapshot, the stored list is sorted and all active |
| EventCategories.CategoriesHook.constructor | hooks/useEventCategories.ts:15-17 | no categories, loading, no error |
| EventCategories.CategoriesHook.Subscribe | hooks/useEventCategories.ts:22-66 | the error is cleared; a setup failure stores its message, the defaults, and stops loading |
| EventCategories.CategoriesHook.OnSnapshot | hooks/useEventCategories.ts:30-53 | the list from the snapshot is stored and loading stops |
| EventCategories.CategoriesHook.OnListenerError | hooks/useEventCategories.ts:54-59 | the message and the defaults are stored and loading stops |
| Listener.SetupErrorMessage | hooks/useEventCategories.ts:63 | an `Error`'s message, or 'Unknown error' |
| NotificationChannels.FromKey | constants/notificationChannels.ts:3 | a string names a channel only when it is that channel's key |
| NotificationChannels.KeyRoundTrip | constants/notificationChannels.ts:3 | each of the five ids is named by its key and by nothing else |
| NotificationChannels.AllChannels | constants/notificationChannels.ts:14-52 | five entries, each the table's channel for its id, every id listed exactly once |
| NotificationChannels.ChannelTableFacts | constants/notificationChannels.ts:14-52 | each id equals its key; prayer and urgent are HIGH and the only ones with a four-step vibration; every sound is 'default' |
| NotificationStyles.StyleTableFacts | constants/notificationStyles.ts:11-46 | every style has small icon 'ic_notification', big text on and no large icon; colours are the palette entries, distinct per channel |
| NotificationService.NotificationFor | services/NotificationService.ts:44-92 | channel defaults to general; importance and colour from the tables; press action 'default'; small icon with 'ic_launcher' fallback; large icon from caller then style, absent if neither; big text of the body exactly when the style asks |
| NotificationService.BuildNotification | services/NotificationService.ts:53-83 | the record built and then completed step by step is the specified one |
| NotificationService.ShippedStylesShape | services/NotificationService.ts:72-83 | with the shipped styles every notification has big text of its body and 'ic_notification', and a large icon exactly when the caller gives a non-empty one |
| NotificationService.WrappersFixTheChannel | services/NotificationService.ts:97-140 | the four wrappers fix the channel and pass title, body and data through |
| NotificationService.GrantedIffAtLeastOne | services/NotificationService.ts:176-178 | status 1 or at least 2 means exactly a status of at least 1 |
| NotificationService.NotificationsEnabled | services/NotificationService.ts:145-153 | enabled exactly when the settings are read and the status is at least 1 |
| NotificationService.InitializeChannels | services/NotificationService.ts:18-39 | channels are created in table order up to the first failure, which is rethrown |
| NotificationService.RequestPermission | services/NotificationService.ts:169-192 | granted exactly when the status is granted and all channels are created; channels are created only when granted |
| FcmService.DataField | services/FCMService.ts:11-14 | a data field is read exactly when the key is present |
| FcmService.BackgroundTitle | services/FCMService.ts:12 | a non-empty `data.title`, else 'Al-Ansar Masjid' |
| FcmService.BackgroundBody | services/FCMService.ts:13 | a non-empty `data.body`, else '' |
| FcmService.ForegroundTitle | services/FCMService.ts:174-176 | `data.title`, then the notification title, then 'Al-Ansar Masjid' |
| FcmService.ForegroundBody | services/FCMService.ts:177-179 | `data.body`, then the notification body, then '' |
| FcmService.BackgroundIgnoresNotificationBlock | services/FCMService.ts:11-13 | the background handler ignores the notification block; both handlers agree when it has no usable text |
| FcmService.RouteChannel | services/FCMService.ts:17-37 | 'prayer', 'event', 'campaign', 'urgent' route to their channels and anything else to general, in both directions |
| FcmService.PluralKeysRouteToGeneral | services/FCMService.ts:17-30 | a type spelled like the channel key 'events' or 'campaigns' goes to general |
| FcmService.HandlerOptions | services/FCMService.ts:185-206 | every branch of the switch passes title, body and data to the routed channel |
| FcmService.HandleBackgroundMessage | services/FCMService.ts:8-41 | the notification shown is built from the background title, body and route; a display failure is caught |
| FcmService.HandleForegroundMessage | services/FCMService.ts:168-210 | the notification shown is built from the foreground title, body and route; a display failure is caught |
| FcmService.ShownMessageShape | services/FCMService.ts:168-210 | a shown message has a title, its data, its routed channel's importance and big text of its body |
| FcmService.FcmClient.constructor | services/FCMService.ts:77 | the signed-in user and token documents as found, no listener set up |
| FcmService.FcmClient.SignInAnonymously | services/FCMService.ts:75-91 | an existing user is kept; otherwise the sign-in outcome is taken and a failure rethrown |
| FcmService.FcmClient.RegisterToken | services/FCMService.ts:120-143 | without a uid nothing is written; a token failure is caught; otherwise the token is merged into the user's document |
| FcmService.FcmClient.OnTokenRefresh | services/FCMService.ts:148-161 | a refresh updates the token only of an existing document of the signed-in user |
| FcmService.FcmClient.Initialize | services/FCMService.ts:47-70 | a sign-in failure aborts; listeners are set up exactly when permission is granted; the token is written only then, and not when there is no uid or the token request or write fails |
| FcmService.DeniedPermissionRegistersNothing | services/FCMService.ts:56-67 | denied permission writes no token, even after a refresh |
| FcmService.GrantedPermissionKeepsTokenCurrent | services/FCMService.ts:56-61 | granted permission stores the token, and a refresh replaces it |
| FcmService.FailedTokenRegistersNothing | services/FCMService.ts:120-161 | a failed token request or write is caught: start-up succeeds and no token is stored, even after a refresh |
| Donation.ErrorMessage | hooks/useDonation.ts:86-97 | the three known codes map to fixed texts; otherwise the error's non-empty message, else the fallback; never empty |
| Donation.CreationsDifferOnlyInTwoMessages | hooks/useDonation.ts:145-156 | subscription errors read the same as donation errors except for not-found and the fallback |
| Donation.CodeBeatsMessage | hooks/useDonation.ts:89-95 | a known code wins over the error's own message |
| Donation.Cents | hooks/useDonation.ts:60 | the amount in cents is within half a cent of the exact amount |
| Donation.CentsOfWholeCents | hooks/useDonation.ts:60 | a whole-cent amount converts exactly |
| Donation.PayloadsAgree | hooks/useDonation.ts:59-127 | both payloads carry the same amount, donor, type and campaign fields; `campaign_id` is "" exactly when none is given; only the one-time payload has the message |
| Donation.MissingFrequencyMessage | hooks/useDonation.ts:110-112 | the missing-frequency error reaches the user with its own message |
| Donation.DonationHook.constructor | hooks/useDonation.ts:17-18 | not loading, no error |
| Donation.DonationHook.CreateDonation | hooks/useDonation.ts:50-102 | the payload is sent; success clears the error; failure stores and returns the translated message; loading ends off |
| Donation.DonationHook.CreateSubscription | hooks/useDonation.ts:105-161 | without a frequency nothing is sent and the frequency message is stored; otherwise as for a donation with subscription messages |
| Donation.RetryClearsError | hooks/useDonation.ts:51-52 | a failed attempt's error is cleared by the next successful one |
| ManageDonations.EmailAcceptedIffAt | app/manage-donations.tsx:24 | an email is accepted exactly when it contains '@'; "@" alone passes |
| ManageDonations.SentEmailShape | app/manage-donations.tsx:37 | the email sent contains '@' and has no white space at either end |
| ManageDonations.TokenIdAfterLastSlash | app/manage-donations.tsx:43 | the token is the text after the last '/' |
| ManageDonations.DevLinkToken | app/manage-donations.tsx:42-43 | from `almadina://manage/TOKEN` the token is TOKEN |
| ManageDonations.ManageDonationsScreen.constructor | app/manage-donations.tsx:20-21 | empty email, not loading |
| ManageDonations.ManageDonationsScreen.SetEmail | app/manage-donations.tsx:105 | the field holds what was typed |
| ManageDonations.ManageDonationsScreen.RequestLink | app/manage-donations.tsx:23-70 | an invalid email is rejected without a call; otherwise the trimmed email is sent, the token or message shown, the field cleared only on success, and loading ends off |
| ManageDonations.FailedRequestKeepsEmail | app/manage-donations.tsx:64-66 | a failed request keeps the email, so it is sent again and cleared on success |
| CampaignCard.Progress | components/CampaignCard.tsx:19-21 | 0 without a positive goal, else the share of the goal times 100 |
| CampaignCard.BarWidth | components/CampaignCard.tsx:61 | at most 100, equal to the progress below 100 |
| CampaignCard.BarColor | components/CampaignCard.tsx:62 | green exactly when the goal is reached, blue otherwise |
| CampaignCard.GoalReachedIffFunded | components/CampaignCard.tsx:83-85 | with a positive goal the badge shows exactly when the amount raised reaches it; never without a goal |
| CampaignCard.BarWidthBounds | components/CampaignCard.tsx:61 | the bar never exceeds 100%, is full exactly when the goal is reached, and is not negative for a non-negative amount |
| CampaignCard.ShownPercentageIsNotClamped | components/CampaignCard.tsx:74 | an over-funded campaign shows more than 100% while the bar stops at 100%; a negative amount gives a negative width |
| CampaignCard.ProgressMonotone | components/CampaignCard.tsx:19-21 | raising more never lowers the progress |
| Events.IsoReordersPieces | hooks/useEvents.ts:35-36 | DD/MM/YYYY becomes YYYY-MM-DD with each piece unchanged |
| Events.IsoExample | hooks/useEvents.ts:34-36 | 05/03/2025 becomes 2025-03-05 |
| Events.IsoWithoutSlashes | hooks/useEvents.ts:35-36 | a date without '/' gives `undefined-undefined-` and the text |
| Events.ToEvent | hooks/useEvents.ts:52 | an event has the document's fields and an `id`, the document id unless the data has its own |
| Events.LoadEvents | hooks/useEvents.ts:50-53 | the loop's list is `EventsOf` the snapshot: one event per document, in order |
| Events.EventsOf | hooks/useEvents.ts:50-53 | one event per document, in snapshot order |
| Events.EventsOfAppend | hooks/useEvents.ts:51-53 | building events keeps the order of concatenated snapshots |
| Events.EventsHook.constructor | hooks/useEvents.ts:16-18 | no events, loading, no error |
| Events.EventsHook.Subscribe | hooks/useEvents.ts:23-69 | the error is cleared; a setup failure stores its message and stops loading |
| Events.EventsHook.OnSnapshot | hooks/useEvents.ts:49-57 | the snapshot's events are stored and loading stops |
| Events.EventsHook.OnListenerError | hooks/useEvents.ts:59-63 | the message is stored, the events kept, and loading stops |
| Events.EventsHook.UpcomingEvents | hooks/useEvents.ts:81 | the upcoming events are all the events |
| Events.EventsHook.PastEvents | hooks/useEvents.ts:84 | there are never past events |

## Left out

- The clock and locale formatting (`new Date()`, `toISOString`, `Date.now`, Sydney-time `toLocaleString`, `formatShortDate`): today's date and the formatted date are parameters; the footer shows the raw `last_updated` value.
- The foreign calls (Firestore reads, writes and listeners, Cloud Functions, Stripe, notifee, Firebase Auth and Messaging, the prayer-times HTTP request): their outcomes are parameters; what is sent to them is returned or stored. Failures of the Firestore reads and writes inside the auto-fetch hooks are not modelled separately; like a bad response they write nothing.
- Timing fields and the request's timestamp, the `createdAt`/`updatedAt` dates of token documents, and the `response.ok` test beyond "unavailable".
- Floating point: campaign progress and the cents conversion use exact reals; `toFixed`, currency formatting and the bar's percent string are not modelled.
- Donation.Cents: `Math.round` is modelled on exact reals, so floating-point rounding of `amount * 100` is not captured.
- Concurrency: the one-minute clock interval, pull-to-refresh, listener unsubscription and the interleaving of callbacks; everything is sequential steps. The transient `loading = true` while a call is in flight is set but not observable in the model.
- `parseInt` with a `0x` prefix or leading `+` followed by hex digits; white space beyond the listed ECMAScript set.
- `loadSettings`, `loadUserDonations` and `subscribeToDonations` of the donation hook, `getUserId` and `openSettings`: reads and UI navigation with no decision logic.
- The events query's filter and order (`is_active`, `date >= today`, ordered by date) run in Firestore; the model takes the snapshot's documents as given.
- The alert buttons and navigation of the manage-donations screen after a link is generated.
- The `Event` type is not part of this model; an event is the map of its document's fields.
- AutoFetchPrayerTimes.AllTimingsUpdateFrame: `PrayerTimes` is a closed record of the declared fields, so "every other field is kept" by the `{...currentPrayerTimes}` spread (hooks/useAutoFetchPrayerTimes.ts:99-100, hooks/useAutoFetchMaghrib.ts:97-98; likewise AutoFetchMaghrib.MaghribUpdateFrame) is stated only for the fields types/index.ts declares, not for undeclared fields a stored document may carry.
- ManageDonations.ManageDonationsScreen.RequestLink: a callable that returns a null `data` makes `data.devLink` throw a TypeError, which the catch shows while keeping the email (app/manage-donations.tsx:38-41, 60-66); `LinkResponse` is never null, so this path is not modelled.
