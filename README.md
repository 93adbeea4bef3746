# pokVoyage travel apps — a Dafny model of the stores, hooks and utilities

pokVoyage holds two small React Native travel apps. The root app keeps
users' trips and their day-by-day itineraries. TravelPlannerApp keeps trips
with activities, accommodations and transportation, plus notifications, a
user profile and preferences. This project models the parts of both that
compute or change state:

- the record stores (`store/tripStore.ts`, TravelPlanner's `tripStore`,
  `notificationStore`, `userStore`) and the account table behind
  `context/AuthContext.tsx`;
- the `useForm` hook's values / errors / touched maps;
- the pure utilities: `groupBy`, `sortBy` and `uniqueBy`, the string
  formatters, the validators, date ranges, the upcoming / past / current
  trip views, and the release-channel rule of `config/env.ts`.

Layout:

- Each source file is one Dafny module, in its own file.
- Three shared modules support them: `Wrappers` (Option), `Seqs` (filter,
  count, subsequence) and `Text` (ASCII case mapping, JavaScript
  whitespace, decimal digits, `indexOf`, UTF-16 code units).
- Strings are sequences of Unicode characters. Where the result depends on
  JavaScript's `length` or `substring` (`truncate`, `minLength`,
  `maxLength`), the string is measured in its UTF-16 code units, and
  `truncate` returns code units.
- Stores that the source updates through zustand `set` or React state are
  classes. Their methods say what they modify.
- AsyncStorage slots are fields (`stored`, `storedUser`, …) that the
  methods write whole. JSON encoding is taken to be the identity.
- Ids and timestamps (`Date.now()`, `Math.random()`) are parameters.
- Storage failures are boolean parameters (`readOk`, `writeOk`,
  `saveOk`, `sessionOk`, `clearOk`). This way the error paths are
  modelled too: those the source catches set an error or return a
  failure result, and the one it does not catch (`clearSession` in
  `logout`) is returned as a rejection.
- Dates are whole day numbers.

## Model

| member | source | states |
|---|---|---|
| ItineraryStore.Items | store/tripStore.ts:83 | a missing itinerary reads as the empty list, a present one as itself |
| ItineraryStore.Renumber | store/tripStore.ts:69 | every item's `order` becomes its index; nothing else about the items changes |
| ItineraryStore.RenumberNumbered | store/tripStore.ts:69 | renumbering a list already numbered by position leaves it unchanged |
| ItineraryStore.RenumberForgetsOrder | store/tripStore.ts:69 | lists that differ only in `order` renumber to the same list |
| ItineraryStore.MakeItem | store/tripStore.ts:78-82 | the new item carries the supplied fields, the fresh id and the given order |
| ItineraryStore.AppendItem | store/tripStore.ts:77-83 | one item is appended with `order` equal to the previous length; earlier items are unchanged |
| ItineraryStore.AppendKeepsNumbered | store/tripStore.ts:77-83 | appending keeps "order == index" |
| ItineraryStore.ReplaceItem | store/tripStore.ts:92 | items with the given id become the given item; the others and the length are unchanged |
| ItineraryStore.ReplaceItemIdempotent | store/tripStore.ts:92 | replacing twice is replacing once |
| ItineraryStore.ReplaceKeepsNumbered | store/tripStore.ts:92 | a replacement carrying the order of its position keeps the list numbered |
| ItineraryStore.RemoveItem | store/tripStore.ts:101-103 | no item with that id remains; every other item is kept, renumbered 0..n-1, in relative order |
| ItineraryStore.RemoveAbsentItem | store/tripStore.ts:101-103 | removing an absent id from a numbered list changes nothing |
| ItineraryStore.RemoveItemKeepsOrder | store/tripStore.ts:101-103 | the kept items are a subsequence of the input, one per item with another id |
| ItineraryStore.TripStore.constructor | store/tripStore.ts:22-24 | no trips, not loaded |
| ItineraryStore.TripStore.LoadTrips | store/tripStore.ts:26-34 | exactly the persisted trips of the user, under their own keys; `loaded` becomes true |
| ItineraryStore.TripStore.AddTrip | store/tripStore.ts:36-42 | the trip is written under its id in both tables; every other key is unchanged |
| ItineraryStore.TripStore.UpdateTrip | store/tripStore.ts:44-50 | the same write as adding, whether or not the id was present |
| ItineraryStore.TripStore.DeleteTrip | store/tripStore.ts:52-63 | an id not in memory changes nothing; otherwise that key leaves both tables and nothing else changes |
| ItineraryStore.TripStore.ReorderItinerary | store/tripStore.ts:65-71 | no-op for an unknown trip; otherwise the itinerary is the given items in the given order, numbered by position |
| ItineraryStore.TripStore.AddItineraryItem | store/tripStore.ts:73-86 | no-op for an unknown trip; otherwise one item appended with the next order, keeping "order == index" |
| ItineraryStore.TripStore.UpdateItineraryItem | store/tripStore.ts:88-95 | no-op for an unknown trip; otherwise only the items with that id are replaced |
| ItineraryStore.TripStore.RemoveItineraryItem | store/tripStore.ts:97-106 | no-op for an unknown trip; otherwise those items leave and the rest are renumbered 0..n-1 |
| PlannerTripStore.PatchTrip | TravelPlannerApp/src/store/tripStore.ts:74 | each of the fifteen trip properties is the supplied one when given, otherwise the old one |
| PlannerTripStore.PatchActivity | TravelPlannerApp/src/store/tripStore.ts:141 | each of the ten activity properties is the supplied one when given, otherwise the old one |
| PlannerTripStore.PatchAccommodation | TravelPlannerApp/src/store/tripStore.ts:208 | each of the ten accommodation properties is the supplied one when given, otherwise the old one |
| PlannerTripStore.PatchTransportation | TravelPlannerApp/src/store/tripStore.ts:275 | each of the ten transportation properties is the supplied one when given, otherwise the old one |
| PlannerTripStore.PatchTripLaws | TravelPlannerApp/src/store/tripStore.ts:72-76 | an empty patch changes nothing; merging twice is merging once; two merges equal one merge of the combined patch |
| PlannerTripStore.PatchActivityLaws | TravelPlannerApp/src/store/tripStore.ts:139-143 | the same three laws for the activity merge |
| PlannerTripStore.PatchAccommodationLaws | TravelPlannerApp/src/store/tripStore.ts:206-210 | the same three laws for the accommodation merge |
| PlannerTripStore.PatchTransportationLaws | TravelPlannerApp/src/store/tripStore.ts:273-277 | the same three laws for the transportation merge |
| PlannerTripStore.MakeTrip | TravelPlannerApp/src/store/tripStore.ts:55-60 | the new trip carries every supplied field, the fresh id, and both timestamps at now |
| PlannerTripStore.MakeActivity | TravelPlannerApp/src/store/tripStore.ts:110-114 | the activity carries every supplied field and the fresh id, and the target trip's id replaces any supplied `tripId` |
| PlannerTripStore.MakeAccommodation | TravelPlannerApp/src/store/tripStore.ts:177-181 | the same for an accommodation: every supplied field, the fresh id and the target trip's id |
| PlannerTripStore.MakeTransportation | TravelPlannerApp/src/store/tripStore.ts:244-248 | the same for a transportation: every supplied field, the fresh id and the target trip's id |
| PlannerTripStore.ForTrip | TravelPlannerApp/src/store/tripStore.ts:116-124 | only trips with the target id change, and they get `updatedAt` now; the length and order are kept |
| PlannerTripStore.UpdateTripIn | TravelPlannerApp/src/store/tripStore.ts:72-76 | trips with that id are merged and stamped; other trips, the length and the order are unchanged |
| PlannerTripStore.AddActivityIn | TravelPlannerApp/src/store/tripStore.ts:116-124 | the activity ends the target trips' activity list; other trips are unchanged |
| PlannerTripStore.UpdateActivityIn | TravelPlannerApp/src/store/tripStore.ts:133-154 | the merge reaches only matching activities inside matching trips |
| PlannerTripStore.DeleteActivityIn | TravelPlannerApp/src/store/tripStore.ts:156-173 | only the target trips' activities with that id are filtered out |
| PlannerTripStore.AddAccommodationIn | TravelPlannerApp/src/store/tripStore.ts:175-198 | the accommodation ends the target trips' list; other trips are unchanged |
| PlannerTripStore.UpdateAccommodationIn | TravelPlannerApp/src/store/tripStore.ts:200-221 | the merge reaches only matching accommodations inside matching trips |
| PlannerTripStore.DeleteAccommodationIn | TravelPlannerApp/src/store/tripStore.ts:223-240 | only the target trips' accommodations with that id are filtered out |
| PlannerTripStore.AddTransportationIn | TravelPlannerApp/src/store/tripStore.ts:242-265 | the transportation ends the target trips' list; other trips are unchanged |
| PlannerTripStore.UpdateTransportationIn | TravelPlannerApp/src/store/tripStore.ts:267-288 | the merge reaches only matching transportations inside matching trips |
| PlannerTripStore.DeleteTransportationIn | TravelPlannerApp/src/store/tripStore.ts:290-307 | only the target trips' transportations with that id are filtered out |
| PlannerTripStore.FindTrip | TravelPlannerApp/src/store/tripStore.ts:82 | `None` exactly when no trip has the id; otherwise a listed trip with that id |
| PlannerTripStore.FindTripFirst | TravelPlannerApp/src/store/tripStore.ts:82 | `find` yields the trip at the first position carrying the id |
| PlannerTripStore.UpdatedCurrentTrip | TravelPlannerApp/src/store/tripStore.ts:81-84 | when the patch keeps the id, the current trip becomes the first matching old trip, merged and stamped |
| PlannerTripStore.DeleteTripMeaning | TravelPlannerApp/src/store/tripStore.ts:92 | deleting keeps every other trip in order and no trip with that id |
| PlannerTripStore.AddActivityOnlyTouchesActivities | TravelPlannerApp/src/store/tripStore.ts:116-124 | adding an activity leaves ids, accommodations and transportations alone and grows the target list by one |
| PlannerTripStore.TripStore.constructor | TravelPlannerApp/src/store/tripStore.ts:37-40 | no trips, no current trip, not loading, no error |
| PlannerTripStore.TripStore.Commit | TravelPlannerApp/src/store/tripStore.ts:63-67 | the list is stored and set only when the write succeeds; otherwise only `error` is set |
| PlannerTripStore.TripStore.FetchTrips | TravelPlannerApp/src/store/tripStore.ts:42-51 | nothing stored reads as the empty list; a failed read sets the error; `loading` always ends false |
| PlannerTripStore.TripStore.AddTrip | TravelPlannerApp/src/store/tripStore.ts:53-68 | one trip appended at the end, earlier trips unchanged; a failed write sets "Failed to add trip" |
| PlannerTripStore.TripStore.UpdateTrip | TravelPlannerApp/src/store/tripStore.ts:70-88 | merges into matching trips only; a current trip with that id becomes the first matching new trip (or none) |
| PlannerTripStore.TripStore.DeleteTrip | TravelPlannerApp/src/store/tripStore.ts:90-102 | drops every trip with the id; a current trip with that id is cleared |
| PlannerTripStore.TripStore.SetCurrentTrip | TravelPlannerApp/src/store/tripStore.ts:104-106 | only `currentTrip` changes |
| PlannerTripStore.TripStore.AddActivity | TravelPlannerApp/src/store/tripStore.ts:108-131 | the new list is `AddActivityIn`, or the failure message |
| PlannerTripStore.TripStore.UpdateActivity | TravelPlannerApp/src/store/tripStore.ts:133-154 | the new list is `UpdateActivityIn`, or the failure message |
| PlannerTripStore.TripStore.DeleteActivity | TravelPlannerApp/src/store/tripStore.ts:156-173 | the new list is `DeleteActivityIn`, or the failure message |
| PlannerTripStore.TripStore.AddAccommodation | TravelPlannerApp/src/store/tripStore.ts:175-198 | the new list is `AddAccommodationIn`, or the failure message |
| PlannerTripStore.TripStore.UpdateAccommodation | TravelPlannerApp/src/store/tripStore.ts:200-221 | the new list is `UpdateAccommodationIn`, or the failure message |
| PlannerTripStore.TripStore.DeleteAccommodation | TravelPlannerApp/src/store/tripStore.ts:223-240 | the new list is `DeleteAccommodationIn`, or the failure message |
| PlannerTripStore.TripStore.AddTransportation | TravelPlannerApp/src/store/tripStore.ts:242-265 | the new list is `AddTransportationIn`, or the failure message |
| PlannerTripStore.TripStore.UpdateTransportation | TravelPlannerApp/src/store/tripStore.ts:267-288 | the new list is `UpdateTransportationIn`, or the failure message |
| PlannerTripStore.TripStore.DeleteTransportation | TravelPlannerApp/src/store/tripStore.ts:290-307 | the new list is `DeleteTransportationIn`, or the failure message |
| NotificationStore.UnreadCount | TravelPlannerApp/src/store/notificationStore.ts:35 | at most the list length, and zero exactly when every notification is read |
| NotificationStore.UnreadCountCons | TravelPlannerApp/src/store/notificationStore.ts:34-35 | a notification put in front adds one to the count exactly when it is unread |
| NotificationStore.MakeNotification | TravelPlannerApp/src/store/notificationStore.ts:27-32 | the new notification has the fresh id and the current time, is unread, and carries the supplied fields |
| NotificationStore.MarkRead | TravelPlannerApp/src/store/notificationStore.ts:42-44 | only notifications with that id become read; the length is kept |
| NotificationStore.MarkReadIdempotent | TravelPlannerApp/src/store/notificationStore.ts:42-44 | marking twice is marking once |
| NotificationStore.MarkReadUnreadCount | TravelPlannerApp/src/store/notificationStore.ts:42-45 | afterwards the unread ones are exactly the unread notifications with other ids |
| NotificationStore.MarkAllRead | TravelPlannerApp/src/store/notificationStore.ts:52 | same length, every notification read, unread count zero |
| NotificationStore.DeleteMeaning | TravelPlannerApp/src/store/notificationStore.ts:58 | deleting keeps exactly the other notifications, in order |
| NotificationStore.NotificationStore.constructor | TravelPlannerApp/src/store/notificationStore.ts:22-24 | empty list, zero count, not loading |
| NotificationStore.NotificationStore.AddNotification | TravelPlannerApp/src/store/notificationStore.ts:26-39 | the new unread notification goes in front, the count grows by one and stays equal to the unread number |
| NotificationStore.NotificationStore.MarkAsRead | TravelPlannerApp/src/store/notificationStore.ts:41-49 | the list is `MarkRead` of the old one and the count matches it |
| NotificationStore.NotificationStore.MarkAllAsRead | TravelPlannerApp/src/store/notificationStore.ts:51-55 | every notification read and the count zero |
| NotificationStore.NotificationStore.DeleteNotification | TravelPlannerApp/src/store/notificationStore.ts:57-63 | the notifications with that id leave; the count matches the rest |
| NotificationStore.NotificationStore.ClearAll | TravelPlannerApp/src/store/notificationStore.ts:65-68 | empty list, zero count, storage key removed |
| NotificationStore.NotificationStore.LoadNotifications | TravelPlannerApp/src/store/notificationStore.ts:70-83 | missing storage reads as the empty list with a matching count; `loading` always ends false |
| UserStore.MergeUser | TravelPlannerApp/src/store/userStore.ts:46 | each of the five user fields is the supplied one when given, otherwise the old one |
| UserStore.MergeUserLaws | TravelPlannerApp/src/store/userStore.ts:46 | an empty patch changes nothing; merging twice is merging once; two merges equal one merge of the combined patch |
| UserStore.MergePreferences | TravelPlannerApp/src/store/userStore.ts:53 | each preference is the supplied one if given, else the current one |
| UserStore.MergePreferencesLaws | TravelPlannerApp/src/store/userStore.ts:53 | merging is idempotent, an empty patch is the identity, two merges compose into one |
| UserStore.UserStore.constructor | TravelPlannerApp/src/store/userStore.ts:20-35 | no user, not authenticated, preferences USD / en / notifications on / light |
| UserStore.UserStore.SetUser | TravelPlannerApp/src/store/userStore.ts:37-40 | the user is set, saved, and authenticated |
| UserStore.UserStore.UpdateUser | TravelPlannerApp/src/store/userStore.ts:42-49 | nothing without a user; otherwise the merged user is set and saved |
| UserStore.UserStore.UpdatePreferences | TravelPlannerApp/src/store/userStore.ts:51-57 | only the supplied preference fields change, and the result is saved |
| UserStore.UserStore.Logout | TravelPlannerApp/src/store/userStore.ts:59-62 | no user, not authenticated, saved user removed, preferences unchanged |
| UserStore.UserStore.LoadUser | TravelPlannerApp/src/store/userStore.ts:64-81 | authenticated exactly when a user was saved; preferences fall back to the defaults; a failed read sets the error |
| AuthContext.EmailsMatch | context/AuthContext.tsx:44 | equal strings match; a match means equal length and equal letters position by position, ignoring case |
| AuthContext.EmailTaken | context/AuthContext.tsx:60 | taken exactly when some stored user's e-mail matches; never in an empty table |
| AuthContext.EmailsMatchEquivalence | context/AuthContext.tsx:44 | matching e-mails ignoring case is an equivalence |
| AuthContext.AddUntakenKeepsDistinct | context/AuthContext.tsx:60-66 | adding a user whose e-mail is not taken keeps e-mails distinct ignoring case |
| AuthContext.LoginMatchUnique | context/AuthContext.tsx:44 | with distinct e-mails at most one user passes the login test |
| AuthContext.AuthProvider.constructor | context/AuthContext.tsx:16-17 | no user, loading |
| AuthContext.AuthProvider.LoadSession | context/AuthContext.tsx:23-38 | the user is set only for a non-empty session id that is a key of the table; loading always ends |
| AuthContext.AuthProvider.Login | context/AuthContext.tsx:40-54 | succeeds iff some user matches the e-mail ignoring case and the password exactly; that user's id becomes the session; a failure changes nothing |
| AuthContext.AuthProvider.Signup | context/AuthContext.tsx:56-74 | a taken e-mail is refused with the table unchanged; otherwise one user is added under the fresh id and becomes session and user; distinct e-mails stay distinct |
| AuthContext.AuthProvider.Logout | context/AuthContext.tsx:76-79 | rejects exactly when clearing the session fails, and then nothing changes; otherwise the session is cleared and there is no user |
| UseForm.Form.constructor | TravelPlannerApp/src/hooks/useForm.ts:11-13 | the initial values, no errors, nothing touched |
| UseForm.Form.HandleChange | TravelPlannerApp/src/hooks/useForm.ts:15-26 | the field's value is set and its showing error removed; other values and errors are unchanged |
| UseForm.Form.HandleBlur | TravelPlannerApp/src/hooks/useForm.ts:28-40 | the field is touched; an error is added for that field only, and only when the validator reports one |
| UseForm.Form.HandleSubmit | TravelPlannerApp/src/hooks/useForm.ts:42-53 | errors become the validation result; the values are submitted iff that result is empty, or always without a validator |
| UseForm.Form.ResetForm | TravelPlannerApp/src/hooks/useForm.ts:55-59 | initial values back, no errors, nothing touched |
| Helpers.GroupBy | TravelPlannerApp/src/utils/helpers.ts:76-85 | the result is the grouping by key, in input order; no group is empty; every item is in its key's group |
| Helpers.Accumulate | TravelPlannerApp/src/utils/helpers.ts:77-84 | the `reduce` callback leaves the item pushed onto its own group, created when missing; other groups are unchanged |
| Helpers.GroupsCover | TravelPlannerApp/src/utils/helpers.ts:79-83 | no group of the grouping is empty, and every item is in its key's group |
| Helpers.GroupsSnoc | TravelPlannerApp/src/utils/helpers.ts:79-82 | one more item lands at the end of its own group and nowhere else |
| Helpers.GroupSizesSum | TravelPlannerApp/src/utils/helpers.ts:76-85 | the group sizes add up to the number of items |
| Helpers.GroupByAsWritten | TravelPlannerApp/src/utils/helpers.ts:76-85 | the code as written over a plain `{}`: it fails only when some item's key is an inherited property name |
| Helpers.GroupByAsWrittenAgrees | TravelPlannerApp/src/utils/helpers.ts:76-85 | away from inherited names the code as written computes the grouping |
| Helpers.GroupByAsWrittenThrows | TravelPlannerApp/src/utils/helpers.ts:79-82 | the key "constructor" makes the code as written fail where one group is intended |
| Helpers.SortBy | TravelPlannerApp/src/utils/helpers.ts:87-96 | a permutation of the input, in key order for 'asc' and reverse key order for 'desc'; the input array is not modified |
| Helpers.InsertAt | TravelPlannerApp/src/utils/helpers.ts:88-95 | one insertion step extends the sorted prefix and keeps the multiset |
| Helpers.UniqueBy | TravelPlannerApp/src/utils/helpers.ts:98-108 | the result is the first occurrence of each key value, in input order |
| Helpers.FirstOccurrencesSubseq | TravelPlannerApp/src/utils/helpers.ts:100-107 | the result is a subsequence of the input |
| Helpers.FirstOccurrencesKeys | TravelPlannerApp/src/utils/helpers.ts:100-107 | the result's key values are pairwise distinct and are exactly those of the input |
| Helpers.FirstOccurrencesAreFirst | TravelPlannerApp/src/utils/helpers.ts:100-107 | each kept item is the first input item with its key value |
| Formatters.Phone | TravelPlannerApp/src/utils/formatters.ts:17-24 | exactly ten digits give "(ddd) ddd-dddd" from those digits; anything else is returned as given |
| Formatters.PhoneKeepsDigits | TravelPlannerApp/src/utils/formatters.ts:17-24 | formatting keeps exactly the digits |
| Formatters.PhoneIdempotent | TravelPlannerApp/src/utils/formatters.ts:17-24 | formatting a formatted number changes nothing |
| Formatters.Duration | TravelPlannerApp/src/utils/formatters.ts:33-44 | "{m}min" under an hour, "{h}h" on the hour, "{h}h {m}min" otherwise |
| Formatters.DurationInjective | TravelPlannerApp/src/utils/formatters.ts:33-44 | different minute counts never print the same text |
| Formatters.Capitalize | TravelPlannerApp/src/utils/formatters.ts:56-58 | same length, first character upper-cased, the rest lower-cased, "" to "" |
| Formatters.CapitalizeIdempotent | TravelPlannerApp/src/utils/formatters.ts:56-58 | under ASCII case mapping, capitalizing twice is capitalizing once |
| Formatters.Truncate | TravelPlannerApp/src/utils/formatters.ts:60-63 | a string of at most n UTF-16 code units is kept; a longer one becomes its first n code units (none for negative n) and "...", n+3 units in all |
| Formatters.TruncateBmp | TravelPlannerApp/src/utils/formatters.ts:60-63 | on text without astral characters the result is the first n characters followed by "..." |
| Formatters.TruncateCountsCodeUnits | TravelPlannerApp/src/utils/formatters.ts:60-63 | two emoji cut at 2 keep one emoji, because each emoji is two code units |
| Validators.Email | TravelPlannerApp/src/utils/validators.ts:2-5 | accepted exactly when the address matches local@name.suffix with no whitespace or extra '@' in any part |
| Validators.EmailAcceptedShape | TravelPlannerApp/src/utils/validators.ts:3-4 | an accepted address has one '@', no whitespace, a non-empty local part and a '.' inside the domain |
| Validators.Required | TravelPlannerApp/src/utils/validators.ts:7-12 | a string needs a non-whitespace character; other values fail only when null or undefined |
| Validators.MinLength | TravelPlannerApp/src/utils/validators.ts:14-16 | the code-unit count is at least min: always when the character count is, never when twice it is below min, and exactly the character test on BMP text |
| Validators.MaxLength | TravelPlannerApp/src/utils/validators.ts:18-20 | the code-unit count is at most max: always when twice the character count is, never when the character count exceeds max, and exactly the character test on BMP text |
| Validators.LengthBounds | TravelPlannerApp/src/utils/validators.ts:14-20 | both bounds hold iff min <= code-unit length <= max, which exceeds the character count when an astral character is present |
| Validators.MinLengthCountsCodeUnits | TravelPlannerApp/src/utils/validators.ts:14-20 | one emoji has length 2: it passes `minLength(_, 2)` and fails `maxLength(_, 1)` |
| Validators.IsValidDate | TravelPlannerApp/src/utils/validators.ts:31-33 | true exactly for a date whose time value is not NaN |
| Validators.IsDateInFuture | TravelPlannerApp/src/utils/validators.ts:35-37 | true only for a valid date, and then exactly when its day number exceeds the current one |
| Validators.IsValidDateRange | TravelPlannerApp/src/utils/validators.ts:39-43 | true iff both dates are valid and the end is not before the start |
| DateUtils.TripDuration | TravelPlannerApp/src/utils/dateUtils.ts:8-10 | at least one day exactly when the start is not after the end, one day exactly for a same-day trip, and start + duration - 1 is the end |
| DateUtils.IsUpcoming | TravelPlannerApp/src/utils/dateUtils.ts:12-14 | false when the day numbers are equal; a date is upcoming relative to now exactly when now is past relative to it |
| DateUtils.IsPast | TravelPlannerApp/src/utils/dateUtils.ts:16-18 | false when the day numbers are equal; a past date is at least one day number before now |
| DateUtils.UpcomingPastExclusive | TravelPlannerApp/src/utils/dateUtils.ts:12-18 | a date is never both upcoming and past, and is one of upcoming, past or equal to now |
| DateUtils.GetDateRange | TravelPlannerApp/src/utils/dateUtils.ts:20-30 | empty when the end precedes the start; otherwise start, start+1, …, end, as many days as `getTripDuration` (lines 8-10) counts |
| UseTrips.UpcomingTrips | TravelPlannerApp/src/hooks/useTrips.ts:21 | exactly the trips whose start day number exceeds now |
| UseTrips.PastTrips | TravelPlannerApp/src/hooks/useTrips.ts:22 | exactly the trips whose end day number is below now |
| UseTrips.CurrentTrips | TravelPlannerApp/src/hooks/useTrips.ts:23-25 | exactly the trips whose start and end day numbers enclose now |
| UseTrips.ExactlyOneView | TravelPlannerApp/src/hooks/useTrips.ts:21-25 | a trip that does not end before it starts is in exactly one view |
| UseTrips.ViewsKeepOrder | TravelPlannerApp/src/hooks/useTrips.ts:21-25 | each view is an in-order subsequence of the trips |
| UseTrips.ViewsPartition | TravelPlannerApp/src/hooks/useTrips.ts:21-25 | the three views together hold every such trip exactly once |
| Env.ConfigFor | TravelPlannerApp/src/config/env.ts:11-31 | `ENV[e]`, the lookup `getEnvVars` returns through, names environment e |
| Env.GetEnvVars | TravelPlannerApp/src/config/env.ts:33-46 | undefined → development; "prod" anywhere → production; else "staging" anywhere → staging; else development |
| Env.ProductionBeatsStaging | TravelPlannerApp/src/config/env.ts:39-44 | every channel containing both "prod" and "staging" selects production |
| Env.StagingOnlyWithoutProd | TravelPlannerApp/src/config/env.ts:36-45 | staging is selected exactly for a defined channel containing "staging" and not "prod" |

## Left out

- I/O outside the stores: `openURL`, `openEmail`, `openPhone`, `openMaps`, `share`, `wait`, `retry` and `generateId` in `utils/helpers.ts`. These are platform calls, timers and randomness.
- Formatters `currency`, `number`, `percentage`, `distance` and `fileSize`. They rest on `Intl` and floating point.
- Validators `isNumber` and `isPositiveNumber`. They rest on `parseFloat` and NaN.
- `formatDate` and real `Date` arithmetic. Dates are whole day numbers, so `differenceInDays` is a subtraction.
- AsyncStorage, `lib/storage.ts` and JSON. They are fields written whole, and JSON is the identity. Revived `Date` fields coming back as strings are not modelled.
- The storage service behind the notification and user stores is not part of this model. Its writes are taken to succeed, and a failing read is a parameter.
- A failing read of the users table or trip table in `context/AuthContext.tsx` and `store/tripStore.ts` is not modelled. Neither is a throwing `setSession` inside `signup` beyond its flag.
- Async interleaving: each action is one atomic step. This includes the un-awaited `saveTrips` in `store/tripStore.ts`.
- The `fetchTrips` effect of `useTrips` is I/O.
- Inherited `Object.prototype` names (such as "constructor") used as a trip id or session id. The source's `trips[tripId]` and `users[userId]` tests read them as present; the model treats them as absent. For `groupBy` the same effect is a finding, below.
- UseForm.Form.HandleBlur: a field named after an inherited `Object.prototype` member (such as "toString") is not modelled. The source's `validationErrors[name]` test finds the inherited function, which is truthy, and stores it in `errors`; the model's `errors` holds strings only and adds nothing.
- Partial patches carrying an explicit `undefined` value: the spread would copy the `undefined`; a patch field is either supplied or absent.
- Notification `data` (type `any`) is kept as an optional string. Destination coordinates and budgets are reals that nothing computes with.
- Formatters.Capitalize: case mapping covers ASCII letters only. JavaScript's full Unicode mapping, which can change a string's length, is not modelled.
- AuthContext.EmailsMatch: the same ASCII-only lowering applies to e-mail comparison.
- Other string operations (`capitalize`, the phone formatter, the e-mail pattern) work on characters. Under ASCII case mapping, `\D` and `[^\s@]`, an astral character behaves like its two code units, so the difference does not show there.
- Validators.IsDateInFuture, DateUtils.IsUpcoming, DateUtils.IsPast, UseTrips.UpcomingTrips, UseTrips.PastTrips and UseTrips.CurrentTrips compare day numbers, while the source compares instants against `new Date()`. In the source a date on the current day is upcoming or past by its time of day: a trip created at 09:00 with both dates at that moment is in `pastTrips` at 09:01 the same day, whereas the model puts it in `currentTrips`.
- Formatters.CapitalizeIdempotent: holds for the model's ASCII case mapping only. Under JavaScript's full mapping `capitalize` is not idempotent: `capitalize("ßa")` is "SSa", because `"ß".toUpperCase()` is "SS", and `capitalize("SSa")` is "Ssa".
- Formatters.Duration: natural minute counts only. Negative or fractional minutes are not modelled.
- Helpers.SortBy: integer keys only; string keys and mixed types are not modelled. Stability is not stated.
- AuthContext.AuthProvider.Login: picks any matching user, not the first in insertion order. While e-mails are distinct there is at most one (AuthContext.LoginMatchUnique).
- UseTrips.UpcomingTrips, UseTrips.PastTrips and UseTrips.CurrentTrips use one `now` for all three views. The source reads the clock once per comparison.

## Findings

| source | as written | input that shows it | evidently intended | confidence | as-written member | corrected member |
|---|---|---|---|---|---|---|
| TravelPlannerApp/src/utils/helpers.ts:76-85 | groups accumulate in a plain `{}`, so `!result[groupKey]` is false for a key that names an inherited member, and `push` is called on that inherited function | `groupBy([{ k: "constructor" }], "k")` throws a TypeError | every key value gets its own group: `{ constructor: [item] }` | not executed | Helpers.GroupByAsWritten (Helpers.GroupByAsWrittenThrows) | Helpers.GroupBy (Helpers.GroupByAsWrittenAgrees) |
