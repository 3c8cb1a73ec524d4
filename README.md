# Cattle match: the matching engine

A model of the matching engine of the Cattle Match back end. A farmer posts
a supply listing: race, age, sex, head count and one location. A buyer (a
slaughterhouse) posts a demand listing: a list of acceptable locations, a
race or `"Any"`, an age range whose bounds default to 0 and 100, a sex or
`"Any"`, and a minimum head count. When either kind of listing arrives, the
handler stores it. It then scans the opposite collection for compatible
records and reports how many it found.

The model has four modules:

- `Models` (`models.dfy`): the record shapes of `models.py` as datatypes
  `Farmer` and `Buyer`, plus the union `Record`. It also holds the 0/100
  defaults of the buyer's age bounds. An `owner_id` key is modelled as an
  `Option`. The buyer's `location` list is the field `locations`.
- `Matching` (`matching.dfy`): `check_match` as the function `CheckMatch`. It
  is a chain of guards in the source's order: location membership, race with
  the `"Any"` wildcard, sex with the `"Any"` wildcard and Python's substring
  `in`, the inclusive age range, and the quantity floor. `Contains` models
  Python's `in` on strings. It is proved equal to an independent definition:
  the substring occurs at some index.
- `Notifications` (`notifications.dfy`): the notifications collection is a
  class `NotificationStore` holding a `seq`. `save_notification` is the method
  `SaveNotification`, which appends one unread record.
- `Scanning` (`scanning.dfy`): `scan_for_matches`. `Matches` is the
  specification of the `matches` list: the accepted targets, in load order.
  `ScanNotices` is the specification of the notifications a scan appends. Each
  scan method is proved against these two functions. The lemmas about the
  functions give the count, the order and the fan-out.

matcher.py has two definitions of `scan_for_matches`. The later one
(lines 71-87) shadows the earlier one (lines 16-39), and the handlers import
the later one. Both are modelled:

- The live version chooses roles by the flag `is_new_record_farmer`. A new
  farmer is checked against each buyer, and a new buyer against each farmer.
  On a match it calls `send_notification`, which matcher.py neither defines
  nor imports. So, as written, the first match raises `NameError`.
  `ScanForMatchesAsWritten` models exactly that: `Ok(0)` when nothing matches,
  otherwise `Err(NameError("send_notification"))`.
- `ScanForMatches` is the corrected live scan that the rest of the model uses.
  It keeps the live version's role orientation and count. For the missing
  notifier it uses the earlier version's fan-out (`NotifyMatch`): one
  notification to the new record's owner, then one to the target's owner, each
  sent only when that record has an `owner_id`.
- `ScanForMatchesEarly` is the earlier version. It always calls
  `check_match(new_record, target)`. For a new farmer it behaves like the
  corrected scan. For a new buyer, the buyer is put in the farmer role, so the
  first rule tests a list for membership in a string. That raises `TypeError`
  on the first target, before any notification is sent.

The opposite collection is passed to the scans as the list `db.load` returns.
The scans' frames name only the notification store, so a scan cannot change
any listing collection.

Two consequences of the source are proved and worth knowing:

- The sex rule is a case-sensitive substring test. A buyer asking for
  `"Male"` accepts `"Male (Bull)"`. It does not accept `"Female"`, whose
  `"male"` is lower-case (`SexIsSubstringTest`).
- The submission models in `models.py` have no `owner_id` field, and the
  handlers in `main.py` add only `id` and `timestamp`. So the records the
  handlers store never carry an owner. Even the notifying scan would
  therefore address no notification to them (`ScanNoticesCount` with both
  owner counts zero).

## Model

| member | source | states |
|---|---|---|
| `Matching.ContainsIffOccurs` | matcher.py:57 | Python's `in` on strings holds exactly when the buyer's string occurs as a contiguous block at some index of the farmer's string (the empty string occurs everywhere) |
| `Matching.CheckMatchIffAllRules` | matcher.py:41-69 | `check_match` is true iff all five rules hold: location in the buyer's list, race equal or `"Any"`, sex `"Any"` or occurring in the farmer's sex, ageMin ≤ age ≤ ageMax, farmer quantity ≥ buyer quantity |
| `Matching.UnlistedLocationNeverMatches` | matcher.py:47-48 | a farmer whose location is not in the buyer's list never matches, whatever the other fields |
| `Matching.MoreLocationsKeepMatch` | matcher.py:47-48 | replacing the buyer's list with any list that contains it never turns a match into a non-match |
| `Matching.AnyRaceIgnoresFarmerRace` | matcher.py:51-52 | with buyer race `"Any"`, changing the farmer's race never changes the result |
| `Matching.SpecificRaceNeedsEquality` | matcher.py:51-52 | with any other buyer race, a match implies the farmer's race equals it exactly |
| `Matching.AnySexIgnoresFarmerSex` | matcher.py:57-58 | with buyer sex `"Any"`, changing the farmer's sex never changes the result |
| `Matching.SexIsSubstringTest` | matcher.py:55-58 | `"Male"` is accepted in `"Male (Bull)"`; `"Male"` is not in `"Female"` (case-sensitive) and `"Female"` is not in `"Male"` |
| `Matching.AgeBoundsInclusive` | matcher.py:61-62 | a farmer age equal to ageMin or to ageMax passes the age rule (the pair matches when the other rules hold) |
| `Matching.AgeRangeDecides` | matcher.py:61-62 | when the other four rules hold, the pair matches iff ageMin ≤ age ≤ ageMax |
| `Matching.QuantityRuleDecides` | matcher.py:66-67 | when the first four rules hold, the pair fails exactly when the farmer's quantity is below the buyer's |
| `Matching.OmittedAgeBoundsAreZeroToHundred` | models.py:22-23 | a buyer submitted without age bounds passes the age rule exactly for ages 0 to 100 |
| `Notifications.NotificationStore.SaveNotification` | matcher.py:5-13 | appends exactly one record, with the given user id and message, `read` false and the given time; earlier records are unchanged |
| `Scanning.OrientationSymmetric` | matcher.py:80-83 | a new farmer matches a stored buyer iff that buyer, arriving new, matches the stored farmer; both are `check_match(farmer, buyer)` |
| `Scanning.Matches` | matcher.py:78-84 | the `matches` list is never longer than the loaded targets |
| `Scanning.MatchesAreAcceptedTargets` | matcher.py:79-84 | every element of `matches` is a loaded target, and a loaded target is in `matches` exactly when `check_match` accepts it under the flag's role orientation |
| `Scanning.AcceptedIndices` | matcher.py:79-84 | the accepted positions are valid positions of accepted targets, in strictly increasing order |
| `Scanning.AcceptedIndicesComplete` | matcher.py:79-84 | every position whose target `check_match` accepts is among the accepted positions: no early exit, no target skipped |
| `Scanning.MatchesFollowTargetOrder` | matcher.py:78-84 | the k-th element of `matches` is the target at the k-th accepted position: an order-preserving subsequence, one per accepted target |
| `Scanning.MatchNoticesCount` | matcher.py:31-37 | one match yields exactly one notification per party with an `owner_id`: 0, 1 or 2 |
| `Scanning.MatchNoticesFanOut` | matcher.py:31-37 | each notification of one match is unread, carries the scan's time, goes to one party's owner and names the other party's contact |
| `Scanning.ScanNoticesCount` | matcher.py:20-37 | a notifying scan appends one notification per match when the new record has an owner, plus one per matched target with an owner; at most two per match |
| `Scanning.ScanNoticesAddressed` | matcher.py:31-37 | every appended notification is unread, carries the scan's time, and goes to the new record's owner or to the owner of a matched target |
| `Scanning.NotifyMatch` | matcher.py:31-37 | the store grows by exactly the fan-out of one match, new record's owner first |
| `Scanning.ScanForMatches` | matcher.py:71-87 | returns the number of accepted targets under the flag's role orientation and appends exactly that scan's notifications, nothing else changing |
| `Scanning.ScanForMatchesAsWritten` | matcher.py:71-87 | as written: returns 0 when no target matches, and raises NameError for `send_notification` whenever some target matches |
| `Scanning.UnorientedCallByArrival` | matcher.py:25 | for one farmer/buyer pair, the earlier scan's `check_match(new_record, target)` gives the live scan's verdict (in either arrival order) when the farmer is new, and raises TypeError when the buyer is new, whatever the verdict |
| `Scanning.UnorientedCallLosesMatch` | matcher.py:25 | the earlier scan loses real matches: a new sample buyer that the live scan matches with the stored sample farmer makes the earlier call raise TypeError |
| `Scanning.ScanForMatchesEarly` | matcher.py:16-39 | for a new farmer: the match count and the owner-guarded notifications; for a new buyer: 0 with no targets, otherwise TypeError with the store unchanged |
| `Scanning.SampleSubmissionMatches` | matcher.py:83-85 | a concrete farmer/buyer pair that matches: the live scan as written fails on it, and the notifying scan sends both owners one notification each |

## Findings

| source | as written | input that shows it | evidently intended | confidence | as-written member | corrected member |
|---|---|---|---|---|---|---|
| matcher.py:85 | on each match the live scan calls `send_notification`, which matcher.py neither defines nor imports, so the first match raises NameError and the handler never returns a count | `SampleFarmer` submitted while `SampleBuyer` is stored (`SampleSubmissionMatches`) | notify both parties of the match and return the number of matches | high; not executed | `Scanning.ScanForMatchesAsWritten` | `Scanning.ScanForMatches` |

## Left out

- The HTTP handlers of main.py (routing, CORS, the debug and reset endpoints) are not modelled. The handlers' call pattern is kept as the precondition `Oriented`: a new farmer is scanned against buyers with the flag set, and a new buyer against farmers with it clear.
- The `db` module is not part of this model. `db.load` is the `targets` argument, a snapshot list. `db.add_record` on notifications.json is `SaveNotification`. Storing the new listing is the caller's step.
- `time.time()` is the `now` parameter, and `Timestamp` is a `real` that the model only stores and passes through. Every notification of one scan carries the same `now`, whereas each Python call reads the clock afresh.
- `print` logging is console output and is not modelled. The self-import at matcher.py:24 and the in-function import at matcher.py:75 are module mechanics and are not modelled either.
- `uuid4` ids are not modelled. Pydantic validation of the submissions is not modelled, beyond the field types and the 0/100 defaults. An explicit `null` age bound (which would make the age comparison raise TypeError) is not modelled.
- Records of the wrong kind for their collection (say, two farmers compared) are excluded by the preconditions of the scans and of `CheckMatchUnoriented`. The handlers never produce them.
- Concurrent submissions and the read-then-append race between them are not modelled. The model covers one sequential scan.
- Region (state, city) matching with a city wildcard does not exist in this code. Location matching is flat string membership, as written.
