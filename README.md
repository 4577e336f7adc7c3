# Mapéro partner dashboard — a verified model of its core

This project models, in Dafny, the core of the Mapéro partner dashboard: the
web front end in which a bar or restaurant ("establishment") manages its
profile and its promotional offers.

* `api.dfy` — the in-memory back end (`src/lib/api.ts`): the class
  `Api.MockDatabase` holds the signed-in partner, the session tokens, the
  establishment (or none), the offer list and the dashboard statistics; its
  methods are the auth, establishment, offers and dashboard endpoints. Every
  mutating method keeps the invariant `Valid()`: the dashboard's
  `activeOffers` equals the number of active offers.
* `offer_form.dfy` — the offer form's validation schema with its cross-field
  refinement, and the filler that completes a partial offer
  (`src/components/OfferForm.tsx`).
* `establishment_form.dfy` — the establishment form's schema, the
  opening-hours builder (a loop over the seven days) and the default filler
  (`src/components/EstablishmentForm.tsx`).
* `calendar_selector.dfy` — the weekly schedule editor's handlers
  (`src/components/CalendarSelector.tsx`).
* `types.dfy`, `schema.dfy`, `sequences.dfy`, `wrappers.dfy` — the shared
  records of `src/lib/types.ts`, the validation-issue vocabulary and the
  `^\d{2}:\d{2}$` clock pattern, JavaScript's `filter`/`find`/`findIndex`, and
  `Option`/`Result`.

Conventions. Random identifier suffixes and the clock are parameters:
`generateId(prefix)` is `GenerateId(prefix, suffix)` and every
`new Date().toISOString()` is a `now` argument. Calendar dates are day numbers
(days since 1970-01-01; 2024-09-01 is day 19967), so "ends before it starts"
is integer comparison. A thrown error is a `Failure` of `ApiError`, whose
`Message()` is the thrown text. A validation run returns either the values
unchanged or the issues found, each with the field it is attached to, its
kind, and the message the schema gives (`None` where the schema leaves the
library's default text).

Three behaviours of the source worth noting, which the model reproduces:

* the percentage is any number in [5, 80], not only an integer (OfferForm.tsx:34);
* the sample "percentage offer on Fridays" is accepted only once it also has
  a title of at least 4 and a description of at least 10 characters, which
  the sample omits; `OfferForm.FridayPercentageOfferAccepted` adds them;
* the login checks only the email, never the password (api.ts:228).

## Model

| member | source | states |
|---|---|---|
| `Api.GenerateId` | src/lib/api.ts:30-31 | a generated id is the prefix followed by `_` and the suffix |
| `Api.MockDatabase.constructor` | src/lib/api.ts:153-181 | the seeded partner, tokens, establishment `est_001`, the three offers and the statistics (842, 1342, 376, the active-offer count, the weekly trend); the invariant holds and the session is open |
| `Api.MockDatabase.Authenticated` | src/lib/api.ts:183-187 | the guard every protected endpoint runs first: the session is open exactly when the access token is non-empty (no `ensures`; its consequences are stated by the endpoints and `Api.SignedOutScenario`) |
| `Api.InitialActiveOffers` | src/lib/api.ts:170 | the seeded active-offer count is 2 |
| `Api.MockDatabase.Register` | src/lib/api.ts:200-225 | a new partner with fresh tokens is signed in; they join the existing establishment's id, or a fresh `est_` id; an establishment (copy of the seed with the registration's name and email) is created only when there is none; offers and statistics are untouched |
| `Api.RegisteredEstablishment` | src/lib/api.ts:215-221 | the establishment a registration creates carries the given id, the registration's establishment name and email, and every other field of the seeded establishment |
| `Api.MockDatabase.Login` | src/lib/api.ts:226-234 | a different email fails with "Identifiants incorrects" and changes nothing; the registered email gets fresh tokens and an open session |
| `Api.MockDatabase.Logout` | src/lib/api.ts:235-239 | both tokens become empty, so the session is closed; nothing else changes |
| `Api.MockDatabase.Me` | src/lib/api.ts:240-243 | the partner when the session is open, "Session expirée" otherwise |
| `Api.MockDatabase.GetEstablishment` | src/lib/api.ts:247-250 | the establishment or none when the session is open, the session error otherwise |
| `Api.MockDatabase.CreateEstablishment` | src/lib/api.ts:251-264 | without a session nothing changes; otherwise the establishment becomes the payload under a fresh `est_` id created and updated now, and the partner record is left as it was |
| `Api.MockDatabase.UpdateEstablishment` | src/lib/api.ts:265-278 | fails with "Établissement introuvable" and changes nothing unless an establishment with that id exists; otherwise it becomes the shallow merge of the patch stamped now |
| `Api.ApplyEstablishmentPatch` | src/lib/api.ts:271-275 | the shallow merge keeps the id unless the patch names one, always stamps `updatedAt` with the new time, and an empty patch only restamps |
| `Api.MockDatabase.DeleteEstablishment` | src/lib/api.ts:279-285 | clears the establishment exactly when its id matches; any other id leaves it |
| `Api.MockDatabase.ListOffers` | src/lib/api.ts:289-295 | all offers in order, and `total` equals their number |
| `Api.MockDatabase.SetOffers` | src/lib/api.ts:305-306 | replacing the offer list recomputes the active count from it, which restores the invariant |
| `Api.MockDatabase.CreateOffer` | src/lib/api.ts:296-309 | the new offer (fresh `offer_` id, both timestamps now) is put first and the rest follow unchanged; the count is recomputed; nothing changes without a session |
| `Api.MockDatabase.GetOffer` | src/lib/api.ts:310-319 | the offer at the first index whose id matches, "Offre introuvable" when none does |
| `Api.MockDatabase.UpdateOffer` | src/lib/api.ts:320-336 | an unknown id fails and changes nothing; otherwise only the first offer with that id is replaced, by the merge of the patch stamped now, and the count is recomputed |
| `Api.MockDatabase.DeleteOffer` | src/lib/api.ts:337-343 | the list becomes the offers whose id differs, in order, and the count is recomputed |
| `Api.MockDatabase.GetOverview` | src/lib/api.ts:347-353 | the statistics with the message "OK" when the session is open |
| `Api.ActiveCountPrepend` | src/lib/api.ts:305-306 | creating an offer raises the active count by one exactly when the new offer is active |
| `Api.ActiveCountAfterUpdate` | src/lib/api.ts:332-333 | replacing one offer moves the count by the change in that offer's activity only |
| `Api.ActivationPatchChangesOnlyActivity` | src/lib/api.ts:327-331 | switching an offer on or off changes only `isActive` and `updatedAt` |
| `Api.SwitchingActivityMovesCountByOne` | src/lib/api.ts:327-333 | switching one offer's activity moves the dashboard count by exactly one |
| `Api.OfferPatchIdempotent` | src/lib/api.ts:327-331 | merging the same patch twice equals merging it once; `updatedAt` is always the new time; an empty patch only restamps |
| `Api.ApplyOfferPatch` | src/lib/api.ts:327-331 | the shallow merge keeps the id unless the patch names one, always stamps `updatedAt` with the new time whatever the patch carries, and an empty patch only restamps |
| `Api.DeleteAbsentIsNoop` | src/lib/api.ts:340 | deleting an id no offer carries leaves the list as it is |
| `Api.DeleteUniqueKeepsOrder` | src/lib/api.ts:340 | deleting an id carried by one offer removes it and keeps the others in order |
| `Api.DeleteRemovesExactlyThatId` | src/lib/api.ts:340 | afterwards an offer is listed exactly when it was listed and has another id; the list shrinks exactly when the id was present |
| `Api.SignedOutScenario` | src/lib/api.ts:183-187 | after a logout, `me`, `getEstablishment`, `listOffers`, `getOffer` and `getOverview` all fail with the session error |
| `Api.WrongEmailScenario` | src/lib/api.ts:228-230 | a login with another email is refused and the open session stays open |
| `Api.ActivateOfferScenario` | src/lib/api.ts:320-335 | activating `offer_003` brings the dashboard count from 2 to 3 and the list still holds 3 offers |
| `Api.RegisterAfterDeleteScenario` | src/lib/api.ts:215-222 | after the establishment is deleted, registering creates one under a fresh id, named after the registration |
| `Sequences.Filter` | src/lib/api.ts:340 | the kept elements are exactly the input's elements that pass the test; nothing is added |
| `Sequences.FindIndex` | src/lib/api.ts:323 | the first index whose element matches, none exactly when no element matches |
| `Sequences.Find` | src/lib/api.ts:313 | a found element matches and is in the list |
| `Sequences.FindAtFindIndex` | src/lib/api.ts:313-323 | `find` returns the element at the index `findIndex` reports, and nothing exactly when that index is -1 |
| `CalendarSelector.ToggleDay` | src/components/CalendarSelector.tsx:23-28 | a listed day is no longer listed afterwards and the list shrinks; an unlisted day is appended at the end; the times are kept |
| `CalendarSelector.SetStartTime` | src/components/CalendarSelector.tsx:58 | only the start time changes |
| `CalendarSelector.SetEndTime` | src/components/CalendarSelector.tsx:63 | only the end time changes |
| `CalendarSelector.ResetSchedule` | src/components/CalendarSelector.tsx:72 | whatever the current schedule, the reset leaves no day selected and the window 17:00–20:00 |
| `CalendarSelector.ToggleFlipsOnlyThatDay` | src/components/CalendarSelector.tsx:23-28 | toggling flips whether the toggled day is listed and no other day's membership |
| `CalendarSelector.TogglePresentKeepsOrder` | src/components/CalendarSelector.tsx:24-25 | removing a listed day keeps the days before it whole and in order |
| `CalendarSelector.ToggleAbsentTwice` | src/components/CalendarSelector.tsx:24-27 | toggling an unlisted day twice gives back the original schedule |
| `CalendarSelector.ToggleKeepsDistinct` | src/components/CalendarSelector.tsx:23-27 | toggling never makes a day listed twice |
| `OfferForm.ParseOffer` | src/components/OfferForm.tsx:29-76 | all or nothing: the values unchanged, or a non-empty list of all the issues |
| `OfferForm.TextIssuesAt` | src/components/OfferForm.tsx:31-32 | the title and description checks report exactly at a too-short field |
| `OfferForm.ValueIssuesAt` | src/components/OfferForm.tsx:34-36 | the value checks report exactly at a present percentage outside [5, 80], special text over 160 characters or price below 1 |
| `OfferForm.ScheduleIssuesAt` | src/components/OfferForm.tsx:23-27 | the schedule checks report exactly at no day, or a time not shaped HH:MM |
| `OfferForm.RefinementIssuesAt` | src/components/OfferForm.tsx:44-76 | the refinement reports exactly at the chosen type's missing value, and at an end date before the start date |
| `OfferForm.ReportedExactlyWhenBroken` | src/components/OfferForm.tsx:29-76 | an issue is reported at a field exactly when the field's stated rule is broken |
| `OfferForm.ParseAcceptsExactlyAcceptable` | src/components/OfferForm.tsx:29-76 | the schema accepts exactly the offers that follow every rule |
| `OfferForm.TextLengthRules` | src/components/OfferForm.tsx:31-32 | an issue at the title exactly when shorter than 4, at the description exactly when shorter than 10 |
| `OfferForm.PercentageRule` | src/components/OfferForm.tsx:34-51 | an issue at the percentage exactly when it is missing on a percentage offer or present outside [5, 80] |
| `OfferForm.HappyHourPriceRule` | src/components/OfferForm.tsx:36-59 | an issue at the price exactly when it is missing on a happy-hour offer or present below 1 |
| `OfferForm.SpecialTextRule` | src/components/OfferForm.tsx:35-67 | an issue at the special text exactly when it is missing or empty on a special offer, or longer than 160 |
| `OfferForm.ScheduleRules` | src/components/OfferForm.tsx:23-27 | an issue at the days exactly when none is selected, at each time exactly when not shaped HH:MM |
| `OfferForm.EndDateRule` | src/components/OfferForm.tsx:69-75 | an issue at `validity.endDate` (path `['validity', 'endDate']`) exactly when the end is before the start |
| `OfferForm.CreateDefaults` | src/components/OfferForm.tsx:97-117 | the filled values always carry a percentage, a special text and a happy-hour price; without a validity the range starts today and ends 30 days later |
| `OfferForm.CreateDefaultsKeepsOrDefaults` | src/components/OfferForm.tsx:97-117 | provided fields are kept; missing ones become '', percentage, 20, '', 9, Wednesday–Friday 17:00–20:00, today to today+30, active |
| `OfferForm.CreateDefaultsIdempotent` | src/components/OfferForm.tsx:97-117 | filling the defaults of already filled values changes nothing |
| `OfferForm.EmptyFormIssues` | src/components/OfferForm.tsx:97-117 | the defaults of an empty form fail only at the title and the description |
| `OfferForm.DefaultsRequireOnlyChosenType` | src/components/OfferForm.tsx:97-117 | with a valid title and description, the filled defaults are accepted exactly when the type is not special |
| `OfferForm.FridayPercentageOfferAccepted` | src/components/OfferForm.tsx:29-76 | a 30% Friday 17:00–20:00 offer from 2024-09-01 to 2024-12-31 is accepted and active by default |
| `OfferForm.HappyHourWithoutPriceRejected` | src/components/OfferForm.tsx:53-59 | a happy-hour offer without a price is rejected at `happyHourPrice` |
| `OfferForm.ResetScheduleRejected` | src/components/CalendarSelector.tsx:72 | after the schedule reset the offer is rejected at `schedule.days` |
| `EstablishmentForm.CreateOpeningHours` | src/components/EstablishmentForm.tsx:49-60 | the loop builds the same record as the left-to-right reduction over the seven days |
| `EstablishmentForm.Accumulate` | src/components/EstablishmentForm.tsx:52-59 | after the reduction has visited some days, the record holds exactly those days' keys |
| `EstablishmentForm.OpeningHours` | src/components/EstablishmentForm.tsx:49-60 | the finished reduction holds exactly the seven weekday keys |
| `EstablishmentForm.AccumulateAt` | src/components/EstablishmentForm.tsx:52-59 | after visiting some days, exactly those keys are present, each with its filled entry |
| `EstablishmentForm.OpeningHoursKeys` | src/components/EstablishmentForm.tsx:49-60 | the result has exactly the seven weekday keys: extra keys are dropped, missing days added |
| `EstablishmentForm.OpeningHoursDefaults` | src/components/EstablishmentForm.tsx:53-57 | each day keeps its provided fields; a missing open is 17:00, close 23:30, closed true only on Sunday |
| `EstablishmentForm.NoOpeningsGivesDefaultWeek` | src/components/EstablishmentForm.tsx:53-57 | without provided hours every day is 17:00–23:30 and only Sunday is closed |
| `EstablishmentForm.OpeningHoursIdempotent` | src/components/EstablishmentForm.tsx:49-60 | filling already filled opening hours changes nothing |
| `EstablishmentForm.CreateDefaultsKeepsOrDefaults` | src/components/EstablishmentForm.tsx:62-74 | each provided text field is kept and each missing one is '' (name, description, phone, email, address line 1, postal code, city), the country defaults to "France"; the second address line passes through; the opening hours are `OpeningHours` of the provided ones; a missing or empty photo list becomes `['']`, so there is always a photo |
| `EstablishmentForm.CreateDefaults` | src/components/EstablishmentForm.tsx:62-74 | the filled values always hold exactly the seven weekday keys of opening hours and at least one photo entry |
| `EstablishmentForm.CreateDefaultsIdempotent` | src/components/EstablishmentForm.tsx:62-74 | filling the defaults of already filled values changes nothing |
| `EstablishmentForm.ParseEstablishment` | src/components/EstablishmentForm.tsx:27-39 | all or nothing: the values unchanged, or the non-empty set of all issues |
| `EstablishmentForm.ContactIssuesAt` | src/components/EstablishmentForm.tsx:28-31 | the name, description, phone and email checks report exactly at a broken field |
| `EstablishmentForm.AddressIssuesAt` | src/components/EstablishmentForm.tsx:32-36 | the address checks report exactly at a too-short field; the second line is never checked |
| `EstablishmentForm.HoursIssuesAt` | src/components/EstablishmentForm.tsx:21-25 | the hours checks report exactly at a listed day's time not shaped HH:MM |
| `EstablishmentForm.PhotoIssuesAt` | src/components/EstablishmentForm.tsx:38 | the photo checks report exactly at a non-URL entry, or at the list when it is empty |
| `EstablishmentForm.ReportedExactlyWhenBroken` | src/components/EstablishmentForm.tsx:21-39 | an issue is reported at a field exactly when the field's stated rule is broken |
| `EstablishmentForm.ParseAcceptsExactlyAcceptable` | src/components/EstablishmentForm.tsx:21-39 | the schema accepts exactly the values that follow every rule |
| `EstablishmentForm.TextLengthRules` | src/components/EstablishmentForm.tsx:28-36 | minimum lengths: name 2, description 20, phone 6, address 3, postal code 4, city 2, country 2 |
| `EstablishmentForm.ClosedDayTimesStillChecked` | src/components/EstablishmentForm.tsx:21-25 | a day marked closed still needs both times shaped HH:MM |
| `EstablishmentForm.PhotoRules` | src/components/EstablishmentForm.tsx:38 | an issue at photo i (path `['photos', i]`) exactly when it is not a URL; at the list exactly when it is empty |
| `EstablishmentForm.HoursRules` | src/components/EstablishmentForm.tsx:21-25 | an issue at a day's open or close time (path `['openingHours', day, 'open']` and likewise) exactly when the day is listed and that time is not shaped HH:MM |
| `EstablishmentForm.DefaultHoursPass` | src/components/EstablishmentForm.tsx:53-57 | when no hours are provided, the filled week passes every clock check |
| `EstablishmentForm.EmptyFormRejected` | src/components/EstablishmentForm.tsx:62-74 | the defaults of an empty form are rejected at the name and the blank photo, never at the photo count or the country |

## Left out

- Timing: `delay` and the request/mutation wrappers only wait; each endpoint is modelled as the step it performs.
- `clone`: replies are values here, so no caller can alias the database.
- Randomness in `generateId` and the clock: suffixes and `now` are parameters. Where the source reads the clock twice in one call (`createdAt`, `updatedAt`), the model uses one instant.
- The axios client and its base URL: never used by the mock endpoints.
- Date parsing: validity dates are day numbers; JavaScript's `new Date` on malformed strings (an invalid date, which compares false) is not modelled.
- OfferForm.ParseOffer: type errors of the schema (`invalid_type`, NaN, infinite numbers) cannot arise on typed values, so the abort-before-refinement path of the validation library is not modelled; the default messages of checks without a message are `None`, not their library text.
- EstablishmentForm.ParseEstablishment: the email and URL formats are the library's own checks, taken as the parameters `isEmail` and `isUrl`; the issues form a set, because a map has no key order.
- String lengths count Dafny characters, not UTF-16 code units.
- An optional key present with the value `undefined` is not told apart from an absent key in form drafts; in offer patches it is (`Some(None)`).
- `isActive: z.boolean().default(true)`: the values are complete, so the default is applied by `OfferForm.CreateDefaults`.
- The weekday-map to opening-days converter used when saving an establishment, the auth store, the auth form, the map, the dashboard charts and tables, the hooks, the presentation components and `src/types/index.ts` are not part of this model.
