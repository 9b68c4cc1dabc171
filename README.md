# Waste calendar updater — a verified model of the sync core

The program reads a JSON document listing the collection dates of five
waste categories (metals and plastics, paper, glass, bio, mixed) and makes
sure that each date has an all-day event in a Google Calendar. It can be run
again safely. For each (category, date) pair it asks the calendar whether an
event with the category's label already starts on that date. It skips the
pair when one does and creates the event when none does. Every pair yields a
result, `added` or `skipped`.

This project models that core in Dafny:

- `DateFormat` (`date_format.dfy`) is the `YYYY-MM-DD` text layer. It covers
  what the schema's pattern accepts, how the date parser reads the three
  fields and how `toISOString` writes a date back out. This includes the
  six-digit `+010000` year after 9999.
- `Dates` (`dates.dfy`) models `src/utils/date.ts`: `validateDate`,
  `getNextDay` and `formatDateForCalendar`, over proleptic-Gregorian dates.
  It also models `getNextDay` as the code computes it on a host with a fixed
  UTC offset (see Findings).
- `Schemas` (`schemas.dfy`) models `src/validation/schemas.ts`. A JSON value
  is parsed into a `WasteCalendar`, or into the list of issues found, each
  with its path.
- `Config` (`config.dfy`) holds the category-to-label table and the
  360-minute reminder.
- `Calendar` (`client.dfy`) models `src/calendar/client.ts`:
  - the event types;
  - the `eventExists` query window and match;
  - a `CalendarClient` class that stores the events and logs every insert.
- `Reconciler` (`event_manager.dfy`) models `src/calendar/event-manager.ts`:
  - `Run` is the reference definition of a sync over a plan of items;
  - `Plan` fixes the visiting order;
  - the `EventManager` class does the same walk with nested loops against a
    `CalendarClient` and is proved to agree with `Run`.

`Run` takes the event builder as a parameter. The properties about order,
lookups, creates and idempotence are therefore proved for any builder that
makes events the existence check finds. The sync then instantiates them with
`Build`, the event `createWasteEvent` inserts.

Where the code and its written description differ, the model follows the code:

- Keys the schema does not declare are dropped, not rejected. This is the
  schema library's default object mode (`Schemas.ParseIgnoresUnknownKeys`).
- The pattern `^\d{4}-\d{2}-\d{2}$` accepts `2024-13-01`
  (`Schemas.PatternIsLexicalOnly`). A document `{"paper": ["2024-13-01"]}`
  is rejected because four keys are missing, not because of the date. A
  full document with that date passes the schema, and the sync then stops
  at it when `getNextDay` throws (`Dates.NextDayExamplesNotADate`,
  `Reconciler.SyncFailsOnlyOnInvalidDate`).

## Model

| member | source | states |
|---|---|---|
| DateFormat.IsDateShaped | src/validation/schemas.ts:3 | reference definition of `^\d{4}-\d{2}-\d{2}$`: ten characters, ASCII digits except `-` at positions 4 and 7; `Schemas.PatternIsLexicalOnly` shows what it accepts and rejects |
| DateFormat.Format | src/utils/date.ts:11 | reference definition of the date part of `toISOString`: four-digit zero-padded year (signed six digits beyond 9999), two-digit month and day; `DateFormat.FieldsOfFormat` and `DateFormat.ExtendedYearNotShaped` state its properties |
| DateFormat.PadValueOf | src/validation/schemas.ts:3 | a digit string read as a number and padded back to its width is the same string, so the `\d{4}`/`\d{2}` fields round-trip |
| DateFormat.FormatFieldsOf | src/validation/schemas.ts:3 | every `YYYY-MM-DD`-shaped string is the rendering of the triple its fields spell |
| DateFormat.FieldsOfFormat | src/utils/date.ts:11 | the rendering of a four-digit-year triple is pattern-shaped and reads back as that triple |
| DateFormat.ExtendedYearNotShaped | src/utils/date.ts:11 | a year of five or more digits renders in the signed extended form, which the date pattern rejects |
| Dates.IsValidDate | src/utils/date.ts:4-5 | reference definition of a real calendar date: year 0000 or later, month 1 to 12 and day within the month's length, leap years by the Gregorian rule; `Dates.ParseIsoDateRejects` shows the cases it excludes |
| Dates.DaysInMonth | src/utils/date.ts:4-5 | month lengths lie between 28 and 31 |
| Dates.NextDay | src/utils/date.ts:10 | the day after a real date is a real date |
| Dates.PrevDay | src/utils/date.ts:10 | the day before a real date (other than 0000-01-01) is a real date |
| Dates.NextDayIsOneDayLater | src/utils/date.ts:10 | `addDays(date, 1)`: the day count advances by exactly one, across month and year ends |
| Dates.DayNumberInjective | src/utils/date.ts:10 | distinct real dates have distinct day counts |
| Dates.NextDayUnique | src/utils/date.ts:10 | a real date is one day later than `d` if and only if it is NextDay(d) |
| Dates.PrevDayNextDay | src/utils/date.ts:10 | PrevDay undoes NextDay |
| Dates.ParseIsoDate | src/utils/date.ts:3-6 | a result is a real four-digit-year date whose rendering is the input; no result means no real date renders as the input |
| Dates.ValidateDate | src/utils/date.ts:3-6 | `validateDate`: whether parsing yields a valid date; `Dates.ValidateDateIffRealDate` states what it accepts |
| Dates.ValidateDateIffRealDate | src/utils/date.ts:3-6 | `validateDate(s)` holds if and only if `s` is the rendering of a real date with a four-digit year |
| Dates.ParseIsoDateFormat | src/utils/date.ts:4 | parsing the rendering of a real date gives that date back |
| Dates.ParseIsoDateRejects | src/utils/date.ts:4-5 | a pattern-shaped triple that is not a real date (month 13, 30 February) is invalid |
| Dates.GetNextDay | src/utils/date.ts:8-12 | fails exactly when the input is not a valid date, with that input's error |
| Dates.GetNextDayOfRealDate | src/utils/date.ts:8-12 | for a valid date the result is the rendering of the next calendar day |
| Dates.GetNextDayIsOneDayLater | src/utils/date.ts:8-12 | the end date is the rendering of the unique real date one day after the start |
| Dates.GetNextDayShape | src/utils/date.ts:11 | the next day is again `YYYY-MM-DD`-shaped, except after 9999-12-31 |
| Dates.NextDayExampleLeapYear | src/utils/date.ts:8-12 | 2024-02-28 is followed by 2024-02-29 |
| Dates.NextDayExampleCommonYear | src/utils/date.ts:8-12 | 2023-02-28 is followed by 2023-03-01 |
| Dates.NextDayExampleYearEnd | src/utils/date.ts:8-12 | 2024-12-31 is followed by 2025-01-01 |
| Dates.NextDayExamplesNotADate | src/utils/date.ts:8-12 | 2024-02-30 and 2024-13-01 make `getNextDay` throw |
| Dates.FormatDateForCalendar | src/utils/date.ts:14-19 | the start is the input unchanged and the end is `getNextDay` of it; it fails exactly when the input is invalid |
| Dates.UtcDateOfLocalMidnight | src/utils/date.ts:9-11 | the UTC date of a local midnight is a real date |
| Dates.GetNextDayInZone | src/utils/date.ts:8-12 | the as-written computation fails exactly on invalid input |
| Dates.GetNextDayInZoneAsWritten | src/utils/date.ts:9-11 | east of UTC the as-written result is the input itself; on UTC or west of it, it is the next day |
| Dates.GetNextDayInZoneExample | src/utils/date.ts:9-11 | at UTC+2, 2024-06-01 yields 2024-06-01, where the next day is 2024-06-02 |
| Schemas.ElementIssues | src/validation/schemas.ts:3-5 | no issues exactly when every element is a pattern-shaped string; each issue's path is the key and the index of an offending element |
| Schemas.ElementIssuesReportsEvery | src/validation/schemas.ts:8-12 | every element that is not a date string gets an issue at its own index, not only the first |
| Schemas.Strings | src/validation/schemas.ts:8-12 | the accepted strings are the array's elements, in order |
| Schemas.DateList | src/validation/schemas.ts:8-12 | a key's list is accepted exactly when the key is present and holds an array of date strings; a rejection carries issues |
| Schemas.DateListKeepsStrings | src/validation/schemas.ts:8-12 | an accepted list has the array's strings, unchanged and in order |
| Schemas.DateListIssuePaths | src/validation/schemas.ts:8-12 | every issue of a rejected list has a path that starts at its key |
| Schemas.Parse | src/validation/schemas.ts:7-13 | accepted exactly when the document conforms (an object whose five keys all hold date arrays); each category then holds its key's list; a rejection has issues |
| Schemas.ParseReportsEveryIssue | src/validation/schemas.ts:7-13 | a rejected object reports the issues of every failing key, not only the first, and no other issues |
| Schemas.Conforms | src/validation/schemas.ts:7-13 | reference definition of what the schema accepts: an object whose five keys each hold an array of date strings; `Schemas.Parse` accepts exactly these |
| Schemas.DateListToJsonArray | src/validation/schemas.ts:8-12 | a date array written from a list reads back as that list |
| Schemas.ParseToJson | src/validation/schemas.ts:7-13 | parsing the serialisation of a calendar of date-shaped strings gives the calendar back |
| Schemas.ParseIgnoresUnknownKeys | src/validation/schemas.ts:7-13 | adding an undeclared key does not change the outcome |
| Schemas.MissingKeyRejected | src/validation/schemas.ts:7-13 | a missing category key is rejected with a `Required` issue at that key |
| Schemas.EmptyListsAccepted | src/validation/schemas.ts:8-12 | five empty arrays are a valid calendar with no dates |
| Schemas.PatternIsLexicalOnly | src/validation/schemas.ts:3 | the pattern accepts 2024-13-01 and 2024-02-30 and rejects short fields, trailing text and leading text |
| Config.Label | src/config/index.ts:48-54 | every category's key is in the table, and the label is its entry |
| Config.LabelTable | src/config/index.ts:48-54 | the table's keys are exactly the five schema keys, the five labels are as listed, and no two categories share a label |
| Calendar.QueryWindow | src/calendar/client.ts:41-43 | the query spans `T00:00:00Z` to `T23:59:59Z` of the date and searches for the summary |
| Calendar.StartsOn | src/calendar/client.ts:51 | reference definition of a start on the date: an all-day start equal to it or a timed start whose text begins with it; `Calendar.StartExamples` shows both |
| Calendar.Matches | src/calendar/client.ts:49-51 | reference definition of the `some` callback: exact summary and a start on the date; `Calendar.SummaryMustBeExact` shows what it rejects |
| Calendar.AnyMatch | src/calendar/client.ts:47-52 | true exactly when some listed event has the summary and starts on the date |
| Calendar.FoundIn | src/calendar/client.ts:47-52 | a missing item list means no match; otherwise true exactly when a listed event matches |
| Calendar.MatchPassesTextFilter | src/calendar/client.ts:43 | an event the match accepts is never dropped by the text search for its own summary |
| Calendar.SummaryMustBeExact | src/calendar/client.ts:50 | a summary differing in case, with extra text, or missing does not match |
| Calendar.StartExamples | src/calendar/client.ts:51 | all-day and timed starts on the date match; a start on another day, or none, does not |
| Calendar.CalendarClient.List | src/calendar/client.ts:39-45 | the listed events are exactly the stored events that pass the text search |
| Calendar.CalendarClient.EventExists | src/calendar/client.ts:38-54 | true exactly when some stored event has the summary and starts on the date |
| Calendar.CalendarClient.CreateEvent | src/calendar/client.ts:29-36 | the event is appended to the stored events and to the insert log, and returned |
| Reconciler.Pairs | src/calendar/event-manager.ts:22-23 | one item per date, in input order, each under the category's summary |
| Reconciler.Visits | src/calendar/event-manager.ts:19-26 | reference definition of the nested loops' order over some categories; `Reconciler.CategoryStep` ties each outer turn to it |
| Reconciler.Plan | src/calendar/event-manager.ts:19-26 | reference definition of everything one sync visits; `Reconciler.PlanOrder` and `Reconciler.PlanLength` state its order and size |
| Reconciler.PlanOrder | src/calendar/event-manager.ts:19-26 | a sync visits metals and plastics, paper, glass, bio, then mixed, each category's dates in input order, under the category's label |
| Reconciler.PlanLength | src/calendar/event-manager.ts:19-26 | a sync visits as many items as the calendar lists dates |
| Reconciler.WasteEvent | src/calendar/event-manager.ts:51-71 | the event has the summary, an all-day start on the date, an all-day end on the next day, and only a 360-minute popup reminder; it fails exactly on an invalid date, with that date's error |
| Reconciler.Build | src/calendar/event-manager.ts:51-71 | the event `createWasteEvent` builds for an item; `Reconciler.WasteEvent` states its fields and `Reconciler.BuildIsFound` that the existence check finds it |
| Reconciler.BuildIsFound | src/calendar/event-manager.ts:54-61 | an event built for a summary and date is found by the existence check for that summary and date |
| Reconciler.BuildExample | src/calendar/event-manager.ts:51-71 | the event for Plastic Garbage on 2024-06-01 ends on 2024-06-02 with a six-hour popup |
| Reconciler.Step | src/calendar/event-manager.ts:31-49 | reference definition of one `syncEvent` against the stored events; `Reconciler.StepDecides` states what it decides and `Reconciler.EventManager.SyncEvent` is proved equal to it |
| Reconciler.Run | src/calendar/event-manager.ts:16-29 | reference definition of `syncWasteCalendar` over a plan: steps in order against the events stored so far, stopping at the first error; the `Reconciler.Run…` lemmas state its properties and `Reconciler.EventManager.SyncWasteCalendar` is proved equal to it |
| Reconciler.StepDecides | src/calendar/event-manager.ts:31-49 | one `syncEvent`: a single result for the item unless building failed; `skipped` exactly when a match is stored; `added` exactly when the built event is created; an error only when nothing matched and building failed |
| Reconciler.RunFollowsPlan | src/calendar/event-manager.ts:19-28 | the results follow the plan item by item (label and date); there is one per item unless an error stopped the run |
| Reconciler.RunCreatesExactlyAdded | src/calendar/event-manager.ts:42-48 | one create per `added` result, in order, each the event built for that item |
| Reconciler.AddedAfterStep | src/calendar/event-manager.ts:31-49 | one more step keeps the creates paired with the `added` items |
| Reconciler.RunDecidesByLookup | src/calendar/event-manager.ts:32-40 | an item is `skipped` exactly when a matching event is stored when it is checked, counting events this run created earlier |
| Reconciler.RunFailureCause | src/calendar/event-manager.ts:42 | a run stops only at an item with no stored match whose event cannot be built, and reports that error |
| Reconciler.RunPrefix | src/calendar/event-manager.ts:19-28 | the results and creates of a prefix of the plan are prefixes of the whole run's; an error in the prefix is the whole run's outcome |
| Reconciler.RunAppend | src/calendar/event-manager.ts:19-26 | syncing `p` then `q` (against the updated calendar) is the run over `p + q` |
| Reconciler.AnyMatchGrows | src/calendar/client.ts:47-52 | adding events never hides a match |
| Reconciler.ItemStoredAfterStep | src/calendar/event-manager.ts:31-49 | once an item has been synced, a matching event is stored |
| Reconciler.RepeatedItemSkipped | src/calendar/event-manager.ts:31-40 | a date repeated in one category is skipped on its later occurrence |
| Reconciler.RunLeavesEveryItemStored | src/calendar/event-manager.ts:16-29 | after a run without error, every visited item has a matching event |
| Reconciler.AllSkipped | src/calendar/event-manager.ts:35-39 | one `skipped` result per item, with the item's label and date |
| Reconciler.RunOverStoredItems | src/calendar/event-manager.ts:32-40 | when every item already has an event, a run skips all of them and creates nothing |
| Reconciler.SecondRunSkipsEverything | src/calendar/event-manager.ts:16-29 | running the same plan again over the updated calendar only skips |
| Reconciler.SyncFailsOnlyOnInvalidDate | src/calendar/event-manager.ts:52 | a sync stops only at a date `validateDate` rejects, with that date's error |
| Reconciler.SyncSucceedsOnRealDates | src/calendar/event-manager.ts:16-29 | over valid dates a sync never fails and reports every item |
| Reconciler.SyncCreatesWasteEvents | src/calendar/event-manager.ts:51-74 | each created event is the all-day, six-hour-reminder event of an `added` item with a valid date |
| Reconciler.SyncIsIdempotent | src/calendar/event-manager.ts:16-29 | syncing a calendar again after a successful sync adds nothing and reports every pair `skipped` |
| Reconciler.FirstSyncOfOneDate | src/calendar/event-manager.ts:16-29 | one new date on an empty calendar is `added`, with its event created |
| Reconciler.RunOfOne | src/calendar/event-manager.ts:22-25 | a run over one item is that item's `syncEvent` |
| Reconciler.RunStep | src/calendar/event-manager.ts:22-25 | each turn of the inner loop extends the run by one `syncEvent`; an error there ends the whole run |
| Reconciler.CategoryStep | src/calendar/event-manager.ts:19-26 | each turn of the outer loop appends one category's run; an error there ends the whole sync |
| Reconciler.EventManager.CreateWasteEvent | src/calendar/event-manager.ts:51-74 | inserts exactly the built event, or inserts nothing and reports the error `formatDateForCalendar` throws |
| Reconciler.EventManager.SyncEvent | src/calendar/event-manager.ts:31-49 | the result and the calendar's new contents are those of one `Step`; on an error nothing is inserted |
| Reconciler.EventManager.SyncDates | src/calendar/event-manager.ts:22-25 | the results, the error and the inserts are those of `Run` over the category's items |
| Reconciler.EventManager.SyncWasteCalendar | src/calendar/event-manager.ts:16-29 | the results, or the error, are `Run`'s over the calendar's plan; the calendar gains exactly the events the run created |

## Left out

- Authentication, the command-line interface, output formatting, reading the input file and the environment configuration are not part of this model. Only the label table and the reminder constant of `src/config/index.ts` are.
- Calendar service failures (network, quota, permissions) are not modelled: `List` and `CreateEvent` always succeed. The only error a sync can meet is the one `getNextDay` throws on an invalid date.
- `listEvents` (`src/calendar/client.ts:14-27`) is not used by the sync. Its time window and ordering are not modelled.
- Calendar.CalendarClient.List: does not apply the `timeMin`/`timeMax` window, and takes the service's free-text search to be a case-sensitive substring test on the summary. Because the window is not applied, the model's `EventExists` also finds a timed event whose start text begins with the date but whose span lies outside that UTC day. An example is `2024-06-01T01:00:00+05:00` for one hour, which ends at 2024-05-31T21:00Z. The service would not return that event, so the code would add where the model skips. The all-day events the sync itself creates always overlap the UTC day of their date, so the idempotence results hold for them.
- `await` and concurrency are not modelled: each call finishes before the next starts. Two syncs running at once could both miss an event and both create it; the model does not capture that window.
- A thrown error loses the results array in the source. The model returns `Err` with no results, and the calendar keeps the events created before the error, as the source does.
- Dates.ValidateDate: models `parseISO` only for the `YYYY-MM-DD` form the schema lets through. Other ISO 8601 forms it accepts (week dates, ordinal dates, times) are not modelled.
- Dates.GetNextDay: the reference version takes the next calendar day. The as-written timezone behaviour is modelled separately, for a fixed offset of less than a day; daylight-saving transitions are not modelled.
- JSON numbers are modelled as integers; only their type matters to the schema.
- The reconciler's properties are proved for any builder the existence check finds, and then instantiated with `Build`. The sync itself always uses `Build`.

## Findings

| source | as written | input that shows it | evidently intended | confidence | as-written member | corrected member |
|---|---|---|---|---|---|---|
| src/utils/date.ts:8-12 | `parseISO` reads a date-only string as local midnight, while `toISOString().split('T')[0]` takes the UTC date. East of UTC the next local midnight falls on the previous UTC date, so `getNextDay` returns its input. The all-day event then ends on the day it starts. | `getNextDay("2024-06-01")` on a host at UTC+2 returns `"2024-06-01"` | the next calendar day, `"2024-06-02"`, on every host | not executed | Dates.GetNextDayInZoneAsWritten | Dates.GetNextDayIsOneDayLater |
