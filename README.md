# fish-e-dex core, modelled in Dafny

fish-e-dex is a personal fishing log. The Express server (`server.js`)
stores locations, outings, catches and photos. It also fetches weather for
an outing on demand. The React client logs an outing with its catches and
their photos, browses past outings, and moves between screens with the
keyboard.

This project models the core of both sides and proves properties of the
model:

- **Coordinates** (`coordinates.dfy`, `text.dfy`). This is the "lat,lng"
  pinpoint parser. The server's `parseCoordinates` checks the range; the
  client's fallback in `fetchWeatherForOuting` does not. The model has the
  exact regular expression, `trim`, `\s`, `\d` and `parseFloat` on
  numerals as exact reals.
- **Weather codes** (`weather_codes.dfy`). This is the 28-entry
  `getWeatherCondition` table, which the server and the client both copy.
- **Weather lookup** (`weather_shape.dfy`, `weather_server.dfy`,
  `weather_client.dfy`). The server's `GET /outings/:id/weather` handler and
  the client's `fetchWeatherForOuting` are modelled with the provider
  replies as inputs. The model records the provider call each one makes.
  The server handler takes the wind direction's degree sign as a
  parameter, so the handler as written and the corrected one (see
  "## Findings") are the same function.
- **Create handlers** (`create_handlers.dfy`). This is the 400 validation of
  the location, outing, catch and image create and update routes, and the
  row each one writes.
- **Cascading deletes** (`cascade.dfy`). `DELETE /outings/:id` and
  `DELETE /locations/:id` run as a class over in-memory tables. Which SQL
  statements fail is an input.
- **Keyboard navigation** (`navigation.dfy`). `handleKeyPress` of `App` is a
  class whose `HandleKey` method is proved against a transition function.
- **Outing log form** (`outing_draft.dfy`, `outing_submit.dfy`).
  - The catch-row and pending-photo edits are pure functions, together with
    the invariant they keep.
  - `handleSubmit` is an imperative method with the source's nested loops.
    It is proved against the request plan it must send.
- **Browse order** (`outing_browse.dfy`). This is the newest-first order of
  `fetchOutings`.

Some values are inputs to the model:

- the row ids the server hands back;
- the local row ids the client takes from `Date.now()`;
- today's date;
- the provider replies and the weather API key;
- which request or statement fails.

Dates are day numbers.

## Model

| member | source | states |
|---|---|---|
| Common.OrElse | server.js:440 | `v \|\| d` keeps a truthy value and replaces a falsy one by the fallback |
| Text.Trim | server.js:43 | the trimmed text neither starts nor ends with white space |
| Text.TrimPadded | server.js:43 | trimming removes exactly the white space around a text |
| Text.ParseIntText | src/lib/weather.js:115 | `parseInt(String(n), 10)` gives back `n` for every integer |
| Coordinates.WholeValue | server.js:46-47 | `parseFloat` of a run of digits is their decimal value |
| Coordinates.PointValue | server.js:46-47 | `parseFloat` of digits, a point and digits is the whole part plus the fraction |
| Coordinates.MatchPairText | server.js:44 | the pattern `^(-?\d+\.?\d*)\s*,\s*(-?\d+\.?\d*)$` matches the text of every well-formed match and gives back its groups |
| Coordinates.MatchPinpoint | src/lib/weather.js:44-50 | a pair the client's fallback finds is the value of a well-formed match that spells the trimmed text |
| Coordinates.ParseCoordinates | server.js:41-50 | a pair the server finds comes from a non-empty string, is what the client's matcher finds and is in range; every in-range match is found |
| Coordinates.ParseCoordinatesSound | server.js:41-50 | an accepted pinpoint is a string: two numerals with only white space around them and beside the comma, and the pair is in range |
| Coordinates.ParseCoordinatesComplete | server.js:41-50 | every pinpoint of that shape is accepted exactly when its pair is in range, and it gives that pair |
| Coordinates.MatchPinpointComplete | src/lib/weather.js:44-50 | the client's fallback accepts the same texts with no range check |
| Coordinates.ServerIsClientInRange | server.js:41-50 | the server accepts a non-empty pinpoint exactly when the client's matcher does and the pair is in range |
| Coordinates.BunchBarPinpoint | server.js:107-109 | "45.5,-122.6" is stored as latitude 45.5 and longitude -122.6 |
| Coordinates.OutOfRangePinpoint | server.js:48 | "100,200" is refused by the server and accepted by the client's fallback |
| Coordinates.ResolveCoordinates | server.js:757-765 | stored coordinates win; the pinpoint is used only when one of them is missing, and a pinpoint that does not parse changes nothing |
| WeatherCodes.Condition | server.js:53-86 | a listed code reads as its table entry, and a missing or unlisted code as "Unknown" |
| WeatherCodes.ConditionUnknown | server.js:53-86 | a code reads "Unknown" exactly when it is missing or not in the table |
| WeatherShape.ArchiveReading | server.js:790-805 | an archive reply gives a reading exactly when it lists a day; it takes the day's high, low and code, the day's wind speed and precipitation or 0 when they are missing or zero, and never has humidity, pressure or wind direction |
| WeatherShape.ArchiveMean | server.js:793 | the archive temperature is the mean of the day's high and low, so it lies between them |
| WeatherShape.ForecastReading | server.js:820-835 | current readings pass through, with a missing or zero wind speed read as 0; the high, low and precipitation come from the first day when there is one, and are null otherwise |
| WeatherShape.OwmReading | server.js:810-815 | OpenWeatherMap fields pass through; precipitation is the last hour's rain, else the last three hours' |
| WeatherShape.Shape | server.js:838-851 | the report carries `parseInt(outing_id)` and Fahrenheit; a missing wind speed becomes 0; there is a wind direction exactly when the reading has degrees |
| WeatherShape.ArchiveReport | server.js:790-805 | an archive report carries the day's wind speed and precipitation, 0 when missing, and never has humidity, pressure or wind direction |
| WeatherServer.CheckOuting | server.js:741-770 | a query error gives 500 and no row gives 404; a check passes exactly when the first row has a date, a location and coordinates, and then targets that day and those coordinates |
| WeatherServer.CheckOrder | server.js:743-770 | the refusals come in source order: date, then location, then coordinates |
| WeatherServer.ChooseSource | server.js:783-816 | the archive is used exactly for a past day; OpenWeatherMap is used exactly for a later day with a non-empty key |
| WeatherServer.FailureDetails | server.js:854 | the details of a failure are the reply's truthy `reason`, else its truthy `error`, else the failure's message |
| WeatherServer.ReadingFor | server.js:785-836 | the chosen provider's delivered reply gives its reading; an archive reply without a day fails with the no-history message; a failed call fails with its details |
| WeatherServer.CaughtResponse | server.js:853-859 | a failure is a 500 carrying the details, or the fixed message with empty details |
| WeatherServer.HandleWeather | server.js:730-862 | a refused request makes no provider call; otherwise it makes exactly the call for the chosen source and answers the report shaped from that provider's reading, or the 500 of its failure. The degree sign is a parameter: `AsWrittenDegreeSign` gives the handler as written, `DegreeSign` the corrected one |
| WeatherServer.CallsOnlyWhenReady | server.js:741-787 | at most one provider call, and none exactly when a check refuses with 400, 404 or 500 |
| WeatherServer.TargetCoordinates | server.js:757-770 | stored coordinates are used when both exist; coordinates from the pinpoint are always in range |
| WeatherServer.HistoricalUsesArchive | server.js:779-817 | the archive is asked exactly for a past day, and for the outing's own day |
| WeatherServer.ProviderOutcome | server.js:785-859 | every report is Fahrenheit, and there is one exactly when the chosen provider delivered a reply (for the archive, one listing a day); an archive reply without a day answers 500 with the no-history message; a failed call answers the `catch` block's 500 for it |
| WeatherServer.FailureResponse | server.js:853-859 | a failed call answers 500 with the reply's `reason`, else its `error`, else the failure's message, and with the fixed message and empty details when that is empty too |
| WeatherServer.PastDayReport | server.js:785-805 | a past day whose archive reply lists a day is reported with the mean of its high and low, its condition, its wind speed and precipitation (0 when missing), and no humidity, pressure or wind direction |
| WeatherServer.KeyedDayReport | server.js:806-815 | today or later with a key, OpenWeatherMap's reading passes through, with the last hour's rain, else the last three hours' |
| WeatherServer.CurrentDayReport | server.js:816-836 | today or later without a key, the report is the forecast's current reading, with the first day's high, low and precipitation when the reply lists a day and null otherwise |
| WeatherServer.ShapeAsWritten | server.js:847 | as written, every wind direction ends in a two-character sign |
| WeatherServer.AsWrittenHandlerDiffers | server.js:838-851 | the handler as written answers exactly what the corrected one answers, except that every wind direction carries the misdecoded sign |
| WeatherServer.AsWrittenSignIsMisdecoded | server.js:847 | that sign is U+00B0 encoded as UTF-8 and read back one byte per character, so the server's wind direction differs from the client's |
| WeatherClient.FetchFailure | src/lib/weather.js:70-71 | a status that is not ok throws the branch's message; a request with no response throws the network error's message |
| WeatherClient.FetchWeatherForOuting | src/lib/weather.js:40-128 | without coordinates it throws before any call; otherwise it makes one call, at the resolved coordinates, to the archive exactly for a past day and then for the outing's day, and never to OpenWeatherMap. A status that is not ok throws that branch's message, an archive reply with an empty series throws the no-history message, and a delivered reply returns the report shaped from its reading |
| WeatherClient.ClientPastDay | src/lib/weather.js:68-89 | a past day whose archive reply lists a day returns the mean of its high and low, its wind and precipitation (0 when missing) and no humidity, pressure or wind direction; an empty series throws |
| WeatherClient.ClientIgnoresRange | src/lib/weather.js:44-54 | with the pinpoint "100,200" the client still calls a provider |
| WeatherClient.ServerChecksRange | server.js:759-770 | for the same outing the server answers 400 |
| WeatherClient.SameCoordinates | src/lib/weather.js:41-50 | where the server finds coordinates, the client finds the same ones |
| WeatherClient.ServerClientAgree | src/lib/weather.js:40-128 | without an OpenWeatherMap key, the client returns the corrected server's report (`HandleWeather` with `DegreeSign`) and makes the server's call |
| CreateHandlers.LocationRowOf | server.js:107-121 | the stored pinpoint is the one sent; both coordinates come from one parse, or neither does |
| CreateHandlers.SaveLocation | server.js:101-105 | a location is refused exactly when its name is falsy, with the route's own message ("Must name the spot" here, "Location name is required" for `PUT /locations/:id` at server.js:156-160); otherwise the row is written |
| CreateHandlers.LocationCoordinates | server.js:107-109 | stored coordinates are both present and in range, or both null |
| CreateHandlers.OutingRowOf | server.js:257-266 | a falsy location is stored as null and `worth_returning` as a boolean |
| CreateHandlers.CreateOuting | server.js:245-249 | an outing is refused exactly when it lacks a user or a date; a written row never has the empty location |
| CreateHandlers.CreateCatch | server.js:430-440 | a catch is refused exactly when it lacks an outing or a species; a falsy count is stored as 1 and falsy notes as null |
| CreateHandlers.CatchCountTruthy | server.js:440 | every stored catch has a truthy count |
| CreateHandlers.CreateImage | server.js:490-519 | the owner id is checked first, then a URL or a file is required; the file's bytes are stored when there is one; the URL, the file's type and the caption are stored as `x \|\| null` |
| Cascade.Detach | server.js:191-193 | every outing is kept in place, and none refers to the location any more |
| Cascade.FirstFault | server.js:381-409 | the position of the first failing step |
| Cascade.Database.DeleteOuting | server.js:343-413 | the steps run in order and stop at the first failure with a 500; the tables are those after the steps that ran; it answers 200 whether or not the outing existed |
| Cascade.Database.DeleteLocation | server.js:187-230 | detach, then delete the images, then delete the row; a failure stops the chain with a 500; 404 exactly when there was no such location |
| Cascade.NoCatchesNoImageDelete | server.js:361 | without catches the image step changes nothing, as skipping it does |
| Cascade.OutingDeleteConsistent | server.js:355-379 | wherever the outing delete stops, no reference dangles |
| Cascade.OutingDeleteEffect | server.js:355-379 | a complete outing delete removes exactly the outing, its catches, their images and its scenery images |
| Cascade.LocationDeleteConsistent | server.js:190-214 | wherever the location delete stops, no reference dangles |
| Cascade.LocationDeleteEffect | server.js:190-214 | a complete location delete keeps every outing with the reference cleared, and removes the location and its images |
| Navigation.Transition | src/App.jsx:16-38 | a change of screen keeps the highlighted entry; the highlight moves only on the menu, by an arrow key, and stays among the three |
| Navigation.Navigator.HandleKey | src/App.jsx:16-38 | one key press moves the screen and the highlighted entry as the transition says |
| Navigation.ArrowEnds | src/App.jsx:22-25 | ArrowLeft wraps from the first entry to the last; ArrowRight stops at the last |
| Navigation.SelectionInRange | src/App.jsx:22-25 | a key press keeps the highlighted entry among the three |
| Navigation.ReplayInRange | src/App.jsx:12-38 | no sequence of key presses highlights anything else |
| Navigation.ArrowsAndViews | src/App.jsx:21-32 | arrows never change the screen, and a change of screen never changes the highlighted entry |
| Navigation.ActivateOpensMenuEntry | src/App.jsx:26-29 | Enter or space on the menu opens the highlighted entry's screen, the same one the clickable menu opens |
| Navigation.EscapeAndIgnoredKeys | src/App.jsx:17-37 | Escape goes one level up; on the welcome screen only Enter and space act, on the menu every key but the arrows, Enter, space and Escape is ignored, and on the three screens only Escape acts |
| Navigation.ReachedFrom | src/App.jsx:17-37 | the welcome screen is only left for the menu, and the three screens are only reached from it |
| OutingDraft.RemoveAt | src/components/OutingView.jsx:126 | `filter((_, i) => i !== index)` drops that position and keeps the order; an index outside the list removes nothing |
| OutingDraft.AddCatch | src/components/OutingView.jsx:108-110 | a blank row is appended and the other rows are unchanged |
| OutingDraft.CaughtSomething | src/components/OutingView.jsx:112-117 | the section is shown, with a blank row only if there is none |
| OutingDraft.ChangeCatch | src/components/OutingView.jsx:102-106 | only the named field of that row changes |
| OutingDraft.NoCatches | src/components/OutingView.jsx:119-123 | the form goes back to one blank row, no photos and the section hidden |
| OutingDraft.RemoveCatch | src/components/OutingView.jsx:125-140 | removing the last row resets the section; otherwise the row and only its photos go |
| OutingDraft.SavePendingImage | src/components/OutingView.jsx:142-147 | the photo is appended to its row's list; other rows' lists stay |
| OutingDraft.RemovePendingImage | src/components/OutingView.jsx:149-159 | one photo goes and a list left empty is deleted; other rows' lists stay |
| OutingDraft.InitialValid | src/components/OutingView.jsx:21-23 | the first form keeps the invariant: at least one row, distinct ids, photo lists only for existing rows and never empty |
| OutingDraft.AddCatchValid | src/components/OutingView.jsx:108-110 | adding a row with a fresh id keeps the invariant |
| OutingDraft.ChangeCatchValid | src/components/OutingView.jsx:102-106 | editing a field keeps the invariant |
| OutingDraft.RemoveCatchValid | src/components/OutingView.jsx:125-140 | removing a row keeps the invariant |
| OutingDraft.SavePendingImageValid | src/components/OutingView.jsx:142-147 | saving a photo for an existing row keeps the invariant |
| OutingDraft.RemovePendingImageValid | src/components/OutingView.jsx:149-159 | removing a photo keeps the invariant |
| OutingDraft.SaveThenRemove | src/components/OutingView.jsx:142-159 | removing the photo just saved gives back the form as it was |
| OutingSubmit.OutingRequest | src/components/OutingView.jsx:47-50 | the outing is posted with the form's fields, and an empty location is sent as null |
| OutingSubmit.CatchRequest | src/components/OutingView.jsx:55-60 | a catch is posted under the outing's id; a zero count is sent as 1 and empty notes as null |
| OutingSubmit.ImageRequest | src/components/OutingView.jsx:63-67 | a photo is posted under its catch's id, with the caption only when it is non-empty |
| OutingSubmit.AlertText | src/components/OutingView.jsx:88 | the alert shows the server's error when there is one, else the error's message |
| OutingSubmit.Named | src/components/OutingView.jsx:54 | the rows kept by `if (!catchItem.species) continue` all name a species and come from the form, and every row of the form that names a species is kept |
| OutingSubmit.NamedAppend | src/components/OutingView.jsx:53-54 | keeping the named rows distributes over joined runs of rows, so the kept rows are the form's rows without the unnamed ones, in order |
| OutingSubmit.PlanCatchPosts | src/components/OutingView.jsx:53-71 | the catch posts are exactly one per row that names a species, in the form's order |
| OutingSubmit.SubmitPlan | src/components/OutingView.jsx:47-71 | the outing is posted first; the catch posts are those of the named rows, in order; and the plan holds nothing else: one outing post, plus a catch and one upload per pending photo for each named row |
| OutingSubmit.PlanLength | src/components/OutingView.jsx:53-69 | the rows send exactly one catch and one upload per pending photo for each row that names a species, and nothing for the others |
| OutingSubmit.UnnamedRowSendsNothing | src/components/OutingView.jsx:54 | a row without a species adds nothing to the plan: `continue` skips its catch and its photos |
| OutingSubmit.CatchThenPhotos | src/components/OutingView.jsx:55-70 | each named row's catch post is immediately followed by its pending photos, in the order they were added, under that catch's id |
| OutingSubmit.OutingPostAccepted | server.js:245-266 | the server accepts the posted outing exactly when it has a user and a date, and stores an empty location as null |
| OutingSubmit.CatchPostAccepted | server.js:430-440 | with a real outing id, the server accepts every catch the form posts, with the count it meant |
| OutingSubmit.ImagePostAccepted | server.js:490-519 | the server accepts every photo the form posts: the catch id arrives as non-empty text, and the file is always there |
| OutingSubmit.OutingLog.SendImages | src/components/OutingView.jsx:62-69 | the photo uploads go in order, and a failure stops right after the failing one |
| OutingSubmit.OutingLog.SendRow | src/components/OutingView.jsx:53-70 | a row without a species sends nothing; otherwise its catch, then its photos |
| OutingSubmit.OutingLog.SendRows | src/components/OutingView.jsx:53-71 | the rows go in order, and a failure stops right after the failing request |
| OutingSubmit.OutingLog.HandleSubmit | src/components/OutingView.jsx:42-91 | with no failure every request of the plan is sent and the form is reset; with one, the plan up to the failing request is sent, the form keeps its contents and one alert is shown |
| OutingBrowse.Insert | src/components/OutingView.jsx:408-412 | inserting into a newest-first list keeps it newest first and adds exactly that entry |
| OutingBrowse.SortNewestFirst | src/components/OutingView.jsx:408-412 | the sorted list is newest first and a permutation of what the server sent |
| OutingBrowse.SortKeepsDayOrder | src/components/OutingView.jsx:408-412 | the sort is stable: the outings of each day keep the server's order |
| OutingBrowse.SortedUnchanged | src/components/OutingView.jsx:408-412 | a list that is already newest first is left as it is |

## Left out

- I/O is not modelled: the database, the HTTP transport, multer, `console` logging, `res.status` plumbing beyond status and body, and the React re-render timing. In the model each request or statement either succeeds or fails as an input says.
- The routes that only read rows (`GET` lists and single rows, image bytes, `/fish_caught`, `/best_spots`, `/outings_plus_locations`) only pass query results through.
- `fetched_at` (a clock reading) is left out of both weather reports.
- Dates are day numbers. The ISO slicing, time zones and `setHours` are not modelled, and neither is a date string that does not parse.
- The server calls `parseInt(outingId)` without a radix. The model reads it in base 10, so hexadecimal prefixes are not modelled.
- Floating point is not modelled: numerals are exact reals, and the JavaScript text of a number (the wind degrees in a direction) is kept as the number itself.
- `String(details)` of a non-text reason is kept as the value itself.
- Upstream replies that lack the arrays the handlers index (a `TypeError` inside the handler) are not modelled: every listed day carries its first entries.
- The 500 bodies of the cascading deletes (`details`, `code`) and the outcome of re-enabling foreign key checks are not modelled: the model returns only the status.
- The create handlers' database outcome (500, insert ids) is not modelled; they model the 400 checks and the row written.
- The `loading` flag of the outing form is not modelled: it is set at the start and cleared in `finally`, and no property depends on it.
- The form's `handleChange` and the image popup's open and close state only copy input values; they are not modelled.
- Local row ids from `Date.now()` are arguments. The validity lemmas assume that a new id differs from those in use; two rows added in the same millisecond would break that.
- OutingBrowse.SortNewestFirst: the array sort works in place on the response array; the model returns a new sequence, and the dates are valid day numbers (a date that does not parse makes the comparison `NaN`, which is not modelled).
- OutingSubmit.OutingLog.HandleSubmit: a failure is given as the position of the failing request in the plan. The ids the server hands back are arguments; the model does not follow a failed response's body into later requests.

## Findings

| source | as written | input that shows it | evidently intended | confidence | as-written member | corrected member |
|---|---|---|---|---|---|---|
| server.js:847 | the wind direction is `${deg}Â°`, the UTF-8 bytes of the degree sign read back as two characters | any forecast or OpenWeatherMap reply with a wind direction, e.g. 180 degrees: the server answers "180Â°", the client's copy "180°" | `${deg}°`, as src/lib/weather.js:123 writes it | high; not executed | WeatherServer.AsWrittenHandlerDiffers | WeatherClient.ServerClientAgree |
