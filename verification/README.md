# ShubhYatra bus tracker: a verified model of the page logic

ShubhYatra is a single-page bus-tracking demo. A driver logs in, registers a
bus by its registration number and starts a trip. The page then shows a trip
clock and moves the bus to a simulated GPS position every few seconds. A
passenger logs in, searches for a bus by its number and sees its position
and arrival times at the next stops. Everything lives in `script.js`: an
in-memory registry `mockBuses` (registration number to `{active, location}`),
the session globals `currentUser`, `currentRole`, `activeBus` and
`tripStartTime`, and interval timers.

This project models that logic in Dafny and proves what it does:

- `Registry` (registry.dfy): the registry as a `map<string, Bus>`. It holds the
  updates the handlers apply (`Activate`, `Relocate`, `Deactivate`) and the
  passenger's `Lookup` and `Search`. Lemmas relate every update to `Lookup`,
  and prove that the random pick is always a valid index and that the
  JavaScript key `"null"` never names a record.
- `Session` (session.dfy): class `App`, whose fields are the registry, the
  session globals, the three timers as on/off flags and the visible screen.
  Its methods are the event handlers. The object invariant `Valid()` ties a
  running trip to a stored, upper-case registration number that has a
  record, a start time and both trip timers. Each method states its whole new
  state in terms of the `Registry` functions.
- `TripDuration` (duration.dfy): the `HH:MM:SS` trip clock. It proves the
  bounds, the reconstruction identity, the uniqueness of the fields, and a
  round trip through a reader of the printed text.
- `Arrival` (arrival.dfy): the arrival-time clamp and its plural text, with a
  round trip through a reader of the text. It also holds the in-place
  refresh loop over the stop elements.
- `Login` (login.dfy): the mock login rule and the name taken from the email.
- `Text` (text.dfy): upper-casing, decimal numerals, `padStart`, and a reader
  of numerals used by the round trips.
- `Wrappers` (wrappers.dfy): `Option`, standing for JavaScript's `null`.

Random numbers from `Math.random()` are parameters in [0, 1). Clock readings
from `new Date()` are natural-number parameters in milliseconds. Timers are
boolean flags. The DOM is reduced to a "current screen" tag.

`Session.DriverAndPassenger` is a worked example rather than a model of a
source function: a driver starts the parked demo bus, a passenger finds it at
the simulated position, and after the driver stops the passenger no longer
finds it.

Details of the code that the model keeps:

- `startTrip` calls `updateLocation` before it upserts the record. A bus that
  already has a record therefore becomes active at a random mock position. A
  new bus is inserted at the first mock position, because the move before the
  insert found no record (`Registry.StartTripEffect`). The upsert on its own
  keeps an existing location (`Registry.Activate`).
- `stopTrip` and `updateLocation` index `mockBuses[activeBus]` without a null
  check, so with no active bus JavaScript looks up the key `"null"`. The
  model performs the same lookup (`Registry.KeyOf`). Because every stored
  number is upper case, that key is never present (`Registry.NullKeyAbsent`).
  `logout` and `beforeunload` check for null first.
- Login does not look at `currentRole`. It stores the role of the form that
  was submitted.

## Model

| member | source | states |
|---|---|---|
| `Text.ToUpper` | script.js:162 | upper-casing keeps the length and leaves no lower-case letter; each character is mapped on its own by `UpperChar` |
| `Text.UpperChar` | script.js:162 | a lower-case letter becomes the same letter in upper case; every other character is kept |
| `Text.ToUpperFixed` | script.js:162 | a number is left unchanged by upper-casing exactly when it has no lower-case letter |
| `Text.ToUpperIdempotent` | script.js:249 | upper-casing an already upper-cased number changes nothing |
| `Text.NatToDecimal` | script.js:206 | `toString` of a natural number is a non-empty run of digits, with a leading '0' only for zero; it has one digit below 10 and at most two below 100 |
| `Text.DecimalRoundTrip` | script.js:206 | reading back the numeral of `n` gives `n` |
| `Text.PadStart` | script.js:206 | `padStart(width, pad)` gives length max(len, width), keeps the string as a suffix and fills the front with the pad character |
| `Text.PaddedValue` | script.js:206 | left-padding a numeral with '0' keeps it all digits and keeps its value |
| `Text.PaddedRoundTrip` | script.js:206 | a zero-padded numeral is all digits and reads back as its number |
| `TripDuration.Split` | script.js:202-204 | the minutes and seconds computed from a millisecond difference are both below 60 |
| `TripDuration.SplitReconstructs` | script.js:200-204 | hours*3600000 + minutes*60000 + seconds*1000 + diff % 1000 == diff |
| `TripDuration.SplitUnique` | script.js:202-204 | any hours, minutes < 60, seconds < 60 and a sub-second rest that add up to diff are exactly the computed fields |
| `TripDuration.Field` | script.js:206 | each printed field is at least two digits, and exactly two for values below 100 |
| `TripDuration.JoinFields` | script.js:206 | in `h:mm:ss` with two-character minutes and seconds, the ':' separators and the three fields sit at fixed distances from the end |
| `TripDuration.FormatClock` | script.js:206 | the clock text is at least 8 characters, with ':' six and three places from the end, and the three padded fields between them |
| `TripDuration.FieldReadsBack` | script.js:206 | each padded field is all digits and reads back as its number |
| `TripDuration.ParseFormatClock` | script.js:206 | any hours, minutes < 60 and seconds < 60 print to a text that reads back as those fields |
| `TripDuration.FormatDuration` | script.js:202-206 | the printed duration has ':' six and three places from the end, and reading it back gives the computed hours, minutes and seconds: only milliseconds are lost |
| `Arrival.Variation` | script.js:302 | the random variation is -1, 0 or +1 |
| `Arrival.ArrivalMinutes` | script.js:303 | the new time is max(1, base + v): at least 1, at least base + v, at most base + 1, and equal to base + v or to 1 |
| `Arrival.ArrivalText` | script.js:304 | the text starts with "Arrives in " and ends in 's' ("minutes") exactly when the time is not 1 |
| `Arrival.ParseArrivalText` | script.js:304 | the text of a minute count reads back as that count, with the singular/plural form matching it |
| `Arrival.RefreshedText` | script.js:300-305 | the callback gives a stop with a base time a fresh "Arrives in " text and leaves any element past the base times as it was |
| `Arrival.RefreshedTextBounds` | script.js:299-305 | a stop with a base time shows a count within one minute of its base and at least 1; any element past the base times keeps its text |
| `Arrival.UpdateArrivalTimes` | script.js:294-307 | the in-place loop leaves every element with its refreshed text (new text for the indices with a base time, the old one elsewhere) |
| `Login.EmailName` | script.js:126 | the name is a prefix of the email without '@' that stops at the first '@' or at the end |
| `Login.EmailNameUnique` | script.js:148 | that prefix is unique: any prefix with those properties is the name |
| `Login.EmailNameWhole` | script.js:126 | the name is the whole email exactly when the email has no '@' |
| `Login.MockLogin` | script.js:122-127 | a user is produced exactly when email and password are non-empty, with that email, the form's role and `EmailName(email)`, the name before the first '@' |
| `Registry.InitialWellFormed` | script.js:20-24 | the registry as loaded has upper-case, non-empty numbers and known locations |
| `Registry.RandomIndex` | script.js:212 | floor(r * n) for r in [0, 1) is an index below n |
| `Registry.RandomLocation` | script.js:212 | the simulated position is always one of the mock locations |
| `Registry.KeyOf` | script.js:216 | `mockBuses[activeBus]` uses the bus number as the key, and a null bus becomes a key that is never a registration number |
| `Registry.NullKeyAbsent` | script.js:234 | the key "null" that a null `activeBus` turns into never has a record |
| `Registry.Activate` | script.js:189-193 | the upsert makes the bus active, inserts a missing one at the first mock location, keeps an existing location and changes no other record |
| `Registry.Relocate` | script.js:216-218 | only an existing record of the bus gets the new location; its status and all other records are unchanged |
| `Registry.Deactivate` | script.js:234-236 | an existing record of the bus becomes inactive with its location kept; no record appears and no other record changes |
| `Registry.Lookup` | script.js:253-255 | a bus is visible exactly when it has a record that is active, and then its stored location is reported |
| `Registry.Search` | script.js:249-268 | the query is upper-cased; an empty query does nothing; the bus is found at its stored location exactly when it has an active record, and otherwise the not-found path is taken |
| `Registry.SearchFindsLowerCase` | script.js:249-255 | in the registry as loaded, the query "ct-1234" finds the active bus "CT-1234" at its stored location |
| `Registry.SearchIgnoresCase` | script.js:249 | a query and its upper-case form give the same search outcome |
| `Registry.LookupAfterActivate` | script.js:189-193 | after the upsert the bus is visible and no other bus's visibility changes |
| `Registry.LookupAfterDeactivate` | script.js:234-236 | after stopping, the bus is not found and no other bus's visibility changes |
| `Registry.LookupAfterRelocate` | script.js:216-218 | a passenger sees the new location exactly when the bus was visible; other buses are unaffected |
| `Registry.DeactivateUndoesActivate` | script.js:189-193 | starting a stopped bus and stopping it again restores the registry |
| `Registry.DeactivateIdempotent` | script.js:234-236 | stopping twice is stopping once |
| `Registry.StartTripEffect` | script.js:180-194 | the whole trip start leaves a known bus active at the random location and a new bus active at the first mock location |
| `Registry.ActivatePreservesWellFormed` | script.js:189-193 | the upsert of an upper-cased number keeps every key a stored number and every location a known one |
| `Registry.RelocatePreservesWellFormed` | script.js:216-218 | moving a bus to a mock location keeps the registry well formed |
| `Registry.DeactivatePreservesWellFormed` | script.js:234-236 | stopping a bus keeps the registry well formed |
| `Session.App.constructor` | script.js:1-24 | the initial state: the demo registry, no user, role, bus or trip, no timers, the welcome screen |
| `Session.App.SelectRole` | script.js:50-58 | the role buttons set the role and show that role's login screen; nothing else changes |
| `Session.App.BackToWelcome` | script.js:61-69 | the back buttons clear the role and show the welcome screen; nothing else changes |
| `Session.App.LogIn` | script.js:115-157 | a valid login sets the user and shows the role's next screen; an invalid one changes nothing; the role and the registry are never touched |
| `Session.App.UpdateLocation` | script.js:210-219 | only the active bus's record moves, to a mock location, and only if it exists; with no active bus nothing changes |
| `Session.App.StartTrip` | script.js:180-194 | both trip timers run and the registry is the upsert applied after one location update |
| `Session.App.RegisterBus` | script.js:159-178 | an empty upper-cased number changes nothing; otherwise it becomes `activeBus`, the trip starts at `now`, the bus is active and the tracking screen is shown |
| `Session.App.TripDurationText` | script.js:196-208 | the early return gives no text exactly when no trip runs; otherwise the text is the formatted duration of the milliseconds since the start, so it reads back as the elapsed hours, minutes and seconds (`TripDuration.FormatDuration`) |
| `Session.App.StopTrip` | script.js:221-244 | the timers stop, the active bus's record becomes inactive with its location kept, other records are untouched, and `activeBus` and `tripStartTime` are null |
| `Session.App.SearchBus` | script.js:246-273 | the outcome is the registry search, the results screen and the live view start exactly when the bus is found, and nothing in the registry changes |
| `Session.App.LogOut` | script.js:309-343 | all timers stop, the active bus becomes inactive, and user, role, bus and trip are null on the welcome screen |
| `Session.App.BeforeUnload` | script.js:351-355 | closing the page marks the active bus inactive and changes nothing else |

## Left out

- DOM effects are left out: `textContent` and `className` writes, `updateHeader`, form resets, `alert`, the driver's displayed position (script.js:213) and the "search another bus" button (script.js:85-88). Only the visible screen is kept, as a tag.
- Timers are on/off flags. Each successful search starts a new passenger interval without clearing the previous one, and `logout` clears only the last. Registering again during a trip would also leak an interval, but the screens never offer that. Flags cannot count leaked intervals.
- The passenger polling callback in `startPassengerUpdates` (script.js:277-291) is left out. It is timer-driven. It reads the registry, calls `updateArrivalTimes` (modelled on its own as `Arrival.UpdateArrivalTimes`), and clears its own interval once the bus is no longer active (script.js:282-286). `passengerTimerOn` stands for `window.currentPassengerTimer`, which that callback never resets, so the flag can stay on after the interval has stopped. So are the `visibilitychange` handler (script.js:358-369) and `simulateNetworkDelay`, which is never called.
- `Math.random()` is replaced by a real parameter in [0, 1). `new Date()` is replaced by a natural-number millisecond parameter.
- `Text.ToUpper`: only the ASCII letters a-z are mapped. JavaScript's `toUpperCase` maps all of Unicode and can change a string's length (for example 'ß' becomes "SS").
- `Text.NatToDecimal`: JavaScript switches to exponent notation at 10^21. A trip clock never reaches that.
- `Session.App.TripDurationText`: requires `now` to be no earlier than the trip start. If the wall clock moves backwards, JavaScript would print negative fields, and that case is not modelled.
