# Final Light: last tee time model

A Dafny model of the scheduling core of the Final Light web page
(`src/script.js`). The page tells a golf group the latest time it can tee
off and still finish before sunset or the end of civil twilight. The model
covers four parts of that core:

- **Play-time estimate** (`PlayTime`). There is a base time per hole count. Each
  player missing from a flight of four saves some minutes per hole. A slow-play
  factor in minutes per hole comes on top. Minutes per hole are rounded as
  `Math.round` does.
- **Last tee time** (`Clock`, `TeeTime`). Instants are integer milliseconds
  since the epoch. A timezone is an offset function from an instant to minutes
  east of UTC. A wall-clock reading is obtained by floor division and modulo.
  The round's minutes are subtracted from the daylight-end instant, and the
  result is floored to a 10-minute slot.
- **Sun-data cache** (`SunCache`). Sun data is stored in a map under the key
  `sunData_<date>_<lat>_<lng>`. A lookup reads storage first and calls the
  sunrise/sunset service only on a miss. The service's `+00:00` UTC marker is
  normalised to `Z`.
- **Session memo** (`Session`). The page remembers the last (date, lat, lng)
  triple and its sun data. A recalculation looks the sun data up again only
  when that triple changes.

The service's reply is an abstract `Response` value. Reading ISO timestamps
into instants is a `parse: string -> int` parameter. The resolved timezone is
an `Offset` parameter.

## Model

| member | source | states |
|---|---|---|
| PlayTime.CalculatePlayTime | src/script.js:175-180 | The estimate equals the base (135 for 9 holes, 255 for 18) minus one minute per hole for each player missing from a flight of four. It is positive, never above the base, and equals the base exactly for a full flight. |
| PlayTime.PlayTimeTable | src/script.js:175-180 | For 18 holes, flights 1..4 give 201/219/237/255. For 9 holes they give 108/117/126/135. |
| PlayTime.PlayTimeMonotone | src/script.js:176-179 | A larger flight never gets a shorter estimate. A strictly larger flight gets a strictly longer one. |
| PlayTime.TotalPlayTime | src/script.js:225-230 | The total equals the estimate plus factor × holes. It equals the estimate exactly when the factor is 0. It is below the estimate exactly when the factor is negative. |
| PlayTime.TotalPlayTimeStrictlyIncreasing | src/script.js:228-230 | Raising the slow-play factor from f to g adds exactly (g − f) × holes minutes, so the total strictly increases. |
| PlayTime.MinutesPerHole | src/script.js:232 | Minutes per hole are within half a minute of total ÷ holes, and an exact half rounds up, as `Math.round` does. |
| PlayTime.MinutesPerHoleUnique | src/script.js:232 | Only one integer satisfies that rounding property, so the property determines the result. |
| PlayTime.MinutesPerHoleExact | src/script.js:232 | When holes divides the total, minutes per hole is the exact quotient. |
| Clock.FromMillis | src/script.js:239 | Splitting an instant into day, hour, minute, second and millisecond gives in-range fields that add back up to the instant. |
| Clock.FromToMillis | src/script.js:239 | A valid wall-clock reading is recovered from the instant it denotes, so the fields are unique. |
| Clock.FloorTo10 | src/script.js:188 | Setting the minute to floor(minute/10)×10 and zeroing seconds and milliseconds gives a minute that is a multiple of 10, at most 9 below the original. Day and hour are unchanged. |
| Clock.FloorTo10Idempotent | src/script.js:188 | Applying the 10-minute floor twice is the same as applying it once. |
| Clock.FloorTo10Millis | src/script.js:241 | Flooring the minute field is the same as rounding the instant down to a multiple of 10 minutes. |
| TeeTime.SubtractMinutes | src/script.js:182-184 | Subtracting minutes moves the instant earlier exactly when the minutes are positive. The UTC clock stays the same only for zero minutes. |
| TeeTime.SubtractMinutesCompose | src/script.js:182-184 | Two subtractions equal one subtraction of the sum. Adding the minutes back restores the instant. |
| TeeTime.SubtractMinutesLocal | src/script.js:240 | While the zone's offset does not change, the local clock moves back by exactly the subtracted minutes. |
| TeeTime.FloorLocal | src/script.js:241 | The floored instant is not after the input and is less than 10 minutes before it. Its local minute is a multiple of 10, its seconds and milliseconds are 0, and its local day and hour are unchanged. |
| TeeTime.RoundToNext10Minutes | src/script.js:186-189 | Despite its name this floors. The result is not after the input and is less than 10 minutes before it. Its UTC minute is a multiple of 10, with the UTC day and hour unchanged. |
| TeeTime.RoundToNext10MinutesIdempotent | src/script.js:186-189 | Rounding twice equals rounding once. |
| TeeTime.FloorLocalAgreesWithUtc | src/script.js:186-189 | The local-minute floor (line 241) and the UTC-minute floor agree exactly when the zone's offset is a multiple of 10 minutes. |
| TeeTime.LastTeeTime | src/script.js:239-241 | The last tee time is at most daylight end minus the round's minutes, and less than 10 minutes earlier than that. Under the offset in force at the unfloored start, its local minute is on a 10-minute slot with zero seconds and milliseconds. |
| TeeTime.LastTeeTimeAsWritten | src/script.js:246-250 | The as-written last tee time has the same safety margin, but only its UTC clock is guaranteed to be on a 10-minute slot (minute a multiple of 10, second and millisecond zero). |
| TeeTime.CorrectedHitsLocalSlot | src/script.js:239-241 | In Asia/Kathmandu (+5:45) on 2024-06-01, with sunset taken as 13:09 UTC (18:54 local) and a 171-minute round, the raw start is 16:03 local and the local floor gives 16:00. |
| TeeTime.AsWrittenMissesLocalSlot | src/script.js:249-250 | For the same sunset and round, the as-written UTC floor gives 10:10 UTC, which is 15:55 local and off the 10-minute slot grid. |
| TeeTime.LastTeeTimeMatchesAsWritten | src/script.js:241 | In zones whose offset is a multiple of 10 minutes, the as-written and corrected tee times are equal. |
| SunCache.StorageKeyInjective | src/script.js:138-147 | For a fixed-width date and a latitude with no underscore, two triples give the same storage key exactly when they are equal. |
| SunCache.Save | src/script.js:138-141 | After a save, the triple's key holds the saved data. The key set grows by that key only, and every other entry is unchanged. |
| SunCache.Load | src/script.js:143-147 | Load finds data exactly when the triple's key is stored, and then returns the stored entry. |
| SunCache.LoadAfterSave | src/script.js:138-147 | Loading the triple just saved returns the saved data. |
| SunCache.LoadAfterSaveOther | src/script.js:138-147 | Saving one well-formed triple leaves what any other triple loads unchanged. |
| Text.ReplaceFirst | src/script.js:163-164 | Only the first occurrence of the pattern is replaced. A string without the pattern is returned unchanged. |
| SunCache.NormaliseUtc | src/script.js:163-164 | The first `+00:00` becomes `Z`. A timestamp without `+00:00` is unchanged. |
| SunCache.NormaliseUtcServiceStamp | src/script.js:163-164 | A service timestamp ending in `+00:00` (no earlier `+`) ends in `Z` afterwards. Normalising an already-normalised stamp leaves it unchanged. |
| SunCache.FetchSunData | src/script.js:149-173 | On a hit, the stored data comes back, storage is unchanged and the service is not called. The service is called exactly on a miss. An "OK" reply stores the normalised data under the triple's key, adds nothing else to storage, and returns that data. Any other status or a failed request is an error, and it happens exactly when the key was missing and the reply was not OK. |
| SunCache.FetchKeepsEntries | src/script.js:149-173 | A successful lookup never removes or rewrites an existing storage entry. |
| SunCache.FetchTwiceCallsOnce | src/script.js:149-173 | Two lookups of the same triple call the service at most once. The second returns the first's data, whatever the service would now reply. |
| Session.InitialConsistent | src/script.js:4-13 | The page-load state has no location and satisfies the memo invariant (no data is remembered, so no triple is recorded). |
| Session.RefreshSunData | src/script.js:206-211 | Sun data is looked up exactly when the date, lat or lng differs from the recorded triple. On success the triple becomes the current one and the remembered data is the fetched data. With no change, the state is untouched. A failed lookup records nothing. The service is called exactly when the triple changed and storage lacks its key. |
| Session.RefreshKeepsConsistent | src/script.js:206-213 | After a successful refresh with a location set, sun data is remembered and the invariant still holds. |
| Session.InitialCoherent | src/script.js:4-13 | At page load the memo is coherent with storage, because nothing is remembered. |
| Session.RefreshKeepsCoherent | src/script.js:206-211 | After a successful refresh, the remembered sun data is still what storage holds for the recorded triple. |
| Session.MemoTransparent | src/script.js:206-213 | With a location set and a coherent memo, the sun data remembered after a refresh is exactly what a storage-then-service lookup for the current triple returns, whether the memo was reused or refreshed. |
| Session.RefreshTwiceIsMemoised | src/script.js:206-211 | A second refresh for the same date and location changes nothing and asks the service nothing. |
| Session.CalculateLastTeeTime | src/script.js:191-258 | Without a location the result is LocationNotSet. Any other error is an unavailable-sun-data error, which needs a changed triple and a storage miss. On success the new state is exactly the one the memo check (Session.RefreshSunData) produces, so the daylight ends come from its sun data. The total minutes, the rounded per-hole figure and both tee times satisfy the properties above, each tee time is within one slot of its daylight end minus the total with its local clock on a 10-minute slot (minute a multiple of 10, second and millisecond zero), and the displayed time follows the toggle. |
| Session.RecalculateReusesSunData | src/script.js:206-213 | Recalculating for the same date and location with other round settings keeps the state, does not call the service, and uses the same daylight-end instants. |
| Session.ToggleMatchesRecalculation | src/script.js:278-286 | Flipping the twilight toggle shows the stored tee time that a full recalculation with the flipped toggle would show. |

## Findings

| source | as written | input that shows it | evidently intended | confidence | as-written member | corrected member |
|---|---|---|---|---|---|---|
| src/script.js:249-250 | `roundToNext10Minutes` re-reads the zoned time in UTC and floors the UTC minute field. Line 258 then displays this value, overwriting line 243's local floor. | Asia/Kathmandu (+5:45) on 2024-06-01. Sunset taken as 13:09 UTC (18:54 local), 171-minute round, raw start 16:03 local: the UTC floor gives 10:10 UTC, shown as 15:55. | Floor the local minute field, as line 241 does, giving 16:00 on the 10-minute tee-slot grid. | medium; not executed | TeeTime.LastTeeTimeAsWritten (counterexample TeeTime.AsWrittenMissesLocalSlot) | TeeTime.LastTeeTime (used by Session.CalculateLastTeeTime; example TeeTime.CorrectedHitsLocalSlot) |

Both versions keep the safety margin: neither is ever later than daylight end
minus the round's minutes. They agree in every zone whose offset is a
multiple of 10 minutes (TeeTime.FloorLocalAgreesWithUtc).

## Left out

- DOM wiring, theming, the logo, skeleton loaders, alerts and the 1.5 s demonstration delay: presentation only.
- Geocoding (`handleLocationInput`, `displaySuggestions`) and timezone resolution (`fetchTimeZone`) are network clients. Coordinates and the timezone are inputs, and the timezone appears only as its offset function.
- Luxon parsing and formatting (`fromISO`, `toISO`, `toFormat`, `formatTime`, `formatDate`, the `Duration` rendering) belong to a foreign library. ISO strings become instants through the `parse` parameter. Calendar dates are shown as day numbers since the epoch, not year/month/day.
- Persistence of the location and the theme in storage is I/O. Only the sun-data entries of storage are modelled.
- `debounce`, the async event listeners and the stale-response race between overlapping recalculations are concurrency and timing concerns.
- JavaScript `null` for an unset latitude, longitude or timezone is modelled as the empty string. Both are falsy in the location guard.
- The date picker's fallback to today's date reads the clock, so the date is an input.
- A reply whose JSON cannot be read is the same `NetworkFailure` as a failed request, because the source's `catch` treats both alike.
- PlayTime.CalculatePlayTime: holes outside {9, 18} and flight sizes outside 1..4 are excluded by precondition. In the source, flight sizes of 4 and above get the full base time (nothing is saved), flight sizes of 0 or below index a missing table entry and give NaN, and any hole count other than 9 uses the 255-minute base.
- TeeTime.FloorLocal: the floored wall clock is mapped back to an instant with the offset in force at the unfloored instant. A daylight-saving transition inside the (under 10-minute) gap is not modelled.
- TeeTime.LastTeeTime: its local slot property holds on the clock under the offset in force at the unfloored start, for the same reason as TeeTime.FloorLocal.
- Session.CalculateLastTeeTime: requires the memo invariant `Consistent` (remembered sun data whenever a triple is recorded). The initial state has it (Session.InitialConsistent) and refreshes keep it (Session.RefreshKeepsConsistent). The source would hit a caught `TypeError` without it.
- Session.CalculateLastTeeTime: the displayed value uses the corrected local floor (see Findings), not the UTC floor of lines 249-250.
