# Dashboard tag normalisation and cycle timer, in Dafny

This project models the pure logic inside a React dashboard. The dashboard
monitors a water-treatment and ozone process and has three parts:

- **Tag client** (`src/lib/api.js`). The API base URL loses its trailing
  slashes. Every raw tag of a telemetry response is normalised: a tag whose
  quality is not `"GOOD"` becomes `undefined`. A tag whose key marks it as a
  coil (a discrete signal) becomes the boolean `value >= 0.5`. Every other
  tag keeps its number. A non-2xx status is an error.
- **Value coercion** (`src/services/normalize.js`). This covers `readValue`,
  `toNum`, `toBool` and the display formatter `fmt`.
- **Derived state of the dashboard page** (`src/pages/Dashboard.js`):
  - the motor, ozone and cycle indicators, with their precedence rules;
  - `num`, the tank capacities and `buildLevel`;
  - the configured cycle length from the `Timer` tag;
  - the `H:MM` countdown text;
  - whether the pause and resume buttons are enabled;
  - the persisted cycle timer. Two effects watch the `ciclo_iniciar` and
    `ciclo_finalizado` bits for rising edges between consecutive snapshots.
    They save or clear `{cycle_start_epoch_ms, cycle_total_minutes}` in local
    storage. A `tick` derives the remaining minutes from the saved start and
    the wall clock.

JavaScript values are the datatype `JsValues.JsVal`: undefined, null,
booleans, numbers (an exact real or NaN), strings and plain objects. A string
carries its text, which decides its truthiness, and the number it coerces
to. String-to-number parsing is therefore given as data, not modelled. The
clock is an integer count of milliseconds. Local storage is a
`map<string, int>`.

The page state is `CycleTimer.Engine`. It holds the two previous-bit cells,
the storage and the displayed minutes. `CycleTimer.Step` runs the start
effect and then the finish effect for one snapshot. `CycleTimer.Run` applies
a sequence of snapshots in arrival order.

Behaviours reproduced as the code has them:

- **A reload restarts a running countdown.** Both previous bits start at 0
  after a mount. So the first snapshot with `ciclo_iniciar` up is a rising
  edge, and it overwrites the saved start (`ReloadRestartsCountdown`). The
  comment at `src/pages/Dashboard.js:222` says the countdown does not
  restart on refresh. That holds only when the start bit is down at the
  first snapshot after the reload.
- **2656 L of 2670 L (99.48 %) is not full**, because the test is
  `rawPct >= 99.5`, the 0.5 % tolerance the comment at
  `src/pages/Dashboard.js:161` describes (`LevelExamples`).
- **A clock behind the saved start inflates the countdown**
  (`ClockBeforeStartInflates`).
- **A `Timer` below one minute** floors to 0, so the default of 720 minutes
  is used (`TotalMinutesFallback`).
- **`ozonio_equipamento` is not a coil.** It keeps its number and is read
  by truthiness (`OzoneReadByTruthiness`).

## Model

| member | source | states |
|---|---|---|
| TagApi.StripTrailingSlashes | src/lib/api.js:12 | the result is a prefix of the raw base, does not end in '/', and everything removed is '/' |
| TagApi.StripIdempotent | src/lib/api.js:12 | stripping twice equals stripping once |
| TagApi.StripIsLongestSlashFreeEnd | src/lib/api.js:12 | any prefix that does not end in '/' and is followed only by '/' characters is exactly the stripped base |
| TagApi.ApiBase | src/lib/api.js:10-12 | without an override the base is "http://localhost:9090"; with one, it is the override less its trailing '/' characters, and does not end in '/' |
| TagApi.TagsUrlSingleSlash | src/lib/api.js:10-16 | `TagsUrl` of the resolved base has exactly one '/' where the base meets "/api/tags" |
| Text.Includes | src/lib/api.js:29-33 | `includes` is true exactly when the pattern occurs at some index of the key |
| TagApi.IsCoilByOccurrence | src/lib/api.js:28-35 | `IsCoil`: a key is a coil exactly when "parada", "emergencia", "ciclo_", "run" or "fault" occurs in it, or it starts with "motor_" or "bomba_" |
| TagApi.PrefixedKeysAreCoils | src/lib/api.js:31-35 | every key starting with "ciclo_", "motor_" or "bomba_" is a coil |
| TagApi.CycleBitsAreCoils | src/lib/api.js:28-37 | GOOD `ciclo_iniciar`, `ciclo_finalizado` and `ciclo_pausado` tags become the boolean value >= 0.5 |
| TagApi.NotCoilWithoutMarkerLetters | src/lib/api.js:28-35 | a key without 'r', 'c' or 'f' that starts with neither 'm' nor 'b' is not a coil |
| TagApi.OzoneIsNotCoil | src/lib/api.js:28-37 | `ozonio_equipamento` is not a coil, so a GOOD reading keeps its raw number |
| TagApi.NormalizeTag | src/lib/api.js:24-37 | a tag is undefined exactly when its quality is not "GOOD"; a GOOD coil becomes value >= 0.5 and a GOOD non-coil keeps its value |
| TagApi.NormalizeValues | src/lib/api.js:22-38 | `values` has exactly the response's keys, and each key holds its own tag's normalised value |
| TagApi.CollectValues | src/lib/api.js:23-38 | the per-entry loop assigns every key of the response its normalised value and no other key |
| TagApi.CollectValuesMatches | src/lib/api.js:23-38 | the loop's result equals the whole-record definition of `values` |
| TagApi.NormalizeIsPerKey | src/lib/api.js:23-38 | replacing one tag's record changes only that key's value |
| TagApi.NormalizeLocal | src/lib/api.js:23-38 | a key's value depends only on the key and its own record |
| TagApi.BadTagIsMissing | src/lib/api.js:24-27 | a tag whose quality is not "GOOD" maps to undefined whatever its number |
| TagApi.GetTagsValues | src/lib/api.js:15-39 | a non-2xx status fails with that status; an undecodable body fails; on success `meta` is the response's tag record unchanged and `values` is its normalised record, with the same keys |
| Normalize.ReadValue | src/services/normalize.js:1-5 | null for null and undefined, the `value` field of a record that has one, otherwise the argument itself |
| Normalize.ReadValueUndefined | src/services/normalize.js:1-5 | `readValue` yields undefined only for a record whose `value` is undefined |
| Normalize.ToNum | src/services/normalize.js:6 | the fallback exactly for null, undefined and NaN-coercing input, otherwise the coerced number |
| Normalize.ToNumFallbacks | src/services/normalize.js:6-7 | `toNum` gives the fallback for null and undefined but 0 for ""; `toBool(null)` is false |
| Normalize.ToBool | src/services/normalize.js:7 | true exactly for non-nullish input that coerces to a finite non-zero number |
| Normalize.ToBoolAgreesWithTruthiness | src/services/normalize.js:7 | `toBool` equals JavaScript truthiness on everything but strings and objects; "0" is truthy yet `toBool("0")` is false |
| Normalize.FmtCase | src/services/normalize.js:8-13 | "--" exactly for nullish or NaN input; locale grouping exactly when the absolute value is at least 1000; below that, integers go to `String(n)` and other numbers to one decimal |
| Normalize.Fmt | src/services/normalize.js:8-13 | "--" for nullish or NaN input; the host's pt-BR grouping when the absolute value is at least 1000; below that, `String(n)` for an integer and the host's one-decimal text otherwise |
| Normalize.FmtMissingTagIsDashes | src/services/normalize.js:9 | a missing or BAD tag, passed with the "--" fallback, renders as "--" |
| Normalize.FmtSmallInteger | src/services/normalize.js:12 | an integer below 1000 in absolute value renders as its decimal text, with no '.', at most 4 characters, and reads back as itself |
| Normalize.FmtExamples | src/services/normalize.js:8-13 | 7 renders "7"; 3.5 takes one decimal; 1234 and -1000 are grouped; 999 is plain; null and NaN render "--" |
| Decimal.ParseNatToString | src/services/normalize.js:12 | the decimal text of a natural number reads back as that number |
| Decimal.ParseIntToString | src/services/normalize.js:12 | `String(n)` reads back as `n` for every integer |
| Decimal.NatToStringShort | src/services/normalize.js:12 | a natural number below 1000 has at most three digits |
| Decimal.PadStart | src/pages/Dashboard.js:179 | `padStart` keeps the text as a suffix, fills only with the pad character, and reaches the requested width |
| DashboardView.MotorStatus | src/pages/Dashboard.js:113-117 | a truthy fault gives "Em falha" whatever the run bit; otherwise the run bit gives "Ligado" or "Desligado" |
| DashboardView.OnOff | src/pages/Dashboard.js:119-122 | "Ligado" exactly for a truthy argument |
| DashboardView.OzoneIndicator | src/pages/Dashboard.js:128-129 | "Ligado" exactly when `ozonio_equipamento` is truthy, otherwise "Desligado" |
| DashboardView.MotorIndicator | src/pages/Dashboard.js:131-133 | for motor 1 or 2, "Em falha" exactly when its `motor_<n>_fault` tag is truthy; otherwise on or off by its `motor_<n>_run` tag |
| DashboardView.MotorWithoutFaultIsOnOff | src/pages/Dashboard.js:113-122 | without a fault, the motor indicator is the on/off indicator of its run bit |
| DashboardView.CycleStatus | src/pages/Dashboard.js:135-139 | a truthy finished bit gives "Finalizado" whatever the start bit; otherwise the start bit gives "Inicializado" or "Parado" |
| DashboardView.CycleIndicator | src/pages/Dashboard.js:135-141 | "Finalizado" exactly when `ciclo_finalizado` is truthy; otherwise "Inicializado" or "Parado" by `ciclo_iniciar` |
| DashboardView.CycleIgnoresStopped | src/pages/Dashboard.js:135-141 | the `ciclo_parado` argument never changes the cycle indicator |
| DashboardView.NumericTagReadByTruthiness | src/pages/Dashboard.js:119-122 | a GOOD non-coil tag shows "Ligado" exactly when its reading is non-zero |
| DashboardView.OzoneReadByTruthiness | src/pages/Dashboard.js:128-129 | the ozone indicator is "Ligado" exactly when the GOOD numeric reading is non-zero, so 0.3 shows as on |
| DashboardView.Num | src/pages/Dashboard.js:124-125 | the coerced number when it is finite, otherwise the fallback |
| DashboardView.NumOfNullish | src/pages/Dashboard.js:124-125 | `num(null)` is 0 and `num(undefined)` is the fallback |
| DashboardView.NumVersusToNum | src/pages/Dashboard.js:124-125 | `num` equals `toNum` of src/services/normalize.js on every value but null, which `num` reads as 0 |
| DashboardView.Capacity | src/pages/Dashboard.js:144-146 | the tank's own capacity tag read by `num` when it is present and GOOD, otherwise `capTotal` read by `num`, with the built-in litres as fallback |
| DashboardView.EffluentCapacity | src/pages/Dashboard.js:144 | with neither `cap_total_ef` nor `capTotal`, 2670 L |
| DashboardView.TreatedCapacity | src/pages/Dashboard.js:145 | with neither `cap_total_trat` nor `capTotal`, 1100 L |
| DashboardView.EvaporatorCapacity | src/pages/Dashboard.js:146 | with neither `cap_total_evap` nor `capTotal`, 13570 L |
| DashboardView.TreatedMinimum | src/pages/Dashboard.js:150 | `cap_min_trat` read by `num` when present and GOOD, otherwise `capMin` read by `num`, with 150 L as fallback and when neither is present |
| DashboardView.CapacityDefaults | src/pages/Dashboard.js:144-146 | with neither the tank's own capacity tag nor `capTotal`, the built-in litres are used |
| DashboardView.BuildLevel | src/pages/Dashboard.js:156-163 | the level is the reading when finite and non-negative, else 0; the capacity is the reading when finite and at least 1, else 1; pct is the level/capacity ratio capped at 100 and rounded to the nearest integer, halves up; the bar height is pct followed by '%'; full exactly when level >= capacity or the ratio is at least 99.5 % |
| DashboardView.RatioAtLeastOne | src/pages/Dashboard.js:159-161 | a level at least its capacity gives a raw percentage of at least 100 |
| DashboardView.FullIffHundred | src/pages/Dashboard.js:159-161 | a tank is full exactly when its rounded percentage is 100 |
| DashboardView.LevelClamps | src/pages/Dashboard.js:157-160 | for a capacity reading of at least 1 L, a negative level reading shows 0 L and a level at or over capacity shows 100 % |
| DashboardView.LevelExamples | src/pages/Dashboard.js:156-163 | 2670 of 2670 L is 100 % and full; 2656 of 2670 L is 99 % and not full; -5 L shows 0 L |
| DashboardView.WholeMinutes | src/pages/Dashboard.js:176 | the floor of a non-negative finite number, otherwise 0 |
| DashboardView.TotalMinutes | src/pages/Dashboard.js:183-184 | the configured length is at least 1, equals the whole minutes of `Timer` when those are positive, and is the 720-minute default when they are 0 |
| DashboardView.TotalMinutesFallback | src/pages/Dashboard.js:183-184 | an absent, BAD or below-one `Timer` gives 720; otherwise its floor |
| DashboardView.MinutesToHHMM | src/pages/Dashboard.js:175-180 | the H:MM text reads back as the clamped whole minutes max(0, floor(min)); the third character from the end is ':' and the two-digit minute field lies in [0, 59] |
| Clock.ClockTextRoundTrip | src/pages/Dashboard.js:177-179 | the H:MM text of n minutes reads back as n, and its last two characters are n mod 60 |
| Clock.PadZeroValue | src/pages/Dashboard.js:179 | padding minutes below 100 to two digits keeps their value |
| DashboardView.PauseResumeExclusive | src/pages/Dashboard.js:287-292 | `CanPause` and `CanResume`: pause and resume are never both enabled; neither is enabled when the cycle is not running or a busy flag is set; one is enabled otherwise |
| CycleTimer.Mount | src/pages/Dashboard.js:191-194 | a mounted page shows the configured length and starts with both previous bits 0 and the storage as it was |
| CycleTimer.Bit | src/pages/Dashboard.js:198 | the effect's bit is 1 exactly when the tag is truthy, and is always 0 or 1 |
| CycleTimer.StartEffect | src/pages/Dashboard.js:196-207 | the previous start bit becomes this snapshot's; a rising start saves the current time and the configured length; otherwise the storage is unchanged; no other key is touched |
| CycleTimer.FinishEffect | src/pages/Dashboard.js:209-220 | the previous finish bit becomes this snapshot's; a rising finish removes both keys and shows the configured length; otherwise storage and display are unchanged |
| CycleTimer.Step | src/pages/Dashboard.js:196-220 | previous bits become this snapshot's bits; a rising finish removes both keys and shows the configured length; a rising start alone saves the start and length; no edge leaves the storage alone; without a rising finish the displayed minutes are unchanged; no other key is touched |
| CycleTimer.SavedTotal | src/pages/Dashboard.js:235 | the saved length read back is at least 1 and equals any saved value of at least 1 |
| CycleTimer.Tick | src/pages/Dashboard.js:223-241 | the configured length when either key is missing; otherwise max(saved length - elapsed whole minutes, 0) |
| CycleTimer.TickEngine | src/pages/Dashboard.js:224-241 | a tick changes only the displayed minutes |
| CycleTimer.StepIdempotent | src/pages/Dashboard.js:193-220 | applying the same snapshot again changes nothing, whatever the clock or `Timer` |
| CycleTimer.BothEdgesClear | src/pages/Dashboard.js:196-220 | when both bits rise together the storage ends with both keys removed |
| CycleTimer.SavedTotalIgnoresTimer | src/pages/Dashboard.js:197-207 | while the start bit stays up, a changed `Timer` does not alter the saved length |
| CycleTimer.MountSeesNoEdge | src/pages/Dashboard.js:193-220 | the first render after mounting, with no tags, finds no edge and leaves the storage alone |
| CycleTimer.ReloadRestartsCountdown | src/pages/Dashboard.js:193-204 | after a reload, a snapshot with the start bit up and the finish bit down overwrites the saved start with the current time, and the countdown shows the full length |
| CycleTimer.TickAtStart | src/pages/Dashboard.js:234-240 | at the saved start the countdown shows the saved length |
| CycleTimer.DivMonotone | src/pages/Dashboard.js:238 | whole elapsed minutes never decrease as elapsed milliseconds grow |
| CycleTimer.TickNonIncreasing | src/pages/Dashboard.js:237-240 | the countdown never increases as the clock advances |
| CycleTimer.ClockBeforeStartInflates | src/pages/Dashboard.js:237-240 | a clock behind the saved start shows more than the saved length |
| CycleTimer.CountdownScenario | src/pages/Dashboard.js:196-241 | with 720 minutes, 715 remain five minutes after the start; a later finish brings the display back to 720 |
| CycleTimer.RepeatedSnapshot | src/pages/Dashboard.js:193-220 | polling one snapshot many times acts like polling it once, and the repeats create and clear nothing |
| CycleTimer.Run | src/pages/Dashboard.js:193-220 | after a sequence of snapshots the previous bits are those of the last snapshot, and no storage key other than the two cycle keys changes |
| CycleTimer.StartStopRun | src/pages/Dashboard.js:193-220 | the polls off, started, started, finished save exactly one start and clear exactly once, leaving no saved cycle |

## Left out

- The HTTP requests (`fetch`) are left out. `GetTagsValues` takes the settled response: a status and the decoded `tags` record, absent when the body cannot be decoded. A rejected request (network failure) is not modelled.
- `cmdEmergencia` and `cmdReset` are left out because they are I/O only. `cmdResume`, `cmdStoptime` and `cmdEmpty` are imported by the page but not defined in `src/lib/api.js`, so they are not part of this model.
- The command handlers and busy flags (`src/pages/Dashboard.js:59-109`) are left out because they only wrap I/O. The flags appear only as inputs of `CanPause`/`CanResume`.
- The 1 s polling loop, its `alive` flag and the 1 s tick interval are left out because they are timers and async scheduling. Snapshots arrive as an ordered sequence (`Run`), and a tick is a call of `Tick` at a given time.
- Theme persistence, JSX rendering, the SVG ring geometry, the secondary timer text and the green-impact arithmetic are left out because they are presentation or floating-point constants.
- `src/services/api.js`, `src/services/tagsMap.js`, `src/App.js` and `src/components/*` are left out because they are a legacy client, a name table, routing and layout.
- Floating point is not modelled: numbers are exact reals. So `buildLevel`'s ratio, and `FullIffHundred` in particular, hold for exact arithmetic and can differ from IEEE doubles at the last bit.
- Infinity is not modelled: tag values are taken to be finite numbers, although a JSON literal beyond the double range (such as `1e400`) would parse to Infinity, which `num` would replace by its fallback, `onOff` would show as "Ligado" and `fmt` would group. Neither is -0, because `String(-0)` is "0" anyway.
- The conversion of strings to numbers (`+"12"`) is not modelled: a string value carries its numeric coercion as data.
- Normalize.Render: `toLocaleString('pt-BR')` and `toFixed(1)` are function parameters with no interpretation. Only the branch choice (`FmtCase`) and the integer branch are concrete.
- Local storage holds integers rather than their text. The keys are only ever written by this page, so `Number(String(n))` is taken to be `n`.
- The order of `Object.entries` is not modelled. `CollectValues` visits keys in an arbitrary order, and the result does not depend on the order.
