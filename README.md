# Wake-up light control panel: a verified model

This project models the client of an ESP32 wake-up light. It covers two parts.

**The control panel state machine** is the `App` route component. It keeps:
- a mirror of the last status the device reported;
- the edit buffers of the alarm form and of the two brightness sliders;
- the "alarm saved" banner;
- one react-query mutation slot per write endpoint.

`ControlPanel.App` is a class with one method per event:
- a poll succeeds or fails;
- the user types in the hour or minute field, presses Set Alarm, drags or releases a slider, clicks a preset, flips the alarm switch, or presses lights on or off;
- a mutation settles against a transport outcome;
- the banner timer fires.

All events run one at a time, as on the page's event loop.

**The API layer** has two parts:
- The zod schemas are predicates over a JSON value (`Api.Json`).
- Each endpoint is a method over an abstract transport outcome (`Api.Transport`: the request fails, or it answers with a status code and a body). Each endpoint runs the stages it has, always in this order: validate the request (setAlarm, setBrightness, toggleAlarm only), send, reject a non-2xx status, then read and validate the reply body (getStatus, getAlarm, setBrightness, toggleAlarm only). `Api.FirstFailure` states that order once. Every endpoint is proved to fail exactly as it says.

The JavaScript string operations the panel depends on live in `JsStrings`: `padStart`, `split` with a one-character separator, and `parseInt(text, 10)` (NaN is `None`). `Scenarios` runs short event sequences against `App`.

The model follows the code, which:
- **Has no out-of-order discard.** Poll results are applied in whatever order they arrive.
- **Marks no control as being edited, and overwrites the buffers on resync.** It writes both brightness buffers from the mirror whenever the mirror's brightness changes, even mid-drag (`Scenarios.RefreshDuringDrag`).
- **Does not reset buffers after a commit succeeds.** A successful commit only invalidates the status query (and, for Set Alarm, shows the banner).
- **Uses the literal 1023 as the brightness bound.** It is not configurable.

## Model

| member | source | states |
|---|---|---|
| JsStrings.PadStart | src/routes/index.tsx:265 | text at least `width` long is returned unchanged; shorter text gets exactly `width - |s|` fill characters in front and ends with the original text |
| JsStrings.Split | src/routes/index.tsx:37 | a split has at least one field and no field contains the separator |
| JsStrings.JoinSplit | src/routes/index.tsx:37 | joining the fields of a split with the separator gives back the original text |
| JsStrings.SplitJoin | src/routes/index.tsx:37 | splitting separator-free fields joined by the separator gives back exactly those fields |
| JsStrings.TrimStartDropsLeadingWhiteSpace | src/routes/index.tsx:114 | parseInt's first step drops exactly the leading white space: what remains is a suffix that does not start with white space, and everything dropped was white space |
| JsStrings.DigitPrefixIsLongestDigitRun | src/routes/index.tsx:114 | the digits parseInt reads are the longest run of decimal digits at the front of the text |
| JsStrings.Decimal | src/routes/index.tsx:114 | the decimal text of a number is non-empty and all digits |
| JsStrings.DigitsValueOfDecimal | src/routes/index.tsx:114 | reading the digits of a number's decimal text gives back the number |
| JsStrings.ParseIntOfDigits | src/routes/index.tsx:114 | parseInt of a non-empty run of digits is the value of those digits |
| JsStrings.ParseIntOfDecimal | src/routes/index.tsx:114 | parseInt inverts the decimal text of every natural number |
| JsStrings.LeadingZeroValue | src/routes/index.tsx:265 | one leading zero keeps a digit string all digits and keeps its value |
| JsStrings.LeadingZerosValue | src/routes/index.tsx:265 | any number of leading zeros keeps a digit string's value |
| JsStrings.ParseIntOfPadded | src/routes/index.tsx:265 | zero-padding a digit string does not change what parseInt reads from it |
| JsStrings.DigitPrefixStops | src/routes/index.tsx:114 | the digit run of digits followed by a non-digit is exactly those digits |
| JsStrings.ParseIntStopsAtNonDigit | src/routes/index.tsx:114 | parseInt ignores everything after the first non-digit |
| JsStrings.TrimStartAfterWhiteSpace | src/routes/index.tsx:114 | white space followed by a non-white-space character is trimmed to exactly that character onward |
| JsStrings.ParseIntDefinedIff | src/routes/index.tsx:114-117 | parseInt gives a number iff the text starts, after white space, with a digit or with a sign followed by a digit; otherwise it is NaN |
| JsStrings.ParseIntNaN | src/routes/index.tsx:115 | the empty text and `undefined` (read as the text "undefined") are both NaN |
| JsStrings.ParseIntOfSignedDigits | src/routes/index.tsx:114 | after any leading white space and an optional `-` or `+`, parseInt reads the digits up to the first non-digit, negated after `-` |
| Api.ParseStatus | src/lib/api.ts:7-14 | a status is returned exactly when the body has the two strings, the two booleans, and both brightness values in 0..1023; a returned status is in range |
| Api.ParseGetAlarmResponse | src/lib/api.ts:21-25 | a get-alarm reply is accepted exactly when it fits the schema; an accepted reply has hour 0..23 and minute 0..59 |
| Api.ParseBrightnessResponse | src/lib/api.ts:32-35 | a brightness reply is accepted exactly when it fits the schema; both channels are then in 0..1023 |
| Api.ParseToggleAlarmResponse | src/lib/api.ts:41-44 | a toggle reply is accepted exactly when it has a boolean `isAlarmSet` and a string `alarmTime` |
| Api.ParseStatusKeepsSchemaFields | src/lib/api.ts:7-14 | the parsed status, encoded again, is the body with every field the schema does not name dropped |
| Api.ParseStatusIgnoresUnknownFields | src/lib/api.ts:7-14 | adding or changing a field the schema does not name does not change the parse |
| Api.StatusRoundTrip | src/lib/api.ts:7-14 | an encoded status parses back to itself exactly when its brightness is in range, and is rejected otherwise |
| Api.ParseGetAlarmKeepsSchemaFields | src/lib/api.ts:21-25 | the parsed get-alarm reply, encoded again, is the body with every field the schema does not name dropped |
| Api.GetAlarmRoundTrip | src/lib/api.ts:21-25 | an encoded get-alarm reply parses back to itself iff hour is 0..23 and minute 0..59, and is rejected otherwise |
| Api.ParseBrightnessKeepsSchemaFields | src/lib/api.ts:32-35 | the parsed brightness reply, encoded again, is the body with every field the schema does not name dropped |
| Api.BrightnessRoundTrip | src/lib/api.ts:32-35 | an encoded brightness reply parses back to itself iff both channels are in 0..1023, and is rejected otherwise |
| Api.AlarmRequestValidIsClockRange | src/lib/api.ts:16-19 | an alarm request passes its schema iff 0 <= hour <= 23 and 0 <= minute <= 59 |
| Api.BrightnessRequestValidIsRange | src/lib/api.ts:27-30 | a brightness request passes its schema iff both channels are in 0..1023 |
| Api.BrightnessBoundsAgree | src/lib/api.ts:27-35 | the request and reply brightness schemas accept exactly the same bodies |
| Api.ToggleRequestAlwaysValid | src/lib/api.ts:148 | the toggle request built from any boolean passes its schema, so that step never throws |
| Api.InvalidRequestFailsFirst | src/lib/api.ts:91 | a request that fails its schema fails with the validation error, whatever the network would have done |
| Api.NonOkFailsWhateverTheBody | src/lib/api.ts:71-73 | a valid request answered with a status outside 200-299 fails with that status, whatever the body |
| Api.BadReplyIsFailure | src/lib/api.ts:75-76 | a 2xx reply whose body fails the reply schema is a failure |
| Api.FetchWithValidation | src/lib/api.ts:58-77 | a network failure, a non-ok status, an unreadable body and a schema-failing body each give their error; success holds exactly the parsed body |
| Api.GetStatus | src/lib/api.ts:79-82 | always sends; fails exactly as the pipeline order says; a returned status is the parsed body and is in range |
| Api.GetAlarm | src/lib/api.ts:99-102 | always sends; fails exactly as the pipeline order says; a returned alarm is the parsed body, with hour 0..23 and minute 0..59 |
| Api.SetAlarm | src/lib/api.ts:84-97 | sends exactly when the request passes its schema, and then sends that request; fails exactly as the pipeline order says; no body is read |
| Api.TurnLightsOn | src/lib/api.ts:104-113 | always sends; fails exactly on a network failure or a non-ok status |
| Api.TurnLightsOff | src/lib/api.ts:115-124 | always sends; fails exactly on a network failure or a non-ok status |
| Api.SetBrightness | src/lib/api.ts:126-144 | sends exactly when the request passes its schema; fails exactly as the pipeline order says; a returned reply is in 0..1023 and is the body's `warm` and `cool` with unknown fields dropped |
| Api.ToggleAlarm | src/lib/api.ts:146-164 | always sends `{enabled}`; fails exactly as the pipeline order says; a returned reply is the body with unknown fields dropped |
| Api.Perform | src/routes/index.tsx:53-103 | each mutation function sends its call exactly when the call passes its request schema, and fails exactly as the pipeline order says |
| ControlPanel.Mutations.Set | src/routes/index.tsx:53-103 | replacing one hook's state leaves every other hook's state as it was |
| ControlPanel.SetKeepsWellFormed | src/routes/index.tsx:53-103 | replacing one slot with a consistent state keeps all five slots consistent |
| ControlPanel.PresetBrightness | src/routes/index.tsx:323-417 | each of the nine presets sends a fixed pair that passes the brightness request schema |
| ControlPanel.DisablingIsIndependent | src/routes/index.tsx:239-493 | if changing one hook's state changes whether a control is disabled, that control belongs to that hook |
| ControlPanel.DisabledFlags | src/routes/index.tsx:239-493 | the text fields and sliders are never disabled; all nine presets share the brightness flag; every other button has its own hook's flag |
| ControlPanel.BrightnessAreaError | src/routes/index.tsx:496-508 | the brightness card shows an error iff one of the brightness, lights-on and lights-off hooks has one; the error shown is the first present in that order, with every earlier one absent |
| ControlPanel.SeedHour | src/routes/index.tsx:37-39 | the seeded hour buffer is at least two characters long |
| ControlPanel.SeedHourOfFirstField | src/routes/index.tsx:37-39 | for every alarm time, the hour buffer is the text before the first ':' zero-padded to two characters, whatever follows |
| ControlPanel.TwoDigitsReadBack | src/routes/index.tsx:114 | the two-digit form of a number parses back to that number |
| ControlPanel.SeedsOfAlarmTime | src/routes/index.tsx:37-40 | for an alarm time "HH:MM", the hour buffer is seeded with "HH" and the minute buffer with "MM" |
| ControlPanel.SeededAlarmReadsBack | src/routes/index.tsx:37-126 | pressing Set Alarm on untouched buffers seeded from "HH:MM" builds exactly the request (HH, MM) |
| ControlPanel.TypedDigitsReadBack | src/routes/index.tsx:265 | digits typed into an alarm field are padded and then read by the gate as their value |
| ControlPanel.EmptiedFieldReadsAsZero | src/routes/index.tsx:265 | an emptied alarm field is stored as "00", which the gate reads as 0, not NaN |
| ControlPanel.AlarmGateAcceptsNumbers | src/routes/index.tsx:113-126 | the gate lets a request through iff both buffers start, after white space, with an optionally signed digit; a missing minute (the text "undefined") always stops it |
| ControlPanel.TypedNumbersPassGate | src/routes/index.tsx:113-126 | any two numbers typed without leading zeros pass the gate as exactly those numbers |
| ControlPanel.OutOfRangeHourPassesGate | src/routes/index.tsx:113-126 | an hour read outside 0..23 passes the gate whenever the minute parses, and the request schema then refuses the request |
| ControlPanel.HourTwentyFivePassesGate | src/routes/index.tsx:113-126 | "25" passes the gate whenever the minute parses, and the request it builds fails the request schema |
| ControlPanel.App.constructor | src/routes/index.tsx:37-51 | the page mounts with the loaded status as its mirror, the buffers seeded from it, no banner, all hooks idle and nothing sent |
| ControlPanel.App.PollSucceeded | src/routes/index.tsx:105-111 | the mirror is replaced whole; the brightness buffers are overwritten from the new status iff its brightness differs from the old mirror's, and are otherwise untouched |
| ControlPanel.App.QueryFailed | src/routes/index.tsx:128 | a failed status query switches to the error view and keeps the mirror |
| ControlPanel.App.TypeHour | src/routes/index.tsx:265 | typing stores only the zero-padded hour text; nothing else changes and nothing is sent |
| ControlPanel.App.TypeMinute | src/routes/index.tsx:281 | typing stores only the zero-padded minute text; nothing else changes and nothing is sent |
| ControlPanel.App.ClickSetAlarm | src/routes/index.tsx:113-126 | NaN in either buffer raises one alert and starts nothing; otherwise exactly the set-alarm hook starts, with the gate's request |
| ControlPanel.App.SlideWarm | src/routes/index.tsx:436-438 | dragging changes only the warm buffer and starts no mutation |
| ControlPanel.App.SlideCool | src/routes/index.tsx:461-463 | dragging changes only the cool buffer and starts no mutation |
| ControlPanel.App.CommitWarm | src/routes/index.tsx:439-444 | releasing the warm slider starts the brightness hook with the released value and the current cool buffer |
| ControlPanel.App.CommitCool | src/routes/index.tsx:464-469 | releasing the cool slider starts the brightness hook with the current warm buffer and the released value |
| ControlPanel.App.ClickPreset | src/routes/index.tsx:323-417 | a preset starts the brightness hook with its fixed pair |
| ControlPanel.App.FlipAlarmSwitch | src/routes/index.tsx:239-245 | the switch starts the toggle hook asking for the opposite of the mirrored alarm state |
| ControlPanel.App.ClickLightsOn | src/routes/index.tsx:480-486 | starts only the lights-on hook |
| ControlPanel.App.ClickLightsOff | src/routes/index.tsx:487-493 | starts only the lights-off hook |
| ControlPanel.App.Mutate | src/routes/index.tsx:53-103 | `mutate` puts exactly that hook in the pending state with the given variables and no error |
| ControlPanel.App.MutationSettles | src/routes/index.tsx:53-103 | the request goes on the wire iff it passes its schema; the hook settles with the pipeline's failure; success invalidates the status query and, for set-alarm only, shows the banner; failure only logs; buffers and mirror are untouched |
| ControlPanel.App.BannerTimeout | src/routes/index.tsx:58 | the timer hides the banner and changes nothing else |
| Scenarios.SetAlarmAndSettle | src/routes/index.tsx:53-126 | after Set Alarm and the reply: NaN sends nothing and alerts; otherwise the request is sent iff it is in the clock range, and the banner shows iff it was sent and answered 2xx |
| Scenarios.SettleSetAlarm | src/routes/index.tsx:53-63 | a pending set-alarm request goes out iff the schema accepts it, and the banner shows iff it went out and was answered 2xx |
| Scenarios.RefreshDuringDrag | src/routes/index.tsx:105-111 | a poll during a drag keeps the dragged value iff the device's brightness is unchanged, and otherwise snaps to the device's value |
| Scenarios.FailedCommitKeepsSlider | src/routes/index.tsx:439-508 | a refused commit sends the released value with the untouched cool buffer, keeps the slider where it was released, and shows an error |
| Scenarios.LightsOnDisablesOnlyItself | src/routes/index.tsx:480-493 | while lights-on is pending it is the only disabled control |

The schema predicates themselves are `Api.StatusResponseSchema`, `Api.AlarmRequestSchema`, `Api.GetAlarmResponseSchema`, `Api.BrightnessRequestSchema`, `Api.BrightnessResponseSchema`, `Api.ToggleAlarmRequestSchema` and `Api.ToggleAlarmResponseSchema`. They are definitions, and the lemmas and parsers above state what they mean. Likewise `JsStrings.ParseInt` (`parseInt(text, 10)`) is a definition whose meaning `JsStrings.ParseIntDefinedIff`, `JsStrings.ParseIntOfSignedDigits` and `JsStrings.ParseIntOfDecimal` state, and `ControlPanel.AlarmGate` (the check Set Alarm makes before sending) and `ControlPanel.SeedMinute` (the minute buffer seeded from the device's `alarmTime`) are definitions: `ControlPanel.AlarmGateAcceptsNumbers`, `ControlPanel.App.ClickSetAlarm` and `ControlPanel.SeedsOfAlarmTime`, with `ControlPanel.App.constructor`, state what they mean.

## Left out

- **`fetch`, headers, paths and the base URL.** Endpoint paths and HTTP methods are not modelled; a call is identified by its `Call` constructor. This includes `JSON.stringify`, `response.json()` and the `VITE_ESP32_URL` base address. A request is a `Call` value. A reply is an abstract `Transport` outcome whose body is a `Json` value or unreadable.
- **Error messages.** Thrown errors carry an `ApiError` kind; `statusText` and the message strings are not modelled.
- **react-query scheduling.** This includes the 1000 ms `refetchInterval`, `retry: 3`, `initialData` and when `invalidateQueries` actually refetches. "Poll succeeded", "query failed" and the banner timer are events the environment delivers. Invalidation is recorded as a flag.
- **Side effects.** `alert` and `console.error` are counters. `window.location.reload` on the error view is not modelled.
- **Markup.** This includes the loading view, the percentage bar widths (floating-point division by 1023) and `src/components/Header.tsx`, which are markup.
- JsStrings.PadStart: text is a sequence of Unicode code points, while JavaScript's `length` and `padStart` count UTF-16 code units. A character outside the Basic Multilingual Plane counts as one where JavaScript counts two, so `"😀".padStart(2, '0')` is padded here and left alone by JavaScript. Lone surrogates have no counterpart. The same applies to `Split`. The difference is reachable only through an `alarmTime` the device sends, since the schema admits any string there; the seeded hour buffer can then parse as a number where the page reads NaN.
- **Non-integer numbers.** Numbers are integers: zod's `number()` also accepts fractions, and `parseInt` results beyond what the alarm form uses are not bounded.
- **Timing of sends.** A mutation puts its request on the wire when it settles, not when it starts, because each endpoint is one method over its transport outcome. Only the order of settled requests is recorded.
- **ControlPanel.App.CommitWarm: overlapping brightness mutations.** A commit while a brightness mutation is pending restarts the hook with the new variables. Only the latest call settles; an earlier in-flight request that would complete separately is not modelled. The same holds for `CommitCool`. A preset click cannot overlap a pending brightness mutation, because the presets are disabled while it is pending, but a slider commit may follow a pending preset.
- **ControlPanel.App.FlipAlarmSwitch: the switch's `checked` argument.** It is taken to be the opposite of the mirrored `isAlarmSet`, which is what the switch reports on a click.
- **Scenarios.SetAlarmAndSettle: no typing step.** It starts from whatever the buffers hold. The typed-text cases are the lemmas `TypedNumbersPassGate`, `OutOfRangeHourPassesGate` and `HourTwentyFivePassesGate`, not one event sequence.
