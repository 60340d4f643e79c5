# MMM-NatureRemo core, modelled in Dafny

MMM-NatureRemo is a MagicMirror widget. It polls the Nature Remo cloud API for the user's
devices and shows one device's temperature, humidity, illumination and last motion time.
This project models the parts of the widget whose behaviour can be stated exactly. It proves
what they promise.

- **Polling loop** (`poller.dfy`, module `Poller`). The class `NatureRemo` holds the widget's
  fields:
  - `loaded`: a device list was received at least once.
  - `sensorData`: the latest device list.
  - `dataNotification`: the latest payload pushed by the helper process.
  - `armed`: the delay of the one outstanding timer, if any.
  - `redraws`: the number of redraws the core itself requested.

  The network fetch is an injected `Outcome`: `Unauthorized` (401), `TooManyRequests` (429),
  `OtherHttpError` (another status that is not ok), `NetworkOrParseError` or `Success(data)`.
  `GetData`, `ScheduleUpdate`, `ProcessData`, `TimerFired` and `SocketNotificationReceived`
  follow the source statement by statement. This includes its local variables `retry` and
  `delay` and the `-1` passed once `loaded` is set. Each method's new state is tied to a
  declarative function:
  - `NextFetch` gives the delay table.
  - `Fetched` gives the effect of one `getData`.
  - `Fire` is one timer going off.
  - `Run` is a sequence of timer firings.

  The lemmas state what one fetch does and what any run of fetches does.
- **Device selection** (`devices.dfy`, module `Devices`). `GetDevice` filters by `deviceID`
  when it is set, otherwise by `deviceName`, and takes the first match. When neither is set,
  the source reads `length` of `undefined` and throws a `TypeError`. The model returns the
  explicit result `NoSelector` for that case.
- **Formatters** (`format.dfy`, module `Format`; `decimal.dfy`, module `Decimal`).
  - `IllumiString` is the illumination label.
  - `HourString` is the motion time in `"12h"` or 24-hour form.
  - Number rendering (`${n}`), JavaScript's truncating `%` and `.slice(-2)` are written out.
  - Parsers are the partners of the formatters. Round-trip lemmas show that each label keeps
    its range name and its value, and that each time keeps its hour and minute.

Where the code's behaviour may look unintended, the model follows the code:
- A redraw is requested only on the first successful fetch, not after every one
  (MMM-NatureRemo.js:262).
- Once a device list was received, a 429 waits `updateInterval`, not 60 seconds. Line 93
  passes `-1`, which overrides the back-off.
- With neither `deviceID` nor `deviceName` configured, `getDevice` throws. It does not
  return "not found".
- A negative delay reaching `scheduleUpdate` falls back to `updateInterval`. This covers a
  negative `retryDelay`.

## Model

| member | source | states |
|---|---|---|
| `Decimal.IntToString` | MMM-NatureRemo.js:118 | the rendering of an integer is never empty, starts with a minus sign exactly when the integer is negative, and has no leading zero: zero renders as "0", a positive value starts with a non-zero digit, and a negative one has a non-zero digit after its sign |
| `Decimal.IntRoundTrip` | MMM-NatureRemo.js:117-125 | the decimal text an integer reading is rendered as reads back as the same integer |
| `Format.SliceLast` | MMM-NatureRemo.js:129 | for k ≥ 1, `.slice(-k)` keeps the last k characters, or the whole string when it is shorter |
| `Format.JsRemIsTruncated` | MMM-NatureRemo.js:132 | `%` by a positive divisor is the remainder of division truncated toward zero: a == b * q + r, with r smaller than b in magnitude and of the dividend's sign |
| `Format.Pad2` | MMM-NatureRemo.js:129 | `("0" + x).slice(-2)` is always exactly two characters |
| `Format.Pad2Digits` | MMM-NatureRemo.js:129 | for a non-negative value the padding is its tens digit then its units digit, so 0..9 gain a leading zero |
| `Format.RangesPartition` | MMM-NatureRemo.js:117-125 | the four illumination ranges cover every value and do not overlap |
| `Format.IllumiString` | MMM-NatureRemo.js:116-126 | the label is the name of a range that contains the value, then a space and the value's rendering in parentheses |
| `Format.IllumiStringLabel` | MMM-NatureRemo.js:116-126 | the label is Dark up to 50, Dim above 50 up to 127, Medium above 127 up to 205, Light above, then a space and the value in parentheses |
| `Format.IllumiStringReadsBack` | MMM-NatureRemo.js:116-126 | parsing a label gives back exactly the range of the value and the value itself |
| `Format.RangesAreOrdered` | MMM-NatureRemo.js:117-125 | a larger value never gets a darker range |
| `Format.ShownHour` | MMM-NatureRemo.js:132-133 | the twelve-hour hour is never 0: JavaScript's `hour % 12` with 0 replaced by 12, so 1..12 for a non-negative hour |
| `Format.HourString` | MMM-NatureRemo.js:128-140 | for any integers the text is ten characters in "12h" form and five in any other format |
| `Format.HourStringShape` | MMM-NatureRemo.js:129-138 | for any integers the hour field, a colon and the padded minute come first; "12h" shows the shown hour and a space before the suffix, other formats the hour itself |
| `Format.TwelveHourShown` | MMM-NatureRemo.js:132-133 | for a non-negative hour the "12h" hour is 1..12, congruent to the hour mod 12, with midnight and noon shown as 12 |
| `Format.TwelveHourSuffix` | MMM-NatureRemo.js:131 | the suffix is "a.m." exactly when the hour is below 12 and "p.m." exactly when it is not |
| `Format.TwelveHourParts` | MMM-NatureRemo.js:129-135 | for a non-negative hour and minute the "12h" text is, character by character, the tens and units digits of the hour shown (1..12, congruent to the hour mod 12), ":", the tens and units digits of the minute mod 100, a space, then "a.m." below hour 12 and "p.m." otherwise |
| `Format.TwentyFourHourReadsBack` | MMM-NatureRemo.js:136-138 | for hour 0..23 and minute 0..59, a format other than "12h" gives two-digit hour and minute that read back to the same values |
| `Format.TwelveHourReadsBack` | MMM-NatureRemo.js:130-135 | for hour 0..23 and minute 0..59, the "12h" text with its suffix determines the 24-hour hour and the minute |
| `Format.HourStringReadsBack` | MMM-NatureRemo.js:128-140 | in either format a time of day is shown without loss |
| `Devices.Matching` | MMM-NatureRemo.js:146-152 | the filter keeps exactly the devices whose id (or name) equals the wanted key, and its first element is the first such device in list order |
| `Devices.GetDevice` | MMM-NatureRemo.js:142-158 | the selector is the id when it is non-empty, else the name; the result is the first device in list order that matches, not-found exactly when none matches, and the error result exactly when both are empty |
| `Devices.IdTakesPrecedence` | MMM-NatureRemo.js:145-153 | with a non-empty id, the configured name does not affect the result |
| `Poller.NatureRemo.Start` | MMM-NatureRemo.js:37-46 | start clears the loaded flag and runs the first fetch |
| `Poller.NatureRemo.GetData` | MMM-NatureRemo.js:58-96 | one fetch changes the state exactly as the delay table and the success rule say |
| `Poller.NatureRemo.ScheduleUpdate` | MMM-NatureRemo.js:104-114 | arms the timer with the given delay when it is defined and not negative, else with updateInterval |
| `Poller.NatureRemo.ProcessData` | MMM-NatureRemo.js:259-268 | replaces the stored list whole, sets loaded, and requests a redraw only if it was not loaded before |
| `Poller.NatureRemo.TimerFired` | MMM-NatureRemo.js:111-113 | the timer is spent and one fetch runs |
| `Poller.NatureRemo.SocketNotificationReceived` | MMM-NatureRemo.js:271-277 | the helper's notification stores its payload and requests a redraw; any other notification changes nothing |
| `Poller.OneFetch` | MMM-NatureRemo.js:61-95 | no token or a 401 leaves no timer and every other outcome arms one; before loading, 429 arms 60000 and other failures retryDelay; once loaded, or on success, updateInterval; only success changes data and loaded; a redraw only on the first success |
| `Poller.RateLimitAfterFirstSuccess` | MMM-NatureRemo.js:77-93 | a first 429 waits 60000 ms, but a 429 after a success waits updateInterval |
| `Poller.RunKeepsLoaded` | MMM-NatureRemo.js:263 | once loaded, every later run stays loaded |
| `Poller.SteadyAfterFirstSuccess` | MMM-NatureRemo.js:91-95 | after the first device list every armed delay is exactly updateInterval |
| `Poller.StoppedStaysStopped` | MMM-NatureRemo.js:74-76 | once no timer is armed, further outcomes change nothing |
| `Poller.RunWithoutUnauthorized` | MMM-NatureRemo.js:85-95 | without a 401 a timer stays armed; loaded holds exactly if some fetch succeeded; the stored list is the last one received; only the first list requests a redraw |
| `Poller.UnauthorizedEndsPolling` | MMM-NatureRemo.js:74-76 | the first 401 ends polling, and outcomes after it are never used |
| `Poller.NoTokenNoPolling` | MMM-NatureRemo.js:61-64 | with an empty token nothing is fetched, stored or armed |
| `Poller.DefaultsDoNotPoll` | MMM-NatureRemo.js:11-33 | the default configuration has no token, so the widget does not poll until one is set |
| `Poller.LatestIsLastSuccess` | MMM-NatureRemo.js:259-261 | after outcomes that include a success, the stored list is the data of the last success |
| `Poller.ShowsLastReceivedList` | MMM-NatureRemo.js:170-171 | while polling goes on without a 401, the device shown is the one the configured id or name picks from the list of the last successful fetch |
| `Poller.DefaultsSelectNoDevice` | MMM-NatureRemo.js:18-19 | with the default empty id and name, looking up a device in a stored list hits the error result, the `TypeError` `getDevice` throws |
| `Poller.DefaultsShowTwentyFourHour` | MMM-NatureRemo.js:32 | the default hour format is the 24-hour one: the motion time is five characters and reads back as the same hour and minute |
| `Poller.MotionTimeReadsBack` | MMM-NatureRemo.js:228 | in whatever hour format is configured, the motion time of a time of day reads back without loss |

## Left out

- DOM construction in `getDom`: titles, sizes, colours, the "No devices are found" text and the "Updated at" line (MMM-NatureRemo.js:161-245). This is presentation.
- The HTTP request, its headers, `res.json()`, `Log.error` and `sendSocketNotification` (MMM-NatureRemo.js:70-90, 267). These are I/O; the fetch is the `Outcome` argument, and a response body that is not JSON is `NetworkOrParseError`.
- Real timers: `setTimeout` is the `armed` delay, not time passing, and the periodic `updateDom` of `start` (MMM-NatureRemo.js:47-49) is not modelled. Host clamping of delays by `setTimeout` (such as very large values) is not modelled.
- Redraws are counted only when the core requests them (`processData`, `socketNotificationReceived`); the animation speed passed to `updateDom` is not modelled.
- Temperature display and its Fahrenheit conversion `val * 1.8 + 32` (MMM-NatureRemo.js:185-189): floating point.
- The motion timestamp: `Date.parse`, the local-time fields of `new Date` and the offset, which the code adds in seconds to a value in milliseconds (MMM-NatureRemo.js:225-229). These depend on the host's time zone and date library. `HourString` takes the hour and minute as inputs.
- `getScripts`, `getStyles`, `getTranslations` and `Module.register` (MMM-NatureRemo.js:10, 247-257): framework boilerplate.
- Decimal.IntToString: only integers are rendered; magnitudes of 1e21 and above, which JavaScript writes in exponent form, and integers beyond 2^53, which a JavaScript number cannot hold exactly, are rendered here as plain digits.
- Format.IllumiString: readings are integers; `NaN` and fractional illumination values, and JavaScript's rendering of them, are not modelled.
- Format.HourString: hours and minutes are integers; the proofs that the text reads back assume the ranges `Date` produces (0..23, 0..59), though the function itself is defined for every integer.
- Poller.NatureRemo.GetData: requires that no timer is armed. The source runs `getData` only from `start` and from the timer's own callback, which `TimerFired` models by first spending the timer.
- Poller.Outcome: the payload of a success is a list of `Device` records; a JSON body of another shape is not modelled.
