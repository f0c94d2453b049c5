# Robot console frontend: command payloads, continuous walk and gauge layout

This project models two pieces of the teleoperation console's TypeScript
frontend in Dafny and proves properties of them.

- **Commands** (`src/commands.ts`). These are the JSON payloads the console
  hands to its backend: `stop`, `walk` with its documented defaults and
  optional keys, `setRadius`, `legAction`, `legXYZ` and `sendCustom`. They
  all go through the one fire-and-forget send primitive `sendCommand`, which
  catches and logs a failed backend call. Sending is modelled as appending an
  `Emission` (the payload plus how the call settled) to a trace. Walk
  directions are the letters `f`, `b`, `L`, `R`, `l` and `r`. A `Decode`
  function reads a payload back into a `Command` value. The round trip is
  proved in both directions, so every builder is pinned down exactly, keys
  and values alike.
- **Continuous walk** (`src/commands.ts`). This is the two-state controller
  made of `startContinuousWalk` and `stopContinuousWalk`. It keeps one
  module-level interval handle next to the browser's table of live intervals.
  A `Fire` step stands for the browser running one interval callback once.
  The invariant `Consistent` says the browser runs an interval exactly when
  the module holds its handle. Every step keeps it. `startContinuousWalk`
  sends nothing itself; the first walk goes out on the first tick.
- **Gauge layout** (`src/circle_segmenter.ts`). This is the `Segmentor`
  without the DOM. It covers the settings defaults, the layout `draw`
  computes (one full circle, or a list of arcs each with a start angle, an
  end angle and a fill state), the flag `describeArc` picks, and `update`.
  Angles are exact reals, which makes the telescoping identity provable:
  arc `k` ends at `360·(k+1)/n`.

JavaScript optional properties are modelled by `Nullable` = `Missing | Null |
Given(v)`. This matters because the two tests in the code differ: `??`
replaces both `null` and `undefined`, while `!== undefined` only rejects
`undefined`. So `walk` puts a `speed: null` key into the payload when the
caller passes `speed: null`, but falls back to `"crawl"` for `mode: null`.

## Model

| member | source | states |
|---|---|---|
| `JsValues.Nullable.Coalesce` | src/commands.ts:31-33 | `x ?? fallback` keeps a supplied value, zero included, and yields the fallback for both an absent key and an explicit null |
| `JsValues.Nullable.IsDefined` | src/commands.ts:36-37 | `x !== undefined` holds for a supplied value and for an explicit null, and fails only for an absent key |
| `JsValues.DefinedVersusCoalesce` | src/commands.ts:31-37 | the two tests disagree exactly on an explicit null: it passes `!== undefined`, yet `??` replaces it with the fallback |
| `Commands.DirCode` | src/commands.ts:19 | each walk direction has a one-letter code that reads back to the same direction |
| `Commands.ModeName` | src/commands.ts:21 | each gait name reads back to the same gait |
| `Commands.LegMoveCode` | src/commands.ts:77 | each leg action code reads back to the same action |
| `Commands.NumberOrNull` | src/commands.ts:36-37 | a defined optional number is copied as that number, an explicit null as JSON null, and both read back unchanged |
| `Commands.NoOptions` | src/commands.ts:26 | the `{}` used when `walk` or `startContinuousWalk` gets no options: every property is absent, so the walk resolves to crawl, 10 steps, step length 80 and no speed or height |
| `Commands.StopPayload` | src/commands.ts:13-15 | the stop payload has the single key `cmd`, set to "stop" |
| `Commands.WalkPayload` | src/commands.ts:28-37 | a walk payload always has `cmd` "walk" and the given `dir`. `mode`, `steps` and `step_length` hold the supplied values or the defaults "crawl", 10 and 80. `speed` and `height` are present exactly when the option is defined, and then hold the supplied number, or JSON null for an explicit null |
| `Commands.RadiusPayload` | src/commands.ts:70-72 | the radius payload has exactly the keys `cmd` ("radius") and `val` |
| `Commands.LegActionPayload` | src/commands.ts:75-80 | the leg-action payload has exactly the keys `cmd` ("leg"), `id` and `action` |
| `Commands.LegXYZPayload` | src/commands.ts:83-90 | the leg-position payload has exactly the keys `cmd` ("leg"), `id`, `x`, `y` and `z` |
| `Commands.SendCommand` | src/commands.ts:3-10 | one send appends exactly the given payload to the trace, for either outcome. Earlier entries are untouched and no failure reaches the caller |
| `Commands.Stop` | src/commands.ts:13-15 | `stop()` emits exactly one payload, `{cmd: "stop"}` |
| `Commands.Walk` | src/commands.ts:18-40 | `walk()` emits exactly one payload, the encoding of the command its options resolve to |
| `Commands.SetRadius` | src/commands.ts:70-72 | `setRadius()` emits exactly one radius payload |
| `Commands.LegAction` | src/commands.ts:75-80 | `legAction()` emits exactly one leg-action payload |
| `Commands.LegXYZ` | src/commands.ts:83-90 | `legXYZ()` emits exactly one leg-position payload |
| `Commands.SendCustom` | src/commands.ts:93-95 | `sendCustom()` forwards the object it is given, unchanged |
| `Commands.WalkWithoutOptions` | src/commands.ts:18-37 | `walk(dir)` with no options sends exactly `{cmd: "walk", dir, mode: "crawl", steps: 10, step_length: 80}`, with no `speed` or `height` key |
| `Commands.WalkIsResolvedCommand` | src/commands.ts:28-37 | a walk payload is the encoding of the walk command with the defaults applied to the missing and null options |
| `Commands.DecodeEncode` | src/commands.ts:13-90 | decoding the payload of any command gives that command back |
| `Commands.EncodeDecode` | src/commands.ts:13-90 | every payload the decoder accepts is exactly the encoding of what it returns, so no payload carries stray keys |
| `Commands.EncodeInjective` | src/commands.ts:13-90 | distinct commands never produce the same payload, including the two `cmd: "leg"` shapes |
| `ContinuousWalk.Init` | src/commands.ts:42 | at load there is no interval handle, no live interval and nothing sent |
| `ContinuousWalk.Running` | src/commands.ts:54-62 | `if (continuousInterval)` holds exactly when a handle is held. Handles are positive, so a held one is never falsy, and in a consistent state that is exactly when one interval is live |
| `ContinuousWalk.StartContinuousWalk` | src/commands.ts:44-59 | while an interval is live, start changes nothing. From idle it registers exactly one new interval that captures dir and options. Start never sends anything itself |
| `ContinuousWalk.Fire` | src/commands.ts:56-58 | a tick of a live interval emits exactly one walk payload built from the captured dir and options. A tick of a cleared interval does nothing |
| `ContinuousWalk.StopContinuousWalk` | src/commands.ts:61-67 | stop always ends with no handle and the module's interval cleared. It always emits exactly one stop payload, whether or not a walk was running |
| `ContinuousWalk.StepPreservesConsistent` | src/commands.ts:42-67 | every start, tick and stop keeps the invariant: an interval is live exactly when the module holds its handle |
| `ContinuousWalk.RunPreservesConsistent` | src/commands.ts:42-67 | the invariant holds after any sequence of starts, ticks and stops |
| `ContinuousWalk.StartTwiceOneInterval` | src/commands.ts:54-58 | two starts with no stop between them leave exactly one live interval, the first one |
| `ContinuousWalk.StopIdempotentOnState` | src/commands.ts:61-67 | a second stop leaves the timer state as the first left it, yet still emits one more stop payload |
| `ContinuousWalk.StopLeavesNoInterval` | src/commands.ts:61-65 | after a stop the browser runs no interval at all |
| `ContinuousWalk.IdleRunSendsOnlyStops` | src/commands.ts:56-65 | once idle, any run of ticks and stops without a start emits only stop payloads. No walk goes out until the next start |
| `ContinuousWalk.TickAfterStartSendsCapturedWalk` | src/commands.ts:56-58 | start from idle, then one tick, emits exactly the walk captured at start |
| `Segmenter.SegmentLength` | src/circle_segmenter.ts:77-80 | both branches of the arc length give `len + offset = 360 / total` |
| `Segmenter.Sweep` | src/circle_segmenter.ts:90-96 | the loop from iteration `i` on yields `total - i + 1` arcs. The arc at iteration `j` is filled exactly when `filledSegments >= j` |
| `Segmenter.Draw` | src/circle_segmenter.ts:76-100 | with offset 0 and one segment it draws a full circle, filled iff `filledSegments == 1`. Otherwise it draws exactly `max(total, 0)` arcs, arc `i` (1-based) filled iff `filledSegments >= i` |
| `Segmenter.ArcSweep` | src/circle_segmenter.ts:59 | the flag is "1" exactly when the arc spans more than 180 degrees, otherwise "0" |
| `Segmenter.NewSegmentor` | src/circle_segmenter.ts:29-32 | missing or null settings become 10 segments, 0 filled and offset 0. Supplied values, 0 included, are kept. The gauge shows the layout of its settings |
| `Segmenter.Update` | src/circle_segmenter.ts:103-108 | update replaces all three settings and redraws. The target element is unchanged |
| `Segmenter.SweepAngles` | src/circle_segmenter.ts:82-92 | in the loop, the arc at iteration `j` ends at `(len + offset)·j` and starts `offset` after the previous end |
| `Segmenter.SegmentAngles` | src/circle_segmenter.ts:77-92 | arc `k` of `n` runs from `360·k/n + offset` to `360·(k+1)/n`, so each arc spans `360/n - offset` |
| `Segmenter.ArcsSpanFullTurn` | src/circle_segmenter.ts:82-92 | the first arc starts at the offset and the last ends at 360 |
| `Segmenter.FilledPrefix` | src/circle_segmenter.ts:90-95 | the filled arcs form a prefix whose length is `filledSegments` rounded down and clamped to `[0, total]` |
| `Segmenter.SweepFlags` | src/circle_segmenter.ts:59 | every drawn arc gets flag "1" exactly when `360/n - offset > 180`. With two or more segments and a non-negative offset all flags are "0". A lone offset arc gets "1" exactly when the offset is below 180 |
| `Segmenter.UpdateIsFreshConstruction` | src/circle_segmenter.ts:103-108 | an updated gauge equals a gauge constructed on the same element with the three new values |
| `Segmenter.DefaultsKeepZero` | src/circle_segmenter.ts:29-31 | absent and null settings take the defaults, and supplied zeros are kept. Zero segments draw nothing |
| `Segmenter.CircleFillIsExact` | src/circle_segmenter.ts:85-95 | the lone circle is filled only when `filledSegments` is exactly 1, so a count of 2 leaves it empty. A lone offset arc with the same count is filled |

## Left out

- I/O: the asynchronous `invoke` of the backend command "send_json" and its console logging. The call's result is a parameter (`InvokeOutcome`), and the backend behind it is not part of this model.
- The browser's timing: the 300 ms period of `setInterval`. Ticks are explicit `Fire` steps in any order the caller chooses.
- Overlapping asynchronous sends: an in-flight tick racing a stop is not modelled. Steps run one at a time.
- JavaScript numbers are modelled as exact reals: the payload builders only copy them, and floating-point rounding of the angle arithmetic is not modelled.
- `totalSegments` is modelled as an integer: a fractional segment count, which the source's loop would also accept, is not modelled.
- Segmenter: the polar-to-cartesian trigonometry, the coordinate part of `describeArc`, the SVG markup strings, the `innerHTML` write and the constructor's DOM lookup with its two thrown errors. These are DOM and floating-point work.
- The backend (`src-tauri/src/lib.rs`), the UI markup (`src/App.tsx`, `src/Panel.tsx`) and the type declarations are not part of this model.
- ContinuousWalk.Fire: the interval callback keeps a reference to the caller's `options` object, so a caller that mutates it after start changes what later ticks send. The model captures the options as a value at start, so it assumes the object is not mutated.
- Commands.SendCustom: payload values are strings, numbers and null only. Booleans, arrays and nested objects, which `sendCustom` would also forward, cannot be represented, so its "forwards unchanged" covers flat objects of those three kinds.
