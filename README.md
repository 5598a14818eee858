# solar_light dashboard logic in Dafny

A model of the logic inside `script.js` of the solar_light dashboard. The
dashboard polls a telemetry endpoint for two solar inverters. Each inverter
is known by a fixed serial: inverter 1 drives the left column and inverter 2
the right one. Each column shows four tiles: solar, grid, load and battery.
Each tile carries a `data-state` label and is mirrored by a connector wire
that can be flagged "wire--offline". A wiring overlay of a trunk, a hub and
four wires is laid out from the tiles' bounding boxes on the next animation
frame.

The modules follow the pieces of the script:

- `JsValues` covers the JavaScript values the script reads:
  - numbers that may be `null`, finite or not;
  - a grid status that is a string, a number or anything else.

  It also covers the built-ins the script applies: `Number.isFinite`, unary
  minus, `toLowerCase` and `Math.round`.
- `Classifier` holds `setSolarState`, `setBatteryState` and
  `setGridState`. Each is a pure decision from a reading to a state label.
- `Display` holds `wattsToKw`, `formatNumber`'s non-finite case, and the
  clamp-and-round of `setBatteryPercent`.
- `Surface` is the tile-state board:
  - `setTileState`, `setLineOffline`, `setLineOk`, `initTileStates` and
    `ROLE_TO_WIRE_CLASS`;
  - a pure board value (`Page`), and the class `Dom`, which mutates a
    (side, role) to state map and a (side, wire) to flag map. Each of its
    methods is proved equal to the pure write.
- `Normalizer` models:
  - the classes `Inverter` (`loadData`, `setStateOffline`) and
    `InvertersData` (`update`);
  - the pure `Normalize`, which says what `update` does to the readings;
  - the pure `Render`, which gives the board writes `update` makes, in the
    order it makes them.
- `Layout` models `rectRelTo`, `setRect`, `layoutStation` and
  `wireFromHubY`, as pure functions over exact reals.
- `Scheduler` models `relayoutWires` with the browser's frame queue, both
  as a pure state machine and as the class `LayoutScheduler`.

An offline side does not show all four tiles offline. `update` calls
`setLineOffline` first (script.js:93-96). It then re-classifies solar,
battery and grid unconditionally (script.js:100-113). So an offline side ends with only its
load tile and the "wire-mid-b" wire offline. Solar, battery and grid show
what the readings kept from the last report give. For an inverter that never
reported, all three wait: its readings are `null`, and `-null` is a finite
0. `Normalizer.RenderAt`, `Normalizer.MissingInverterSide` and
`Normalizer.NeverReported` state this.

## Model

| member | source | states |
|---|---|---|
| `JsValues.NullNotFinite` | script.js:7 | `Number.isFinite` does not coerce: `null` and the non-finite values fail it, every finite number passes, and `-null` passes |
| `JsValues.Negate` | script.js:110-113 | unary minus: `-null` is the finite 0, a finite value is negated, a non-finite value stays non-finite (NaN, not null) |
| `JsValues.ToLower` | script.js:211 | lower-casing keeps the length and folds each character on its own |
| `JsValues.ToLowerEqualsWord` | script.js:211-212 | comparing `s.toLowerCase()` with a lower-case word is exactly a case-insensitive comparison, in both directions |
| `JsValues.ToLowerIdempotent` | script.js:211 | lower-casing twice is lower-casing once |
| `JsValues.Round` | script.js:173 | `Math.round` lands within half a unit of its argument |
| `JsValues.Min` | script.js:172 | `Math.min` is one of its two arguments and no larger than either |
| `JsValues.Max` | script.js:172 | `Math.max` is one of its two arguments and no smaller than either |
| `Classifier.SolarState` | script.js:186-193 | generating iff the power is finite and positive, waiting otherwise |
| `Classifier.BatteryState` | script.js:176-184 | discharging iff finite and negative, charging iff finite and positive, waiting iff non-finite or zero |
| `Classifier.GridState` | script.js:210-223 | no-grid iff the status is the sentinel, whatever the power; otherwise import, export or waiting by the sign of a finite power, waiting for non-finite or zero |
| `Classifier.NoGridStringIgnoresCase` | script.js:211-212 | a string status is the sentinel iff it spells "0", "no-grid" or "offline" in any mixture of case |
| `Classifier.GridFromFlow` | script.js:112-113 | the grid tile gets the negated `gridFlow`: a negative flow is import, a positive one export, a null or zero one waits |
| `Classifier.ClassifiersNeverOffline` | script.js:176-223 | none of the three classifiers ever answers `offline` |
| `Classifier.MixedCaseNoGrid` | script.js:211-213 | "No-Grid" means no grid even with a positive power |
| `Classifier.UpperCaseOffline` | script.js:211-213 | "OFFLINE" means no grid even with a negative power |
| `Classifier.NumericSentinelAndOrdinaryStatus` | script.js:210-223 | the number 0 means no grid even with a non-finite power; "online" with 300 W is import |
| `Display.WattsToKw` | script.js:7 | watts over 1000 for a finite reading and 0 otherwise; the sign of the result is the sign of the reading |
| `Display.FormatNumber` | script.js:3-6 | a non-finite value shows as 0.00; a finite value is handed unchanged to `toFixed(2)` |
| `Display.BatteryPercent` | script.js:172-173 | the shown state of charge is always in [0, 100]: 0 when not finite or not positive, 100 from 100 up, within half a unit of the reading in between |
| `Display.DisplayExamples` | script.js:166-174 | -5 shows 0, 150 shows 100, 42.6 shows 43; 1200 W shows as 1.20 kW |
| `Surface.WireForOneToOne` | script.js:17-22 | `ROLE_TO_WIRE_CLASS` gives two roles the same wire only if they are the same role |
| `Surface.RoleFor` | script.js:17-22 | `ROLE_TO_WIRE_CLASS` is one to one: each wire mirrors exactly one role |
| `Surface.Label` | script.js:128-129 | a tile the page lacks stays missing; a present tile takes the new state |
| `Surface.Flag` | script.js:131-136 | a wire the page lacks stays missing; a present wire is flagged exactly as asked |
| `Surface.SetTile` | script.js:124-137 | the (side, role) tile takes the state; that role's wire on that side is offline iff the state is `offline`; the other column is untouched |
| `Surface.SetTileElsewhere` | script.js:124-137 | `setTileState` leaves every other tile and every other wire of the written column as they were |
| `Surface.LineOffline` | script.js:225-230 | the other column is untouched |
| `Surface.LineOfflineAt` | script.js:225-230 | after `setLineOffline` every tile the side has is offline and every wire it has is flagged |
| `Surface.LineOk` | script.js:232-237 | the other column is untouched |
| `Surface.LineOkAt` | script.js:232-237 | after `setLineOk` load is ok, solar, grid and battery wait, and every wire of the side is online |
| `Surface.InitStatesAt` | script.js:246-253 | after `initTileStates` every tile on both sides holds its default state and every wire is online |
| `Surface.LineOkIdempotent` | script.js:232-237 | `setLineOk` twice is `setLineOk` once |
| `Surface.LineOfflineIdempotent` | script.js:225-230 | `setLineOffline` twice is `setLineOffline` once |
| `Surface.LineOkAfterOffline` | script.js:225-237 | `setLineOk` after `setLineOffline` leaves the board as `setLineOk` alone would |
| `Surface.ColumnViewPut` | script.js:124-137 | within the written column, the two keyed map writes are the column-level `setTileState` |
| `Surface.ViewSetTile` | script.js:124-137 | the keyed map writes of `setTileState`, guarded by element presence, are the board-level write |
| `Surface.Dom.SetTileState` | script.js:124-137 | the page's elements stay the same; the board becomes `SetTile` of the old board |
| `Surface.Dom.SetLineOffline` | script.js:225-230 | the board becomes `LineOffline` of the old board |
| `Surface.Dom.SetLineOk` | script.js:232-237 | the board becomes `LineOk` of the old board |
| `Surface.Dom.InitTileStates` | script.js:246-253 | the loop over both sides leaves the board at `InitStates` of the old board |
| `Surface.Dom.SetSolarState` | script.js:186-193 | the solar tile gets `SolarState` of the power, through `setTileState` |
| `Surface.Dom.SetBatteryState` | script.js:176-184 | the battery tile gets `BatteryState` of the flow, through `setTileState` |
| `Surface.Dom.SetGridState` | script.js:210-223 | the grid tile gets `GridState` of power and status, through `setTileState` |
| `Normalizer.Loaded` | script.js:45-55 | a falsy argument changes nothing; a record makes the inverter ok and copies its six readings |
| `Normalizer.MarkedOffline` | script.js:57-59 | only the state becomes offline; every reading is kept |
| `Normalizer.FindIndex` | script.js:76-77 | the index of the first record with the serial, or none when no record has it |
| `Normalizer.Find` | script.js:76-77 | a record is found iff some record has the serial; it has that serial, and it is the first record that does |
| `Normalizer.Refresh` | script.js:79-89 | the inverter is ok iff some record has its serial, then holding the first such record's readings; otherwise it is offline with its previous readings |
| `Normalizer.Normalize` | script.js:72-91 | a falsy payload changes nothing; otherwise both inverters are refreshed by their own serials and the total is copied |
| `Normalizer.NormalizeIdempotent` | script.js:72-91 | a second `update` with the same payload changes no reading |
| `Normalizer.Inverter.constructor` | script.js:33-43 | a new inverter is offline with every reading null |
| `Normalizer.Inverter.LoadData` | script.js:45-55 | the fields become `Loaded` of the old fields; the serial is untouched |
| `Normalizer.Inverter.SetStateOffline` | script.js:57-59 | the fields become `MarkedOffline` of the old fields |
| `Normalizer.PaintLeft` | script.js:93-113 | `Paint`, the write sequence of `update`: after the line write and the three role writes, each left tile and wire holds the last value written to it |
| `Normalizer.PaintRight` | script.js:93-113 | `Paint`, the write sequence of `update`: the same for the right column |
| `Normalizer.Render` | script.js:93-113 | after `update`'s writes each column holds, element by element, the plan of its own inverter: the load tile and wire-mid-b show whether it is offline, the other tiles its classified states |
| `Normalizer.RenderAt` | script.js:93-113 | after `update`, load is offline or ok as the inverter is; solar, battery and grid are their classifiers' answers; only wire-mid-b of an offline side is offline |
| `Normalizer.MissingInverterSide` | script.js:76-113 | a side whose serial is missing ends with load and wire-mid-b offline and the other tiles classified from the readings kept from before |
| `Normalizer.NeverReported` | script.js:33-43 | an inverter that never reported shows load offline and solar, battery and grid waiting |
| `Normalizer.FirstOnlyNormalized` | script.js:72-91 | a first payload carrying only inverter 1 makes it online with that record's readings, leaves inverter 2 as constructed and copies the total |
| `Normalizer.FirstOnlyClassified` | script.js:98-113 | an online inverter with 500 W of solar and a 300 W grid draw shows generating, importing and ok |
| `Normalizer.OnlyFirstInverterReports` | script.js:72-113 | after that first payload the left side is generating, importing and ok; on the right side the load tile is offline and the other tiles wait |
| `Normalizer.InvertersData.constructor` | script.js:65-69 | two distinct unloaded inverters and a total of 0 |
| `Normalizer.InvertersData.Update` | script.js:72-117 | the readings become `Normalize` of the old ones; a falsy payload leaves the board alone, otherwise the board becomes `Render` of the old board and the new readings |
| `Normalizer.InvertersData.WriteBoard` | script.js:93-113 | the board writes at the end of `update` are `Render` of the current readings |
| `Layout.RectRelTo` | script.js:255-268 | the box is offset by the root's corner and keeps its size; right and bottom lie one width and one height away, the centre halfway |
| `Layout.RectRelToShape` | script.js:255-268 | the centre of a box of non-negative size lies inside it, and moving element and root together does not change the relative box |
| `Layout.SetRect` | script.js:270-276 | each written pixel value is within half a pixel of the requested one |
| `Layout.Min3` | script.js:323 | three-argument `Math.min`: one of its arguments and no larger than any |
| `Layout.Max3` | script.js:324 | three-argument `Math.max`: one of its arguments and no smaller than any |
| `Layout.TrunkX` | script.js:315-316 | the trunk x is at least 24 from the left; at most width - 24 when the column is 48 wide; it is the middle row's centre when that lies inside the safe band |
| `Layout.FarEnd` | script.js:336-345 | a wire ends 14 px right of a tile whose centre is left of the trunk, else 14 px left of it |
| `Layout.WireFromHubY` | script.js:332-350 | a wire is 4 high, centred on its y, at least 6 wide; it contains both the trunk x and its far end, and spans exactly between them when they are 6 or more apart |
| `Layout.Layout` | script.js:315-358 | trunk 4 wide around the clamped x, starting at least 18 down and at least 10 high; its span reaches at least 80 px above the highest and below the lowest of the solar, hub and battery heights unless clamped at 18 px from the top, and ends no lower than 18 px above the bottom unless held at its 10 px minimum; hub a 14 px square centred on the trunk at the grid and load midpoint; every wire is the one `wireFromHubY` builds, running from the trunk to its tile's far end, solar and battery at their own centre, grid and load at the hub's height |
| `Layout.TrunkSpansWires` | script.js:322-326 | when the solar, hub and battery heights lie 18 px inside the column, the trunk covers all three |
| `Layout.LayoutStation` | script.js:278-308 | something is laid out iff the column, its wiring, the four tiles and the middle row all exist, and then it is the layout of the tiles' and middle row's boxes taken relative to the column, at the column's client size |
| `Layout.LayoutStationMoves` | script.js:255-308 | moving the column with everything in it does not change the layout |
| `Scheduler.Passes` | script.js:365-366 | `n` runs of the frame callback lay out `2n` columns |
| `Scheduler.PassesAlternate` | script.js:365-366 | the passes alternate left, right: each run lays out the left column and then the right |
| `Scheduler.Trigger` | script.js:362-369 | after a call a fresh frame is queued and named by `raf`; the frame `raf` named before is withdrawn; no layout runs |
| `Scheduler.Fire` | script.js:364-368 | a frame runs each queued callback once, each laying out left then right, and resets `raf` to 0 |
| `Scheduler.TriggerCoalesced` | script.js:362-369 | a call keeps at most one frame queued, named by `raf` |
| `Scheduler.FireCoalesced` | script.js:364-368 | a frame keeps that invariant and runs at most one layout pair |
| `Scheduler.TriggersCoalesce` | script.js:361-369 | any number of calls in a row leave exactly one frame queued and no layout run |
| `Scheduler.BurstRunsOnce` | script.js:361-369 | a burst of calls then a frame lays out each column exactly once, left then right, and leaves `raf` at 0 |
| `Scheduler.IdleFrame` | script.js:364-368 | a frame with nothing queued changes nothing |
| `Scheduler.StepCoalesced` | script.js:361-369 | one call or frame keeps the invariant and runs at most one layout pair, and only on a frame |
| `Scheduler.RunCoalesced` | script.js:361-369 | along any sequence of calls and frames the invariant holds, and layouts come in whole left-right pairs, at most one per frame |
| `Scheduler.LayoutScheduler.constructor` | script.js:361 | `raf` starts at 0 with nothing queued |
| `Scheduler.LayoutScheduler.RelayoutWires` | script.js:362-369 | the state becomes `Trigger` of the old state |
| `Scheduler.LayoutScheduler.AnimationFrame` | script.js:364-368 | the loop over queued callbacks leaves the state at `Fire` of the old state |

## Left out

- The text writes of `setSolarPower`, `setLoadPower`, `setBatteryFlow`,
  `setGridPower`, `setBatteryPercent` and `setTotalPower` are left out. These
  are `textContent` updates. The numbers they would show are modelled as
  `WattsToKw`, `FormatNumber` and `BatteryPercent`.
- `Display.FormatNumber` keeps the argument `toFixed(2)` is applied to, or
  0 for a non-finite value. The rounding to two decimals and the digits
  printed are not modelled.
- `fetch`, the 15-second polling, `showLoading` and `hideLoading`,
  `console.log`, and the `load` and `resize` listeners are left out. These
  are network I/O, timers and event wiring. A call of `update`, of
  `relayoutWires` or of an animation frame is an input of the model.
- Element lookups (`$`, `getColBySide`) are left out. Which tiles and wires
  exist is an input. A missing column is the same as a column whose
  elements are all missing, because every write to it does nothing.
- In `layoutStation`, the trunk, hub and four wire elements may each be
  missing. `Layout.Layout` gives the rectangle each would get. A missing one
  is simply not written.
- The style strings `setRect` writes are left out. `Layout.SetRect` returns
  the four rounded numbers.
- IEEE-754 arithmetic is not modelled. Numbers are exact reals with a
  finite, non-finite or null tag. `clientHeight * 0.12` is exact, and −0 is
  the same as 0. Every use the script makes of −0 gives the same result as
  0: comparisons with 0, division by 1000 in `wattsToKw`, and `toFixed(2)`,
  which prints "0.00" for both.
- Payloads that make the script throw are not modelled: a missing
  `inverters` or `total`, or a `null` element of `inverters`. Numeric fields
  that hold strings are not modelled either.
- `JsValues.ToLower` folds only `A`-`Z`. Full Unicode lower-casing also maps
  two other characters into ASCII. U+212A (Kelvin sign) becomes `k`, which
  no sentinel word contains. U+0130 becomes `i` followed by the combining
  mark U+0307, which no sentinel word contains either. So the sentinel test
  comes out the same.
- `requestAnimationFrame` is modelled as handing out increasing ids from 1,
  and every queued callback runs at the next frame. Frame timing is not
  modelled.
