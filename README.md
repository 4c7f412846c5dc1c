# Trading chart scene bootstrap, modelled in Dafny

This project models the chart-state engine of the 3D trading view in
`trading-3d/lib/three-bootstrap.ts`. The engine has five parts:

- A fixed table of sample candles for the 1H, 4H and 1D timeframes.
- A module-level view state holding the timeframe, the indicator flags and the theme.
- A chart group that `updateChart` rebuilds from that state. The rebuild first detaches every
  child, disposing meshes only. It then adds, in order:
  - a body/wick pair per candle;
  - the enabled indicator objects;
  - a title label;
  - a timeframe badge, which is a group of boxes.
- Four window event handlers: timeframe change, indicator toggle, trading action and theme change.
  A trading action adds a particle burst that fades out and is disposed after 1500 ms.
- The cleanup function that `initializeScene` returns. It removes the five listeners, then
  traverses the scene and disposes every mesh.

The model has four modules:

- `SceneGraph` (`scene_graph.dfy`) covers scene-graph objects and their ids. It defines
  `Object3D.traverse` order (`Flatten`) and a ledger of `dispose()` calls, a multiset of
  geometries and materials keyed by object id.
- `ChartData` (`chart_data.dfy`) holds the candle table and the per-candle and per-badge
  arithmetic.
- `ChartLayout` (`chart_layout.dfy`) holds `ExpectedChart` and `ChartFor`: the chart group a
  rebuild produces, as id-free shapes. The properties of the layout are proved about them.
- `Bootstrap` (`bootstrap.dfy`) is the imperative part:
  - the view state and the window's listener table, as classes;
  - `ChartScene`, whose methods are the rebuild loop, the handlers, the burst frames and the
    teardown;
  - `InitializeScene`.

`ChartScene.Valid` is the scene invariant. It requires that:

- object ids are distinct and below the id counter;
- nothing live has been disposed;
- the chart group's shapes are `ChartFor(timeframe, indicators)`;
- the five listeners are registered.

Two mounted scenes can share the one view state, so a scene may find the state changed under its
chart. The handlers therefore ask only for the first two points and the listeners. The two
rebuilding handlers leave the whole invariant behind; the theme and trading handlers keep the
chart consistent when it was.

Behaviour of the source worth knowing:

- An unknown timeframe does not keep the old chart. `timeframeData[key]` is `undefined`, so
  the `forEach` throws after the group was already cleared. `UpdateChart` returns `false`
  and leaves the group empty. If the first rebuild in `initializeScene` throws, no listener
  is registered and `InitializeScene` returns `null`.
- The candle row is not centred on 0: record `i` of `n` stands at `i*0.5 - n*0.25`, so the
  row is symmetric about -0.25.
- Clearing disposes only the direct mesh children. The badge's boxes sit inside a group, and
  the indicator lines and the moving-average particle cloud are not meshes, so a rebuild
  disposes none of their geometries and materials. Teardown traverses only the live scene:
  it disposes the boxes of the badge shown at that moment, and nothing of the badges, lines
  and clouds that earlier rebuilds detached. A trading burst's cloud is different: its own
  last frame disposes it.
- The view state outlives a mount. A scene mounted after a teardown starts with the dark
  background, even when the stored theme is light.
- Any key is stored by the indicator toggle, and a missing flag reads as off (`undefined` is
  falsy).

## Model

| member | source | states |
|---|---|---|
| Bootstrap.ViewState.constructor | trading-3d/lib/three-bootstrap.ts:34-42 | the view state starts at timeframe 1H, with MA, RSI and MACD all off, and the dark theme |
| ChartLayout.Flag | trading-3d/lib/three-bootstrap.ts:208-218 | a flag that was never stored reads as off |
| ChartLayout.FlagUpdate | trading-3d/lib/three-bootstrap.ts:431-435 | a flag stored under a name is read back under that name, other names read as before, and an empty table reads all off |
| ChartData.TimeframeData | trading-3d/lib/three-bootstrap.ts:14-31 | the table has exactly the keys 1H, 4H and 1D, with 5, 3 and 2 records; any other key yields nothing |
| ChartData.ColorRule | trading-3d/lib/three-bootstrap.ts:151 | a body is green (0x00ff88) exactly when close > open and red (0xff4466) exactly otherwise |
| ChartData.CandleSpacing | trading-3d/lib/three-bootstrap.ts:162 | neighbouring candles are 0.5 apart and the row is symmetric about x = -0.25 |
| ChartData.BadgeLineSymmetric | trading-3d/lib/three-bootstrap.ts:255-270 | boxes on a line are 0.12 apart and mirror each other about x = 0 |
| ChartData.SampleCandles | trading-3d/lib/three-bootstrap.ts:14-31 | every sample record has low <= open, close <= high and rises, so each wick is at least as tall as its body and every body is green |
| ChartLayout.CandlePairAt | trading-3d/lib/three-bootstrap.ts:147-205 | the first k records give 2k children, with record i's body at 2i and its wick at 2i+1 |
| ChartLayout.CandlePairsLength | trading-3d/lib/three-bootstrap.ts:147-205 | k records add exactly 2k children |
| ChartLayout.ChartCount | trading-3d/lib/three-bootstrap.ts:126-238 | a rebuild leaves 2n + 2·[MA] + [RSI] + [MACD] + 2 children |
| ChartLayout.ChartCandle | trading-3d/lib/three-bootstrap.ts:147-205 | the colour of child 2i follows its record's direction in both directions; its height is abs(close - open)·0.01; the wick at 2i+1 is white and abs(high - low)·0.01 tall; both stand at i·0.5 - n·0.25 |
| ChartLayout.ChartTail | trading-3d/lib/three-bootstrap.ts:208-237 | after the candles come the MA line and its 15 particles iff MA, the RSI line iff RSI, the MACD line iff MACD, then the label, then the badge last |
| ChartLayout.CurvesFollowCandles | trading-3d/lib/three-bootstrap.ts:208-218 | in the rebuilt chart, the MA curve (at 2n), the RSI curve (after it) and the MACD curve (after that) each have one control point per record, point i at the x of candle body i, and point i lies higher than point j exactly when record i closes higher |
| ChartLayout.BoxShapesAt | trading-3d/lib/three-bootstrap.ts:253-300 | the badge loop yields k boxes, box i at position i |
| ChartLayout.BadgeLayout | trading-3d/lib/three-bootstrap.ts:241-302 | 1H gives 1 cyan box, 4H 4 yellow boxes, any other key 24 magenta boxes; up to four boxes stand on a line symmetric about 0, more go round a circle |
| ChartLayout.IndicatorsKeepCandles | trading-3d/lib/three-bootstrap.ts:147-237 | the indicator flags change neither the candle pairs nor the label and badge at the end |
| ChartLayout.ToggleRoundTrip | trading-3d/lib/three-bootstrap.ts:431-435 | switching an off flag on and then off again gives back the chart it had |
| ChartLayout.UnknownIndicator | trading-3d/lib/three-bootstrap.ts:431-435 | setting a name other than MA, RSI or MACD leaves the chart unchanged |
| ChartLayout.HourScenario | trading-3d/lib/three-bootstrap.ts:126-238 | the default 1H chart is 5 bodies, 5 wicks, the blue label and a one-box cyan badge |
| SceneGraph.DisposeOnce | trading-3d/lib/three-bootstrap.ts:549-558 | visiting a list of distinct objects and disposing meshes disposes each mesh's geometry and material exactly once and nothing of any other object |
| SceneGraph.DisposeEach | trading-3d/lib/three-bootstrap.ts:549-558 | the same for every object of the list at once |
| Bootstrap.ClearLedger | trading-3d/lib/three-bootstrap.ts:128-141 | the clear loop disposes each mesh child's geometry and material exactly once; for lines, points, the badge group and the badge's boxes it disposes nothing |
| Bootstrap.RebuildIds | trading-3d/lib/three-bootstrap.ts:126-238 | replacing the chart group's objects with freshly numbered ones keeps ids distinct and below the counter, and no live object has been disposed |
| Bootstrap.RetireId | trading-3d/lib/three-bootstrap.ts:480-484 | removing a live object and disposing it once keeps the id ledger sound; its resources had not been disposed before |
| Bootstrap.AdmitId | trading-3d/lib/three-bootstrap.ts:470 | an object added with the next id keeps the id ledger sound |
| Bootstrap.BurstTiming | trading-3d/lib/three-bootstrap.ts:476-488 | a burst expires exactly when 1500 ms have passed since it started; before that its opacity 1 - progress lies in (0, 1] |
| Bootstrap.CreateTimeframeIndicator | trading-3d/lib/three-bootstrap.ts:241-302 | the badge group holds BadgeCount boxes of the badge colour, box i laid out by `BoxLayoutFor`, and its shape is `BadgeShape`; the group and its boxes take consecutive ids |
| Bootstrap.MakeBox | trading-3d/lib/three-bootstrap.ts:254-280 | one turn of the badge loop makes a box of the badge colour, with no children, laid out by `BoxLayoutFor`: on a line 0.12 apart for up to four boxes, on a circle slot otherwise |
| Bootstrap.ChartScene.constructor | trading-3d/lib/three-bootstrap.ts:45-124 | a new scene has only the floor, no bursts, nothing disposed, and the dark colours |
| Bootstrap.ChartScene.UpdateChart | trading-3d/lib/three-bootstrap.ts:126-238 | after a rebuild the chart group is `ChartFor(state)` (or empty when the lookup fails), `ok` says whether the lookup succeeded, the ledger grew by the old group's mesh children, and the new objects took consecutive fresh ids |
| Bootstrap.ChartScene.ClearChart | trading-3d/lib/three-bootstrap.ts:128-141 | the group ends empty; each old mesh child is disposed exactly once, other children and grandchildren not at all |
| Bootstrap.ChartScene.DetachAll | trading-3d/lib/three-bootstrap.ts:128-141 | the loop empties the group, disposing meshes in child order |
| Bootstrap.ChartScene.BuildChart | trading-3d/lib/three-bootstrap.ts:144-237 | the children added are exactly `ExpectedChart` for the looked-up records and the current flags and timeframe |
| Bootstrap.ChartScene.AddCandles | trading-3d/lib/three-bootstrap.ts:147-205 | the `forEach` adds the candle pairs of all records in record order |
| Bootstrap.ChartScene.AddIndicators | trading-3d/lib/three-bootstrap.ts:208-218 | the enabled indicators are appended in the order MA, RSI, MACD |
| Bootstrap.ChartScene.AddMovingAverage | trading-3d/lib/three-bootstrap.ts:305-349 | `addMovingAverage` appends the cyan curve, then its 15 particles |
| Bootstrap.ChartScene.AddBadge | trading-3d/lib/three-bootstrap.ts:235-237 | the badge for the timeframe is appended last |
| Bootstrap.ChartScene.AddLeaf | trading-3d/lib/three-bootstrap.ts:190 | adding a child appends it with the next id and leaves the earlier children unchanged |
| Bootstrap.ChartScene.OnTimeframeChange | trading-3d/lib/three-bootstrap.ts:426-429 | the timeframe is stored, the flags and theme stay, and the chart is rebuilt; from a well-formed scene, even one whose chart is stale, the invariant holds afterwards |
| Bootstrap.ChartScene.OnIndicatorToggle | trading-3d/lib/three-bootstrap.ts:431-435 | the flag is stored under the given name, timeframe and theme stay, the chart is rebuilt and the invariant holds afterwards; an unknown name leaves a consistent chart's shapes as they were |
| Bootstrap.ChartScene.OnThemeChange | trading-3d/lib/three-bootstrap.ts:510-523 | the theme is stored; background, fog and floor take 0x111827 for "dark" and 0xf0f4f8 otherwise; chart, bursts, timeframe and flags are untouched, so a consistent chart stays consistent |
| Bootstrap.ChartScene.OnTradingAction | trading-3d/lib/three-bootstrap.ts:437-507 | exactly one 100-point cloud joins the scene, 0x00ff44 for "buy" and 0xff4400 otherwise, and its first frame runs at once; the chart group is untouched and stays consistent when it was |
| Bootstrap.ChartScene.AddBurst | trading-3d/lib/three-bootstrap.ts:470 | `scene.add(particles)` appends the cloud with the next id and keeps the invariant |
| Bootstrap.ChartScene.AnimateBurst | trading-3d/lib/three-bootstrap.ts:476-503 | a frame with progress >= 1 removes the burst and disposes its geometry and material exactly once; an earlier frame sets its opacity to 1 - progress and changes nothing else |
| Bootstrap.ChartScene.RemoveBurst | trading-3d/lib/three-bootstrap.ts:480-484 | the burst leaves the scene and its two resources are disposed once each |
| Bootstrap.ChartScene.Teardown | trading-3d/lib/three-bootstrap.ts:537-559 | exactly the five listeners are removed; every mesh the traverse reaches (floor, candles, label, badge boxes) is disposed exactly once; lines, points and groups never are |
| Bootstrap.ChartScene.DisposeMeshes | trading-3d/lib/three-bootstrap.ts:549-558 | the traverse callback disposes the meshes of the visited objects, in visiting order |
| Bootstrap.InitializeScene | trading-3d/lib/three-bootstrap.ts:45-535 | mounting fails exactly when the stored timeframe has no data, and then registers nothing; otherwise the scene is valid, dark, has no bursts and nothing disposed, and exactly the five listeners were added |

## Left out

- Rendering: the renderer, camera, lights, grid helper, orbit controls, shadows and the render loop. The model tracks only the floor, the chart group's children and the particle bursts.
- The resize handler's effect on camera and renderer. It is only registered and removed, as one of the five listeners.
- Positions other than x, rotations, scales, box sizes and material parameters other than colour.
- The continuous chart rotation in `animate`. The staggered rise animation of each candle. The per-box pulse animation, whose frames are never cancelled.
- Burst particle positions and sizes, which come from `Math.random`, and their outward drift on each frame.
- Catmull-Rom curve sampling and the circle trigonometry of the badge. A curve is kept as its control points, and a circle box as its slot `i` of `count`.
- Clock readings. `Date.now()` values are parameters: `start` and `firstFrame` of `OnTradingAction`, and `now` of `AnimateBurst`.
- The DOM: the container, the canvas element, the loading message.
- A material array on a mesh. Every mesh here has one material, so a mesh's disposal is one geometry plus one material.
- `renderer.dispose()`, `cancelAnimationFrame` and removing the canvas at teardown.
- Frames delivered after teardown. Burst frames still scheduled then are not modelled: `AnimateBurst` requires a scene that was not torn down.
- Numbers. JavaScript numbers are doubles; the model uses exact reals for the products and quotients of the layout (the ·0.01 heights, the ·0.5 and ·0.25 candle spacing, the 0.12 box spacing) and for the burst progress, so rounding is not modelled.
- Object ids. three.js draws them from one global counter shared by every object. Here each scene has its own counter, which holds only the objects the model tracks.
- Bootstrap.ChartScene.UpdateChart: states the exactly-once disposal of the cleared children through `ClearChart` and `ClearLedger`, not in its own `ensures`.
