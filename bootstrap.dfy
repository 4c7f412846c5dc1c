/**
 * The scene bootstrap: the module-level view state, the window's listener table, and the
 * mounted scene with its chart group, its particle bursts, its event handlers and teardown.
 */
module Bootstrap {
  import opened Wrappers
  import opened SceneGraph
  import opened ChartData
  import opened ChartLayout

  const DarkColor := 0x111827
  const LightColor := 0xf0f4f8
  const BuyColor := 0x00ff44
  const SellColor := 0xff4400
  const BurstParticles := 100
  const BurstDuration := 1500

  /** Background, fog and floor colour for a theme: anything but "dark" is light. */
  function ThemeColor(theme: string): int
  {
    if theme == "dark" then DarkColor else LightColor
  }

  /** How far a burst that started at `start` is at time `now` (milliseconds). */
  function Progress(start: int, now: int): real
  {
    (now - start) as real / BurstDuration as real
  }

  /**
   * A burst expires on the first frame at least 1500 ms after it started; on every earlier
   * frame its opacity 1 - progress lies in (0, 1].
   */
  lemma BurstTiming(start: int, now: int)
    ensures Progress(start, now) >= 1.0 <==> now - start >= BurstDuration
    ensures start <= now < start + BurstDuration ==> 0.0 < 1.0 - Progress(start, now) <= 1.0
  {
  }

  /**
   * The view state. It lives at module level, outside `initializeScene`: a scene mounted
   * after another one was torn down starts from whatever the earlier one left.
   */
  class ViewState {
    var timeframe: string
    var indicators: map<string, bool>
    var theme: string

    constructor ()
      ensures timeframe == "1H" && theme == "dark"
      ensures indicators == map["MA" := false, "RSI" := false, "MACD" := false]
    {
      timeframe := "1H";
      indicators := map["MA" := false, "RSI" := false, "MACD" := false];
      theme := "dark";
    }
  }

  datatype EventType = Resize | TimeframeChange | IndicatorToggle | TradingAction | ThemeChange


  /** A registered `(event name, handler)` pair; handlers are identified by the scene that made them. */
  datatype Listener = Listener(event: EventType, owner: ChartScene)

  /** The global event target, reduced to the listeners registered on it. */
  class Window {
    var listeners: multiset<Listener>

    constructor ()
      ensures listeners == multiset{}
    {
      listeners := multiset{};
    }
  }

  /** A trading-action particle cloud: its `Points` object, when it started and its opacity. */
  datatype ParticleBurst = ParticleBurst(points: Object3D, start: int, opacity: real)

  function BurstObjects(b: seq<ParticleBurst>): (r: seq<Object3D>)
    ensures |r| == |b|
  {
    seq(|b|, k requires 0 <= k < |b| => b[k].points)
  }

  /**
   * The ids of the live objects are distinct and below the counter `top`, and every disposed
   * resource belongs to an object made before `top` that is no longer live.
   */
  ghost predicate LiveOk(live: seq<nat>, top: nat, disposed: multiset<Resource>)
  {
    Distinct(live) &&
    (forall x | x in live :: x < top) &&
    (forall r | r in disposed :: r.owner < top && r.owner !in live)
  }

  /** An object made with the counter's id joins the live ones. */
  lemma AdmitId(live: seq<nat>, top: nat, disposed: multiset<Resource>)
    requires LiveOk(live, top, disposed)
    ensures LiveOk(live + [top], top + 1, disposed)
  {
    DistinctConcat(live, [top]);
  }

  /**
   * A rebuild replaces the chart group's ids, the middle one of the three parts (floor,
   * chart group, bursts), with ids freshly drawn from the counter, and disposes meshes of
   * the old group: ids stay distinct and below the counter, and nothing live is disposed.
   */
  lemma RebuildIds(floorId: nat, oldGroup: seq<Object3D>, newIds: seq<nat>, burstIds: seq<nat>,
                   oldDisposed: multiset<Resource>, base: nat, top: nat)
    requires base <= top && newIds == Range(base, top)
    requires LiveOk([floorId] + Ids(Flatten(oldGroup)) + burstIds, base, oldDisposed)
    ensures LiveOk([floorId] + newIds + burstIds, top, oldDisposed + MeshResources(oldGroup))
  {
    var a, o, b := [floorId], Ids(Flatten(oldGroup)), burstIds;
    DistinctConcat(a + o, b);
    DistinctConcat(a, o);
    forall y | y in a + o || y in b ensures y < base {
      assert y in a + o + b;
    }
    forall x | x in newIds ensures base <= x < top {
      RangeMember(base, top, x);
    }
    assert Distinct(newIds) by {
      forall i, j | 0 <= i < j < |newIds| ensures newIds[i] != newIds[j] {
      }
    }
    assert floorId in a + o;
    assert floorId !in newIds;
    DistinctConcat(a, newIds);
    forall x | x in a + newIds ensures x !in b {
      if x in newIds {
        assert forall y | y in b :: y < base;
      }
    }
    DistinctConcat(a + newIds, b);
    forall r | r in MeshResources(oldGroup)
      ensures r.owner in o
    {
      MeshResourcesOwners(oldGroup, r);
      TopIdsInFlatten(oldGroup, r.owner);
    }
    forall r | r in oldDisposed + MeshResources(oldGroup)
      ensures r.owner < top && r.owner !in a + newIds + b
    {
      if r in oldDisposed {
        assert r.owner !in a && r.owner !in b;
      } else {
        assert r.owner in a + o;
      }
    }
  }

  /**
   * The clear loop's effect on the disposal ledger: every mesh child of the group has its
   * geometry and material disposed exactly once; every other child (lines, points, the badge
   * group) and every grandchild (the badge's boxes) has nothing disposed.
   */
  lemma ClearLedger(disposed: multiset<Resource>, g: seq<Object3D>)
    requires Distinct(Ids(Flatten(g)))
    requires forall r | r in disposed :: r.owner !in Ids(Flatten(g))
    ensures forall k | 0 <= k < |g| ::
      var id := g[k].id;
      (disposed + MeshResources(g))[Geometry(id)] == (if IsMesh(g[k].prim) then 1 else 0) &&
      (disposed + MeshResources(g))[Material(id)] == (if IsMesh(g[k].prim) then 1 else 0)
    ensures forall k, j | 0 <= k < |g| && 0 <= j < |g[k].children| ::
      var id := g[k].children[j].id;
      (disposed + MeshResources(g))[Geometry(id)] == 0 && (disposed + MeshResources(g))[Material(id)] == 0
  {
    DistinctTop(g);
    forall r | r in disposed ensures r.owner !in Ids(g) {
      if r.owner in Ids(g) {
        TopIdsInFlatten(g, r.owner);
      }
    }
    DisposeEach(disposed, g);
    forall k, j | 0 <= k < |g| && 0 <= j < |g[k].children| ensures
      (disposed + MeshResources(g))[Geometry(g[k].children[j].id)] == 0 &&
      (disposed + MeshResources(g))[Material(g[k].children[j].id)] == 0
    {
      var c := g[k].children[j];
      FlattenContains(g, k);
      IdsOfMember(Flatten(g), c);
      assert disposed[Geometry(c.id)] == 0 && disposed[Material(c.id)] == 0;
      NotOwned(g, c.id);
    }
  }

  /**
   * Removing the live object at position `j` and disposing its geometry and material keeps
   * ids distinct and below the counter, and keeps every disposed resource off the live ids.
   */
  lemma RetireId(live: seq<nat>, j: nat, disposed: multiset<Resource>, top: nat)
    requires LiveOk(live, top, disposed) && j < |live|
    ensures LiveOk(live[..j] + live[j + 1..], top, disposed + multiset{Geometry(live[j]), Material(live[j])})
    ensures disposed[Geometry(live[j])] == 0 && disposed[Material(live[j])] == 0
  {
    DistinctRemove(live, j);
    assert live[j] in live;
    var rest := live[..j] + live[j + 1..];
    forall x | x in rest ensures x < top {
      assert x in live;
    }
  }

  /** One turn of the badge loop: the box for index `i` extends the boxes made so far. */
  lemma BoxStep(timeframe: string, boxes: seq<Object3D>, box: Object3D, i: nat, base: nat)
    requires ShapesOf(boxes) == BoxShapes(timeframe, i) && Ids(boxes) == Range(base + 1, base + 1 + i)
    requires box == Object3D(base + 1 + i, BadgeBox(BadgeColor(timeframe), BoxLayoutFor(i, BadgeCount(timeframe))), [])
    ensures ShapesOf(boxes + [box]) == BoxShapes(timeframe, i + 1)
    ensures Ids(boxes + [box]) == Range(base + 1, base + 2 + i)
  {
    Leaf(box);
    ShapesOfAppend(boxes, [box]);
    IdsAppend(boxes, [box]);
    RangeAppend(base + 1, base + 1 + i, base + 2 + i);
  }

  /** The group closing the badge loop. */
  lemma BadgeGroup(timeframe: string, group: Object3D, base: nat)
    requires group.id == base && group.prim == Badge(BadgeColor(timeframe))
    requires forall k | 0 <= k < |group.children| :: group.children[k].children == []
    requires ShapesOf(group.children) == BoxShapes(timeframe, BadgeCount(timeframe))
    requires Ids(group.children) == Range(base + 1, base + 1 + BadgeCount(timeframe))
    ensures ShapeOf(group) == BadgeShape(timeframe)
    ensures Ids(TreeFlatten(group)) == Range(base, base + 1 + BadgeCount(timeframe))
  {
    FlattenLeaves(group.children);
    IdsAppend([group], group.children);
    RangeAppend(base, base + 1, base + 1 + BadgeCount(timeframe));
  }

  /**
   * `createTimeframeIndicator`: a group holding `BadgeCount` boxes of the badge colour, on a
   * line 0.12 apart for up to four boxes and round a circle otherwise. The group takes id
   * `base`, its boxes the ids after it.
   */
  method CreateTimeframeIndicator(timeframe: string, base: nat) returns (group: Object3D)
    ensures group.id == base && group.prim == Badge(BadgeColor(timeframe))
    ensures |group.children| == BadgeCount(timeframe)
    ensures forall i | 0 <= i < |group.children| ::
      group.children[i] == Object3D(base + 1 + i, BadgeBox(BadgeColor(timeframe), BoxLayoutFor(i, BadgeCount(timeframe))), [])
    ensures ShapeOf(group) == BadgeShape(timeframe)
    ensures Ids(TreeFlatten(group)) == Range(base, base + 1 + BadgeCount(timeframe))
  {
    var color := BadgeColor(timeframe);
    var count := BadgeCount(timeframe);
    var boxes: seq<Object3D> := [];
    for i := 0 to count
      invariant |boxes| == i
      invariant forall k | 0 <= k < i :: boxes[k] == Object3D(base + 1 + k, BadgeBox(color, BoxLayoutFor(k, count)), [])
      invariant ShapesOf(boxes) == BoxShapes(timeframe, i)
      invariant Ids(boxes) == Range(base + 1, base + 1 + i)
    {
      var box := MakeBox(color, i, count, base + 1 + i);
      BoxStep(timeframe, boxes, box, i, base);
      boxes := boxes + [box];
    }
    group := Object3D(base, Badge(color), boxes);
    BadgeGroup(timeframe, group, base);
  }

  /** One box of the badge: on a line 0.12 apart for up to four boxes, on a circle otherwise. */
  method MakeBox(color: int, i: nat, count: nat, id: nat) returns (box: Object3D)
    ensures box == Object3D(id, BadgeBox(color, BoxLayoutFor(i, count)), [])
  {
    var spacing := if count <= 4 then 0.12 else 0.04;
    var layout := if count <= 4 then OnLine((i as real - (count as real - 1.0) / 2.0) * spacing) else OnCircle(i, count);
    box := Object3D(id, BadgeBox(color, layout), []);
  }

  /**
   * The live ids after burst `i` leaves: the ids of floor and chart (`head`) followed by the
   * remaining bursts' ids are the old live ids with position |head| + i cut out.
   */
  lemma BurstRemoved(head: seq<nat>, bursts: seq<ParticleBurst>, i: nat)
    requires i < |bursts|
    ensures (head + Ids(BurstObjects(bursts)))[|head| + i] == bursts[i].points.id
    ensures head + Ids(BurstObjects(bursts[..i] + bursts[i + 1..])) ==
      (head + Ids(BurstObjects(bursts)))[..|head| + i] + (head + Ids(BurstObjects(bursts)))[|head| + i + 1..]
  {
    var objs := BurstObjects(bursts);
    assert BurstObjects(bursts[..i] + bursts[i + 1..]) == objs[..i] + objs[i + 1..];
    IdsRemove(objs, i);
  }

  /** A chart group built from the table entry of the current timeframe is the one `ChartFor` describes. */
  lemma Consistent(scene: ChartScene, data: seq<Candle>)
    requires TimeframeData(scene.state.timeframe) == None ==> scene.chartGroup == []
    requires TimeframeData(scene.state.timeframe) == Some(data) ==>
      ShapesOf(scene.chartGroup) == ExpectedChart(data, Flag(scene.state.indicators, "MA"),
        Flag(scene.state.indicators, "RSI"), Flag(scene.state.indicators, "MACD"), scene.state.timeframe)
    requires TimeframeData(scene.state.timeframe) == None || TimeframeData(scene.state.timeframe) == Some(data)
    ensures scene.ChartConsistent()
  {
    ChartForData(scene.state.timeframe, scene.state.indicators, data);
  }

  class ChartScene {
    const state: ViewState
    const window: Window
    /** The reflective floor mesh, created once at mount. */
    const floor: Object3D
    /** `chartGroup.children`, in order. */
    var chartGroup: seq<Object3D>
    /** Particle bursts added to the scene by trading actions and not yet expired. */
    var bursts: seq<ParticleBurst>
    var background: int
    var fogColor: int
    var floorColor: int
    /** The counter three.js draws object ids from. */
    var nextId: nat
    /** Set by teardown. */
    var torn: bool
    /** Every `dispose()` call made so far on a geometry or a material. */
    ghost var disposed: multiset<Resource>

    /** The objects `scene.traverse` reaches that the model tracks, in traversal order. */
    function SceneObjects(): seq<Object3D>
      reads this`chartGroup, this`bursts
    {
      [floor] + Flatten(chartGroup) + BurstObjects(bursts)
    }

    function LiveIds(): seq<nat>
      reads this`chartGroup, this`bursts
    {
      [floor.id] + Ids(Flatten(chartGroup)) + Ids(BurstObjects(bursts))
    }

    /**
     * Object ids are distinct and below the counter, and nothing of a live object has been
     * disposed yet.
     */
    ghost predicate WellFormed()
      reads this
    {
      !torn && floor.prim == Floor && floor.children == [] &&
      (forall k | 0 <= k < |bursts| :: bursts[k].points.prim.Burst? && bursts[k].points.children == []) &&
      LiveOk(LiveIds(), nextId, disposed)
    }

    /**
     * The chart group is the one the view state calls for, or empty when the timeframe has no
     * data (the rebuild stopped after clearing).
     */
    ghost predicate ChartConsistent()
      reads this, state
    {
      var chart := ChartFor(state.timeframe, state.indicators);
      (chart.None? ==> chartGroup == []) && (chart.Some? ==> ShapesOf(chartGroup) == chart.value)
    }

    /** The five listeners `initializeScene` registers. */
    function Registrations(): multiset<Listener>
    {
      multiset{Listener(Resize, this), Listener(TimeframeChange, this), Listener(IndicatorToggle, this),
               Listener(TradingAction, this), Listener(ThemeChange, this)}
    }

    ghost predicate Valid()
      reads this, state, window
    {
      WellFormed() && ChartConsistent() && Registrations() <= window.listeners
    }

    /** Renderer, camera, lights, grid and floor: everything `initializeScene` builds before the first chart. */
    constructor (state: ViewState, window: Window)
      ensures this.state == state && this.window == window
      ensures WellFormed() && chartGroup == [] && bursts == [] && disposed == multiset{}
      ensures background == DarkColor && fogColor == DarkColor && floorColor == DarkColor
    {
      this.state := state;
      this.window := window;
      floor := Object3D(0, Floor, []);
      chartGroup := [];
      bursts := [];
      background, fogColor, floorColor := DarkColor, DarkColor, DarkColor;
      nextId := 1;
      torn := false;
      disposed := multiset{};
      new;
      assert LiveIds() == [0];
    }

    /**
     * `updateChart`: detach every child of the chart group, disposing the geometry and
     * material of each mesh among them, then add the candles, the enabled indicators, the
     * label and the badge for the current view state. With a timeframe the table lacks, the
     * lookup yields `undefined` and the `forEach` throws after the group was cleared:
     * `ok` is false and the group stays empty.
     */
    method UpdateChart() returns (ok: bool)
      requires WellFormed()
      modifies this`chartGroup, this`nextId, this`disposed
      ensures WellFormed() && ChartConsistent()
      ensures ok <==> TimeframeData(state.timeframe).Some?
      ensures disposed == old(disposed) + MeshResources(old(chartGroup))
      ensures old(nextId) <= nextId && Ids(Flatten(chartGroup)) == Range(old(nextId), nextId)
    {
      ghost var before := chartGroup;
      ghost var d0 := disposed;
      ghost var burstIds := Ids(BurstObjects(bursts));
      ghost var live0 := [floor.id] + Ids(Flatten(before)) + burstIds;
      assert LiveOk(live0, nextId, d0);
      DistinctConcat([floor.id] + Ids(Flatten(before)), burstIds);
      DistinctConcat([floor.id], Ids(Flatten(before)));
      forall r | r in disposed ensures r.owner !in Ids(Flatten(chartGroup)) {
        assert r.owner !in live0;
      }
      ClearChart();
      var base := nextId;
      var lookup := TimeframeData(state.timeframe);
      if lookup.None? {
        Consistent(this, []);
        RebuildIds(floor.id, before, [], burstIds, d0, base, base);
        assert LiveIds() == [floor.id] + [] + burstIds;
        return false;
      }
      BuildChart(lookup.value);
      Consistent(this, lookup.value);
      RebuildIds(floor.id, before, Ids(Flatten(chartGroup)), burstIds, d0, base, nextId);
      assert LiveIds() == [floor.id] + Ids(Flatten(chartGroup)) + burstIds;
      ok := true;
    }

    /** The part of `updateChart` after the clear: candles, indicators, label and badge, in this order. */
    method BuildChart(data: seq<Candle>)
      requires chartGroup == []
      modifies this`chartGroup, this`nextId
      ensures old(nextId) <= nextId && Ids(Flatten(chartGroup)) == Range(old(nextId), nextId)
      ensures ShapesOf(chartGroup) == ExpectedChart(data, Flag(state.indicators, "MA"),
        Flag(state.indicators, "RSI"), Flag(state.indicators, "MACD"), state.timeframe)
    {
      var base := nextId;
      var ma, rsi, macd := Flag(state.indicators, "MA"), Flag(state.indicators, "RSI"), Flag(state.indicators, "MACD");
      AddCandles(data);
      AddIndicators(data, ma, rsi, macd, base);
      ghost var withIndicators := chartGroup;
      AddLeaf(Label(LabelColor), base);
      AddBadge(state.timeframe, base);
      assert ShapesOf(chartGroup) == ShapesOf(withIndicators) + [LabelShape(), BadgeShape(state.timeframe)];
    }

    /** The candle loop of `updateChart`: a body and a wick per record, in record order. */
    method AddCandles(data: seq<Candle>)
      requires chartGroup == []
      modifies this`chartGroup, this`nextId
      ensures old(nextId) <= nextId && Ids(Flatten(chartGroup)) == Range(old(nextId), nextId)
      ensures ShapesOf(chartGroup) == CandlePairs(data, |data|)
    {
      var base := nextId;
      var i := 0;
      while i < |data|
        invariant 0 <= i <= |data| && base <= nextId
        invariant Ids(Flatten(chartGroup)) == Range(base, nextId)
        invariant ShapesOf(chartGroup) == CandlePairs(data, i)
        modifies this`chartGroup, this`nextId
      {
        var c := data[i];
        var x := i as real * 0.5 - |data| as real * 0.25;
        var color := if c.close > c.open then BullishColor else BearishColor;
        AddLeaf(CandleBody(color, Abs(c.close - c.open) as real * 0.01, x), base);
        AddLeaf(Wick(WickColor, Abs(c.high - c.low) as real * 0.01, x), base);
        i := i + 1;
      }
    }

    /** The three optional indicator steps, each guarded by its flag. */
    method AddIndicators(data: seq<Candle>, ma: bool, rsi: bool, macd: bool, ghost base: nat)
      requires base <= nextId && Ids(Flatten(chartGroup)) == Range(base, nextId)
      modifies this`chartGroup, this`nextId
      ensures old(nextId) <= nextId && Ids(Flatten(chartGroup)) == Range(base, nextId)
      ensures ShapesOf(chartGroup) == ShapesOf(old(chartGroup)) + IndicatorShapes(data, ma, rsi, macd)
    {
      if ma {
        AddMovingAverage(data, base);
      }
      if rsi {
        AddLeaf(RsiShape(data).prim, base);
      }
      if macd {
        AddLeaf(MacdShape(data).prim, base);
      }
    }

    /** `createTimeframeIndicator` followed by `chartGroup.add(indicator)`. */
    method AddBadge(timeframe: string, ghost base: nat)
      requires base <= nextId && Ids(Flatten(chartGroup)) == Range(base, nextId)
      modifies this`chartGroup, this`nextId
      ensures old(nextId) <= nextId && Ids(Flatten(chartGroup)) == Range(base, nextId)
      ensures ShapesOf(chartGroup) == ShapesOf(old(chartGroup)) + [BadgeShape(timeframe)]
    {
      ghost var g := chartGroup;
      var badge := CreateTimeframeIndicator(timeframe, nextId);
      chartGroup := chartGroup + [badge];
      nextId := nextId + 1 + BadgeCount(timeframe);
      assert Flatten([badge]) == TreeFlatten(badge) + Flatten([]);
      AppendObjects(g, [badge], base, badge.id, nextId);
      assert ShapesOf([badge]) == [BadgeShape(timeframe)];
    }

    /** The `while` loop that empties the chart group, one child at a time from the front. */
    method ClearChart()
      requires Distinct(Ids(Flatten(chartGroup)))
      requires forall r | r in disposed :: r.owner !in Ids(Flatten(chartGroup))
      modifies this`chartGroup, this`disposed
      ensures chartGroup == []
      ensures disposed == old(disposed) + MeshResources(old(chartGroup))
      ensures forall k | 0 <= k < |old(chartGroup)| ::
        var id := old(chartGroup)[k].id;
        disposed[Geometry(id)] == (if IsMesh(old(chartGroup)[k].prim) then 1 else 0) &&
        disposed[Material(id)] == (if IsMesh(old(chartGroup)[k].prim) then 1 else 0)
      ensures forall k, j | 0 <= k < |old(chartGroup)| && 0 <= j < |old(chartGroup)[k].children| ::
        var id := old(chartGroup)[k].children[j].id;
        disposed[Geometry(id)] == 0 && disposed[Material(id)] == 0
    {
      ClearLedger(disposed, chartGroup);
      DetachAll();
    }

    /** The loop itself: `chartGroup.children[0]` is removed until none is left. */
    method DetachAll()
      modifies this`chartGroup, this`disposed
      ensures chartGroup == []
      ensures disposed == old(disposed) + MeshResources(old(chartGroup))
    {
      ghost var g := chartGroup;
      ghost var start := disposed;
      ghost var k := 0;
      while |chartGroup| > 0
        invariant 0 <= k <= |g| && chartGroup == g[k..]
        invariant disposed == start + MeshResources(g[..k])
        decreases |chartGroup|
      {
        var child := chartGroup[0];
        if IsMesh(child.prim) {
          disposed := disposed + multiset{Geometry(child.id), Material(child.id)};
        }
        chartGroup := chartGroup[1..];
        MeshResourcesPrefix(g, k);
        k := k + 1;
      }
      assert g[..k] == g;
    }

    /** `chartGroup.add(new ...)` for an object without children: it takes the next id. */
    method AddLeaf(prim: Prim, ghost base: nat)
      requires base <= nextId && Ids(Flatten(chartGroup)) == Range(base, nextId)
      modifies this`chartGroup, this`nextId
      ensures chartGroup == old(chartGroup) + [Object3D(old(nextId), prim, [])]
      ensures nextId == old(nextId) + 1
      ensures Ids(Flatten(chartGroup)) == Range(base, nextId)
      ensures ShapesOf(chartGroup) == ShapesOf(old(chartGroup)) + [Shape(prim, [])]
    {
      var o := Object3D(nextId, prim, []);
      Leaf(o);
      AppendObjects(chartGroup, [o], base, nextId, nextId + 1);
      chartGroup := chartGroup + [o];
      nextId := nextId + 1;
    }

    /** `addMovingAverage`: the curve, then the particles along it. */
    method AddMovingAverage(data: seq<Candle>, ghost base: nat)
      requires base <= nextId && Ids(Flatten(chartGroup)) == Range(base, nextId)
      modifies this`chartGroup, this`nextId
      ensures nextId == old(nextId) + 2
      ensures Ids(Flatten(chartGroup)) == Range(base, nextId)
      ensures ShapesOf(chartGroup) == ShapesOf(old(chartGroup)) + MovingAverageShapes(data)
    {
      AddLeaf(Curve(MovingAverage, MovingAverageColor, ControlPoints(data, 0.01, 0.2)), base);
      AddLeaf(CurveParticles(MovingAverageParticles, MovingAverageColor), base);
    }

    // ------------------------------------------------------------ event handlers

    /** `trading-timeframe-change`: store the new timeframe, then rebuild the chart. */
    method OnTimeframeChange(timeframe: string) returns (ok: bool)
      requires WellFormed() && Registrations() <= window.listeners
      modifies state`timeframe, this`chartGroup, this`nextId, this`disposed
      ensures Valid()
      ensures state.timeframe == timeframe
      ensures state.indicators == old(state.indicators) && state.theme == old(state.theme)
      ensures ok <==> TimeframeData(timeframe).Some?
      ensures disposed == old(disposed) + MeshResources(old(chartGroup))
    {
      state.timeframe := timeframe;
      ok := UpdateChart();
    }

    /**
     * `trading-indicator-toggle`: store the flag under whatever name the event carries, then
     * rebuild. A name other than MA, RSI and MACD is stored but changes no child.
     */
    method OnIndicatorToggle(indicator: string, enabled: bool) returns (ok: bool)
      requires WellFormed() && Registrations() <= window.listeners
      modifies state`indicators, this`chartGroup, this`nextId, this`disposed
      ensures Valid()
      ensures state.indicators == old(state.indicators)[indicator := enabled]
      ensures state.timeframe == old(state.timeframe) && state.theme == old(state.theme)
      ensures ok <==> TimeframeData(state.timeframe).Some?
      ensures disposed == old(disposed) + MeshResources(old(chartGroup))
      ensures old(ChartConsistent()) && indicator != "MA" && indicator != "RSI" && indicator != "MACD" ==>
        ShapesOf(chartGroup) == ShapesOf(old(chartGroup))
    {
      ghost var before := state.indicators;
      state.indicators := state.indicators[indicator := enabled];
      ok := UpdateChart();
      if indicator != "MA" && indicator != "RSI" && indicator != "MACD" {
        UnknownIndicator(state.timeframe, before, indicator, enabled);
      }
    }

    /** `trading-theme-change`: background, fog and floor all take the theme's colour. */
    method OnThemeChange(theme: string)
      requires WellFormed() && Registrations() <= window.listeners
      modifies state`theme, this`background, this`fogColor, this`floorColor
      ensures WellFormed() && Registrations() <= window.listeners
      ensures old(ChartConsistent()) ==> ChartConsistent()
      ensures state.theme == theme
      ensures state.timeframe == old(state.timeframe) && state.indicators == old(state.indicators)
      ensures background == ThemeColor(theme) && fogColor == ThemeColor(theme) && floorColor == ThemeColor(theme)
    {
      state.theme := theme;
      if theme == "dark" {
        background, fogColor, floorColor := DarkColor, DarkColor, DarkColor;
      } else {
        background, fogColor, floorColor := LightColor, LightColor, LightColor;
      }
    }

    /**
     * `trading-action`: add one cloud of 100 points to the scene, green for "buy" and orange
     * for anything else, at opacity 0.8, and run its first frame at once. `start` and
     * `firstFrame` are the two clock readings the handler takes.
     */
    method OnTradingAction(action: string, start: int, firstFrame: int) returns (expired: bool)
      requires WellFormed() && Registrations() <= window.listeners
      modifies this`bursts, this`nextId, this`disposed
      ensures WellFormed() && Registrations() <= window.listeners
      ensures old(ChartConsistent()) ==> ChartConsistent()
      ensures chartGroup == old(chartGroup)
      ensures expired <==> Progress(start, firstFrame) >= 1.0
      ensures var points := Object3D(old(nextId), Burst(if action == "buy" then BuyColor else SellColor, BurstParticles), []);
        if expired then
          bursts == old(bursts) && disposed == old(disposed) + multiset{Geometry(points.id), Material(points.id)}
        else
          bursts == old(bursts) + [ParticleBurst(points, start, 1.0 - Progress(start, firstFrame))] &&
          disposed == old(disposed)
    {
      var color := if action == "buy" then BuyColor else SellColor;
      var points := Object3D(nextId, Burst(color, BurstParticles), []);
      AddBurst(ParticleBurst(points, start, 0.8));
      expired := AnimateBurst(|bursts| - 1, firstFrame);
      assert bursts[..|old(bursts)|] == old(bursts);
    }

    /** `scene.add(particles)`: the cloud takes the next id. */
    method AddBurst(b: ParticleBurst)
      requires WellFormed() && b.points == Object3D(nextId, b.points.prim, []) && b.points.prim.Burst?
      modifies this`bursts, this`nextId
      ensures WellFormed()
      ensures bursts == old(bursts) + [b] && nextId == old(nextId) + 1
    {
      ghost var live := LiveIds();
      bursts := bursts + [b];
      nextId := nextId + 1;
      assert BurstObjects(bursts) == BurstObjects(old(bursts)) + [b.points];
      IdsAppend(BurstObjects(old(bursts)), [b.points]);
      assert LiveIds() == live + [b.points.id];
      AdmitId(live, old(nextId), disposed);
    }

    /**
     * One `animateParticles` frame of burst `i` at time `now`: once the burst has run its
     * 1500 ms it leaves the scene and its geometry and material are disposed, each once;
     * before that its opacity is 1 - progress.
     */
    method AnimateBurst(i: nat, now: int) returns (expired: bool)
      requires WellFormed() && i < |bursts|
      modifies this`bursts, this`disposed
      ensures WellFormed()
      ensures expired <==> Progress(old(bursts)[i].start, now) >= 1.0
      ensures expired ==> bursts == old(bursts)[..i] + old(bursts)[i + 1..]
      ensures expired ==> disposed == old(disposed) + multiset{Geometry(old(bursts)[i].points.id), Material(old(bursts)[i].points.id)}
      ensures expired ==> disposed[Geometry(old(bursts)[i].points.id)] == 1 &&
                          disposed[Material(old(bursts)[i].points.id)] == 1
      ensures !expired ==> (disposed == old(disposed) &&
        bursts == old(bursts)[i := old(bursts)[i].(opacity := 1.0 - Progress(old(bursts)[i].start, now))])
    {
      var b := bursts[i];
      var progress := Progress(b.start, now);
      if progress >= 1.0 {
        RemoveBurst(i);
        expired := true;
      } else {
        bursts := bursts[i := b.(opacity := 1.0 - progress)];
        assert BurstObjects(bursts) == BurstObjects(old(bursts));
        expired := false;
      }
    }

    /** `scene.remove(particles)` and the two `dispose()` calls. */
    method RemoveBurst(i: nat)
      requires WellFormed() && i < |bursts|
      modifies this`bursts, this`disposed
      ensures WellFormed()
      ensures bursts == old(bursts)[..i] + old(bursts)[i + 1..]
      ensures disposed == old(disposed) + multiset{Geometry(old(bursts)[i].points.id), Material(old(bursts)[i].points.id)}
      ensures disposed[Geometry(old(bursts)[i].points.id)] == 1 && disposed[Material(old(bursts)[i].points.id)] == 1
    {
      var points := bursts[i].points;
      ghost var head := [floor.id] + Ids(Flatten(chartGroup));
      ghost var live := head + Ids(BurstObjects(bursts));
      ghost var j := |head| + i;
      assert live == LiveIds();
      BurstRemoved(head, bursts, i);
      RetireId(live, j, disposed, nextId);
      ghost var rest := live[..j] + live[j + 1..];
      bursts := bursts[..i] + bursts[i + 1..];
      disposed := disposed + multiset{Geometry(points.id), Material(points.id)};
      assert LiveIds() == rest;
      assert disposed == old(disposed) + multiset{Geometry(live[j]), Material(live[j])};
      forall k | 0 <= k < |bursts| ensures bursts[k] == old(bursts)[if k < i then k else k + 1] {
      }
    }

    // ------------------------------------------------------------ teardown

    /**
     * The cleanup function `initializeScene` returns: the five listeners come off the window,
     * then `scene.traverse` disposes the geometry and material of every mesh it reaches,
     * the badge boxes inside the badge group included. Lines, points and groups are left alone.
     */
    method Teardown()
      requires WellFormed() && Registrations() <= window.listeners
      modifies this`torn, this`disposed, window`listeners
      ensures torn
      ensures window.listeners == old(window.listeners) - Registrations()
      ensures |window.listeners| == |old(window.listeners)| - 5
      ensures disposed == old(disposed) + MeshResources(SceneObjects())
      ensures forall k | 0 <= k < |SceneObjects()| ::
        var o := SceneObjects()[k];
        disposed[Geometry(o.id)] == (if IsMesh(o.prim) then 1 else 0) &&
        disposed[Material(o.id)] == (if IsMesh(o.prim) then 1 else 0)
    {
      window.listeners := window.listeners - Registrations();
      assert |Registrations()| == 5;
      torn := true;
      var objects := SceneObjects();
      ghost var start := disposed;
      IdsAppend([floor] + Flatten(chartGroup), BurstObjects(bursts));
      IdsAppend([floor], Flatten(chartGroup));
      assert Ids(objects) == LiveIds();
      DisposeMeshes(objects);
      DisposeEach(start, objects);
    }

    /** The `scene.traverse` callback over `objects`, in visiting order: meshes only. */
    method DisposeMeshes(objects: seq<Object3D>)
      modifies this`disposed
      ensures disposed == old(disposed) + MeshResources(objects)
    {
      var i := 0;
      while i < |objects|
        invariant 0 <= i <= |objects|
        invariant disposed == old(disposed) + MeshResources(objects[..i])
      {
        var o := objects[i];
        if IsMesh(o.prim) {
          disposed := disposed + multiset{Geometry(o.id), Material(o.id)};
        }
        MeshResourcesPrefix(objects, i);
        i := i + 1;
      }
      assert objects[..i] == objects;
    }
  }

  /**
   * `initializeScene`: build the scene, run the first `updateChart` for the module-level view
   * state, then register the five listeners. When that first rebuild throws (the stored
   * timeframe has no data), no listener is registered and no cleanup function is returned.
   */
  method InitializeScene(state: ViewState, window: Window) returns (scene: ChartScene?)
    modifies window`listeners
    ensures scene == null <==> TimeframeData(state.timeframe).None?
    ensures scene == null ==> window.listeners == old(window.listeners)
    ensures scene != null ==> fresh(scene) && scene.state == state && scene.window == window && scene.Valid()
    ensures scene != null ==> window.listeners == old(window.listeners) + scene.Registrations()
    ensures scene != null ==> (scene.bursts == [] &&
      scene.background == DarkColor && scene.fogColor == DarkColor && scene.floorColor == DarkColor)
    ensures scene != null ==> scene.disposed == multiset{}
  {
    var s := new ChartScene(state, window);
    var ok := s.UpdateChart();
    if !ok {
      return null;
    }
    assert s.bursts == [] && s.disposed == multiset{};
    assert s.background == DarkColor && s.fogColor == DarkColor && s.floorColor == DarkColor;
    window.listeners := window.listeners + s.Registrations();
    scene := s;
  }
}
