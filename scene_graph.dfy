/**
 * The part of the three.js scene graph the chart logic touches: objects with an id, a kind
 * and children, the geometry/material resources of meshes, and the traversals used when
 * objects are detached or the scene is torn down.
 */
module SceneGraph {

  /** A point of an indicator curve's control polygon (z is always 0). */
  datatype Point = Point(x: real, y: real)

  datatype Indicator = MovingAverage | Rsi | Macd

  /** Where a badge box sits: on a horizontal line, or in slot `slot` of `of` around a circle of radius 0.25. */
  datatype BoxLayout = OnLine(x: real) | OnCircle(slot: nat, of: nat)

  /** What a scene object is, with the attributes the chart logic gives it. */
  datatype Prim =
    | CandleBody(color: int, height: real, x: real)
    | Wick(color: int, height: real, x: real)
    | Curve(indicator: Indicator, color: int, control: seq<Point>)
    | CurveParticles(count: nat, color: int)
    | Label(color: int)
    | Badge(color: int)
    | BadgeBox(color: int, layout: BoxLayout)
    | Burst(color: int, count: nat)
    | Floor

  /** The three.js class an object is an instance of. */
  datatype ObjectClass = MeshClass | LineClass | PointsClass | GroupClass

  function ClassOf(p: Prim): ObjectClass
  {
    match p
    case CandleBody(_, _, _) => MeshClass
    case Wick(_, _, _) => MeshClass
    case Label(_) => MeshClass
    case BadgeBox(_, _) => MeshClass
    case Floor => MeshClass
    case Curve(_, _, _) => LineClass
    case CurveParticles(_, _) => PointsClass
    case Burst(_, _) => PointsClass
    case Badge(_) => GroupClass
  }

  /** `object instanceof THREE.Mesh`: only meshes have their resources disposed. */
  predicate IsMesh(p: Prim)
  {
    ClassOf(p) == MeshClass
  }

  /** A scene object: its id (three.js's `Object3D.id`), what it is, and its children in order. */
  datatype Object3D = Object3D(id: nat, prim: Prim, children: seq<Object3D>)

  /** An object with its ids forgotten: what a rebuild is expected to produce. */
  datatype Shape = Shape(prim: Prim, parts: seq<Shape>)

  function ShapeOf(o: Object3D): Shape
    decreases o
  {
    Shape(o.prim, ShapesOf(o.children))
  }

  function ShapesOf(s: seq<Object3D>): (r: seq<Shape>)
    decreases s
    ensures |r| == |s|
  {
    if s == [] then [] else [ShapeOf(s[0])] + ShapesOf(s[1..])
  }

  /** A `dispose()` call on the geometry or on the material of the object with id `owner`. */
  datatype Resource = Geometry(owner: nat) | Material(owner: nat)

  /** What disposing one object's mesh resources records: both for a mesh, nothing otherwise. */
  function OwnResources(o: Object3D): multiset<Resource>
  {
    if IsMesh(o.prim) then multiset{Geometry(o.id), Material(o.id)} else multiset{}
  }

  /** The disposals made by visiting `s` in order and disposing each mesh (no descent into children). */
  function MeshResources(s: seq<Object3D>): multiset<Resource>
  {
    if s == [] then multiset{} else OwnResources(s[0]) + MeshResources(s[1..])
  }

  /** Pre-order list of an object and all its descendants, as `Object3D.traverse` visits them. */
  function TreeFlatten(o: Object3D): (r: seq<Object3D>)
    decreases o
    ensures |r| >= 1 && r[0] == o
  {
    [o] + Flatten(o.children)
  }

  function Flatten(s: seq<Object3D>): seq<Object3D>
    decreases s
  {
    if s == [] then [] else TreeFlatten(s[0]) + Flatten(s[1..])
  }

  function Ids(s: seq<Object3D>): (r: seq<nat>)
    ensures |r| == |s|
  {
    seq(|s|, k requires 0 <= k < |s| => s[k].id)
  }

  predicate Distinct(s: seq<nat>)
  {
    forall i, j | 0 <= i < j < |s| :: s[i] != s[j]
  }

  /** The ids `lo`, `lo + 1`, ..., `hi - 1`, handed out by a counter that went from `lo` to `hi`. */
  function Range(lo: nat, hi: nat): (r: seq<nat>)
    requires lo <= hi
    ensures |r| == hi - lo
    ensures forall k | 0 <= k < |r| :: r[k] == lo + k
    decreases hi - lo
  {
    if lo == hi then [] else [lo] + Range(lo + 1, hi)
  }

  // ---------------------------------------------------------------- lemmas

  lemma {:induction false} ShapesOfAppend(a: seq<Object3D>, b: seq<Object3D>)
    ensures ShapesOf(a + b) == ShapesOf(a) + ShapesOf(b)
  {
    if a != [] {
      assert (a + b)[1..] == a[1..] + b;
      ShapesOfAppend(a[1..], b);
    } else {
      assert a + b == b;
    }
  }

  lemma IdsAppend(a: seq<Object3D>, b: seq<Object3D>)
    ensures Ids(a + b) == Ids(a) + Ids(b)
  {
  }

  lemma IdsMember(s: seq<Object3D>, k: nat)
    requires k < |s|
    ensures Ids(s)[k] == s[k].id
  {
  }

  lemma IdsCons(s: seq<Object3D>)
    requires s != []
    ensures Ids(s) == [s[0].id] + Ids(s[1..])
  {
  }

  /** Removing the object at `k` removes its id and keeps the others in order. */
  lemma IdsRemove(s: seq<Object3D>, k: nat)
    requires k < |s|
    ensures Ids(s[..k] + s[k + 1..]) == Ids(s)[..k] + Ids(s)[k + 1..]
  {
  }

  lemma {:induction false} FlattenAppend(a: seq<Object3D>, b: seq<Object3D>)
    ensures Flatten(a + b) == Flatten(a) + Flatten(b)
  {
    if a != [] {
      assert (a + b)[1..] == a[1..] + b;
      FlattenAppend(a[1..], b);
    } else {
      assert a + b == b;
    }
  }

  /** Objects without children flatten to themselves. */
  lemma {:induction false} FlattenLeaves(s: seq<Object3D>)
    requires forall k | 0 <= k < |s| :: s[k].children == []
    ensures Flatten(s) == s
  {
    if s != [] {
      assert Flatten(s[0].children) == [];
      FlattenLeaves(s[1..]);
    }
  }

  lemma {:induction false} MeshResourcesAppend(a: seq<Object3D>, b: seq<Object3D>)
    ensures MeshResources(a + b) == MeshResources(a) + MeshResources(b)
  {
    if a != [] {
      assert (a + b)[1..] == a[1..] + b;
      MeshResourcesAppend(a[1..], b);
    } else {
      assert a + b == b;
    }
  }

  /** Visiting one more object of `s` adds that object's own disposals. */
  lemma MeshResourcesPrefix(s: seq<Object3D>, i: nat)
    requires i < |s|
    ensures MeshResources(s[..i + 1]) == MeshResources(s[..i]) + OwnResources(s[i])
  {
    assert s[..i + 1] == s[..i] + [s[i]];
    MeshResourcesAppend(s[..i], [s[i]]);
    assert MeshResources([s[i]]) == OwnResources(s[i]) + MeshResources([]);
  }

  /** Disposing the meshes of `s` only disposes resources of objects of `s`. */
  lemma {:induction false} MeshResourcesOwners(s: seq<Object3D>, r: Resource)
    requires r in MeshResources(s)
    ensures r.owner in Ids(s)
  {
    IdsCons(s);
    if r !in OwnResources(s[0]) {
      MeshResourcesOwners(s[1..], r);
    }
  }

  lemma DistinctConcat(a: seq<nat>, b: seq<nat>)
    ensures Distinct(a + b) <==> Distinct(a) && Distinct(b) && (forall x | x in a :: x !in b)
  {
    if Distinct(a) && Distinct(b) && (forall x | x in a :: x !in b) {
      forall i, j | 0 <= i < j < |a + b| ensures (a + b)[i] != (a + b)[j] {
        if j >= |a| && i < |a| {
          assert (a + b)[i] in a && (a + b)[j] in b;
        }
      }
    }
    if Distinct(a + b) {
      forall i, j | 0 <= i < |a| && 0 <= j < |b| ensures a[i] != b[j] {
        assert (a + b)[i] == a[i] && (a + b)[|a| + j] == b[j];
      }
      forall i, j | 0 <= i < j < |b| ensures b[i] != b[j] {
        assert (a + b)[|a| + i] != (a + b)[|a| + j];
      }
      forall i, j | 0 <= i < j < |a| ensures a[i] != a[j] {
        assert (a + b)[i] != (a + b)[j];
      }
    }
  }

  /**
   * Detaching the children `s` one by one and disposing each mesh among them disposes every
   * mesh child's geometry and material exactly once and every other child's not at all, when
   * the ids are distinct and nothing of theirs was disposed before.
   */
  lemma {:induction false} DisposeOnce(disposed: multiset<Resource>, s: seq<Object3D>, k: nat)
    requires Distinct(Ids(s))
    requires forall r | r in disposed :: r.owner !in Ids(s)
    requires k < |s|
    ensures (disposed + MeshResources(s))[Geometry(s[k].id)] == if IsMesh(s[k].prim) then 1 else 0
    ensures (disposed + MeshResources(s))[Material(s[k].id)] == if IsMesh(s[k].prim) then 1 else 0
  {
    IdsMember(s, k);
    assert disposed[Geometry(s[k].id)] == 0 && disposed[Material(s[k].id)] == 0;
    MeshCount(s, k);
  }

  /** `DisposeOnce` for every object of `s` at once. */
  lemma DisposeEach(disposed: multiset<Resource>, s: seq<Object3D>)
    requires Distinct(Ids(s))
    requires forall r | r in disposed :: r.owner !in Ids(s)
    ensures forall k | 0 <= k < |s| ::
      (disposed + MeshResources(s))[Geometry(s[k].id)] == (if IsMesh(s[k].prim) then 1 else 0) &&
      (disposed + MeshResources(s))[Material(s[k].id)] == (if IsMesh(s[k].prim) then 1 else 0)
  {
    forall k | 0 <= k < |s| ensures
      (disposed + MeshResources(s))[Geometry(s[k].id)] == (if IsMesh(s[k].prim) then 1 else 0) &&
      (disposed + MeshResources(s))[Material(s[k].id)] == (if IsMesh(s[k].prim) then 1 else 0)
    {
      DisposeOnce(disposed, s, k);
    }
  }

  lemma {:induction false} MeshCount(s: seq<Object3D>, k: nat)
    requires Distinct(Ids(s))
    requires k < |s|
    ensures MeshResources(s)[Geometry(s[k].id)] == if IsMesh(s[k].prim) then 1 else 0
    ensures MeshResources(s)[Material(s[k].id)] == if IsMesh(s[k].prim) then 1 else 0
  {
    IdsCons(s);
    DistinctConcat([s[0].id], Ids(s[1..]));
    assert MeshResources(s) == OwnResources(s[0]) + MeshResources(s[1..]);
    if k == 0 {
      NotOwned(s[1..], s[0].id);
    } else {
      IdsMember(s, k);
      IdsMember(s, 0);
      MeshCount(s[1..], k - 1);
    }
  }

  /** An id that is not among the objects of `s` has nothing of it disposed by visiting `s`. */
  lemma NotOwned(s: seq<Object3D>, x: nat)
    requires x !in Ids(s)
    ensures MeshResources(s)[Geometry(x)] == 0 && MeshResources(s)[Material(x)] == 0
  {
    if Geometry(x) in MeshResources(s) {
      MeshResourcesOwners(s, Geometry(x));
    }
    if Material(x) in MeshResources(s) {
      MeshResourcesOwners(s, Material(x));
    }
  }

  /** Every child and grandchild of a group appears among the flattened objects. */
  lemma {:induction false} FlattenContains(s: seq<Object3D>, k: nat)
    requires k < |s|
    ensures s[k] in Flatten(s)
    ensures forall j | 0 <= j < |s[k].children| :: s[k].children[j] in Flatten(s)
  {
    if k == 0 {
      forall j | 0 <= j < |s[0].children|
        ensures s[0].children[j] in Flatten(s)
      {
        FlattenContains(s[0].children, j);
      }
    } else {
      FlattenContains(s[1..], k - 1);
    }
  }

  lemma {:induction false} IdsOfMember(s: seq<Object3D>, o: Object3D)
    requires o in s
    ensures o.id in Ids(s)
  {
    var k :| 0 <= k < |s| && s[k] == o;
    IdsMember(s, k);
  }

  /**
   * When the ids of all objects reachable from `s` are distinct, so are the ids of `s` itself,
   * and no grandchild shares an id with an object of `s`.
   */
  lemma {:induction false} DistinctTop(s: seq<Object3D>)
    requires Distinct(Ids(Flatten(s)))
    ensures Distinct(Ids(s))
    ensures forall k, j | 0 <= k < |s| && 0 <= j < |s[k].children| :: s[k].children[j].id !in Ids(s)
  {
    if s != [] {
      var o := s[0];
      assert Flatten(s) == TreeFlatten(o) + Flatten(s[1..]);
      IdsAppend(TreeFlatten(o), Flatten(s[1..]));
      IdsAppend([o], Flatten(o.children));
      assert Ids(TreeFlatten(o)) == [o.id] + Ids(Flatten(o.children));
      assert o.id in Ids(TreeFlatten(o));
      DistinctConcat(Ids(TreeFlatten(o)), Ids(Flatten(s[1..])));
      DistinctConcat([o.id], Ids(Flatten(o.children)));
      DistinctTop(s[1..]);
      forall x | x in Ids(s[1..]) ensures x in Ids(Flatten(s[1..])) {
        var k :| 0 <= k < |Ids(s[1..])| && Ids(s[1..])[k] == x;
        IdsMember(s[1..], k);
        FlattenContains(s[1..], k);
        IdsOfMember(Flatten(s[1..]), s[1..][k]);
      }
      IdsCons(s);
      DistinctConcat([o.id], Ids(s[1..]));
      forall k, j | 0 <= k < |s| && 0 <= j < |s[k].children|
        ensures s[k].children[j].id !in Ids(s)
      {
        var c := s[k].children[j];
        if k == 0 {
          assert c in Flatten(o.children) by { FlattenContains(o.children, j); }
          IdsOfMember(Flatten(o.children), c);
          assert c.id != o.id;
          assert c.id in Ids(TreeFlatten(o));
        } else {
          assert c.id !in Ids(s[1..]);
          FlattenContains(s[1..], k - 1);
          IdsOfMember(Flatten(s[1..]), c);
          assert c.id !in Ids(TreeFlatten(o));
        }
      }
    }
  }

  lemma RangeMember(lo: nat, hi: nat, x: nat)
    requires lo <= hi
    ensures x in Range(lo, hi) <==> lo <= x < hi
  {
    if lo <= x < hi {
      assert Range(lo, hi)[x - lo] == x;
    }
  }

  lemma {:induction false} RangeAppend(lo: nat, mid: nat, hi: nat)
    requires lo <= mid <= hi
    ensures Range(lo, mid) + Range(mid, hi) == Range(lo, hi)
  {
  }

  /** Every id of `s` is also an id of the flattened `s`. */
  lemma TopIdsInFlatten(s: seq<Object3D>, x: nat)
    requires x in Ids(s)
    ensures x in Ids(Flatten(s))
  {
    var k :| 0 <= k < |s| && Ids(s)[k] == x;
    FlattenContains(s, k);
    IdsOfMember(Flatten(s), s[k]);
  }

  /**
   * Adding objects `os`, whose ids and descendants' ids were handed out by a counter going
   * from `mid` to `hi`, to a group whose ids were handed out from `lo` to `mid`.
   */
  lemma AppendObjects(g: seq<Object3D>, os: seq<Object3D>, lo: nat, mid: nat, hi: nat)
    requires lo <= mid <= hi
    requires Ids(Flatten(g)) == Range(lo, mid) && Ids(Flatten(os)) == Range(mid, hi)
    ensures Ids(Flatten(g + os)) == Range(lo, hi)
    ensures ShapesOf(g + os) == ShapesOf(g) + ShapesOf(os)
  {
    FlattenAppend(g, os);
    IdsAppend(Flatten(g), Flatten(os));
    RangeAppend(lo, mid, hi);
    ShapesOfAppend(g, os);
  }

  /** A childless object flattens to itself and takes one id. */
  lemma Leaf(o: Object3D)
    requires o.children == []
    ensures Flatten([o]) == [o] && Ids(Flatten([o])) == Range(o.id, o.id + 1)
    ensures ShapesOf([o]) == [Shape(o.prim, [])]
  {
    assert Flatten([o]) == TreeFlatten(o) + Flatten([]);
    assert ShapesOf(o.children) == [];
  }

  lemma DistinctRemove(s: seq<nat>, j: nat)
    requires Distinct(s) && j < |s|
    ensures Distinct(s[..j] + s[j + 1..])
    ensures s[j] !in s[..j] + s[j + 1..]
    ensures forall x | x in s[..j] + s[j + 1..] :: x in s
  {
    var t := s[..j] + s[j + 1..];
    forall a, b | 0 <= a < b < |t| ensures t[a] != t[b] {
      var a' := if a < j then a else a + 1;
      var b' := if b < j then b else b + 1;
      assert t[a] == s[a'] && t[b] == s[b'];
    }
    forall a | 0 <= a < |t| ensures t[a] != s[j] && t[a] in s {
      var a' := if a < j then a else a + 1;
      assert t[a] == s[a'];
    }
  }
}
