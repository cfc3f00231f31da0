/**
 * `ModelAnalyzer`: the scan of a garment mesh that splits its vertices into front and
 * back by the sign of z and records, per side, the bounding box of their UV
 * coordinates; and the fixed table of printable UV areas.
 */
module UVAnalysis {
  import opened Common

  datatype Vec2 = Vec2(x: real, y: real)

  /** A `{min, max}` pair of a side of `UVBounds`. */
  datatype Box = Box(min: Vec2, max: Vec2)

  datatype UVBounds = UVBounds(front: Box, back: Box)

  /** One vertex: its position (only z is consulted) and its UV coordinate. */
  datatype Vertex = Vertex(x: real, y: real, z: real, u: real, v: real)

  /** A node met by `scene.traverse`. A mesh's `attributes` are `None` when its geometry
      lacks a `position` or a `uv` attribute; otherwise they pair the i-th position with
      the i-th UV. */
  datatype SceneNode = Mesh(attributes: Option<seq<Vertex>>) | NonMesh

  /** Both sides start here: min at (1, 1), max at (0, 0). */
  const Sentinel := Box(Vec2(1.0, 1.0), Vec2(0.0, 0.0))

  function Min(a: real, b: real): real { if a <= b then a else b }
  function Max(a: real, b: real): real { if a >= b then a else b }

  predicate IsFront(p: Vertex) { p.z >= 0.0 }

  /** (u, v) lies in the box, componentwise. */
  predicate Contains(b: Box, p: Vertex) {
    b.min.x <= p.u <= b.max.x && b.min.y <= p.v <= b.max.y
  }

  /** One step of the loop on one side: the four `Math.min`/`Math.max` updates. */
  function Extend(b: Box, p: Vertex): Box {
    Box(Vec2(Min(b.min.x, p.u), Min(b.min.y, p.v)), Vec2(Max(b.max.x, p.u), Max(b.max.y, p.v)))
  }

  /** The box the loop reaches from `b` after visiting `ps` in order. */
  function Hull(b: Box, ps: seq<Vertex>): Box {
    if ps == [] then b else Extend(Hull(b, ps[..|ps| - 1]), ps[|ps| - 1])
  }

  /** The vertices a scene traversal visits, in order: meshes without both attributes
      and non-mesh nodes contribute nothing. */
  function SceneVertices(scene: seq<SceneNode>): seq<Vertex> {
    if scene == [] then []
    else
      var last := scene[|scene| - 1];
      SceneVertices(scene[..|scene| - 1]) +
      (if last.Mesh? && last.attributes.Some? then last.attributes.value else [])
  }

  function FrontOf(ps: seq<Vertex>): seq<Vertex> {
    if ps == [] then []
    else FrontOf(ps[..|ps| - 1]) + (if IsFront(ps[|ps| - 1]) then [ps[|ps| - 1]] else [])
  }

  function BackOf(ps: seq<Vertex>): seq<Vertex> {
    if ps == [] then []
    else BackOf(ps[..|ps| - 1]) + (if IsFront(ps[|ps| - 1]) then [] else [ps[|ps| - 1]])
  }

  /** The traversal callback on one mesh with both attributes: the vertex loop,
      continuing from the boxes and counts reached so far. */
  method VisitMesh(front0: Box, back0: Box, frontCount0: nat, backCount0: nat,
                   vertices: seq<Vertex>)
    returns (front: Box, back: Box, frontCount: nat, backCount: nat)
    ensures front == Hull(front0, FrontOf(vertices))
    ensures back == Hull(back0, BackOf(vertices))
    ensures frontCount == frontCount0 + |FrontOf(vertices)|
    ensures backCount == backCount0 + |BackOf(vertices)|
  {
    front, back, frontCount, backCount := front0, back0, frontCount0, backCount0;
    var i := 0;
    while i < |vertices|
      invariant 0 <= i <= |vertices|
      invariant front == Hull(front0, FrontOf(vertices[..i]))
      invariant back == Hull(back0, BackOf(vertices[..i]))
      invariant frontCount == frontCount0 + |FrontOf(vertices[..i])|
      invariant backCount == backCount0 + |BackOf(vertices[..i])|
    {
      var p := vertices[i];
      assert vertices[..i + 1] == vertices[..i] + [p];
      SidesAppendOne(vertices[..i], p);
      if p.z >= 0.0 {
        HullAppendOne(front0, FrontOf(vertices[..i]), p);
        assert BackOf(vertices[..i + 1]) == BackOf(vertices[..i]);
        front := Extend(front, p);
        frontCount := frontCount + 1;
      } else {
        HullAppendOne(back0, BackOf(vertices[..i]), p);
        assert FrontOf(vertices[..i + 1]) == FrontOf(vertices[..i]);
        back := Extend(back, p);
        backCount := backCount + 1;
      }
      i := i + 1;
    }
    assert vertices[..i] == vertices;
  }

  /** `analyzeUVCoordinates`, with the two counts it logs returned beside the bounds. */
  method AnalyzeUVCoordinates(scene: seq<SceneNode>)
    returns (bounds: UVBounds, frontCount: nat, backCount: nat)
    ensures bounds.front == Hull(Sentinel, FrontOf(SceneVertices(scene)))
    ensures bounds.back == Hull(Sentinel, BackOf(SceneVertices(scene)))
    ensures frontCount == |FrontOf(SceneVertices(scene))|
    ensures backCount == |BackOf(SceneVertices(scene))|
  {
    var front, back := Sentinel, Sentinel;
    frontCount, backCount := 0, 0;
    var m := 0;
    while m < |scene|
      invariant 0 <= m <= |scene|
      invariant front == Hull(Sentinel, FrontOf(SceneVertices(scene[..m])))
      invariant back == Hull(Sentinel, BackOf(SceneVertices(scene[..m])))
      invariant frontCount == |FrontOf(SceneVertices(scene[..m]))|
      invariant backCount == |BackOf(SceneVertices(scene[..m]))|
    {
      ghost var done := SceneVertices(scene[..m]);
      assert scene[..m + 1][..m] == scene[..m];
      var child := scene[m];
      if child.Mesh? && child.attributes.Some? {
        var vertices := child.attributes.value;
        assert SceneVertices(scene[..m + 1]) == done + vertices;
        SidesAppend(done, vertices);
        HullAppend(Sentinel, FrontOf(done), FrontOf(vertices));
        HullAppend(Sentinel, BackOf(done), BackOf(vertices));
        front, back, frontCount, backCount := VisitMesh(front, back, frontCount, backCount, vertices);
      } else {
        assert SceneVertices(scene[..m + 1]) == done + [] == done;
      }
      m := m + 1;
    }
    assert scene[..m] == scene;
    bounds := UVBounds(front, back);
  }

  lemma HullAppendOne(b: Box, ps: seq<Vertex>, p: Vertex)
    ensures Hull(b, ps + [p]) == Extend(Hull(b, ps), p)
  {
    assert (ps + [p])[..|ps|] == ps;
  }

  lemma SidesAppendOne(ps: seq<Vertex>, p: Vertex)
    ensures FrontOf(ps + [p]) == FrontOf(ps) + (if IsFront(p) then [p] else [])
    ensures BackOf(ps + [p]) == BackOf(ps) + (if IsFront(p) then [] else [p])
  {
    assert (ps + [p])[..|ps|] == ps;
  }

  /** Visiting `xs` then `ys` reaches the box that visiting `xs + ys` does. */
  lemma {:induction false} HullAppend(b: Box, xs: seq<Vertex>, ys: seq<Vertex>)
    ensures Hull(b, xs + ys) == Hull(Hull(b, xs), ys)
  {
    if ys == [] {
      assert xs + ys == xs;
    } else {
      var init := ys[..|ys| - 1];
      HullAppend(b, xs, init);
      assert (xs + ys)[..|xs + ys| - 1] == xs + init;
    }
  }

  /** Splitting distributes over concatenation. */
  lemma {:induction false} SidesAppend(xs: seq<Vertex>, ys: seq<Vertex>)
    ensures FrontOf(xs + ys) == FrontOf(xs) + FrontOf(ys)
    ensures BackOf(xs + ys) == BackOf(xs) + BackOf(ys)
  {
    if ys == [] {
      assert xs + ys == xs;
    } else {
      var init := ys[..|ys| - 1];
      SidesAppend(xs, init);
      assert (xs + ys)[..|xs + ys| - 1] == xs + init;
    }
  }

  /** Every visited vertex lies inside the box reached. */
  lemma {:induction false} HullContains(b: Box, ps: seq<Vertex>)
    ensures forall i | 0 <= i < |ps| :: Contains(Hull(b, ps), ps[i])
  {
    if ps != [] {
      var init := ps[..|ps| - 1];
      HullContains(b, init);
      HullGrows(Hull(b, init), [ps[|ps| - 1]]);
      forall i | 0 <= i < |ps| ensures Contains(Hull(b, ps), ps[i]) {
        if i < |ps| - 1 { assert ps[i] == init[i]; }
      }
    }
  }

  /** Along the loop, min components never increase and max components never decrease. */
  lemma {:induction false} HullGrows(b: Box, ps: seq<Vertex>)
    ensures Hull(b, ps).min.x <= b.min.x && Hull(b, ps).min.y <= b.min.y
    ensures Hull(b, ps).max.x >= b.max.x && Hull(b, ps).max.y >= b.max.y
  {
    if ps != [] {
      HullGrows(b, ps[..|ps| - 1]);
    }
  }

  /** The reached box is the tightest one: any box that contains the starting box's
      corners and every visited vertex contains it too. */
  lemma {:induction false} HullIsTightest(b: Box, ps: seq<Vertex>, c: Box)
    requires c.min.x <= b.min.x && c.min.y <= b.min.y
    requires c.max.x >= b.max.x && c.max.y >= b.max.y
    requires forall i | 0 <= i < |ps| :: Contains(c, ps[i])
    ensures c.min.x <= Hull(b, ps).min.x && c.min.y <= Hull(b, ps).min.y
    ensures Hull(b, ps).max.x <= c.max.x && Hull(b, ps).max.y <= c.max.y
  {
    if ps != [] {
      var init := ps[..|ps| - 1];
      assert forall i | 0 <= i < |init| :: init[i] == ps[i];
      HullIsTightest(b, init, c);
      assert Contains(c, ps[|ps| - 1]);
    }
  }

  /** Each bound is attained: it is the sentinel's value or some visited coordinate. */
  lemma {:induction false} HullAttained(b: Box, ps: seq<Vertex>)
    ensures Hull(b, ps).min.x == b.min.x || exists i | 0 <= i < |ps| :: Hull(b, ps).min.x == ps[i].u
    ensures Hull(b, ps).min.y == b.min.y || exists i | 0 <= i < |ps| :: Hull(b, ps).min.y == ps[i].v
    ensures Hull(b, ps).max.x == b.max.x || exists i | 0 <= i < |ps| :: Hull(b, ps).max.x == ps[i].u
    ensures Hull(b, ps).max.y == b.max.y || exists i | 0 <= i < |ps| :: Hull(b, ps).max.y == ps[i].v
  {
    if ps != [] {
      var init := ps[..|ps| - 1];
      HullAttained(b, init);
      assert forall i | 0 <= i < |init| :: init[i] == ps[i];
    }
  }

  /** The split is a partition: every vertex lands on exactly one side, on the side its
      z sign chooses. */
  lemma {:induction false} SidesPartition(ps: seq<Vertex>)
    ensures |FrontOf(ps)| + |BackOf(ps)| == |ps|
    ensures forall i | 0 <= i < |FrontOf(ps)| :: FrontOf(ps)[i].z >= 0.0
    ensures forall i | 0 <= i < |BackOf(ps)| :: BackOf(ps)[i].z < 0.0
  {
    if ps != [] {
      SidesPartition(ps[..|ps| - 1]);
    }
  }

  /** A side that received no vertex is returned exactly as the sentinel, an empty box
      whose min lies above its max. */
  lemma EmptySideIsSentinel(scene: seq<SceneNode>)
    ensures FrontOf(SceneVertices(scene)) == [] ==> Hull(Sentinel, FrontOf(SceneVertices(scene))) == Sentinel
    ensures BackOf(SceneVertices(scene)) == [] ==> Hull(Sentinel, BackOf(SceneVertices(scene))) == Sentinel
    ensures Sentinel.min.x > Sentinel.max.x && Sentinel.min.y > Sentinel.max.y
  {
  }

  /** Appending a node without both attributes changes neither side's vertices. */
  lemma IncompleteMeshAddsNothing(scene: seq<SceneNode>, n: SceneNode)
    requires n.NonMesh? || n.attributes.None?
    ensures SceneVertices(scene + [n]) == SceneVertices(scene)
  {
    assert (scene + [n])[..|scene|] == scene;
  }

  /** What the analysis promises about its result, gathered: the counts add up to the
      vertices visited, each side's box holds that side's vertices, its min never exceeds
      (1, 1) and its max never falls below (0, 0). */
  lemma AnalysisSound(scene: seq<SceneNode>)
    ensures var ps := SceneVertices(scene);
      |FrontOf(ps)| + |BackOf(ps)| == |ps|
    ensures var f := FrontOf(SceneVertices(scene));
      forall i | 0 <= i < |f| :: Contains(Hull(Sentinel, f), f[i])
    ensures var k := BackOf(SceneVertices(scene));
      forall i | 0 <= i < |k| :: Contains(Hull(Sentinel, k), k[i])
    ensures var f := Hull(Sentinel, FrontOf(SceneVertices(scene)));
      f.min.x <= 1.0 && f.min.y <= 1.0 && f.max.x >= 0.0 && f.max.y >= 0.0
    ensures var k := Hull(Sentinel, BackOf(SceneVertices(scene)));
      k.min.x <= 1.0 && k.min.y <= 1.0 && k.max.x >= 0.0 && k.max.y >= 0.0
  {
    var ps := SceneVertices(scene);
    SidesPartition(ps);
    HullContains(Sentinel, FrontOf(ps));
    HullContains(Sentinel, BackOf(ps));
    HullGrows(Sentinel, FrontOf(ps));
    HullGrows(Sentinel, BackOf(ps));
  }

  /** `getTShirtUVAreas`: the same centred square [0.25, 0.75]² for both sides. */
  function GetTShirtUVAreas(): (r: UVBounds)
    ensures r.front == r.back
    ensures r.front.min.x < r.front.max.x && r.front.min.y < r.front.max.y
    ensures 0.0 <= r.front.min.x && r.front.max.x <= 1.0
    ensures 0.0 <= r.front.min.y && r.front.max.y <= 1.0
    ensures r.front.min.x + r.front.max.x == 1.0 && r.front.min.y + r.front.max.y == 1.0
  {
    UVBounds(Box(Vec2(0.25, 0.25), Vec2(0.75, 0.75)), Box(Vec2(0.25, 0.25), Vec2(0.75, 0.75)))
  }
}
