/** The pure parts of the OpenGL canvas: the vertex lists each draw builds
    from its shape arguments, the tint choice, the model transforms, and the
    two vertex-generating loops (antialiased line expansion and the
    per-vertex-colour circle fan), each loop proved against a function. */
module CanvasGeometry {
  import opened KreTypes

  // ---------------------------------------------------------------------
  // Rectangles

  /** Four corners in triangle-strip order: (x1,y1), (x2,y1), (x1,y2), (x2,y2). */
  function StripQuad(x1: real, y1: real, x2: real, y2: real): (q: seq<Vec2>)
    ensures |q| == 4
  {
    [Vec2(x1, y1), Vec2(x2, y1), Vec2(x1, y2), Vec2(x2, y2)]
  }

  /** The closed outline: the four corners in perimeter order, then the first again. */
  function OutlineLoop(x1: real, y1: real, x2: real, y2: real): (o: seq<Vec2>)
    ensures |o| == 5
  {
    [Vec2(x1, y1), Vec2(x2, y1), Vec2(x2, y2), Vec2(x1, y2), Vec2(x1, y1)]
  }

  /** The fill strip of an integer rect, as `r.as_type<float>()` gives its corners. */
  function RectStrip(r: Rect): (q: seq<Vec2>)
    ensures |q| == 4
    ensures q[0] == Vec2(r.x as real, r.y as real) && q[3] == Vec2(r.X2() as real, r.Y2() as real)
  {
    StripQuad(r.x as real, r.y as real, r.X2() as real, r.Y2() as real)
  }

  /** The outline strip of an integer rect. */
  function RectOutline(r: Rect): (o: seq<Vec2>)
    ensures |o| == 5
    ensures o[0] == o[4] == Vec2(r.x as real, r.y as real)
    ensures o[2] == Vec2(r.X2() as real, r.Y2() as real)
  {
    OutlineLoop(r.x as real, r.y as real, r.X2() as real, r.Y2() as real)
  }

  /** Strip vertex i sits on the left edge exactly when i is even and on the
      top edge exactly when i < 2: the two triangles (0,1,2) and (2,1,3)
      share the diagonal from (x2,y1) to (x1,y2) and so cover the rectangle. */
  lemma StripQuadCorners(x1: real, y1: real, x2: real, y2: real)
    ensures forall i :: 0 <= i < 4 ==>
      StripQuad(x1, y1, x2, y2)[i] == Vec2(if i % 2 == 0 then x1 else x2, if i < 2 then y1 else y2)
  {
  }

  /** The outline is closed and every one of its four edges is horizontal
      or vertical. */
  lemma OutlineIsClosedAndAxisAligned(x1: real, y1: real, x2: real, y2: real)
    ensures var o := OutlineLoop(x1, y1, x2, y2);
      && o[0] == o[4]
      && forall i :: 0 <= i < 4 ==> o[i].x == o[i + 1].x || o[i].y == o[i + 1].y
  {
  }

  /** The outline's first four points are the fill strip's corners, each once,
      with the last two swapped: strip order zig-zags, outline order goes round. */
  lemma OutlineVisitsFillCorners(x1: real, y1: real, x2: real, y2: real)
    ensures var o, q := OutlineLoop(x1, y1, x2, y2), StripQuad(x1, y1, x2, y2);
      && o[..4] == [q[0], q[1], q[3], q[2]]
      && multiset(o[..4]) == multiset(q)
  {
    var q := StripQuad(x1, y1, x2, y2);
    assert multiset(q) == multiset{q[0], q[1], q[2], q[3]};
  }

  /** The centre (mid_x, mid_y) of an integer rect: as far from the left
      edge as from the right, and from the top as from the bottom. */
  function Centre(r: Rect): (c: Vec2)
    ensures c.x - r.x as real == r.X2() as real - c.x
    ensures c.y - r.y as real == r.Y2() as real - c.y
  {
    Vec2((r.x as real + r.X2() as real) / 2.0, (r.y as real + r.Y2() as real) / 2.0)
  }

  /** Rotation by `radians` about the point (cx, cy):
      translate(c) * rotate(radians) * translate(-c). It moves points in the
      plane only. */
  function AboutCentre(cx: real, cy: real, radians: real): (t: Transform)
    ensures Planar(t)
  {
    var spin := Compose(Translate(cx, cy), RotateZ(radians));
    assert Planar(spin);
    Compose(spin, Translate(-cx, -cy))
  }

  /** Rotation of an integer rect about its own centre (mid_x, mid_y). */
  function RectRotation(r: Rect, radians: real): (t: Transform)
    ensures Planar(t)
  {
    AboutCentre(Centre(r).x, Centre(r).y, radians)
  }

  /** The rotation about a point leaves that point where it is, whatever
      the angle and whatever cos and sin evaluate to. */
  lemma AboutCentreFixesCentre(cx: real, cy: real, radians: real, cosR: real -> real, sinR: real -> real)
    ensures Apply(AboutCentre(cx, cy, radians), Vec2(cx, cy), cosR, sinR) == Vec2(cx, cy)
  {
    var origin := Apply(Translate(-cx, -cy), Vec2(cx, cy), cosR, sinR);
    assert origin == Vec2(0.0, 0.0);
    var spun := Apply(RotateZ(radians), origin, cosR, sinR);
    assert spun == Vec2(0.0, 0.0);
    assert Apply(Compose(Translate(cx, cy), RotateZ(radians)), origin, cosR, sinR) == Vec2(cx, cy);
  }

  /** The rectangle blits and fills rotate about the rect's centre: the
      centre stays in place. */
  lemma RectRotationFixesCentre(r: Rect, radians: real, cosR: real -> real, sinR: real -> real)
    ensures Apply(RectRotation(r, radians), Centre(r), cosR, sinR) == Centre(r)
  {
    AboutCentreFixesCentre(Centre(r).x, Centre(r).y, radians, cosR, sinR);
  }

  // ---------------------------------------------------------------------
  // Tint

  /** The colour uniform of both blitTexture overloads: `color * ambient`
      unless `color` is white, then `ambient` alone. White is the identity of
      the product, so both branches send the same value. */
  function Tint(color: Color, ambient: Color): (t: Color)
    ensures t == Mul(color, ambient)
    ensures color == WHITE ==> t == ambient
  {
    if color != WHITE then Mul(color, ambient) else ambient
  }

  // ---------------------------------------------------------------------
  // Textured quads

  /** Texture coordinates of a source rect, in the same corner order as the
      destination strip. A zero width (height) takes the right (bottom) edge
      from the texture's own width (height) instead of `src.x2()` (`src.y2()`). */
  function SourceUVs(tex: Texture, src: Rect): (uv: seq<Vec2>)
    ensures |uv| == 4
    ensures uv[0].x == uv[2].x && uv[1].x == uv[3].x && uv[0].y == uv[1].y && uv[2].y == uv[3].y
  {
    StripQuad(
      tex.normW(src.x),
      tex.normH(src.y),
      tex.normW(if src.w == 0 then tex.width else src.X2()),
      tex.normH(if src.h == 0 then tex.height else src.Y2()))
  }

  /** Vertex i of the destination strip and texture coordinate i come from
      the same corner, and the far edge of the source rect falls back to the
      texture's extent exactly when the rect's extent is zero. */
  lemma SourceUVsFollowCorners(tex: Texture, src: Rect, dst: Rect)
    ensures var uv, q := SourceUVs(tex, src), RectStrip(dst);
      && |uv| == |q| == 4
      && forall i :: 0 <= i < 4 ==>
        && uv[i].x == tex.normW(if i % 2 == 0 then src.x else if src.w == 0 then tex.width else src.X2())
        && uv[i].y == tex.normH(if i < 2 then src.y else if src.h == 0 then tex.height else src.Y2())
        && q[i].x == (if i % 2 == 0 then dst.x else dst.X2()) as real
        && q[i].y == (if i < 2 then dst.y else dst.Y2()) as real
  {
  }

  /** With the usual normalisation (pixel offset over texture size), a source
      rect of zero width and height starting at the origin maps to the whole
      texture: left/top 0.0 and right/bottom 1.0. */
  lemma ZeroSizedSourceCoversTexture(tex: Texture, src: Rect)
    requires tex.width > 0 && tex.height > 0
    requires forall px :: tex.normW(px) == px as real / tex.width as real
    requires forall py :: tex.normH(py) == py as real / tex.height as real
    requires src.x == 0 && src.y == 0 && src.w == 0 && src.h == 0
    ensures SourceUVs(tex, src) == StripQuad(0.0, 0.0, 1.0, 1.0)
  {
    assert tex.normW(0) == 0.0 && tex.normH(0) == 0.0;
    assert tex.normW(tex.width) == 1.0 && tex.normH(tex.height) == 1.0;
  }

  /** A source rect of zero width takes its right edge from the texture's
      width, which the usual normalisation maps to 1.0. */
  lemma ZeroWidthRightEdge(tex: Texture, src: Rect)
    requires tex.width > 0
    requires forall px :: tex.normW(px) == px as real / tex.width as real
    requires src.w == 0
    ensures SourceUVs(tex, src)[1].x == 1.0 && SourceUVs(tex, src)[3].x == 1.0
  {
    assert tex.normW(tex.width) == 1.0;
  }

  /** A source rect of zero height takes its bottom edge from the texture's
      height, which the usual normalisation maps to 1.0. */
  lemma ZeroHeightBottomEdge(tex: Texture, src: Rect)
    requires tex.height > 0
    requires forall py :: tex.normH(py) == py as real / tex.height as real
    requires src.h == 0
    ensures SourceUVs(tex, src)[2].y == 1.0 && SourceUVs(tex, src)[3].y == 1.0
  {
    assert tex.normH(tex.height) == 1.0;
  }

  // ---------------------------------------------------------------------
  // Antialiased lines

  /** The blur strength drawLines sends with every antialiased line. */
  const ANTIALIAS_BLUR := 2.0

  /** (dy, -dx) for the segment from a to b: perpendicular to it. */
  function Perp(a: Vec2, b: Vec2): (d: Vec2)
    ensures d.x * (b.x - a.x) + d.y * (b.y - a.y) == 0.0
  {
    Vec2(b.y - a.y, -(b.x - a.x))
  }

  /** Vertices drawLines submits: every disjoint pair (a, b) of the input,
      taken as (0,1), (2,3), ..., becomes a, a, b, b. */
  function SegmentVertices(s: seq<Vec2>): (r: seq<Vec2>)
    requires |s| % 2 == 0
    ensures |r| == 2 * |s|
    decreases |s|
  {
    if s == [] then []
    else
      var a, b := s[|s| - 2], s[|s| - 1];
      SegmentVertices(s[..|s| - 2]) + [a, a, b, b]
  }

  /** Normals drawLines submits: d1, d2, d1, d2 per pair, where d1 normalises
      (dy, -dx) and d2 normalises (-dy, dx), its negation. */
  function SegmentNormals(s: seq<Vec2>): (r: seq<Dir>)
    requires |s| % 2 == 0
    ensures |r| == 2 * |s|
    decreases |s|
  {
    if s == [] then []
    else
      var d := Perp(s[|s| - 2], s[|s| - 1]);
      SegmentNormals(s[..|s| - 2]) + [UnitOf(d), UnitOf(Neg(d)), UnitOf(d), UnitOf(Neg(d))]
  }

  /** Pair k of the input occupies submitted vertices 4k .. 4k+3: its first
      point twice then its second point twice, with normals alternating
      between the perpendicular and its negation. */
  lemma {:induction false} SegmentExpansionAt(s: seq<Vec2>, k: nat, j: nat)
    requires |s| % 2 == 0 && 2 * k + 1 < |s| && j < 4
    ensures SegmentVertices(s)[4 * k + j] == s[2 * k + j / 2]
    ensures SegmentNormals(s)[4 * k + j] ==
      var d := Perp(s[2 * k], s[2 * k + 1]);
      if j % 2 == 0 then UnitOf(d) else UnitOf(Neg(d))
    decreases |s|
  {
    var front := s[..|s| - 2];
    if 2 * k + 2 < |s| {
      SegmentExpansionAt(front, k, j);
      assert front[2 * k] == s[2 * k] && front[2 * k + 1] == s[2 * k + 1];
      assert front[2 * k + j / 2] == s[2 * k + j / 2];
    }
  }

  /** Extending the processed prefix by one pair appends that pair's four
      vertices and normals. */
  lemma SegmentsExtend(s: seq<Vec2>, n: nat)
    requires n % 2 == 0 && n + 2 <= |s|
    ensures var a, b := s[n], s[n + 1];
      var d := Perp(a, b);
      && SegmentVertices(s[..n + 2]) == SegmentVertices(s[..n]) + [a, a, b, b]
      && SegmentNormals(s[..n + 2]) == SegmentNormals(s[..n]) + [UnitOf(d), UnitOf(Neg(d)), UnitOf(d), UnitOf(Neg(d))]
  {
    assert s[..n + 2][..n] == s[..n];
  }

  /** The loop of drawLines: walks the input two points at a time and appends
      four vertices and four normals per pair. */
  method ExpandLines(varray: seq<Vec2>) returns (vertices: seq<Vec2>, normals: seq<Dir>)
    requires |varray| % 2 == 0
    ensures vertices == SegmentVertices(varray)
    ensures normals == SegmentNormals(varray)
  {
    vertices, normals := [], [];
    var n := 0;
    while n != |varray|
      invariant 0 <= n <= |varray| && n % 2 == 0
      invariant vertices == SegmentVertices(varray[..n])
      invariant normals == SegmentNormals(varray[..n])
      decreases |varray| - n
    {
      var dx := varray[n + 1].x - varray[n].x;
      var dy := varray[n + 1].y - varray[n].y;
      var d1 := UnitOf(Vec2(dy, -dx));
      var d2 := UnitOf(Vec2(-dy, dx));
      vertices := vertices + [varray[n], varray[n], varray[n + 1], varray[n + 1]];
      normals := normals + [d1, d2, d1, d2];
      SegmentsExtend(varray, n);
      n := n + 2;
    }
    assert varray[..n] == varray;
  }

  // ---------------------------------------------------------------------
  // Per-vertex-colour circle fan

  /** The angular step of the fan loop, in turns (fractions of 2*pi):
      (2*pi*4)/n radians is 4/n turns. For n == 0 the division yields +infinity
      in double arithmetic; any step of at least one turn ends the loop after
      the first sample in the same way, so one turn stands in for it. */
  function FanStep(n: nat): (s: real)
    ensures s > 0.0
    ensures n > 0 ==> s * n as real == 4.0
  {
    if n == 0 then 1.0 else 4.0 / n as real
  }

  /** Number of perimeter samples: the k with k * step < one turn. */
  function SampleCount(n: nat): (c: nat)
    ensures c >= 1
    ensures n > 0 ==> 4 * (c - 1) < n <= 4 * c
  {
    if n == 0 then 1 else (n + 3) / 4
  }

  /** A perimeter point at `turns` of a full turn, radius times (cos, sin);
      `cosT` and `sinT` are the C library's cos and sin taken in turns. */
  function Sample(radius: real, turns: real, cosT: real -> real, sinT: real -> real): (p: Vec2)
    ensures cosT(turns) * cosT(turns) + sinT(turns) * sinT(turns) == 1.0 ==> p.x * p.x + p.y * p.y == radius * radius
  {
    Vec2(radius * cosT(turns), radius * sinT(turns))
  }

  /** The angle after i steps. */
  function Turns(i: nat, step: real): real {
    i as real * step
  }

  lemma TurnsSucc(i: nat, step: real)
    ensures Turns(i + 1, step) == Turns(i, step) + step
  {
  }

  /** The first `count` perimeter samples, at 0, step, 2*step, ... turns. */
  function Samples(radius: real, step: real, count: nat, cosT: real -> real, sinT: real -> real): (p: seq<Vec2>)
    ensures |p| == count
  {
    if count == 0 then []
    else Samples(radius, step, count - 1, cosT, sinT) + [Sample(radius, Turns(count - 1, step), cosT, sinT)]
  }

  /** Sample i of any prefix is the point at i steps. */
  lemma {:induction false} SampleAt(radius: real, step: real, count: nat, cosT: real -> real, sinT: real -> real, i: nat)
    requires i < count
    ensures Samples(radius, step, count, cosT, sinT)[i] == Sample(radius, Turns(i, step), cosT, sinT)
    decreases count
  {
    if i < count - 1 {
      SampleAt(radius, step, count - 1, cosT, sinT, i);
    }
  }

  /** The fan vertex list: the centre (0,0), the perimeter samples, then a
      copy of the first sample to close the fan. */
  function FanVertices(radius: real, n: nat, cosT: real -> real, sinT: real -> real): (f: seq<Vec2>)
    ensures |f| == SampleCount(n) + 2
    ensures f[0] == Vec2(0.0, 0.0) && f[|f| - 1] == f[1]
  {
    var p := Samples(radius, FanStep(n), SampleCount(n), cosT, sinT);
    [Vec2(0.0, 0.0)] + p + [p[0]]
  }

  /** Multiplying by a positive number keeps a strict order. */
  lemma ScaleStrict(a: real, b: real, c: real)
    requires c > 0.0
    ensures a < b <==> a * c < b * c
  {
    if a < b {
      assert (b - a) * c > 0.0;
    } else {
      assert (a - b) * c >= 0.0;
    }
  }

  lemma ScaledBelowOne(kr: real, s: real, nr: real)
    requires nr > 0.0 && s * nr == 4.0
    ensures kr * s < 1.0 <==> 4.0 * kr < nr
  {
    ScaleStrict(kr * s, 1.0, nr);
    assert (kr * s) * nr == kr * (s * nr);
  }

  /** The loop guard `angle < 2*pi` holds exactly for the sample indices. */
  lemma AngleBelowFullTurn(k: nat, n: nat)
    ensures Turns(k, FanStep(n)) < 1.0 <==> k < SampleCount(n)
  {
    if n > 0 {
      ScaledBelowOne(k as real, FanStep(n), n as real);
      assert (4 * k) as real == 4.0 * (k as real);
    }
  }

  /** The loop of drawSolidCircle with a colour array: samples the perimeter
      while the accumulated angle stays below a full turn, then repeats the
      first sample. */
  method BuildFan(radius: real, n: nat, cosT: real -> real, sinT: real -> real) returns (varray: seq<Vec2>)
    ensures varray == FanVertices(radius, n, cosT, sinT)
  {
    var step := FanStep(n);
    varray := [Vec2(0.0, 0.0)];
    var angle := 0.0;
    ghost var k: nat := 0;
    while angle < 1.0
      invariant k <= SampleCount(n)
      invariant angle == Turns(k, step)
      invariant varray == [Vec2(0.0, 0.0)] + Samples(radius, step, k, cosT, sinT)
      decreases SampleCount(n) - k
    {
      AngleBelowFullTurn(k, n);
      varray := varray + [Sample(radius, angle, cosT, sinT)];
      TurnsSucc(k, step);
      angle := angle + step;
      k := k + 1;
    }
    AngleBelowFullTurn(k, n);
    varray := varray + [varray[1]];
  }

  /** The fan starts at the centre, ends with a copy of its second vertex,
      and has one sample per quarter of the colour count, rounded up (one
      sample for an empty colour array), sample i at i steps. */
  lemma FanShape(radius: real, n: nat, cosT: real -> real, sinT: real -> real, i: nat)
    requires i < SampleCount(n)
    ensures var f := FanVertices(radius, n, cosT, sinT);
      && |f| == SampleCount(n) + 2
      && f[0] == Vec2(0.0, 0.0)
      && f[1] == Vec2(radius * cosT(0.0), radius * sinT(0.0))
      && f[|f| - 1] == f[1]
      && f[i + 1] == Sample(radius, Turns(i, FanStep(n)), cosT, sinT)
  {
    SampleAt(radius, FanStep(n), SampleCount(n), cosT, sinT, 0);
    SampleAt(radius, FanStep(n), SampleCount(n), cosT, sinT, i);
  }

  /** With eight colours the step is half a turn (pi radians): two samples,
      at angles 0 and pi, between the centre and the closing repeat. */
  lemma EightColourFan(radius: real, cosT: real -> real, sinT: real -> real)
    ensures FanVertices(radius, 8, cosT, sinT) ==
      [Vec2(0.0, 0.0), Sample(radius, 0.0, cosT, sinT), Sample(radius, 0.5, cosT, sinT), Sample(radius, 0.0, cosT, sinT)]
  {
    assert FanStep(8) == 0.5;
    assert SampleCount(8) == 2;
    assert Turns(0, 0.5) == 0.0 && Turns(1, 0.5) == 0.5;
    SampleAt(radius, 0.5, 2, cosT, sinT, 0);
    SampleAt(radius, 0.5, 2, cosT, sinT, 1);
  }

  /** Triangles rasterised by a strip or fan of `count` vertices. */
  function TrianglesDrawn(mode: Topology, count: nat): (t: nat)
    ensures t < count || t == 0
    ensures t > 0 <==> (mode == TriangleStrip || mode == TriangleFan) && count >= 3
  {
    if (mode == TriangleStrip || mode == TriangleFan) && count >= 3 then count - 2 else 0
  }

  /** The fan built for the circle holds at least one triangle, but drawing it
      with a count of 1, as drawSolidCircle does, rasterises none. */
  lemma FanDrawnWithCountOneIsEmpty(radius: real, n: nat, cosT: real -> real, sinT: real -> real)
    ensures TrianglesDrawn(TriangleFan, |FanVertices(radius, n, cosT, sinT)|) == SampleCount(n) >= 1
    ensures TrianglesDrawn(TriangleFan, 1) < TrianglesDrawn(TriangleFan, |FanVertices(radius, n, cosT, sinT)|)
  {
  }

  // ---------------------------------------------------------------------
  // Textured vertex lists

  /** The positions of a vertex/texcoord list, one per entry. */
  function VertexPositions(vtc: seq<VertexTexcoord>): (r: seq<Vec2>)
    ensures |r| == |vtc|
  {
    if vtc == [] then [] else VertexPositions(vtc[..|vtc| - 1]) + [vtc[|vtc| - 1].vtx]
  }

  /** The texture coordinates of a vertex/texcoord list, one per entry. */
  function VertexTexcoords(vtc: seq<VertexTexcoord>): (r: seq<Vec2>)
    ensures |r| == |vtc|
  {
    if vtc == [] then [] else VertexTexcoords(vtc[..|vtc| - 1]) + [vtc[|vtc| - 1].tc]
  }

  /** Re-pairs two parallel streams into vertex/texcoord entries. */
  function Zip(ps: seq<Vec2>, ts: seq<Vec2>): (r: seq<VertexTexcoord>)
    requires |ps| == |ts|
    ensures |r| == |ps|
  {
    if ps == [] then [] else Zip(ps[..|ps| - 1], ts[..|ts| - 1]) + [VertexTexcoord(ps[|ps| - 1], ts[|ts| - 1])]
  }

  /** The two streams a vertex/texcoord list is meant to feed lose nothing:
      vertex i of the draw gets exactly entry i's position and texcoord. */
  lemma {:induction false} StreamsRecombine(vtc: seq<VertexTexcoord>)
    ensures Zip(VertexPositions(vtc), VertexTexcoords(vtc)) == vtc
    decreases |vtc|
  {
    if vtc != [] {
      var front := vtc[..|vtc| - 1];
      StreamsRecombine(front);
      assert VertexPositions(vtc)[..|vtc| - 1] == VertexPositions(front);
      assert VertexTexcoords(vtc)[..|vtc| - 1] == VertexTexcoords(front);
      assert vtc == front + [vtc[|vtc| - 1]];
    }
  }

  /** The list read as consecutive two-float vectors: v0, t0, v1, t1, ...
      (vertex_texcoord holds its position then its texcoord, unpadded). */
  function Interleaved(vtc: seq<VertexTexcoord>): (r: seq<Vec2>)
    ensures |r| == 2 * |vtc|
  {
    if vtc == [] then [] else Interleaved(vtc[..|vtc| - 1]) + [vtc[|vtc| - 1].vtx, vtc[|vtc| - 1].tc]
  }

  /** What each attribute of blitTexture(tex, vtc, ...) actually reads as
      written: the stride argument is `offsetof(vertex_texcoord, vtx)` (0,
      tightly packed) for positions and `offsetof(vertex_texcoord, tc)` (one
      vec2, tightly packed again) for texcoords, both from `&vtc[0]`, so both
      attributes take the first |vtc| vectors of the interleaved array. */
  function AsWrittenStream(vtc: seq<VertexTexcoord>): (r: seq<Vec2>)
    ensures |r| == |vtc|
  {
    Interleaved(vtc)[..|vtc|]
  }

  /** In the interleaved array, entry k's position sits at 2k and its texcoord at 2k+1. */
  lemma {:induction false} InterleavedAt(vtc: seq<VertexTexcoord>, k: nat)
    requires k < |vtc|
    ensures Interleaved(vtc)[2 * k] == vtc[k].vtx
    ensures Interleaved(vtc)[2 * k + 1] == vtc[k].tc
    decreases |vtc|
  {
    if k < |vtc| - 1 {
      InterleavedAt(vtc[..|vtc| - 1], k);
    }
  }

  /** As written, the texcoord attribute of vertex 1 receives the texcoord
      of entry 0 and that of vertex 0 receives a position: with two entries
      neither stream is what the list holds. */
  lemma AsWrittenStreamsMisread()
    ensures var vtc := [VertexTexcoord(Vec2(0.0, 0.0), Vec2(1.0, 1.0)), VertexTexcoord(Vec2(2.0, 2.0), Vec2(3.0, 3.0))];
      && AsWrittenStream(vtc) == [Vec2(0.0, 0.0), Vec2(1.0, 1.0)]
      && AsWrittenStream(vtc) != VertexPositions(vtc)
      && AsWrittenStream(vtc) != VertexTexcoords(vtc)
  {
    var vtc := [VertexTexcoord(Vec2(0.0, 0.0), Vec2(1.0, 1.0)), VertexTexcoord(Vec2(2.0, 2.0), Vec2(3.0, 3.0))];
    InterleavedAt(vtc, 0);
    assert VertexPositions(vtc)[1] == Vec2(2.0, 2.0);
    assert VertexTexcoords(vtc)[0] == Vec2(1.0, 1.0);
  }

  /** As written, every even-numbered vertex of the textured draw reads a
      position where its texcoord should be. */
  lemma AsWrittenTexcoordsHoldPositions(vtc: seq<VertexTexcoord>, k: nat)
    requires 2 * k < |vtc|
    ensures AsWrittenStream(vtc)[2 * k] == vtc[k].vtx
  {
    InterleavedAt(vtc, k);
  }
}
