/** The OpenGL canvas (src/kre/CanvasOGL.cpp) over an abstract graphics
    device. The device keeps the set of enabled attribute locations, the data
    each attribute pointer designates, the active program, a table of uniform
    values per program, the bound texture, and an append-only log of draw
    calls; each draw method drives it through the same steps as the source:
    activate a program, set uniforms, enable and point attributes, draw,
    disable. */
module CanvasOgl {
  import opened KreTypes
  import opened CanvasGeometry

  /** The uniform table of program `p`; a program never touched has none set. */
  function TableOf(store: map<Program, map<Uniform, UniformValue>>, p: Program): map<Uniform, UniformValue> {
    if p in store then store[p] else map[]
  }

  /** What a draw reads: every enabled location with the data its pointer designates. */
  function EnabledStreams(enabled: set<nat>, pointers: map<nat, AttribData>): map<nat, AttribData> {
    map l | l in enabled && l in pointers :: pointers[l]
  }

  lemma StreamsOfOne(pointers: map<nat, AttribData>, v: nat, a: AttribData)
    ensures EnabledStreams({} + {v}, pointers[v := a]) == map[v := a]
  {
    assert EnabledStreams({} + {v}, pointers[v := a]).Keys == {v};
  }

  lemma StreamsOfTwo(pointers: map<nat, AttribData>, v: nat, a: AttribData, w: nat, b: AttribData)
    ensures EnabledStreams({} + {v} + {w}, pointers[v := a][w := b]) == map[v := a][w := b]
  {
    assert EnabledStreams({} + {v} + {w}, pointers[v := a][w := b]).Keys == {v, w};
  }

  /** A second store under the same key replaces the first. */
  lemma Overwrite<K, V>(m: map<K, V>, k: K, a: V, b: V)
    ensures m[k := a][k := b] == m[k := b]
  {
  }

  class CanvasOGL {
    // State of the Canvas base class that this backend reads.
    var width: int
    var height: int
    /** getModelMatrix(): the caller's current model transform. */
    var modelMatrix: Transform
    /** getColor(): the canvas's current ambient colour. */
    var ambient: Color

    /** mvp_: the orthographic projection for the current dimensions. */
    var projection: Transform

    // The programs the draw methods use.
    const simple: Shader
    const complex: Shader
    const circle: Shader
    const textured: Shader

    // The device.
    var active: Option<Program>
    var bound: Texture?
    var uniforms: map<Program, map<Uniform, UniformValue>>
    var enabled: set<nat>
    var pointers: map<nat, AttribData>
    var log: seq<DrawCall>

    /** Between calls the projection matches the dimensions and no attribute
        location is left enabled. */
    ghost predicate Valid()
      reads this
    {
      && projection == Ortho(0.0, width as real, height as real, 0.0)
      && enabled == {}
    }

    constructor (width: int, height: int, simple: Shader, complex: Shader, circle: Shader, textured: Shader)
      ensures Valid()
      ensures this.width == width && this.height == height
      ensures this.simple == simple && this.complex == complex && this.circle == circle && this.textured == textured
      ensures modelMatrix == Identity && ambient == WHITE
      ensures active == None && bound == null && uniforms == map[] && pointers == map[] && log == []
    {
      this.width := width;
      this.height := height;
      this.simple := simple;
      this.complex := complex;
      this.circle := circle;
      this.textured := textured;
      modelMatrix := Identity;
      ambient := WHITE;
      projection := Identity;
      active := None;
      bound := null;
      uniforms := map[];
      enabled := {};
      pointers := map[];
      log := [];
      new;
      HandleDimensionsChanged();
    }

    /** Recomputes the projection from the current width and height: x from
        0 to width, y from height at the bottom to 0 at the top. */
    method HandleDimensionsChanged()
      modifies this`projection
      ensures projection == Ortho(0.0, width as real, height as real, 0.0)
    {
      projection := Ortho(0.0, width as real, height as real, 0.0);
    }

    /** The base class's dimension change, which notifies this backend. */
    method SetDimensions(w: int, h: int)
      requires Valid()
      modifies this`width, this`height, this`projection
      ensures Valid()
      ensures width == w && height == h
      ensures projection == Ortho(0.0, w as real, h as real, 0.0)
    {
      width, height := w, h;
      HandleDimensionsChanged();
    }

    // -------------------------------------------------------------------
    // Textured quads

    /** blitTexture(texture, src, rotation, dst, color): one 4-vertex strip at
        the corners of `dst`, rotated about its centre, texture coordinates
        from `src` in the same corner order, tinted. */
    method BlitTexture(tex: Texture, src: Rect, rotation: real, dst: Rect, color: Color)
      requires Valid() && textured.vertex.Some? && textured.texcoord.Some?
      modifies this`active, this`bound, this`uniforms, this`enabled, this`pointers, this`log
      ensures Valid()
      ensures active == Some(textured.program) && bound == tex
      ensures var p, v, tc := textured.program, textured.vertex.value, textured.texcoord.value;
        var mvp := Compose(Compose(projection, RectRotation(dst, rotation)), modelMatrix);
        var table := TableOf(old(uniforms), p)[Mvp := Matrix(mvp)][ColourUniform := Rgba(Tint(color, ambient))][TexMap := Sampler(0)];
        && uniforms == old(uniforms)[p := table]
        && pointers == old(pointers)[v := Vec2s(RectStrip(dst))][tc := Vec2s(SourceUVs(tex, src))]
        && log == old(log) + [DrawCall(p, TriangleStrip, 4, map[v := Vec2s(RectStrip(dst))][tc := Vec2s(SourceUVs(tex, src))], table, tex)]
    {
      var uvCoords := SourceUVs(tex, src);
      var vtxCoords := RectStrip(dst);
      var mvp := Compose(Compose(projection, RectRotation(dst, rotation)), modelMatrix);
      var p, v, tc := textured.program, textured.vertex.value, textured.texcoord.value;

      // makeActive(), bind(), then the uniforms
      active := Some(p);
      bound := tex;
      var table := TableOf(uniforms, p)[Mvp := Matrix(mvp)];
      table := table[ColourUniform := Rgba(Tint(color, ambient))];
      table := table[TexMap := Sampler(0)];
      uniforms := uniforms[p := table];
      // enable and point each attribute
      enabled := enabled + {v};
      pointers := pointers[v := Vec2s(vtxCoords)];
      enabled := enabled + {tc};
      pointers := pointers[tc := Vec2s(uvCoords)];
      StreamsOfTwo(old(pointers), v, Vec2s(vtxCoords), tc, Vec2s(uvCoords));
      log := log + [DrawCall(p, TriangleStrip, 4, EnabledStreams(enabled, pointers), TableOf(uniforms, p), bound)];
      enabled := enabled - {tc};
      enabled := enabled - {v};
    }

    /** blitTexture(tex, vtc, rotation, color): a strip over a caller-supplied
        vertex list, rotated about the origin, tinted. Each vertex gets the
        position and texture coordinate of its own entry; the source's
        attribute pointers do not achieve this (see AsWrittenStream). */
    method BlitTextureVertices(tex: Texture, vtc: seq<VertexTexcoord>, rotation: real, color: Color)
      requires Valid() && textured.vertex.Some? && textured.texcoord.Some?
      modifies this`active, this`bound, this`uniforms, this`enabled, this`pointers, this`log
      ensures Valid()
      ensures active == Some(textured.program) && bound == tex
      ensures var p, v, tc := textured.program, textured.vertex.value, textured.texcoord.value;
        var mvp := Compose(Compose(projection, RotateZ(rotation)), modelMatrix);
        var table := TableOf(old(uniforms), p)[Mvp := Matrix(mvp)][ColourUniform := Rgba(Tint(color, ambient))][TexMap := Sampler(0)];
        && uniforms == old(uniforms)[p := table]
        && pointers == old(pointers)[v := Vec2s(VertexPositions(vtc))][tc := Vec2s(VertexTexcoords(vtc))]
        && log == old(log) + [DrawCall(p, TriangleStrip, |vtc|, map[v := Vec2s(VertexPositions(vtc))][tc := Vec2s(VertexTexcoords(vtc))], table, tex)]
    {
      var positions, texcoords := VertexPositions(vtc), VertexTexcoords(vtc);
      var mvp := Compose(Compose(projection, RotateZ(rotation)), modelMatrix);
      var p, v, tc := textured.program, textured.vertex.value, textured.texcoord.value;

      active := Some(p);
      bound := tex;
      var table := TableOf(uniforms, p)[Mvp := Matrix(mvp)];
      table := table[ColourUniform := Rgba(Tint(color, ambient))];
      table := table[TexMap := Sampler(0)];
      uniforms := uniforms[p := table];
      enabled := enabled + {v};
      pointers := pointers[v := Vec2s(positions)];
      enabled := enabled + {tc};
      pointers := pointers[tc := Vec2s(texcoords)];
      StreamsOfTwo(old(pointers), v, Vec2s(positions), tc, Vec2s(texcoords));
      log := log + [DrawCall(p, TriangleStrip, |vtc|, EnabledStreams(enabled, pointers), TableOf(uniforms, p), bound)];
      enabled := enabled - {tc};
      enabled := enabled - {v};
    }

    // -------------------------------------------------------------------
    // Rectangles

    /** drawSolidRect(r, fill, stroke, rotation): the filled strip in the fill
        colour, then the closed 5-point outline in the stroke colour, both
        rotated about the rect's centre. The vertex attribute is enabled
        before each draw and disabled once at the end. */
    method DrawSolidRectStroked(r: Rect, fill: Color, stroke: Color, rotation: real)
      requires Valid() && simple.vertex.Some?
      modifies this`active, this`uniforms, this`enabled, this`pointers, this`log
      ensures Valid()
      ensures active == Some(simple.program)
      ensures var p, v := simple.program, simple.vertex.value;
        var mvp := Compose(Compose(projection, RectRotation(r, rotation)), modelMatrix);
        var base := TableOf(old(uniforms), p)[Mvp := Matrix(mvp)];
        && uniforms == old(uniforms)[p := base[ColourUniform := Rgba(stroke)]]
        && pointers == old(pointers)[v := Vec2s(RectOutline(r))]
        && log == old(log) + [
          DrawCall(p, TriangleStrip, 4, map[v := Vec2s(RectStrip(r))], base[ColourUniform := Rgba(fill)], bound),
          DrawCall(p, LineStrip, 5, map[v := Vec2s(RectOutline(r))], base[ColourUniform := Rgba(stroke)], bound)]
    {
      var vtxCoords, vtxCoordsLine := RectStrip(r), RectOutline(r);
      var mvp := Compose(Compose(projection, RectRotation(r, rotation)), modelMatrix);
      var p, v := simple.program, simple.vertex.value;

      active := Some(p);
      var base := TableOf(uniforms, p)[Mvp := Matrix(mvp)];
      // the filled rect
      uniforms := uniforms[p := base[ColourUniform := Rgba(fill)]];
      enabled := enabled + {v};
      pointers := pointers[v := Vec2s(vtxCoords)];
      StreamsOfOne(old(pointers), v, Vec2s(vtxCoords));
      log := log + [DrawCall(p, TriangleStrip, 4, EnabledStreams(enabled, pointers), TableOf(uniforms, p), bound)];
      // the stroke, with the attribute enabled a second time
      uniforms := uniforms[p := base[ColourUniform := Rgba(stroke)]];
      enabled := enabled + {v};
      pointers := pointers[v := Vec2s(vtxCoordsLine)];
      StreamsOfOne(old(pointers)[v := Vec2s(vtxCoords)], v, Vec2s(vtxCoordsLine));
      Overwrite(old(pointers), v, Vec2s(vtxCoords), Vec2s(vtxCoordsLine));
      Overwrite(old(uniforms), p, base[ColourUniform := Rgba(fill)], base[ColourUniform := Rgba(stroke)]);
      log := log + [DrawCall(p, LineStrip, 5, EnabledStreams(enabled, pointers), TableOf(uniforms, p), bound)];
      enabled := enabled - {v};
    }

    /** drawSolidRect(r, fill, rotation): the filled strip only. */
    method DrawSolidRect(r: Rect, fill: Color, rotation: real)
      requires Valid() && simple.vertex.Some?
      modifies this`active, this`uniforms, this`enabled, this`pointers, this`log
      ensures Valid()
      ensures active == Some(simple.program)
      ensures var p, v := simple.program, simple.vertex.value;
        var mvp := Compose(Compose(projection, RectRotation(r, rotation)), modelMatrix);
        var table := TableOf(old(uniforms), p)[Mvp := Matrix(mvp)][ColourUniform := Rgba(fill)];
        && uniforms == old(uniforms)[p := table]
        && pointers == old(pointers)[v := Vec2s(RectStrip(r))]
        && log == old(log) + [DrawCall(p, TriangleStrip, 4, map[v := Vec2s(RectStrip(r))], table, bound)]
    {
      var vtxCoords := RectStrip(r);
      var mvp := Compose(Compose(projection, RectRotation(r, rotation)), modelMatrix);
      var p, v := simple.program, simple.vertex.value;

      active := Some(p);
      uniforms := uniforms[p := TableOf(uniforms, p)[Mvp := Matrix(mvp)][ColourUniform := Rgba(fill)]];
      enabled := enabled + {v};
      pointers := pointers[v := Vec2s(vtxCoords)];
      StreamsOfOne(old(pointers), v, Vec2s(vtxCoords));
      log := log + [DrawCall(p, TriangleStrip, 4, EnabledStreams(enabled, pointers), TableOf(uniforms, p), bound)];
      enabled := enabled - {v};
    }

    /** drawHollowRect(r, stroke, rotation): the closed 5-point outline only. */
    method DrawHollowRect(r: Rect, stroke: Color, rotation: real)
      requires Valid() && simple.vertex.Some?
      modifies this`active, this`uniforms, this`enabled, this`pointers, this`log
      ensures Valid()
      ensures active == Some(simple.program)
      ensures var p, v := simple.program, simple.vertex.value;
        var mvp := Compose(Compose(projection, RectRotation(r, rotation)), modelMatrix);
        var table := TableOf(old(uniforms), p)[Mvp := Matrix(mvp)][ColourUniform := Rgba(stroke)];
        && uniforms == old(uniforms)[p := table]
        && pointers == old(pointers)[v := Vec2s(RectOutline(r))]
        && log == old(log) + [DrawCall(p, LineStrip, 5, map[v := Vec2s(RectOutline(r))], table, bound)]
    {
      var vtxCoordsLine := RectOutline(r);
      var mvp := Compose(Compose(projection, RectRotation(r, rotation)), modelMatrix);
      var p, v := simple.program, simple.vertex.value;

      active := Some(p);
      uniforms := uniforms[p := TableOf(uniforms, p)[Mvp := Matrix(mvp)][ColourUniform := Rgba(stroke)]];
      enabled := enabled + {v};
      pointers := pointers[v := Vec2s(vtxCoordsLine)];
      StreamsOfOne(old(pointers), v, Vec2s(vtxCoordsLine));
      log := log + [DrawCall(p, LineStrip, 5, EnabledStreams(enabled, pointers), TableOf(uniforms, p), bound)];
      enabled := enabled - {v};
    }

    // -------------------------------------------------------------------
    // Lines, polygons, points

    /** drawLine(p1, p2, color) for pointf: one aliased 2-vertex line. */
    method DrawLine(p1: Vec2, p2: Vec2, color: Color)
      requires Valid() && simple.vertex.Some?
      modifies this`active, this`uniforms, this`enabled, this`pointers, this`log
      ensures Valid()
      ensures active == Some(simple.program)
      ensures var p, v := simple.program, simple.vertex.value;
        var table := TableOf(old(uniforms), p)[Mvp := Matrix(Compose(projection, modelMatrix))][ColourUniform := Rgba(color)];
        && uniforms == old(uniforms)[p := table]
        && pointers == old(pointers)[v := Vec2s([p1, p2])]
        && log == old(log) + [DrawCall(p, Lines, 2, map[v := Vec2s([p1, p2])], table, bound)]
    {
      var mvp := Compose(projection, modelMatrix);
      var p, v := simple.program, simple.vertex.value;

      active := Some(p);
      uniforms := uniforms[p := TableOf(uniforms, p)[Mvp := Matrix(mvp)][ColourUniform := Rgba(color)]];
      enabled := enabled + {v};
      pointers := pointers[v := Vec2s([p1, p2])];
      StreamsOfOne(old(pointers), v, Vec2s([p1, p2]));
      log := log + [DrawCall(p, Lines, 2, EnabledStreams(enabled, pointers), TableOf(uniforms, p), bound)];
      enabled := enabled - {v};
    }

    /** drawLine(p1, p2, color) for integer points: the same line with the
        coordinates converted to floating point. */
    method DrawLineInt(p1: Point, p2: Point, color: Color)
      requires Valid() && simple.vertex.Some?
      modifies this`active, this`uniforms, this`enabled, this`pointers, this`log
      ensures Valid()
      ensures active == Some(simple.program)
      ensures var p, v := simple.program, simple.vertex.value;
        var ends := [ToVec2(p1), ToVec2(p2)];
        var table := TableOf(old(uniforms), p)[Mvp := Matrix(Compose(projection, modelMatrix))][ColourUniform := Rgba(color)];
        && uniforms == old(uniforms)[p := table]
        && pointers == old(pointers)[v := Vec2s(ends)]
        && log == old(log) + [DrawCall(p, Lines, 2, map[v := Vec2s(ends)], table, bound)]
    {
      DrawLine(ToVec2(p1), ToVec2(p2), color);
    }

    /** drawLines(varray, lineWidth, color): antialiased lines. A program
        without a normal or a vertex attribute makes the call return after
        setting the modelview and projection uniforms, with nothing enabled
        or drawn. Otherwise each disjoint pair of points becomes four
        vertices with normals, drawn as one strip of 2 * |varray| vertices. */
    method DrawLines(varray: seq<Vec2>, lineWidth: real, color: Color)
      requires Valid()
      requires complex.normal.Some? && complex.vertex.Some? ==> |varray| % 2 == 0
      modifies this`active, this`uniforms, this`enabled, this`pointers, this`log
      ensures Valid()
      ensures active == Some(complex.program)
      ensures complex.normal.None? || complex.vertex.None? ==>
        var p := complex.program;
        && uniforms == old(uniforms)[p := TableOf(old(uniforms), p)[Mv := Matrix(modelMatrix)][P := Matrix(projection)]]
        && pointers == old(pointers)
        && log == old(log)
      ensures complex.normal.Some? && complex.vertex.Some? ==>
        var p, v, nl := complex.program, complex.vertex.value, complex.normal.value;
        var table := TableOf(old(uniforms), p)[Mv := Matrix(modelMatrix)][P := Matrix(projection)]
          [Blur := Scalar(ANTIALIAS_BLUR)][LineWidth := Scalar(lineWidth)][ColourUniform := Rgba(color)];
        var streams := map[v := Vec2s(SegmentVertices(varray))][nl := Dirs(SegmentNormals(varray))];
        && uniforms == old(uniforms)[p := table]
        && pointers == old(pointers)[v := Vec2s(SegmentVertices(varray))][nl := Dirs(SegmentNormals(varray))]
        && log == old(log) + [DrawCall(p, TriangleStrip, 2 * |varray|, streams, table, bound)]
    {
      var p := complex.program;
      active := Some(p);
      var base := TableOf(uniforms, p)[Mv := Matrix(modelMatrix)][P := Matrix(projection)];
      uniforms := uniforms[p := base];

      if complex.normal.None? || complex.vertex.None? {
        return;
      }

      var vertices, normals := ExpandLines(varray);

      var v, nl := complex.vertex.value, complex.normal.value;
      var table := base[Blur := Scalar(ANTIALIAS_BLUR)][LineWidth := Scalar(lineWidth)][ColourUniform := Rgba(color)];
      Overwrite(old(uniforms), p, base, table);
      uniforms := uniforms[p := table];
      enabled := enabled + {v};
      enabled := enabled + {nl};
      pointers := pointers[v := Vec2s(vertices)];
      pointers := pointers[nl := Dirs(normals)];
      StreamsOfTwo(old(pointers), v, Vec2s(vertices), nl, Dirs(normals));
      assert TableOf(uniforms, p) == table;
      log := log + [DrawCall(p, TriangleStrip, |vertices|, EnabledStreams(enabled, pointers), TableOf(uniforms, p), bound)];
      enabled := enabled - {nl};
      enabled := enabled - {v};
    }

    /** drawLines(varray, lineWidth, carray): aliased lines with one colour
        per vertex; the two arrays must have the same length. The colour
        uniform is set to opaque white. */
    method DrawLinesColoured(varray: seq<Vec2>, lineWidth: real, carray: seq<Rgba8>)
      requires Valid() && simple.vertex.Some? && simple.colour.Some?
      requires |varray| == |carray|
      modifies this`active, this`uniforms, this`enabled, this`pointers, this`log
      ensures Valid()
      ensures active == Some(simple.program)
      ensures var p, v, c := simple.program, simple.vertex.value, simple.colour.value;
        var table := TableOf(old(uniforms), p)[Mvp := Matrix(Compose(projection, modelMatrix))][LineWidth := Scalar(lineWidth)][ColourUniform := Rgba(WHITE)];
        && uniforms == old(uniforms)[p := table]
        && pointers == old(pointers)[v := Vec2s(varray)][c := Bytes4(carray)]
        && log == old(log) + [DrawCall(p, Lines, |varray|, map[v := Vec2s(varray)][c := Bytes4(carray)], table, bound)]
    {
      var mvp := Compose(projection, modelMatrix);
      var p, v, c := simple.program, simple.vertex.value, simple.colour.value;

      active := Some(p);
      uniforms := uniforms[p := TableOf(uniforms, p)[Mvp := Matrix(mvp)][LineWidth := Scalar(lineWidth)][ColourUniform := Rgba(WHITE)]];
      enabled := enabled + {v};
      enabled := enabled + {c};
      pointers := pointers[v := Vec2s(varray)];
      pointers := pointers[c := Bytes4(carray)];
      StreamsOfTwo(old(pointers), v, Vec2s(varray), c, Bytes4(carray));
      log := log + [DrawCall(p, Lines, |varray|, EnabledStreams(enabled, pointers), TableOf(uniforms, p), bound)];
      enabled := enabled - {c};
      enabled := enabled - {v};
    }

    /** drawLineStrip(varray, lineWidth, color): an open strip through all points. */
    method DrawLineStrip(varray: seq<Vec2>, lineWidth: real, color: Color)
      requires Valid() && simple.vertex.Some?
      modifies this`active, this`uniforms, this`enabled, this`pointers, this`log
      ensures Valid()
      ensures active == Some(simple.program)
      ensures var p, v := simple.program, simple.vertex.value;
        var table := TableOf(old(uniforms), p)[Mvp := Matrix(Compose(projection, modelMatrix))][LineWidth := Scalar(lineWidth)][ColourUniform := Rgba(color)];
        && uniforms == old(uniforms)[p := table]
        && pointers == old(pointers)[v := Vec2s(varray)]
        && log == old(log) + [DrawCall(p, LineStrip, |varray|, map[v := Vec2s(varray)], table, bound)]
    {
      var mvp := Compose(projection, modelMatrix);
      var p, v := simple.program, simple.vertex.value;

      active := Some(p);
      uniforms := uniforms[p := TableOf(uniforms, p)[Mvp := Matrix(mvp)][LineWidth := Scalar(lineWidth)][ColourUniform := Rgba(color)]];
      enabled := enabled + {v};
      pointers := pointers[v := Vec2s(varray)];
      StreamsOfOne(old(pointers), v, Vec2s(varray));
      log := log + [DrawCall(p, LineStrip, |varray|, EnabledStreams(enabled, pointers), TableOf(uniforms, p), bound)];
      enabled := enabled - {v};
    }

    /** drawLineLoop(varray, lineWidth, color): a closed loop through all points. */
    method DrawLineLoop(varray: seq<Vec2>, lineWidth: real, color: Color)
      requires Valid() && simple.vertex.Some?
      modifies this`active, this`uniforms, this`enabled, this`pointers, this`log
      ensures Valid()
      ensures active == Some(simple.program)
      ensures var p, v := simple.program, simple.vertex.value;
        var table := TableOf(old(uniforms), p)[Mvp := Matrix(Compose(projection, modelMatrix))][LineWidth := Scalar(lineWidth)][ColourUniform := Rgba(color)];
        && uniforms == old(uniforms)[p := table]
        && pointers == old(pointers)[v := Vec2s(varray)]
        && log == old(log) + [DrawCall(p, LineLoop, |varray|, map[v := Vec2s(varray)], table, bound)]
    {
      var mvp := Compose(projection, modelMatrix);
      var p, v := simple.program, simple.vertex.value;

      active := Some(p);
      uniforms := uniforms[p := TableOf(uniforms, p)[Mvp := Matrix(mvp)][LineWidth := Scalar(lineWidth)][ColourUniform := Rgba(color)]];
      enabled := enabled + {v};
      pointers := pointers[v := Vec2s(varray)];
      StreamsOfOne(old(pointers), v, Vec2s(varray));
      log := log + [DrawCall(p, LineLoop, |varray|, EnabledStreams(enabled, pointers), TableOf(uniforms, p), bound)];
      enabled := enabled - {v};
    }

    /** drawPolygon(varray, color): one polygon through all points, line width 1. */
    method DrawPolygon(varray: seq<Vec2>, color: Color)
      requires Valid() && simple.vertex.Some?
      modifies this`active, this`uniforms, this`enabled, this`pointers, this`log
      ensures Valid()
      ensures active == Some(simple.program)
      ensures var p, v := simple.program, simple.vertex.value;
        var table := TableOf(old(uniforms), p)[Mvp := Matrix(Compose(projection, modelMatrix))][LineWidth := Scalar(1.0)][ColourUniform := Rgba(color)];
        && uniforms == old(uniforms)[p := table]
        && pointers == old(pointers)[v := Vec2s(varray)]
        && log == old(log) + [DrawCall(p, Polygon, |varray|, map[v := Vec2s(varray)], table, bound)]
    {
      var mvp := Compose(projection, modelMatrix);
      var p, v := simple.program, simple.vertex.value;

      active := Some(p);
      uniforms := uniforms[p := TableOf(uniforms, p)[Mvp := Matrix(mvp)][LineWidth := Scalar(1.0)][ColourUniform := Rgba(color)]];
      enabled := enabled + {v};
      pointers := pointers[v := Vec2s(varray)];
      StreamsOfOne(old(pointers), v, Vec2s(varray));
      log := log + [DrawCall(p, Polygon, |varray|, EnabledStreams(enabled, pointers), TableOf(uniforms, p), bound)];
      enabled := enabled - {v};
    }

    /** drawPoints(varray, radius, color): one point per entry, the radius as
        the point size and line width 1. */
    method DrawPoints(varray: seq<Vec2>, radius: real, color: Color)
      requires Valid() && simple.vertex.Some?
      modifies this`active, this`uniforms, this`enabled, this`pointers, this`log
      ensures Valid()
      ensures active == Some(simple.program)
      ensures var p, v := simple.program, simple.vertex.value;
        var table := TableOf(old(uniforms), p)[Mvp := Matrix(Compose(projection, modelMatrix))][PointSize := Scalar(radius)][LineWidth := Scalar(1.0)][ColourUniform := Rgba(color)];
        && uniforms == old(uniforms)[p := table]
        && pointers == old(pointers)[v := Vec2s(varray)]
        && log == old(log) + [DrawCall(p, Points, |varray|, map[v := Vec2s(varray)], table, bound)]
    {
      var mvp := Compose(projection, modelMatrix);
      var p, v := simple.program, simple.vertex.value;

      active := Some(p);
      uniforms := uniforms[p := TableOf(uniforms, p)[Mvp := Matrix(mvp)][PointSize := Scalar(radius)][LineWidth := Scalar(1.0)][ColourUniform := Rgba(color)]];
      enabled := enabled + {v};
      pointers := pointers[v := Vec2s(varray)];
      StreamsOfOne(old(pointers), v, Vec2s(varray));
      log := log + [DrawCall(p, Points, |varray|, EnabledStreams(enabled, pointers), TableOf(uniforms, p), bound)];
      enabled := enabled - {v};
    }

    // -------------------------------------------------------------------
    // Circles

    /** drawSolidCircle(centre, radius, color) for pointf: a single point at
        the centre, drawn by the circle program with outer radius `radius`
        and inner radius 0. */
    method DrawSolidCircle(centre: Vec2, radius: real, color: Color)
      requires Valid() && circle.vertex.Some?
      modifies this`active, this`uniforms, this`enabled, this`pointers, this`log
      ensures Valid()
      ensures active == Some(circle.program)
      ensures var p, v := circle.program, circle.vertex.value;
        var table := TableOf(old(uniforms), p)[Mvp := Matrix(Compose(projection, modelMatrix))]
          [OuterRadius := Scalar(radius)][InnerRadius := Scalar(0.0)][ColourUniform := Rgba(color)];
        && uniforms == old(uniforms)[p := table]
        && pointers == old(pointers)[v := Vec2s([centre])]
        && log == old(log) + [DrawCall(p, Points, 1, map[v := Vec2s([centre])], table, bound)]
    {
      var mvp := Compose(projection, modelMatrix);
      var p, v := circle.program, circle.vertex.value;

      active := Some(p);
      uniforms := uniforms[p := TableOf(uniforms, p)[Mvp := Matrix(mvp)][OuterRadius := Scalar(radius)][InnerRadius := Scalar(0.0)][ColourUniform := Rgba(color)]];
      enabled := enabled + {v};
      pointers := pointers[v := Vec2s([centre])];
      StreamsOfOne(old(pointers), v, Vec2s([centre]));
      log := log + [DrawCall(p, Points, 1, EnabledStreams(enabled, pointers), TableOf(uniforms, p), bound)];
      enabled := enabled - {v};
    }

    /** drawHollowCircle(centre, radius, color) for pointf: as the solid
        circle, with the inner radius one unit inside the outer one. */
    method DrawHollowCircle(centre: Vec2, radius: real, color: Color)
      requires Valid() && circle.vertex.Some?
      modifies this`active, this`uniforms, this`enabled, this`pointers, this`log
      ensures Valid()
      ensures active == Some(circle.program)
      ensures var p, v := circle.program, circle.vertex.value;
        var table := TableOf(old(uniforms), p)[Mvp := Matrix(Compose(projection, modelMatrix))]
          [OuterRadius := Scalar(radius)][InnerRadius := Scalar(radius - 1.0)][ColourUniform := Rgba(color)];
        && uniforms == old(uniforms)[p := table]
        && pointers == old(pointers)[v := Vec2s([centre])]
        && log == old(log) + [DrawCall(p, Points, 1, map[v := Vec2s([centre])], table, bound)]
    {
      var mvp := Compose(projection, modelMatrix);
      var p, v := circle.program, circle.vertex.value;

      active := Some(p);
      uniforms := uniforms[p := TableOf(uniforms, p)[Mvp := Matrix(mvp)][OuterRadius := Scalar(radius)][InnerRadius := Scalar(radius - 1.0)][ColourUniform := Rgba(color)]];
      enabled := enabled + {v};
      pointers := pointers[v := Vec2s([centre])];
      StreamsOfOne(old(pointers), v, Vec2s([centre]));
      log := log + [DrawCall(p, Points, 1, EnabledStreams(enabled, pointers), TableOf(uniforms, p), bound)];
      enabled := enabled - {v};
    }

    /** drawSolidCircle(centre, radius, colours) for pointf: a fan around the
        origin, translated to the centre, built by BuildFan from the number
        of colours, with the colours as the per-vertex colour stream. The
        draw names a vertex count of 1, as written. `cosT` and `sinT` are
        the cosine and sine measured in turns. */
    method DrawSolidCircleColours(centre: Vec2, radius: real, colours: seq<Rgba8>, cosT: real -> real, sinT: real -> real)
      requires Valid() && simple.vertex.Some? && simple.colour.Some?
      modifies this`active, this`uniforms, this`enabled, this`pointers, this`log
      ensures Valid()
      ensures active == Some(simple.program)
      ensures var p, v, c := simple.program, simple.vertex.value, simple.colour.value;
        var fan := FanVertices(radius, |colours|, cosT, sinT);
        var table := TableOf(old(uniforms), p)[Mvp := Matrix(Compose(Compose(projection, Translate(centre.x, centre.y)), modelMatrix))];
        && uniforms == old(uniforms)[p := table]
        && pointers == old(pointers)[v := Vec2s(fan)][c := Bytes4(colours)]
        && log == old(log) + [DrawCall(p, TriangleFan, 1, map[v := Vec2s(fan)][c := Bytes4(colours)], table, bound)]
    {
      var mvp := Compose(Compose(projection, Translate(centre.x, centre.y)), modelMatrix);
      var p, v, c := simple.program, simple.vertex.value, simple.colour.value;

      active := Some(p);
      uniforms := uniforms[p := TableOf(uniforms, p)[Mvp := Matrix(mvp)]];
      var varray := BuildFan(radius, |colours|, cosT, sinT);
      enabled := enabled + {v};
      enabled := enabled + {c};
      pointers := pointers[v := Vec2s(varray)];
      pointers := pointers[c := Bytes4(colours)];
      StreamsOfTwo(old(pointers), v, Vec2s(varray), c, Bytes4(colours));
      log := log + [DrawCall(p, TriangleFan, 1, EnabledStreams(enabled, pointers), TableOf(uniforms, p), bound)];
      enabled := enabled - {c};
      enabled := enabled - {v};
    }

    /** drawSolidCircle(centre, radius, color) for integer points. */
    method DrawSolidCircleInt(centre: Point, radius: real, color: Color)
      requires Valid() && circle.vertex.Some?
      modifies this`active, this`uniforms, this`enabled, this`pointers, this`log
      ensures Valid()
      ensures active == Some(circle.program)
      ensures var p, v := circle.program, circle.vertex.value;
        var table := TableOf(old(uniforms), p)[Mvp := Matrix(Compose(projection, modelMatrix))]
          [OuterRadius := Scalar(radius)][InnerRadius := Scalar(0.0)][ColourUniform := Rgba(color)];
        && uniforms == old(uniforms)[p := table]
        && pointers == old(pointers)[v := Vec2s([ToVec2(centre)])]
        && log == old(log) + [DrawCall(p, Points, 1, map[v := Vec2s([ToVec2(centre)])], table, bound)]
    {
      DrawSolidCircle(ToVec2(centre), radius, color);
    }

    /** drawHollowCircle(centre, radius, color) for integer points. */
    method DrawHollowCircleInt(centre: Point, radius: real, color: Color)
      requires Valid() && circle.vertex.Some?
      modifies this`active, this`uniforms, this`enabled, this`pointers, this`log
      ensures Valid()
      ensures active == Some(circle.program)
      ensures var p, v := circle.program, circle.vertex.value;
        var table := TableOf(old(uniforms), p)[Mvp := Matrix(Compose(projection, modelMatrix))]
          [OuterRadius := Scalar(radius)][InnerRadius := Scalar(radius - 1.0)][ColourUniform := Rgba(color)];
        && uniforms == old(uniforms)[p := table]
        && pointers == old(pointers)[v := Vec2s([ToVec2(centre)])]
        && log == old(log) + [DrawCall(p, Points, 1, map[v := Vec2s([ToVec2(centre)])], table, bound)]
    {
      DrawHollowCircle(ToVec2(centre), radius, color);
    }

    /** drawSolidCircle(centre, radius, colours) for integer points. */
    method DrawSolidCircleColoursInt(centre: Point, radius: real, colours: seq<Rgba8>, cosT: real -> real, sinT: real -> real)
      requires Valid() && simple.vertex.Some? && simple.colour.Some?
      modifies this`active, this`uniforms, this`enabled, this`pointers, this`log
      ensures Valid()
      ensures active == Some(simple.program)
      ensures var p, v, c := simple.program, simple.vertex.value, simple.colour.value;
        var fan := FanVertices(radius, |colours|, cosT, sinT);
        var table := TableOf(old(uniforms), p)[Mvp := Matrix(Compose(Compose(projection, Translate(centre.x as real, centre.y as real)), modelMatrix))];
        && uniforms == old(uniforms)[p := table]
        && pointers == old(pointers)[v := Vec2s(fan)][c := Bytes4(colours)]
        && log == old(log) + [DrawCall(p, TriangleFan, 1, map[v := Vec2s(fan)][c := Bytes4(colours)], table, bound)]
    {
      DrawSolidCircleColours(ToVec2(centre), radius, colours, cosT, sinT);
    }
  }
}
