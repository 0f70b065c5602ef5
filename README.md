# OpenGL canvas drawing logic, modelled in Dafny

This project models the drawing logic of the OpenGL canvas backend
(`KRE::CanvasOGL`) and the map lookup helper `map_get_value_default`.

The canvas is modelled as the class `CanvasOgl.CanvasOGL`. It keeps:

- the canvas dimensions and the orthographic projection derived from them;
- the caller's model matrix and the ambient colour, which the base class supplies;
- an abstract graphics device. The device holds the active program, the bound
  texture, one uniform table per program, the set of enabled attribute
  locations, the data behind each attribute pointer, and an append-only log of
  draw calls.

Every draw method changes the device step by step, in the source's order:

1. it makes a program active;
2. it sets uniforms;
3. it enables attribute locations and points them at vertex data;
4. it issues a draw, or two for a stroked rectangle;
5. it disables what it enabled.

A draw record captures what the device would read at that moment:

- the program;
- the topology and the vertex count;
- each enabled location, together with the data its pointer designates;
- the active program's uniform table;
- the bound texture.

Each method's postcondition states the whole new device state. That includes
the record appended to the log, with its exact vertex lists, and that
`Valid()` holds again, so no attribute location is left enabled on any path.

The vertex lists come from pure functions in `CanvasGeometry`:

- the rectangle strip and outline;
- the texture coordinates of a source rectangle;
- the antialiased line expansion;
- the circle fan.

The two loops of the source, in the antialiased `drawLines` and in the
per-vertex-colour `drawSolidCircle`, are methods proved equal to those
functions. Lemmas state the shapes: corner order, a closed outline, pair k
landing at vertices 4k..4k+3, the fan's centre and closing copy, and the
sample count.

Matrices are kept symbolic, as the `Transform` expression that built them. A
normalised direction is also symbolic (`UnitOf(v)`). `Apply` gives the
planar transforms a meaning, enough to show that each rect rotation keeps the
rect's centre in place. `cos` and `sin` are parameters: measured in turns for
the circle fan, in radians for `Apply`.

`MapUtils.GetValueDefault` is the lookup with a default over a map value.

## Model

| member | source | states |
|---|---|---|
| MapUtils.GetValueDefault | src/map_utils.hpp:22-30 | Returns the stored value when the key is present and the default when it is absent. The result is always either one of the map's values or the default. |
| MapUtils.EmptyMapGivesDefault | src/map_utils.hpp:23-30 | On an empty map the lookup always yields the default. |
| MapUtils.StoredValueIsFound | src/map_utils.hpp:24-26 | After a value is stored under a key, the lookup finds that value whatever the default. |
| MapUtils.OtherKeysUnaffected | src/map_utils.hpp:24-29 | Storing under one key does not change the lookup of any other key. |
| MapUtils.DefaultIrrelevantWhenPresent | src/map_utils.hpp:25-26 | When the key is present, the default plays no part in the result. |
| CanvasOgl.CanvasOGL.constructor | src/kre/CanvasOGL.cpp:42-45 | The new canvas's projection matches its dimensions and nothing is enabled, drawn or set. |
| CanvasOgl.CanvasOGL.HandleDimensionsChanged | src/kre/CanvasOGL.cpp:51-54 | The projection becomes the orthographic map with x running from 0 to width and y from height down to 0. |
| CanvasOgl.CanvasOGL.SetDimensions | src/kre/CanvasOGL.cpp:51-54 | After a dimension change, the projection is the one for the new width and height. |
| CanvasOgl.CanvasOGL.BlitTexture | src/kre/CanvasOGL.cpp:56-103 | Logs one 4-vertex triangle strip through the destination corners, with texture coordinates from the same corners of the source rect. The MVP is the projection times the rotation about the rect's centre times the model matrix. The colour uniform is the tint, the sampler is unit 0 and the texture is bound. Both attributes are disabled again. |
| CanvasOgl.CanvasOGL.BlitTextureVertices | src/kre/CanvasOGL.cpp:105-130 | Logs one triangle strip of \|vtc\| vertices, rotated about the origin and tinted. Vertex i gets entry i's position and entry i's texture coordinate. This is the corrected stream layout; see Findings. |
| CanvasOgl.CanvasOGL.DrawSolidRectStroked | src/kre/CanvasOGL.cpp:132-169 | Logs the 4-vertex fill strip in the fill colour, then the 5-point outline strip in the stroke colour, under the same MVP. The location enabled twice and disabled once ends up disabled. |
| CanvasOgl.CanvasOGL.DrawSolidRect | src/kre/CanvasOGL.cpp:171-193 | Logs only the 4-vertex fill strip, in the fill colour. |
| CanvasOgl.CanvasOGL.DrawHollowRect | src/kre/CanvasOGL.cpp:195-220 | Logs only the closed 5-point outline, in the stroke colour. |
| CanvasOgl.CanvasOGL.DrawLineInt | src/kre/CanvasOGL.cpp:222-240 | Logs one 2-vertex line between the two integer points converted to floating point, under projection times model matrix. |
| CanvasOgl.CanvasOGL.DrawLines | src/kre/CanvasOGL.cpp:248-292 | Always sets the modelview and projection uniforms of the complex program. If the normal or the vertex attribute is missing, nothing else changes and nothing is drawn. Otherwise it logs one triangle strip of 2·\|varray\| vertices, with blur 2, the line width and the colour, and leaves nothing enabled. The strip's vertices and normals are SegmentVertices and SegmentNormals of the input. |
| CanvasOgl.CanvasOGL.DrawLinesColoured | src/kre/CanvasOGL.cpp:294-313 | Requires the vertex and colour arrays to have equal length. Logs one `Lines` draw of \|varray\| vertices, with the colours as the per-vertex colour stream and opaque white as the colour uniform. |
| CanvasOgl.CanvasOGL.DrawLineStrip | src/kre/CanvasOGL.cpp:315-330 | Logs one line strip over exactly the \|varray\| given points, with the line width and colour uniforms set. |
| CanvasOgl.CanvasOGL.DrawLineLoop | src/kre/CanvasOGL.cpp:332-347 | Logs one line loop over exactly the \|varray\| given points, with the line width and colour uniforms set. |
| CanvasOgl.CanvasOGL.DrawLine | src/kre/CanvasOGL.cpp:349-367 | Logs one 2-vertex `Lines` draw from p1 to p2 in the given colour. |
| CanvasOgl.CanvasOGL.DrawPolygon | src/kre/CanvasOGL.cpp:369-384 | Logs one polygon over exactly the \|varray\| given points, with line width 1. |
| CanvasOgl.CanvasOGL.DrawSolidCircleInt | src/kre/CanvasOGL.cpp:386-389 | The same draw as DrawSolidCircle, at the integer centre converted to floating point. |
| CanvasOgl.CanvasOGL.DrawSolidCircleColoursInt | src/kre/CanvasOGL.cpp:391-394 | The same draw as DrawSolidCircleColours, at the integer centre converted to floating point. |
| CanvasOgl.CanvasOGL.DrawHollowCircleInt | src/kre/CanvasOGL.cpp:396-399 | The same draw as DrawHollowCircle, at the integer centre converted to floating point. |
| CanvasOgl.CanvasOGL.DrawSolidCircle | src/kre/CanvasOGL.cpp:401-418 | Logs one `Points` draw of the single vertex at the centre, with the circle program, outer radius = radius and inner radius = 0. |
| CanvasOgl.CanvasOGL.DrawSolidCircleColours | src/kre/CanvasOGL.cpp:420-445 | Logs a triangle fan whose vertex stream is FanVertices for the number of colours and whose colour stream is the colours. The MVP is translated to the centre. The vertex count is 1, as written. |
| CanvasOgl.CanvasOGL.DrawHollowCircle | src/kre/CanvasOGL.cpp:447-464 | Logs one `Points` draw of the single vertex at the centre, with outer radius = radius and inner radius = radius - 1. |
| CanvasOgl.CanvasOGL.DrawPoints | src/kre/CanvasOGL.cpp:466-483 | Logs one `Points` draw of exactly the \|varray\| given points, with the radius as the point size and line width 1. |
| CanvasGeometry.StripQuad | src/kre/CanvasOGL.cpp:134-139 | The fill strip has exactly four vertices. |
| CanvasGeometry.StripQuadCorners | src/kre/CanvasOGL.cpp:134-139 | Strip vertex i lies on the left edge exactly when i is even, and on the top edge exactly when i < 2. This gives the order (x1,y1), (x2,y1), (x1,y2), (x2,y2). |
| CanvasGeometry.OutlineLoop | src/kre/CanvasOGL.cpp:156-162 | The outline has exactly five points. |
| CanvasGeometry.OutlineIsClosedAndAxisAligned | src/kre/CanvasOGL.cpp:156-162 | The outline's first and last points are equal, and each of its four edges is horizontal or vertical. |
| CanvasGeometry.OutlineVisitsFillCorners | src/kre/CanvasOGL.cpp:134-162 | The outline's first four points are the fill strip's corners, each exactly once (same multiset), with the last two swapped. |
| KreTypes.Mul | src/kre/CanvasOGL.cpp:87 | Colour product; white is its identity on either side. |
| CanvasGeometry.RectStrip | src/kre/CanvasOGL.cpp:134-140 | The fill strip of a rect has four vertices, from its top-left corner (x, y) to its bottom-right corner (x2, y2). |
| CanvasGeometry.RectOutline | src/kre/CanvasOGL.cpp:156-162 | The outline of a rect has five points, starts and ends at (x, y) and passes the opposite corner (x2, y2) third. |
| CanvasGeometry.Centre | src/kre/CanvasOGL.cpp:142 | The rect's centre (mid_x, mid_y) is as far from the left edge as from the right, and from the top edge as from the bottom. |
| KreTypes.ToVec2 | src/kre/CanvasOGL.cpp:386-389 | Converting integer coordinates to floating point loses nothing: each coordinate's floor gives the integer back. |
| KreTypes.Neg | src/kre/CanvasOGL.cpp:267-268 | The direction (-dy, dx) of d2 is the negation of d1's (dy, -dx): the two sum to zero. |
| CanvasGeometry.AboutCentre | src/kre/CanvasOGL.cpp:80 | translate(c)·rotate·translate(−c) is a motion of the plane (no projection inside). |
| CanvasGeometry.AboutCentreFixesCentre | src/kre/CanvasOGL.cpp:80 | Applied to the centre c, the rotation about c gives back c, for any angle and any cos and sin. |
| CanvasGeometry.RectRotation | src/kre/CanvasOGL.cpp:142 | The model matrix of the rect draws is a motion of the plane. |
| CanvasGeometry.RectRotationFixesCentre | src/kre/CanvasOGL.cpp:142 | The rect draws rotate about the rect's centre (mid_x, mid_y): that point stays in place. |
| CanvasGeometry.Tint | src/kre/CanvasOGL.cpp:86-90 | The colour uniform is color·ambient. When the colour is white it is exactly the ambient colour. |
| CanvasGeometry.SourceUVs | src/kre/CanvasOGL.cpp:58-67 | Four texture coordinates forming an axis-aligned rectangle: vertices 0 and 2 share the left edge, 1 and 3 the right, 0 and 1 the top, 2 and 3 the bottom. |
| CanvasGeometry.SourceUVsFollowCorners | src/kre/CanvasOGL.cpp:58-78 | Texture coordinate i and destination vertex i come from the same corner. The right or bottom source edge falls back to the texture's width or height exactly when the source width or height is zero. |
| CanvasGeometry.ZeroSizedSourceCoversTexture | src/kre/CanvasOGL.cpp:58-61 | With the usual normalisation, a zero-sized source rect at the origin maps to the whole texture, from (0,0) to (1,1). |
| CanvasGeometry.ZeroWidthRightEdge | src/kre/CanvasOGL.cpp:60 | With the usual normalisation, any source rect of zero width has its right edge (vertices 1 and 3) at 1.0. |
| CanvasGeometry.ZeroHeightBottomEdge | src/kre/CanvasOGL.cpp:61 | With the usual normalisation, any source rect of zero height has its bottom edge (vertices 2 and 3) at 1.0. |
| CanvasGeometry.Perp | src/kre/CanvasOGL.cpp:265-267 | (dy, -dx) is orthogonal to the segment. |
| CanvasGeometry.SegmentVertices | src/kre/CanvasOGL.cpp:264-279 | The expansion has twice as many vertices as the input. |
| CanvasGeometry.SegmentNormals | src/kre/CanvasOGL.cpp:264-279 | There is one normal per expanded vertex. |
| CanvasGeometry.SegmentExpansionAt | src/kre/CanvasOGL.cpp:264-279 | Input pair k, taken as (2k, 2k+1), occupies vertices 4k..4k+3 as a, a, b, b. Its normals are d1, d2, d1, d2, where d2 normalises the negation of d1's direction. |
| CanvasGeometry.SegmentsExtend | src/kre/CanvasOGL.cpp:264-279 | Processing one more pair appends exactly its four vertices and four normals. |
| CanvasGeometry.ExpandLines | src/kre/CanvasOGL.cpp:258-279 | The loop over the disjoint pairs produces exactly SegmentVertices and SegmentNormals. |
| CanvasGeometry.FanStep | src/kre/CanvasOGL.cpp:432 | The angular step is positive, and for n colours it is 4/n of a turn, i.e. 8π/n. |
| CanvasGeometry.SampleCount | src/kre/CanvasOGL.cpp:432 | At least one sample; for n > 0 colours it is ceil(n/4): 4(c−1) < n ≤ 4c. |
| CanvasGeometry.Sample | src/kre/CanvasOGL.cpp:433 | The point (radius·cos, radius·sin) lies on the circle of that radius whenever cos² + sin² = 1. |
| CanvasGeometry.Samples | src/kre/CanvasOGL.cpp:432-434 | The perimeter has one sample per step taken. |
| CanvasGeometry.SampleAt | src/kre/CanvasOGL.cpp:432-434 | Sample i lies at i steps round the circle. |
| CanvasGeometry.AngleBelowFullTurn | src/kre/CanvasOGL.cpp:432 | The loop guard `angle < 2π` holds after k steps exactly when k < SampleCount(n), in exact arithmetic. |
| CanvasGeometry.FanVertices | src/kre/CanvasOGL.cpp:429-435 | The fan has SampleCount + 2 vertices, starts at (0,0) and ends with a copy of its second vertex. |
| CanvasGeometry.BuildFan | src/kre/CanvasOGL.cpp:429-435 | The loop yields exactly FanVertices: the centre, the samples, then a repeat of the first sample. |
| CanvasGeometry.FanShape | src/kre/CanvasOGL.cpp:429-435 | The fan starts at (0,0), has SampleCount + 2 vertices, and ends with a copy of its second vertex. Vertex i+1 is sample i. |
| CanvasGeometry.EightColourFan | src/kre/CanvasOGL.cpp:429-435 | With eight colours the fan is the centre, the samples at 0 and ½ turn, and the closing copy. |
| CanvasGeometry.TrianglesDrawn | src/kre/CanvasOGL.cpp:441 | A strip or fan of 3 or more vertices yields triangles, fewer than its vertex count; any other draw yields none. |
| CanvasGeometry.FanDrawnWithCountOneIsEmpty | src/kre/CanvasOGL.cpp:441 | The built fan would yield SampleCount(n) ≥ 1 triangles, but drawn with count 1 it yields fewer (none). |
| CanvasGeometry.ScaleStrict | src/kre/CanvasOGL.cpp:432 | Multiplying by a positive step preserves strict order. This is a helper for the loop guard. |
| CanvasGeometry.ScaledBelowOne | src/kre/CanvasOGL.cpp:432 | k steps of 4/n turns stay below a full turn exactly when 4k < n. |
| CanvasGeometry.VertexPositions | src/kre/CanvasOGL.cpp:122 | There is one position per vertex/texcoord entry. |
| CanvasGeometry.VertexTexcoords | src/kre/CanvasOGL.cpp:124 | There is one texture coordinate per vertex/texcoord entry. |
| CanvasGeometry.StreamsRecombine | src/kre/CanvasOGL.cpp:122-126 | Zipping the position and texcoord streams rebuilds the list, so each drawn vertex gets exactly its own entry's data. |
| CanvasGeometry.AsWrittenStream | src/kre/CanvasOGL.cpp:122-124 | As written, each attribute reads the first \|vtc\| two-float vectors of the interleaved array. |
| CanvasGeometry.Interleaved | src/kre/CanvasOGL.cpp:122-124 | The list read as consecutive two-float vectors has two per entry. |
| CanvasGeometry.InterleavedAt | src/kre/CanvasOGL.cpp:122-124 | In the interleaved array, entry k's position is at 2k and its texcoord at 2k+1. |
| CanvasGeometry.AsWrittenStreamsMisread | src/kre/CanvasOGL.cpp:122-124 | For a two-entry list, the stream read as written equals neither the positions nor the texcoords. |
| CanvasGeometry.AsWrittenTexcoordsHoldPositions | src/kre/CanvasOGL.cpp:124 | As written, the texcoord read for vertex 2k is entry k's position. |

## Left out

- Real OpenGL is not modelled. Attribute enabling, pointers, uniform uploads and `glDrawArrays` are operations on the abstract device state.
- Rasterisation is not modelled. Only the count of triangles a strip or fan yields appears, in `TrianglesDrawn`.
- glm matrix arithmetic (`ortho`, `translate`, `rotate`, products) is kept as the symbolic `Transform` that built each matrix. Matrix equalities are therefore not modelled.
- `glm::normalize` is kept symbolic as `UnitOf(v)`: square roots in floating point are not modelled.
- `cos` and `sin` are parameters in turns, with no properties assumed: they are C library numerics.
- Floating-point arithmetic is modelled as exact reals. `float` and `double` rounding are not modelled.
- The fan's sample count is the exact-arithmetic count: ceil(n/4) samples for n > 0 colours, and 1 for n = 0, where the step 8π/0 is +∞. Accumulating the angle in `double` may add or drop a sample near the full turn.
- Texture normalisation (`getNormalisedTextureCoordW/H`) is an opaque function per texture: the texture implementation is not part of this model.
- `Texture::bind` appears only as the device's bound texture.
- Shader lookup is not modelled: `ShaderProgram::factory`, `defaultSystemShader`, and the attribute and uniform lookups belong to the shader implementation, which is not part of this model. Each program appears as a `Shader` record of optional attribute locations, fixed when the canvas is built.
- The function-local `static` shader handles and uniform iterators are not modelled.
- The singleton `get_instance`/`getInstance` is global initialisation plumbing and is not modelled.
- `operator<<` for `glm::vec2` is stream output and is not modelled.
- The destructor is empty and is not modelled.
- `width()`, `height()`, `getModelMatrix()` and `getColor()` belong to the base class `Canvas`, which is not part of this model. They are fields, and `SetDimensions` stands for the base class's dimension change.
- `Color`'s `operator*` is assumed to be component-wise (`Mul`), and `asFloatVector` is the colour itself. Color.hpp is not part of this model.
- The `vertex_texcoord` layout is assumed to be position then texture coordinate, two floats each, unpadded. Its header is not part of this model.
- Every draw dereferences `getVertexAttribute()->second` (and the texcoord or colour attribute where it uses one) without checking it. That is undefined behaviour when the shader lacks the attribute. The model makes the attribute's presence a precondition of each such draw. Only antialiased `drawLines` checks, and its missing-attribute path is modelled.
- The initial model matrix (identity) and ambient colour (white) of a new canvas are assumed defaults of the base class `Canvas`, which is not part of this model.
- CanvasOgl.CanvasOGL.BlitTextureVertices: the device log holds the corrected streams (each vertex gets its own entry's position and texcoord), not the streams the source's pointers produce. What the source submits is modelled at stream level by `AsWrittenStream`; see Findings.
- CanvasOgl.CanvasOGL.DrawSolidCircle: the source points the vertex attribute at a temporary `glm::vec2` that is destroyed when that statement ends, and `glDrawArrays` reads it afterwards from client memory, which is undefined behaviour. The model submits the centre the code means.
- CanvasOgl.CanvasOGL.DrawHollowCircle: the source points the vertex attribute at a temporary `glm::vec2` that is destroyed when that statement ends, and `glDrawArrays` reads it afterwards from client memory, which is undefined behaviour. The model submits the centre the code means.
- KreTypes.Rect: `x2()` and `y2()` are assumed to be `x + w` and `y + h`, with negative extents kept as given rather than normalised. The header that defines `rect` is not part of this model.
- `&v[0]` on an empty vector is undefined behaviour in C++. The model treats it as a draw over an empty stream.
- CanvasOgl.CanvasOGL.DrawLines: an odd-length input runs past the end of the array in the source once the loop is reached. The model makes even length a precondition when both the normal and the vertex attribute are present; on the early-return path any length is accepted, as in the source.
- CanvasOgl.CanvasOGL.DrawLinesColoured: the size check is a fatal assertion in the source. The model makes equal sizes a precondition.
- CanvasOgl.CanvasOGL.DrawLineInt: the source repeats the body of the floating-point overload with converted coordinates. The model forwards to DrawLine, which gives the same device state.
- CanvasOgl.CanvasOGL.DrawSolidCircleColours: the fan is drawn with count 1, as written. `FanDrawnWithCountOneIsEmpty` shows that such a draw rasterises nothing. This is reproduced rather than corrected, because the intended count cannot be read off the code.
- src/ffl_dom.hpp is a class declaration with no logic and is not modelled.

## Findings

| source | as written | input that shows it | evidently intended | confidence | as-written member | corrected member |
|---|---|---|---|---|---|---|
| src/kre/CanvasOGL.cpp:122-124 | `blitTexture(tex, vtc, …)` passes `offsetof(vertex_texcoord, vtx)` and `offsetof(vertex_texcoord, tc)` as the stride, and `&vtc[0]` as both pointers. Both attributes therefore read the interleaved array as tightly packed two-float vectors from its start. | vtc = [((0,0),(1,1)), ((2,2),(3,3))]: both streams read (0,0), (1,1). The texcoord of vertex 0 is a position, and vertex 1's position is entry 0's texcoord. | stride `sizeof(vertex_texcoord)`, with the pointers at the `vtx` and `tc` members of `vtc[0]`, so vertex i reads entry i's position and texcoord | medium (assumes the position-then-texcoord layout); not executed | CanvasGeometry.AsWrittenStream, CanvasGeometry.AsWrittenStreamsMisread | CanvasGeometry.StreamsRecombine, CanvasOgl.CanvasOGL.BlitTextureVertices |
