/** Value types the OpenGL canvas works with, and the records that stand for
    the graphics device's state: shaders with optional attribute locations,
    uniform values, attribute streams and the draw calls it receives. */
module KreTypes {

  datatype Option<T> = None | Some(value: T)

  newtype byte = x: int | 0 <= x < 256

  /** glm::vec2: a point or direction with floating-point coordinates. */
  datatype Vec2 = Vec2(x: real, y: real)

  function Neg(v: Vec2): (n: Vec2)
    ensures n.x + v.x == 0.0 && n.y + v.y == 0.0
  {
    Vec2(-v.x, -v.y)
  }

  /** point: integer coordinates. */
  datatype Point = Point(x: int, y: int)

  /** The conversion `pointf(static_cast<float>(p.x), static_cast<float>(p.y))`. */
  function ToVec2(p: Point): (v: Vec2)
    ensures v.x.Floor == p.x && v.y.Floor == p.y
  {
    Vec2(p.x as real, p.y as real)
  }

  /** rect: top-left corner and extent, integer coordinates. A zero width or
      height is a valid "whole extent" sentinel for texture source rects. */
  datatype Rect = Rect(x: int, y: int, w: int, h: int) {
    function X2(): int { x + w }
    function Y2(): int { y + h }
  }

  /** Color: four normalised components. */
  datatype Color = Color(r: real, g: real, b: real, a: real)

  /** Color::colorWhite(), the neutral tint. */
  const WHITE := Color(1.0, 1.0, 1.0, 1.0)

  /** Component-wise product, Color's operator*. White is its identity on
      either side. */
  function Mul(c: Color, d: Color): (m: Color)
    ensures c == WHITE ==> m == d
    ensures d == WHITE ==> m == c
  {
    Color(c.r * d.r, c.g * d.g, c.b * d.b, c.a * d.a)
  }

  /** glm::u8vec4: one per-vertex colour. */
  datatype Rgba8 = Rgba8(r: byte, g: byte, b: byte, a: byte)

  /** vertex_texcoord: a position followed by its texture coordinate. */
  datatype VertexTexcoord = VertexTexcoord(vtx: Vec2, tc: Vec2)

  /** The unit vector glm::normalize computes from `v`, kept symbolic:
      floating-point square roots are not modelled. */
  datatype Dir = UnitOf(v: Vec2)

  /** glm::mat4 values, kept as the expression that built them:
      `Compose(a, b)` is the matrix product a * b. */
  datatype Transform =
    | Identity
    | Ortho(left: real, right: real, bottom: real, top: real)
    | Translate(dx: real, dy: real)
    | RotateZ(radians: real)
    | Compose(lhs: Transform, rhs: Transform)

  /** Built from translations and rotations about z only: a motion of the plane. */
  predicate Planar(t: Transform) {
    match t
    case Identity => true
    case Ortho(_, _, _, _) => false
    case Translate(_, _) => true
    case RotateZ(_) => true
    case Compose(a, b) => Planar(a) && Planar(b)
  }

  /** Where a planar transform takes the point p, given cos and sin in
      radians: `Compose(a, b)` applies b first, as the product a * b does. */
  function Apply(t: Transform, p: Vec2, cosR: real -> real, sinR: real -> real): Vec2
    requires Planar(t)
  {
    match t
    case Identity => p
    case Translate(dx, dy) => Vec2(p.x + dx, p.y + dy)
    case RotateZ(a) => Vec2(p.x * cosR(a) - p.y * sinR(a), p.x * sinR(a) + p.y * cosR(a))
    case Compose(a, b) => Apply(a, Apply(b, p, cosR, sinR), cosR, sinR)
  }

  /** Primitive topologies passed to glDrawArrays. */
  datatype Topology = Points | Lines | LineStrip | LineLoop | TriangleStrip | TriangleFan | Polygon

  /** The shader programs the canvas uses: factory("simple"), factory("complex"),
      factory("circle") and the default system shader. */
  datatype Program = Simple | Complex | CircleProgram | SystemDefault

  /** A linked program and the locations of the vertex attributes it exposes;
      `None` is the "not present" answer of an attribute lookup. */
  datatype Shader = Shader(
    program: Program,
    vertex: Option<nat>,
    texcoord: Option<nat>,
    colour: Option<nat>,
    normal: Option<nat>)

  /** Uniforms the canvas sets. */
  datatype Uniform =
    | Mvp | Mv | P | ColourUniform | TexMap | LineWidth | Blur | OuterRadius | InnerRadius | PointSize

  datatype UniformValue = Matrix(m: Transform) | Rgba(c: Color) | Scalar(f: real) | Sampler(unit: int)

  /** What an attribute pointer designates: two-float vectors, normals, or byte colours. */
  datatype AttribData = Vec2s(vs: seq<Vec2>) | Dirs(ds: seq<Dir>) | Bytes4(cs: seq<Rgba8>)

  /** A texture handle: its pixel size and its mapping from pixel offsets to
      normalised coordinates (getNormalisedTextureCoordW/H), which belongs to
      the texture implementation and is taken as given. */
  class Texture {
    const width: int
    const height: int
    const normW: int -> real
    const normH: int -> real

    constructor (width: int, height: int, normW: int -> real, normH: int -> real)
      ensures this.width == width && this.height == height
      ensures this.normW == normW && this.normH == normH
    {
      this.width := width;
      this.height := height;
      this.normW := normW;
      this.normH := normH;
    }
  }

  /** One glDrawArrays as the device sees it: the active program, the topology,
      the vertex count, the data behind every enabled attribute location, the
      active program's uniform values, and the bound texture. */
  datatype DrawCall = DrawCall(
    program: Program,
    mode: Topology,
    count: nat,
    streams: map<nat, AttribData>,
    uniforms: map<Uniform, UniformValue>,
    texture: Texture?)
}
