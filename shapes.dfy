/** A shape placed on the 15 x 15 grid and the mapping that turns it into one
    drawing primitive (shape.rs). */
module Shapes {
  import opened Ints
  import opened Emath
  import opened Epaint

  datatype ShapeType = Circle | Square | Triangle

  /** A shape: grid position, size (0 is the smallest footprint), kind and
      index into the 16-entry palette. */
  datatype Shape = Shape(pos: Vec2, size: real, ty: ShapeType, color: nat)

  /** One palette entry: red, green and blue bytes (`[u8; 3]`). */
  type Rgb = s: seq<u8> | |s| == 3 witness [0, 0, 0]

  /** The 16-entry palette `as_egui_shape` colours from (`[[u8; 3]; 16]`). */
  type Palette = s: seq<Rgb> | |s| == 16 witness seq<Rgb>(16, _ => BlackRgb)

  const BlackRgb: Rgb := [0, 0, 0]

  /** The opaque colour of palette entry `index`. */
  function PaletteColor(colors: Palette, index: nat): Color32
    requires index < 16
  {
    FromRgb(colors[index][0], colors[index][1], colors[index][2])
  }

  /** Every visible part of `p` has colour `c`: the fill of a circle or
      rectangle with no outline, or every vertex of a mesh. */
  predicate FilledWith(p: Primitive, c: Color32) {
    match p
    case CircleShape(_, _, fill, stroke) => fill == c && stroke == NoStroke
    case RectShape(_, fill, stroke) => fill == c && stroke == NoStroke
    case MeshShape(m) => forall v :: v in m.vertices ==> v.color == c
  }

  // Grid-space corner points of the three kinds.

  function CircleCentre(s: Shape): Vec2 {
    Add(Vec2(0.5, 0.5), s.pos)
  }

  function SquareMin(s: Shape): Vec2 {
    Vec2(s.pos.x - s.size, s.pos.y - s.size)
  }

  function SquareMax(s: Shape): Vec2 {
    Vec2(s.pos.x + s.size + 1.0, s.pos.y + s.size + 1.0)
  }

  function TriangleLeft(s: Shape): Vec2 {
    Vec2(s.pos.x - s.size, s.pos.y + 1.0 + s.size)
  }

  function TriangleRight(s: Shape): Vec2 {
    Vec2(s.pos.x + 1.0 + s.size, s.pos.y + 1.0 + s.size)
  }

  function TriangleApex(s: Shape): Vec2 {
    Vec2(s.pos.x + 0.5, s.pos.y - s.size)
  }

  /** The triangle's mesh: left base, right base, apex, one triangle. */
  function TriangleMesh(s: Shape, transform: Transform, color: Color32): MeshData {
    MeshData([0, 1, 2],
             [Vertex(Apply(transform, TriangleLeft(s)), color),
              Vertex(Apply(transform, TriangleRight(s)), color),
              Vertex(Apply(transform, TriangleApex(s)), color)])
  }

  /** `Shape::as_egui_shape`: exactly one primitive of the shape's own kind,
      coloured entirely with the palette entry. Indexing the palette panics
      unless the colour index is below 16. */
  function AsEguiShape(s: Shape, transform: Transform, colors: Palette): (r: Primitive)
    requires s.color < 16
    ensures r.CircleShape? <==> s.ty == Circle
    ensures r.RectShape? <==> s.ty == Square
    ensures r.MeshShape? <==> s.ty == Triangle
    ensures FilledWith(r, FromRgb(colors[s.color][0], colors[s.color][1], colors[s.color][2]))
    ensures r.MeshShape? ==> |r.mesh.vertices| == 3 && r.mesh.indices == [0, 1, 2]
  {
    var color := PaletteColor(colors, s.color);
    match s.ty
    case Circle =>
      CircleFilled(Apply(transform, CircleCentre(s)), MaxElem(transform.scale) * (s.size + 0.5), color)
    case Square =>
      RectFilled(Rect(Apply(transform, SquareMin(s)), Apply(transform, SquareMax(s))), color)
    case Triangle =>
      MeshShape(TriangleMesh(s, transform, color))
  }

  /** The triangle branch as `Shape::as_egui_shape` builds it: three
      `colored_vertex` pushes onto a fresh mesh, then the index list. */
  method BuildTriangleMesh(s: Shape, transform: Transform, color: Color32) returns (m: MeshData)
    ensures m == TriangleMesh(s, transform, color)
  {
    var mesh := new Mesh();
    mesh.ColoredVertex(Apply(transform, TriangleLeft(s)), color);
    mesh.ColoredVertex(Apply(transform, TriangleRight(s)), color);
    mesh.ColoredVertex(Apply(transform, TriangleApex(s)), color);
    mesh.indices := [0, 1, 2];
    m := mesh.Value();
  }

  /** A circle is centred on `pos + (0.5, 0.5)` in grid space; its radius is
      the larger scale times `size + 0.5`, not negative when `size >= -0.5`. */
  lemma CircleGeometry(s: Shape, transform: Transform, colors: Palette)
    requires s.ty == Circle && s.color < 16 && PositiveScale(transform)
    ensures Unapply(transform, AsEguiShape(s, transform, colors).center) == Vec2(s.pos.x + 0.5, s.pos.y + 0.5)
    ensures AsEguiShape(s, transform, colors).radius == MaxElem(transform.scale) * (s.size + 0.5)
    ensures s.size >= -0.5 ==> AsEguiShape(s, transform, colors).radius >= 0.0
  {
    UnapplyApply(transform, CircleCentre(s));
    if s.size >= -0.5 {
      assert MaxElem(transform.scale) > 0.0;
    }
  }

  /** A square spans `[pos - size, pos + size + 1]` on both axes in grid space,
      a side of `2 * size + 1`; with `size >= -0.5` its min corner is below
      its max corner on both axes on screen too. */
  lemma SquareGeometry(s: Shape, transform: Transform, colors: Palette)
    requires s.ty == Square && s.color < 16 && PositiveScale(transform)
    ensures Unapply(transform, AsEguiShape(s, transform, colors).rect.min) == Vec2(s.pos.x - s.size, s.pos.y - s.size)
    ensures Unapply(transform, AsEguiShape(s, transform, colors).rect.max) == Vec2(s.pos.x + s.size + 1.0, s.pos.y + s.size + 1.0)
    ensures s.size >= -0.5 ==>
      var rect := AsEguiShape(s, transform, colors).rect;
      rect.min.x <= rect.max.x && rect.min.y <= rect.max.y
  {
    UnapplyApply(transform, SquareMin(s));
    UnapplyApply(transform, SquareMax(s));
    ApplyMonotone(transform, SquareMin(s), SquareMax(s));
  }

  /** A circle and a square at the same place and size share their centre,
      and the circle's grid radius is half the square's side. With equal
      scales on both axes the circle is inscribed in the square on screen. */
  lemma CircleInscribedInSquare(pos: Vec2, size: real, color: nat, transform: Transform, colors: Palette)
    requires color < 16
    ensures var sq := Shape(pos, size, Square, color);
      CircleCentre(Shape(pos, size, Circle, color)) == Midpoint(SquareMin(sq), SquareMax(sq))
    ensures size + 0.5 == (SquareMax(Shape(pos, size, Square, color)).x - SquareMin(Shape(pos, size, Square, color)).x) / 2.0
    ensures transform.scale.x == transform.scale.y ==>
      var c := AsEguiShape(Shape(pos, size, Circle, color), transform, colors);
      var r := AsEguiShape(Shape(pos, size, Square, color), transform, colors).rect;
      c.center == Midpoint(r.min, r.max) && c.radius == Width(r) / 2.0 && c.radius == Height(r) / 2.0
  {
    var sq := Shape(pos, size, Square, color);
    ApplyMidpoint(transform, SquareMin(sq), SquareMax(sq));
    if transform.scale.x == transform.scale.y {
      var k := transform.scale.x;
      assert MaxElem(transform.scale) == k;
      assert Width(Rect(Apply(transform, SquareMin(sq)), Apply(transform, SquareMax(sq)))) == (2.0 * size + 1.0) * k;
      assert Height(Rect(Apply(transform, SquareMin(sq)), Apply(transform, SquareMax(sq)))) == (2.0 * size + 1.0) * k;
    }
  }

  /** The triangle's base vertices share the row `pos.y + 1 + size`; its apex
      is at `(pos.x + 0.5, pos.y - size)`, halfway along the base; both facts
      survive the transform, and with `size > -0.5` the apex lies above the
      base on screen. */
  lemma TriangleGeometry(s: Shape, transform: Transform, colors: Palette)
    requires s.ty == Triangle && s.color < 16 && PositiveScale(transform)
    ensures var v := AsEguiShape(s, transform, colors).mesh.vertices;
      && Unapply(transform, v[0].pos) == Vec2(s.pos.x - s.size, s.pos.y + 1.0 + s.size)
      && Unapply(transform, v[1].pos) == Vec2(s.pos.x + 1.0 + s.size, s.pos.y + 1.0 + s.size)
      && Unapply(transform, v[2].pos) == Vec2(s.pos.x + 0.5, s.pos.y - s.size)
      && v[0].pos.y == v[1].pos.y
      && v[2].pos.x == (v[0].pos.x + v[1].pos.x) / 2.0
      && (s.size > -0.5 ==> v[2].pos.y < v[0].pos.y && v[0].pos.x < v[1].pos.x)
  {
    var a, b, c := TriangleLeft(s), TriangleRight(s), TriangleApex(s);
    UnapplyApply(transform, a);
    UnapplyApply(transform, b);
    UnapplyApply(transform, c);
    assert Midpoint(a, b).x == c.x;
    ApplyMidpoint(transform, a, b);
    if s.size > -0.5 {
      assert c.y < a.y && a.x < b.x;
      ApplyMonotone(transform, c, a);
      ApplyMonotone(transform, a, b);
    }
  }

  /** `Shape::default()`: a circle of the smallest size at `(7, 7)` with
      palette colour 0. */
  function DefaultShape(): Shape {
    Shape(Vec2(7.0, 7.0), 0.0, Circle, 0)
  }

  /** The default shape can be drawn with any palette and is a one-cell
      circle centred on the middle of the 15 x 15 grid. */
  lemma DefaultShapeCentred(transform: Transform, colors: Palette)
    requires PositiveScale(transform)
    ensures DefaultShape().color < 16
    ensures var c := AsEguiShape(DefaultShape(), transform, colors);
      c.CircleShape? && Unapply(transform, c.center) == Vec2(15.0 / 2.0, 15.0 / 2.0)
      && c.radius == MaxElem(transform.scale) / 2.0
  {
    CircleGeometry(DefaultShape(), transform, colors);
  }
}
