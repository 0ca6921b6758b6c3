/** Abstract model of the vector, rectangle and rectangle-to-rectangle
    transform types the editor draws with. Coordinates are `real`, an
    idealisation of 32-bit floats. */
module Emath {

  /** A point or a displacement (`Pos2` and `Vec2` alike). */
  datatype Vec2 = Vec2(x: real, y: real)

  function Add(a: Vec2, b: Vec2): Vec2 {
    Vec2(a.x + b.x, a.y + b.y)
  }

  /** The point halfway between `a` and `b`. */
  function Midpoint(a: Vec2, b: Vec2): Vec2 {
    Vec2((a.x + b.x) / 2.0, (a.y + b.y) / 2.0)
  }

  /** `Vec2::max_elem`: the larger component. */
  function MaxElem(v: Vec2): (m: real)
    ensures m >= v.x && m >= v.y
    ensures m == v.x || m == v.y
  {
    if v.x >= v.y then v.x else v.y
  }

  /** An axis-aligned rectangle given by two corners (`Rect::from_min_max`). */
  datatype Rect = Rect(min: Vec2, max: Vec2)

  function Width(r: Rect): real { r.max.x - r.min.x }
  function Height(r: Rect): real { r.max.y - r.min.y }

  /** The affine map p |-> origin + p * scale, taken componentwise. This is
      what a `RectTransform` does to a point. */
  datatype Transform = Transform(origin: Vec2, scale: Vec2)

  predicate PositiveScale(t: Transform) {
    t.scale.x > 0.0 && t.scale.y > 0.0
  }

  /** `transform * p`. */
  function Apply(t: Transform, p: Vec2): Vec2 {
    Vec2(t.origin.x + p.x * t.scale.x, t.origin.y + p.y * t.scale.y)
  }

  /** The inverse map, from drawing space back to grid space. */
  function Unapply(t: Transform, q: Vec2): (p: Vec2)
    requires PositiveScale(t)
    ensures Apply(t, p) == q
  {
    Vec2((q.x - t.origin.x) / t.scale.x, (q.y - t.origin.y) / t.scale.y)
  }

  /** Mapping a point and mapping it back gives the point. */
  lemma UnapplyApply(t: Transform, p: Vec2)
    requires PositiveScale(t)
    ensures Unapply(t, Apply(t, p)) == p
  {
  }

  /** One axis of the transform keeps midpoints. */
  lemma AxisMidpoint(o: real, k: real, a: real, b: real)
    ensures o + ((a + b) / 2.0) * k == ((o + a * k) + (o + b * k)) / 2.0
  {
    assert (a + b) * k == a * k + b * k;
    assert ((a + b) / 2.0) * k == ((a + b) * k) / 2.0;
  }

  /** The transform keeps midpoints: it is affine. */
  lemma ApplyMidpoint(t: Transform, a: Vec2, b: Vec2)
    ensures Apply(t, Midpoint(a, b)) == Midpoint(Apply(t, a), Apply(t, b))
  {
    var m, pa, pb := Midpoint(a, b), Apply(t, a), Apply(t, b);
    AxisMidpoint(t.origin.x, t.scale.x, a.x, b.x);
    AxisMidpoint(t.origin.y, t.scale.y, a.y, b.y);
    assert Apply(t, m).x == Midpoint(pa, pb).x;
    assert Apply(t, m).y == Midpoint(pa, pb).y;
  }

  /** Multiplying by a positive factor keeps the sign. */
  lemma ScaledSign(d: real, k: real)
    requires k > 0.0
    ensures d >= 0.0 <==> d * k >= 0.0
  {
    if d < 0.0 {
      assert (-d) * k > 0.0;
      assert d * k == -((-d) * k);
    }
  }

  /** One axis of the transform keeps order when its scale is positive. */
  lemma AxisMonotone(o: real, k: real, a: real, b: real)
    requires k > 0.0
    ensures a <= b <==> o + a * k <= o + b * k
  {
    ScaledSign(b - a, k);
    assert (b - a) * k == b * k - a * k;
  }

  /** With a positive scale the transform keeps the componentwise order. */
  lemma ApplyMonotone(t: Transform, a: Vec2, b: Vec2)
    requires PositiveScale(t)
    ensures a.x <= b.x <==> Apply(t, a).x <= Apply(t, b).x
    ensures a.y <= b.y <==> Apply(t, a).y <= Apply(t, b).y
  {
    var pa, pb := Apply(t, a), Apply(t, b);
    AxisMonotone(t.origin.x, t.scale.x, a.x, b.x);
    AxisMonotone(t.origin.y, t.scale.y, a.y, b.y);
    assert pa.x == t.origin.x + a.x * t.scale.x && pb.x == t.origin.x + b.x * t.scale.x;
    assert pa.y == t.origin.y + a.y * t.scale.y && pb.y == t.origin.y + b.y * t.scale.y;
  }

  /** `RectTransform::from_to(from, to)`: the transform that maps `from`
      onto `to`, with scale `to.size() / from.size()`. */
  function FromTo(from: Rect, to: Rect): (t: Transform)
    requires Width(from) != 0.0 && Height(from) != 0.0
    ensures Apply(t, from.min) == to.min
    ensures Apply(t, from.max) == to.max
    ensures t.scale == Vec2(Width(to) / Width(from), Height(to) / Height(from))
  {
    var scale := Vec2(Width(to) / Width(from), Height(to) / Height(from));
    var t := Transform(Vec2(to.min.x - from.min.x * scale.x, to.min.y - from.min.y * scale.y), scale);
    assert Width(from) * scale.x == Width(to);
    assert Height(from) * scale.y == Height(to);
    t
  }
}
