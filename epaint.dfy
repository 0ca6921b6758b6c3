/** Abstract model of the painting primitives the editor hands to its
    renderer: colours, strokes, triangle meshes and the three shape kinds it
    draws. Only the fields the editor sets are modelled. */
module Epaint {
  import opened Ints
  import opened Emath

  /** An RGBA colour (`Color32`). */
  datatype Color32 = Color32(r: u8, g: u8, b: u8, a: u8)

  /** `Color32::from_rgb`: the colour, fully opaque. */
  function FromRgb(r: u8, g: u8, b: u8): Color32 {
    Color32(r, g, b, 255)
  }

  const Black: Color32 := FromRgb(0, 0, 0)
  const Transparent: Color32 := Color32(0, 0, 0, 0)

  /** An outline of a given width and colour (`Stroke`). */
  datatype Stroke = Stroke(width: real, color: Color32)

  /** `Stroke::NONE`: no outline at all. */
  const NoStroke: Stroke := Stroke(0.0, Transparent)

  /** A mesh vertex with its colour (`colored_vertex` sets only these two). */
  datatype Vertex = Vertex(pos: Vec2, color: Color32)

  /** The value of a triangle mesh: index triples into the vertex list. */
  datatype MeshData = MeshData(indices: seq<nat>, vertices: seq<Vertex>)

  /** A drawing primitive (`egui::Shape`): a circle, an axis-aligned
      rectangle (both with no rounding), or a mesh. */
  datatype Primitive =
    | CircleShape(center: Vec2, radius: real, fill: Color32, stroke: Stroke)
    | RectShape(rect: Rect, fill: Color32, stroke: Stroke)
    | MeshShape(mesh: MeshData)

  /** `CircleShape::filled`. */
  function CircleFilled(center: Vec2, radius: real, fill: Color32): Primitive {
    CircleShape(center, radius, fill, NoStroke)
  }

  /** `RectShape::filled`. */
  function RectFilled(rect: Rect, fill: Color32): Primitive {
    RectShape(rect, fill, NoStroke)
  }

  /** `RectShape::stroke`: an outline with a transparent inside. */
  function RectStroke(rect: Rect, stroke: Stroke): Primitive {
    RectShape(rect, Transparent, stroke)
  }

  /** The mutable mesh the triangle branch builds step by step (`Mesh`). */
  class Mesh {
    var indices: seq<nat>
    var vertices: seq<Vertex>

    /** `Mesh::default()`: no indices, no vertices. */
    constructor ()
      ensures indices == [] && vertices == []
    {
      indices := [];
      vertices := [];
    }

    /** `Mesh::colored_vertex`: appends one vertex and leaves the indices. */
    method ColoredVertex(pos: Vec2, color: Color32)
      modifies this
      ensures vertices == old(vertices) + [Vertex(pos, color)]
      ensures indices == old(indices)
    {
      vertices := vertices + [Vertex(pos, color)];
    }

    /** The mesh's current value. */
    function Value(): MeshData
      reads this
    {
      MeshData(indices, vertices)
    }
  }
}
