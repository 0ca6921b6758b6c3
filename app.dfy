/** The editor window (main.rs): the demo document it starts with, the
    control-panel edits to the header, the export path, and the list of
    primitives it paints each frame: the document's shapes, then a 15 x 15
    overlay of cell outlines. */
module App {
  import opened Wrappers
  import opened Ints
  import opened Emath
  import opened Epaint
  import opened Shapes
  import opened Projects
  import opened Paths

  /** Cells per side of the playfield. */
  const GridCells: nat := 15

  /** Grid units per side of the square mapped onto the drawing area. */
  const GridSpan: real := 17.0

  // ---------------------------------------------------------------------
  // The demo document

  /** The shapes the editor opens with. `Main::new` gives them no colour;
      they take colour 0, as `Shape::default()` does. */
  function DemoShapes(): seq<Shape> {
    [Shape(Vec2(0.0, 0.0), 0.0, Triangle, 0),
     Shape(Vec2(4.0, 3.0), 1.0, Square, 0),
     Shape(Vec2(8.0, 7.0), 2.0, Circle, 0)]
  }

  /** `pos - size` to `pos + size + 1` lies inside the playfield on both axes.
      This grid-space box bounds every kind alike: it is the square itself,
      the box of the triangle's three vertices, and the circle's centre
      `pos + 0.5` plus or minus its grid radius `size + 0.5`. */
  predicate InsidePlayfield(s: Shape) {
    0.0 <= SquareMin(s).x && 0.0 <= SquareMin(s).y
    && SquareMax(s).x <= GridCells as real && SquareMax(s).y <= GridCells as real
  }

  predicate Drawable(shapes: seq<Shape>) {
    forall i :: 0 <= i < |shapes| ==> shapes[i].color < 16
  }

  /** The demo holds a triangle, a square and a circle, in that order, all
      drawable and all inside the playfield. */
  lemma DemoShapesValid()
    ensures |DemoShapes()| == 3
    ensures DemoShapes()[0].ty == Triangle && DemoShapes()[1].ty == Square && DemoShapes()[2].ty == Circle
    ensures Drawable(DemoShapes())
    ensures forall i :: 0 <= i < |DemoShapes()| ==> InsidePlayfield(DemoShapes()[i])
  {
  }

  // ---------------------------------------------------------------------
  // The grid-to-screen transform

  /** The transform from a zero-based square of `17 * proportions` grid units
      onto the drawing area. `proportions` is the area's aspect vector. */
  function ToScreen(screen: Rect, proportions: Vec2): (t: Transform)
    requires proportions.x > 0.0 && proportions.y > 0.0
    ensures Apply(t, Vec2(0.0, 0.0)) == screen.min
    ensures Apply(t, Vec2(GridSpan * proportions.x, GridSpan * proportions.y)) == screen.max
    ensures Width(screen) > 0.0 && Height(screen) > 0.0 ==> PositiveScale(t)
  {
    var t := FromTo(Rect(Vec2(0.0, 0.0), Vec2(GridSpan * proportions.x, GridSpan * proportions.y)), screen);
    if Width(screen) > 0.0 && Height(screen) > 0.0 then
      assert t.scale.x == Width(screen) / (GridSpan * proportions.x);
      t
    else
      t
  }

  /** When `proportions` has the drawing area's aspect, both axes get the
      same scale, so a circle's radius (larger scale) matches its square. */
  lemma ToScreenUniform(screen: Rect, proportions: Vec2)
    requires proportions.x > 0.0 && proportions.y > 0.0
    requires Width(screen) * proportions.y == Height(screen) * proportions.x
    ensures ToScreen(screen, proportions).scale.x == ToScreen(screen, proportions).scale.y
  {
    var t := ToScreen(screen, proportions);
    var w, h := Width(screen), Height(screen);
    var px, py := GridSpan * proportions.x, GridSpan * proportions.y;
    assert t.scale == Vec2(w / px, h / py);
    assert w * py == h * px;
    assert w / px == (w * py) / (px * py);
    assert h / py == (h * px) / (px * py);
  }

  // ---------------------------------------------------------------------
  // The grid overlay

  /** An overlay cell's column and row. */
  datatype Cell = Cell(x: nat, y: nat)

  /** Overlay cell `i`: column `i % 15`, row `i / 15`. */
  function GridCell(i: nat): (c: Cell)
    requires i < GridCells * GridCells
    ensures c.x < GridCells && c.y < GridCells
    ensures i == c.y * GridCells + c.x
  {
    Cell(i % GridCells, i / GridCells)
  }

  /** Every cell of the playfield is produced, at index `y * 15 + x`. */
  lemma GridCellOnto(c: Cell)
    requires c.x < GridCells && c.y < GridCells
    ensures c.y * GridCells + c.x < GridCells * GridCells
    ensures GridCell(c.y * GridCells + c.x) == c
  {
    var i := c.y * GridCells + c.x;
    var d := GridCell(i);
    assert (d.y - c.y) * GridCells == c.x - d.x;
  }

  /** Distinct indices give distinct cells. */
  lemma GridCellInjective(i: nat, j: nat)
    requires i < GridCells * GridCells && j < GridCells * GridCells
    requires GridCell(i) == GridCell(j)
    ensures i == j
  {
  }

  /** Row-major order: the column advances fastest, wrapping to the next row. */
  lemma GridCellRowMajor(i: nat)
    requires i + 1 < GridCells * GridCells
    ensures GridCell(i).x + 1 < GridCells ==> GridCell(i + 1) == Cell(GridCell(i).x + 1, GridCell(i).y)
    ensures GridCell(i).x + 1 == GridCells ==> GridCell(i + 1) == Cell(0, GridCell(i).y + 1)
  {
    var c := GridCell(i);
    if c.x + 1 < GridCells {
      GridCellOnto(Cell(c.x + 1, c.y));
    } else {
      GridCellOnto(Cell(0, c.y + 1));
    }
  }

  /** The one-pixel black outline of a cell, from `(x, y)` to `(x + 1, y + 1)`. */
  function CellOutline(transform: Transform, c: Cell): Primitive {
    RectStroke(Rect(Apply(transform, Vec2(c.x as real, c.y as real)),
                    Apply(transform, Vec2((c.x + 1) as real, (c.y + 1) as real))),
               Stroke(1.0, Black))
  }

  /** All overlay cells, in index order. */
  function GridOverlay(transform: Transform): (r: seq<Primitive>)
    ensures |r| == GridCells * GridCells
  {
    seq(GridCells * GridCells, i requires 0 <= i < GridCells * GridCells => CellOutline(transform, GridCell(i)))
  }

  /** Overlay primitive `i` is an unfilled black outline spanning grid space
      from `(i % 15, i / 15)` to one unit further on both axes. */
  lemma GridOverlayCell(transform: Transform, i: nat)
    requires PositiveScale(transform) && i < GridCells * GridCells
    ensures var p := GridOverlay(transform)[i];
      && p.RectShape? && p.fill == Transparent && p.stroke == Stroke(1.0, Black)
      && Unapply(transform, p.rect.min) == Vec2((i % GridCells) as real, (i / GridCells) as real)
      && Unapply(transform, p.rect.max) == Vec2((i % GridCells) as real + 1.0, (i / GridCells) as real + 1.0)
  {
    var c := GridCell(i);
    UnapplyApply(transform, Vec2(c.x as real, c.y as real));
    UnapplyApply(transform, Vec2((c.x + 1) as real, (c.y + 1) as real));
  }

  // ---------------------------------------------------------------------
  // What a frame paints

  /** The document's shapes mapped one by one, in list order. */
  function ShapePrimitives(shapes: seq<Shape>, transform: Transform, colors: Palette): (r: seq<Primitive>)
    requires Drawable(shapes)
    ensures |r| == |shapes|
    ensures forall i :: 0 <= i < |shapes| ==> r[i] == AsEguiShape(shapes[i], transform, colors)
  {
    if shapes == [] then []
    else [AsEguiShape(shapes[0], transform, colors)] + ShapePrimitives(shapes[1..], transform, colors)
  }

  /** Everything painted in the central panel: shapes first, then the overlay. */
  function DrawList(p: Project, transform: Transform, colors: Palette): seq<Primitive>
    requires Drawable(p.shapes)
  {
    ShapePrimitives(p.shapes, transform, colors) + GridOverlay(transform)
  }

  /** Every shape is painted, in list order, before any overlay cell; the
      overlay part does not depend on the document. */
  lemma DrawOrder(p: Project, q: Project, transform: Transform, colors: Palette)
    requires Drawable(p.shapes) && Drawable(q.shapes)
    ensures |DrawList(p, transform, colors)| == |p.shapes| + GridCells * GridCells
    ensures forall i :: 0 <= i < |p.shapes| ==>
      DrawList(p, transform, colors)[i] == AsEguiShape(p.shapes[i], transform, colors)
    ensures forall k :: 0 <= k < GridCells * GridCells ==>
      DrawList(p, transform, colors)[|p.shapes| + k] == CellOutline(transform, GridCell(k))
    ensures DrawList(p, transform, colors)[|p.shapes|..] == DrawList(q, transform, colors)[|q.shapes|..]
  {
    var n := |p.shapes|;
    assert DrawList(p, transform, colors)[n..] == GridOverlay(transform);
    assert DrawList(q, transform, colors)[|q.shapes|..] == GridOverlay(transform);
  }

  // ---------------------------------------------------------------------
  // Control-panel edits

  /** The guarded numeric edit: a non-zero widget value replaces the field, a
      zero one is refused and leaves it. */
  function NumberField(current: NonZeroU16, newValue: u16): (r: NonZeroU16)
    ensures newValue != 0 ==> r == newValue
    ensures newValue == 0 ==> r == current
  {
    match NonZeroU16New(newValue)
    case Some(v) => v
    case None => current
  }

  /** What the control panel's widgets hold at the end of a frame: whether
      "New File" was clicked, the four text fields, the BPM value, the
      manual-offset checkbox and the offset value (shown only when checked). */
  datatype PanelInput = PanelInput(
    newFile: bool,
    name: string,
    genre: string,
    levelAuthor: string,
    songAuthor: string,
    bpm: u16,
    manualOffset: bool,
    offset: u16)

  /** The document after one frame of the control panel. */
  function PanelUpdate(p: Project, defaults: Project, input: PanelInput): Project {
    var base := if input.newFile then defaults else p;
    var h := base.header;
    base.(header := h.(
      name := input.name,
      genre := input.genre,
      levelAuthor := input.levelAuthor,
      songAuthor := input.songAuthor,
      bpm := NumberField(h.bpm, input.bpm),
      manualOffset := input.manualOffset,
      offset := if input.manualOffset then NumberField(h.offset, input.offset) else h.offset))
  }

  /** The offset changes only when the manual-offset box is checked and the
      new value is not zero; the BPM changes only to a non-zero new value. */
  lemma PanelGuards(p: Project, defaults: Project, input: PanelInput)
    ensures var base := if input.newFile then defaults else p;
      var r := PanelUpdate(p, defaults, input);
      && (r.header.offset != base.header.offset ==> input.manualOffset && r.header.offset == input.offset)
      && (input.manualOffset && input.offset != 0 ==> r.header.offset == input.offset)
      && (r.header.bpm != base.header.bpm ==> r.header.bpm == input.bpm)
      && (input.bpm != 0 ==> r.header.bpm == input.bpm)
  {
  }

  /** A frame edits only the fields it has widgets for: the shapes, time
      signature, background and palette of the document it starts from stay. */
  lemma PanelKeepsOthers(p: Project, defaults: Project, input: PanelInput)
    ensures var base := if input.newFile then defaults else p;
      var r := PanelUpdate(p, defaults, input);
      && r.shapes == base.shapes
      && r.header.timeSignatureTop == base.header.timeSignatureTop
      && r.header.timeSignatureBottom == base.header.timeSignatureBottom
      && r.header.bgColor == base.header.bgColor
      && r.header.backgroundEffect == base.header.backgroundEffect
      && r.header.colorTable == base.header.colorTable
  {
  }

  /** "New File" discards the open document: the frame goes on exactly as if
      it had started from the default document. */
  lemma PanelNewFile(p: Project, defaults: Project, input: PanelInput)
    requires input.newFile
    ensures PanelUpdate(p, defaults, input) == PanelUpdate(defaults, defaults, input.(newFile := false))
  {
  }

  /** Repeating a frame with the same widget values (and no click) changes
      nothing more. */
  lemma PanelIdempotent(p: Project, defaults: Project, input: PanelInput)
    ensures PanelUpdate(PanelUpdate(p, defaults, input), defaults, input.(newFile := false))
         == PanelUpdate(p, defaults, input)
  {
  }

  /** The widget values a frame shows when the user touches nothing. */
  function Untouched(h: Header): PanelInput {
    PanelInput(false, h.name, h.genre, h.levelAuthor, h.songAuthor, h.bpm, h.manualOffset, h.offset)
  }

  /** A frame in which the user touches nothing leaves the document as it was. */
  lemma PanelUntouched(p: Project, defaults: Project)
    ensures PanelUpdate(p, defaults, Untouched(p.header)) == p
  {
  }

  /** The editor state: the open document, and the default document that
      "New File" restores (`Project::default()`, which is not part of this
      model and so is given to the constructor). */
  class Editor {
    const defaults: Project
    var project: Project

    /** `Main::new`: the default header with the demo shapes. */
    constructor (defaults: Project)
      ensures this.defaults == defaults
      ensures project == Project(defaults.header, DemoShapes())
    {
      this.defaults := defaults;
      project := Project(defaults.header, DemoShapes());
    }

    /** "New File": the whole document is replaced by the default one. */
    method NewFile()
      modifies this
      ensures project == defaults
    {
      project := defaults;
    }

    /** The four single-line text fields write back what they hold. */
    method TextFields(name: string, genre: string, levelAuthor: string, songAuthor: string)
      modifies this
      ensures project == old(project).(header := old(project.header).(
        name := name, genre := genre, levelAuthor := levelAuthor, songAuthor := songAuthor))
    {
      project := project.(header := project.header.(
        name := name, genre := genre, levelAuthor := levelAuthor, songAuthor := songAuthor));
    }

    /** The BPM number field: a zero value is refused; nothing else changes. */
    method BpmField(newValue: u16)
      modifies this
      ensures project.header.bpm == (if newValue != 0 then newValue else old(project.header.bpm))
      ensures project == old(project).(header := old(project.header).(bpm := project.header.bpm))
    {
      var value := NonZeroU16New(newValue);
      if value.Some? {
        project := project.(header := project.header.(bpm := value.value));
      }
    }

    /** The manual-offset checkbox, then the offset number field, which is
      shown (and can change the offset) only while the box is checked. */
    method OffsetControls(checked: bool, newValue: u16)
      modifies this
      ensures project.header.offset ==
        (if checked && newValue != 0 then newValue else old(project.header.offset))
      ensures project == old(project).(header := old(project.header).(
        manualOffset := checked, offset := project.header.offset))
    {
      project := project.(header := project.header.(manualOffset := checked));
      if project.header.manualOffset {
        var value := NonZeroU16New(newValue);
        if value.Some? {
          project := project.(header := project.header.(offset := value.value));
        }
      }
    }

    /** One frame of the control panel, widgets in the order they are laid out. */
    method ControlPanel(input: PanelInput)
      modifies this
      ensures project == PanelUpdate(old(project), defaults, input)
    {
      if input.newFile {
        NewFile();
      }
      TextFields(input.name, input.genre, input.levelAuthor, input.songAuthor);
      BpmField(input.bpm);
      OffsetControls(input.manualOffset, input.offset);
    }
  }

  /** "Export": the path chosen in the save dialog (none if cancelled) gets
      the extension `json` when it has no extension; a path with one is kept. */
  method ExportPath(chosen: Option<FilePath>) returns (target: Option<FilePath>)
    ensures target.Some? <==> chosen.Some?
    ensures chosen.Some? && Extension(chosen.value).Some? ==> target == chosen
    ensures chosen.Some? && !HasFileName(chosen.value) ==> target == chosen
    ensures chosen.Some? && HasFileName(chosen.value) && Extension(chosen.value).None? ==>
      target == Some(FilePath(chosen.value.parent, chosen.value.name + ".json"))
      && Extension(target.value) == Some("json")
  {
    target := None;
    if chosen.Some? {
      var path := chosen.value;
      if Extension(path).None? {
        if HasFileName(path) {
          SetExtensionAppends(path, "json");
          SetExtensionThenExtension(path, "json");
          assert path.name + "." + "json" == path.name + ".json";
        }
        path := SetExtension(path, "json");
      }
      target := Some(path);
    }
  }
}
