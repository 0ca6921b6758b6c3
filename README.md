# Manifest chart editor: verified model of its core

Manifest is a desktop editor for rhythm-game level charts. A chart (a
"project") is a header of level metadata plus an ordered list of shapes
(circles, squares, triangles) placed on a 15 x 15 grid, each coloured by an
index into a 16-entry palette. This project models, in Dafny:

- the **shape geometry mapper** (`Shape::as_egui_shape`): how a shape's grid
  position, size and palette index become exactly one drawing primitive
  (a filled circle, a filled axis-aligned rectangle, or a 3-vertex mesh),
  with the grid-to-screen transform as an abstract affine map
  `p |-> origin + p * scale` (module `Shapes`, over `Emath` and `Epaint`);
- the **header and project records**, whose numeric fields are non-zero by
  type (subset types `NonZeroU16 = 1..65535`, `NonZeroU8 = 1..255`) (module
  `Projects`, over `Ints`);
- the **editor state rules** of the main window: the guarded non-zero
  numeric edit, offset editing only under the manual-offset checkbox, "New
  File" replacing the document, the export path's default `json` extension,
  the grid-to-screen transform, the 15 x 15 overlay enumeration and the
  order in which a frame paints (module `App`, with the path operations in
  `Paths`).

Coordinates are `real`, an idealisation of the program's `f32`. The editor
state is a class `App.Editor` whose methods update the open document in
place: its per-widget methods each give the new document in terms of the old
one, and `ControlPanel`, which runs them in layout order, is proved equal to
the pure function `App.PanelUpdate`, about which the lemmas are stated.

Where the files disagree (the snapshot is mid-refactor) the model follows
`src/shape.rs` for `Shape` and the `as_egui_shape` signature: a shape has a
`color` index and the mapper takes a palette of 16 RGB byte triples. The
header keeps `color_table` as 16 strings, as `src/project.rs` declares it;
the draw list therefore takes the render palette as a parameter. `Header`
has the `manual_offset` flag and `Project` has the `shapes` list that
`src/main.rs` uses (lines 24-43, 107-110, 129-133) but `src/project.rs` does
not yet declare. The demo shapes in `src/main.rs` give no colour; the model
gives them colour 0, the colour of `Shape::default()`.

The model follows the code: the background colour is any byte (`u8`), not an index
below 16; and the transform maps grid point `(0, 0)` onto the drawing area's
top-left corner (`App.ToScreen`), so the 17-unit square leaves its two spare
units on the right and bottom rather than one on each side. The circle
radius uses the larger of the two axis scales; `App.ToScreenUniform` shows
that the two scales agree whenever the aspect vector matches the drawing
area, which is when the circle is inscribed in the square of the same size
(`Shapes.CircleInscribedInSquare`).

## Model

| member | source | states |
|---|---|---|
| `Ints.NonZeroU16New` | src/main.rs:92 | `NonZeroU16::new` gives a value exactly when the input is non-zero, and then the input itself |
| `Emath.MaxElem` | src/shape.rs:20 | the result is one of the two components and at least as large as both |
| `Emath.FromTo` | src/main.rs:122-125 | the rectangle-to-rectangle transform maps the source rectangle's corners onto the target's, with scale target size over source size |
| `Emath.ApplyMidpoint` | src/shape.rs:43-45 | the affine transform maps the midpoint of two grid points to the midpoint of their images |
| `Emath.ApplyMonotone` | src/shape.rs:23-28 | with positive scale the transform keeps (both directions) the componentwise order of points |
| `Shapes.AsEguiShape` | src/shape.rs:13-50 | requires a colour index below 16 (the palette lookup panics otherwise); Circle, Square and Triangle each give exactly the primitive of their own kind (each iff); every visible part is the opaque palette colour `colors[color][0..3]` with no outline; a mesh has 3 vertices and the index list `[0, 1, 2]` |
| `Shapes.BuildTriangleMesh` | src/shape.rs:32-49 | the step-by-step mesh build (three vertex pushes onto an empty mesh, then the indices) yields exactly the triangle mesh: left base, right base, apex, all one colour |
| `Epaint.Mesh.constructor` | src/shape.rs:33 | a default mesh has no indices and no vertices |
| `Epaint.Mesh.ColoredVertex` | src/shape.rs:34-46 | appends exactly one vertex with the given position and colour and leaves the indices |
| `Shapes.CircleGeometry` | src/shape.rs:18-22 | the circle's centre is the image of grid point `pos + (0.5, 0.5)`; its radius is the larger scale times `size + 0.5`, and is not negative when `size >= -0.5` |
| `Shapes.SquareGeometry` | src/shape.rs:23-31 | the rectangle's corners are the images of grid points `pos - size` and `pos + size + 1`; with `size >= -0.5` min is at most max on both axes on screen |
| `Shapes.CircleInscribedInSquare` | src/shape.rs:18-27 | for equal position and size the circle's centre is the square's grid centre and its grid radius half the square's side; with equal axis scales the screen circle is centred in the screen square with radius half its width and half its height |
| `Shapes.TriangleGeometry` | src/shape.rs:32-49 | the vertices are the images of `(x - size, y + 1 + size)`, `(x + 1 + size, y + 1 + size)`, `(x + 0.5, y - size)`; on screen the base vertices share a row and the apex is halfway along the base; with `size > -0.5` the apex is above the base and the base runs left to right |
| `Shapes.DefaultShapeCentred` | src/shape.rs:54-63 | the default shape is drawable and is a circle centred on the middle `(7.5, 7.5)` of the 15 x 15 grid with radius half the larger scale |
| `Projects.HeaderFieldRanges` | src/project.rs:7-19 | bpm and offset lie in 1..65535, both time-signature fields in 1..255, the background colour in 0..255, and the colour table has 16 entries |
| `Projects.BgColorMayExceedPalette` | src/project.rs:16 | some header has a background colour of 16 or more: the type does not tie it to the palette |
| `Paths.LastIndexOf` | src/main.rs:69 | the result is the position of the last occurrence of the character, and none exactly when the character does not occur |
| `Paths.SetExtensionThenExtension` | src/main.rs:69-71 | after setting a non-empty, dot-free extension on a path with a file name, the extension is exactly that one and the stem and parent are unchanged |
| `Paths.SetExtensionAppends` | src/main.rs:69-71 | on a path with a file name and no extension, setting an extension appends `.` and the extension to the whole file name |
| `App.ExportPath` | src/main.rs:65-71 | a cancelled dialog gives no path; a chosen path that already has an extension (or has no file name) is kept; one without an extension becomes `name.json`, whose extension is then `json` |
| `App.DemoShapesValid` | src/main.rs:24-43 | the demo document holds exactly a triangle, a square and a circle in that order, all drawable and all inside the 15 x 15 playfield |
| `App.ToScreen` | src/main.rs:122-125 | the grid-to-screen transform maps grid `(0, 0)` to the drawing area's min corner and `17 * proportions` to its max corner, with positive scale for an area of positive size |
| `App.ToScreenUniform` | src/main.rs:122-125 | when the aspect vector matches the drawing area both axes get the same scale |
| `App.GridCell` | src/main.rs:135 | overlay cell `i` has both coordinates below 15 and `i == y * 15 + x` |
| `App.GridCellOnto` | src/main.rs:135 | every cell `(x, y)` of the playfield is produced, at index `y * 15 + x` |
| `App.GridCellInjective` | src/main.rs:135 | distinct overlay indices give distinct cells |
| `App.GridCellRowMajor` | src/main.rs:135 | the column advances fastest, wrapping to column 0 of the next row |
| `App.GridOverlayCell` | src/main.rs:135-144 | overlay primitive `i` is an unfilled rectangle with a 1-wide black outline spanning grid space from `(i % 15, i / 15)` to one unit further on both axes |
| `App.ShapePrimitives` | src/main.rs:129-134 | one primitive per shape, the `i`-th being the mapping of the `i`-th shape |
| `App.DrawOrder` | src/main.rs:129-144 | a frame paints the shapes in list order, then the 225 overlay cells in index order, and the overlay part is the same whatever the document |
| `App.NumberField` | src/main.rs:86-96 | a non-zero widget value replaces the field; a zero one leaves it unchanged |
| `App.PanelGuards` | src/main.rs:106-110 | the offset changes only when the manual-offset box is checked, and then to the non-zero new value; the bpm changes only to a non-zero new value |
| `App.PanelKeepsOthers` | src/main.rs:60-115 | a control-panel frame leaves the shapes, time signature, background and colour table of the document it edits unchanged |
| `App.PanelNewFile` | src/main.rs:62-64 | after "New File" the frame proceeds exactly as from the default document, whatever was open |
| `App.PanelIdempotent` | src/main.rs:78-110 | repeating a frame with the same widget values changes nothing further |
| `App.PanelUntouched` | src/main.rs:78-110 | a frame in which the user changes no widget leaves the document as it was |
| `App.Editor.constructor` | src/main.rs:20-45 | the editor opens with the default header and the three demo shapes |
| `App.Editor.NewFile` | src/main.rs:62-64 | the whole document becomes the default one |
| `App.Editor.TextFields` | src/main.rs:78-104 | the four text fields replace name, genre, level author and song author; nothing else changes |
| `App.Editor.BpmField` | src/main.rs:86-106 | a non-zero value replaces the bpm, zero leaves it; nothing else in the document changes |
| `App.Editor.OffsetControls` | src/main.rs:107-110 | the checkbox sets the manual-offset flag; the offset changes only when it is checked and the value is non-zero; nothing else changes |
| `App.Editor.ControlPanel` | src/main.rs:60-115 | one frame of the control panel changes the document exactly as `PanelUpdate` says |

## Left out

- `src/options.rs` (theme and executable-path settings, their file I/O and the options menu at src/main.rs:50-56 and 112-114): settings persistence with no chart invariants.
- The save dialog, file creation and writing (src/main.rs:66-67, 72-75): I/O. The dialog's answer is the parameter of `App.ExportPath`.
- JSON encoding and decoding of the document: `as_json` is not part of this model (it is called at src/main.rs:72 but defined in no shown file), so no wire format or round trip is stated.
- Window, panels, widgets and layout (`allocate_painter`, `DragValue` drawing, the empty bottom panel, `mark_changed`): rendering. Widget results enter as the values of `App.PanelInput`.
- `square_proportions`: an external aspect computation; it is the positive `proportions` parameter of `App.ToScreen`.
- Rounding of rectangles (always none here), a mesh's texture id and its vertices' texture coordinates: constant rendering details the editor never varies.
- `f32` rounding and the exactness of the `u32`-to-`f32` casts of overlay coordinates: coordinates are `real`.
- `Project::default()` and the header defaults: defined in no shown file; the default document is the `defaults` constant given to `App.Editor.constructor`.
- Movement steps and nested auto-generated shapes: no shown file has them.
- The conversion of the header's string colour table into the 16 RGB triples the mapper draws with: no shown file has it; `App.DrawList` takes the palette as a parameter.
- `Paths` models a path only by its parent and final component, where `""` and `..` mean "no file name"; trailing separators and `.` components are not modelled.
