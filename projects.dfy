/** The chart document: a header of level metadata and the ordered list of
    placed shapes (project.rs). */
module Projects {
  import opened Ints
  import opened Shapes

  /** The 16 palette entries as the header stores them (`[String; 16]`). */
  type ColorTable = s: seq<string> | |s| == 16 witness seq<string>(16, _ => "")

  /** Level metadata. The numeric fields are non-zero by their type; `bgColor`
      is any byte and is not tied to the palette size. `manualOffset` says the
      offset was set by hand. */
  datatype Header = Header(
    name: string,
    genre: string,
    levelAuthor: string,
    songAuthor: string,
    bpm: NonZeroU16,
    offset: NonZeroU16,
    manualOffset: bool,
    timeSignatureTop: NonZeroU8,
    timeSignatureBottom: NonZeroU8,
    bgColor: u8,
    backgroundEffect: string,
    colorTable: ColorTable)

  /** A document owns exactly one header and its shapes, in paint order. */
  datatype Project = Project(header: Header, shapes: seq<Shape>)

  /** Every header's numeric fields are in range and its table has 16 entries.
      This holds by typing: the field types already promise these bounds. */
  lemma HeaderFieldRanges(h: Header)
    ensures 1 <= h.bpm <= 65535 && 1 <= h.offset <= 65535
    ensures 1 <= h.timeSignatureTop <= 255 && 1 <= h.timeSignatureBottom <= 255
    ensures 0 <= h.bgColor <= 255
    ensures |h.colorTable| == 16
  {
  }

  /** The header admits a background colour outside the 16-entry palette. */
  lemma BgColorMayExceedPalette()
    ensures exists h: Header :: h.bgColor >= 16
  {
    var table: ColorTable := seq<string>(16, _ => "");
    var h := Header("", "", "", "", 1, 1, false, 4, 4, 255, "", table);
    assert h.bgColor >= 16;
  }
}
