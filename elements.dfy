/**
 * Value types shared by the recordings, the erase handler and the exporter:
 * points, motion samples, strokes and other layer elements, pages and the
 * document. Only the attributes the core reads are kept.
 */
module Elements {
  import opened Wrappers

  /** `size_t` on a 64-bit target. */
  const SIZE_LIMIT: nat := 0x1_0000_0000_0000_0000
  type SizeT = n: nat | n < SIZE_LIMIT

  /** The largest `size_t`, `SIZE_MAX`. */
  const SIZE_MAX: SizeT := SIZE_LIMIT - 1

  /** A position with pressure; `z` is -1.0 when the tool reports none. */
  datatype Point = Point(x: real, y: real, z: real)

  /** One timestamped sample of a stroke's motion (milliseconds). */
  datatype MotionPoint = MotionPoint(point: Point, timestamp: SizeT, isEraser: bool)

  type Byte = n: nat | n < 256

  datatype Color = Color(red: Byte, green: Byte, blue: Byte, alpha: Byte)

  const WHITE: Color := Color(255, 255, 255, 255)

  /** The stroke tools; `OtherTool` stands for any value outside the named cases. */
  datatype StrokeTool = Pen | Eraser | Highlighter | OtherTool(code: int)

  /** Cap styles, in the order of the padding table of the erase handler. */
  datatype CapStyle = Round | Butt | Square

  /**
   * A layer element. Strokes carry what the erase handler and the exporter
   * read; every other kind (text, image, ...) is only an identity here.
   * `id` stands for the element's address.
   */
  datatype Element =
    | Stroke(id: nat, tool: StrokeTool, width: real, color: Color, fill: int,
             cap: CapStyle, dashes: seq<real>, motion: Option<seq<MotionPoint>>)
    | OtherElement(id: nat)

  /** Background formats; `OtherFormat` stands for any value outside the named cases. */
  datatype PageTypeFormat =
    | Plain | Ruled | Lined | Staves | Graph | Dotted | IsoDotted | IsoGraph | Pdf | Image
    | OtherFormat(code: int)

  datatype PageType = PageType(format: PageTypeFormat, config: string)

  /** A page: its size, background and layers, each layer an ordered element list. */
  datatype Page = Page(width: real, height: real, background: PageType,
                       backgroundColor: Color, layers: seq<seq<Element>>)

  /** A document: its page slots in order; `None` is a null page reference. */
  datatype Document = Document(pages: seq<Option<Page>>)
}
