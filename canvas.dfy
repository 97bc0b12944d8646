/**
 * Drawing modelled as the list of calls made on a Pillow `ImageDraw` handle:
 * an image is what was drawn on it, in order.
 */
module Canvas {
  import opened Inference

  datatype Color = Rgb(r: int, g: int, b: int)

  /** The label text `"{class name}: {confidence:.2f}"`, kept as its two parts. */
  datatype Label = Label(className: string, conf: real)

  /** The width and height that `textbbox` measures for a label. */
  datatype Extent = Extent(w: int, h: int)

  /** Text measurement with the loaded font. */
  type Measure = Label -> Extent

  /** One drawing call. */
  datatype Command =
    | Outline(left: int, top: int, right: int, bottom: int, color: Color, width: int)
    | Fill(left: int, top: int, right: int, bottom: int, color: Color)
    | Text(x: int, y: int, caption: Label, color: Color)
    | Line(from: Point, to: Point, color: Color, width: int)
    | Ellipse(left: int, top: int, right: int, bottom: int, color: Color)
}
