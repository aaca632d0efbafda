/**
 * The child entities whose own classes (Label, Scalebar, Layer) are not part of this
 * model. Each is either built empty, with its defaults (`new Label()`), or built from
 * the raw lines of its block (`new Label($lines)`); the model keeps exactly that much.
 * What their write() methods print is supplied by the caller as a `Writers` record.
 */
module Children {

  datatype Label = DefaultLabel | LabelFrom(block: seq<string>)

  datatype Scalebar = DefaultScalebar | ScalebarFrom(block: seq<string>)

  datatype Layer = DefaultLayer | LayerFrom(block: seq<string>)

  /**
   * The text the children's write() methods produce, one string per output line:
   * `$label->write($indent)`, `$scalebar->write()` and `$layer->write()`.
   */
  datatype Writers = Writers(
    writeLabel: (Label, nat) -> seq<string>,
    writeScalebar: Scalebar -> seq<string>,
    writeLayer: Layer -> seq<string>)
}
