/**
 * What the detection model hands back for one frame, reduced to the values the
 * drawing code reads. Coordinates are the integers `box.xyxy.int()` yields and
 * keypoints are pixel positions; the model that produces them is not modelled.
 */
module Inference {
  import opened Wrappers

  /** A pixel position. */
  datatype Point = Point(x: int, y: int)

  /** A bounding box with top-left corner (x1, y1) and bottom-right corner (x2, y2). */
  datatype Box = Box(x1: int, y1: int, x2: int, y2: int)

  /** One detected object: its box, its raw confidence score and its class id. */
  datatype Detection = Detection(box: Box, conf: real, cls: int)

  /**
   * One result object of the model: the class-name table, the detected boxes
   * (an absent box list is the empty sequence) and, for pose models, the
   * keypoints of every person (`None` when the model produces none).
   */
  datatype FrameResult = FrameResult(
    names: map<int, string>,
    boxes: seq<Detection>,
    keypoints: Option<seq<seq<Point>>>)

  /** Every box of `r` has a class id that its name table knows. */
  predicate ClassesKnown(r: FrameResult)
  {
    forall d :: d in r.boxes ==> d.cls in r.names
  }

  /** Every box of every result has a known class id. */
  predicate AllClassesKnown(results: seq<FrameResult>)
  {
    forall r :: r in results ==> ClassesKnown(r)
  }
}
