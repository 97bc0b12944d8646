/**
 * The box-and-label pass and the pose pass of the visualizer. Both draw on the
 * image they are given through one `ImageDraw` handle; here each pass returns
 * the sequence of drawing calls it makes, in order.
 */
module Visualizer {
  import opened Wrappers
  import opened Inference
  import opened Canvas

  const BoxColor := Rgb(0, 255, 0)
  const TextColor := Rgb(0, 0, 0)
  const TextBackgroundColor := Rgb(0, 255, 0)
  const SkeletonColor := Rgb(255, 0, 0)
  const KeypointColor := Rgb(0, 0, 255)

  /** Outline width of a bounding box. */
  const BoxWidth := 3
  /** Added to the measured text width and height to size the label background. */
  const LabelPad := 4
  /** Horizontal offset of the label text inside its background. */
  const TextInset := 2
  const SkeletonWidth := 2
  /** Half the side of the square a keypoint's ellipse is drawn in. */
  const KeypointRadius := 3

  datatype Rect = Rect(left: int, top: int, right: int, bottom: int)

  // ---------------------------------------------------------------------------
  // Boxes and labels
  // ---------------------------------------------------------------------------

  /**
   * The filled rectangle behind a label: on top of the box when it fits below
   * the frame's top edge, otherwise moved down to start at the box's top.
   */
  function LabelBackground(box: Box, ext: Extent): (bg: Rect)
    ensures bg.left == box.x1 && bg.right == box.x1 + ext.w + LabelPad
    ensures bg.bottom - bg.top == ext.h + LabelPad
    ensures box.y1 - ext.h - LabelPad >= 0 ==> bg.bottom == box.y1
    ensures box.y1 - ext.h - LabelPad < 0 ==> bg.top == box.y1
    ensures box.y1 >= 0 ==> bg.top >= 0
  {
    var above := box.y1 - ext.h - LabelPad;
    if above < 0 then
      Rect(box.x1, box.y1, box.x1 + ext.w + LabelPad, box.y1 + ext.h + LabelPad)
    else
      Rect(box.x1, above, box.x1 + ext.w + LabelPad, box.y1)
  }

  /** A box together with the label it is drawn with. */
  datatype LabelledBox = LabelledBox(box: Box, caption: Label)

  /** The three calls made for one box: outline, label background, label text. */
  function BoxCommands(b: LabelledBox, measure: Measure): seq<Command>
  {
    var bg := LabelBackground(b.box, measure(b.caption));
    [ Outline(b.box.x1, b.box.y1, b.box.x2, b.box.y2, BoxColor, BoxWidth),
      Fill(bg.left, bg.top, bg.right, bg.bottom, TextBackgroundColor),
      Text(bg.left + TextInset, bg.top, b.caption, TextColor) ]
  }

  /** The label of a detection: its class name looked up in `names`, and its confidence. */
  function LabelOf(names: map<int, string>, d: Detection): Label
    requires d.cls in names
  {
    Label(names[d.cls], d.conf)
  }

  /** The detections of one result with their labels, in order. */
  function Labelled(names: map<int, string>, ds: seq<Detection>): seq<LabelledBox>
    requires forall d :: d in ds ==> d.cls in names
  {
    seq(|ds|, i requires 0 <= i < |ds| => LabelledBox(ds[i].box, LabelOf(names, ds[i])))
  }

  /** Every box of every result with its label, results in order and boxes in order within each. */
  function AllBoxes(results: seq<FrameResult>): seq<LabelledBox>
    requires AllClassesKnown(results)
  {
    if results == [] then []
    else
      var n := |results| - 1;
      assert results[n] in results;
      AllBoxes(results[..n]) + Labelled(results[n].names, results[n].boxes)
  }

  /** The calls made for a sequence of labelled boxes, in order. */
  function BoxesCommands(bs: seq<LabelledBox>, measure: Measure): seq<Command>
  {
    if bs == [] then []
    else BoxesCommands(bs[..|bs| - 1], measure) + BoxCommands(bs[|bs| - 1], measure)
  }

  /** Everything the box-and-label pass draws for `results`. */
  function DetectionCommands(results: seq<FrameResult>, measure: Measure): seq<Command>
    requires AllClassesKnown(results)
  {
    BoxesCommands(AllBoxes(results), measure)
  }

  /**
   * The boxes of one result, in order. A class id missing from the name table
   * raises before anything of that box is drawn (`None`).
   */
  method DrawResultBoxes(r: FrameResult, measure: Measure) returns (drawn: Option<seq<Command>>)
    ensures drawn.Some? <==> ClassesKnown(r)
    ensures drawn.Some? ==> ClassesKnown(r) && drawn.value == BoxesCommands(Labelled(r.names, r.boxes), measure)
  {
    var out := [];
    var j := 0;
    while j < |r.boxes|
      invariant 0 <= j <= |r.boxes|
      invariant forall d :: d in r.boxes[..j] ==> d.cls in r.names
      invariant out == BoxesCommands(Labelled(r.names, r.boxes[..j]), measure)
    {
      var d := r.boxes[j];
      if d.cls !in r.names {
        return None;
      }
      var caption := Label(r.names[d.cls], d.conf);
      out := out + [Outline(d.box.x1, d.box.y1, d.box.x2, d.box.y2, BoxColor, BoxWidth)];
      var bg := LabelBackground(d.box, measure(caption));
      out := out + [Fill(bg.left, bg.top, bg.right, bg.bottom, TextBackgroundColor)];
      out := out + [Text(bg.left + TextInset, bg.top, caption, TextColor)];
      ghost var after := Labelled(r.names, r.boxes[..j + 1]);
      assert after[..|after| - 1] == Labelled(r.names, r.boxes[..j]);
      j := j + 1;
    }
    assert r.boxes[..j] == r.boxes;
    drawn := Some(out);
  }

  /**
   * The box-and-label pass over every result. A class id missing from a name
   * table raises and aborts the whole pass (`None`).
   */
  method DrawDetections(results: seq<FrameResult>, measure: Measure)
    returns (drawn: Option<seq<Command>>)
    ensures drawn.Some? <==> AllClassesKnown(results)
    ensures drawn.Some? ==> AllClassesKnown(results) && drawn.value == DetectionCommands(results, measure)
  {
    var out := [];
    var i := 0;
    while i < |results|
      invariant 0 <= i <= |results|
      invariant AllClassesKnown(results[..i])
      invariant out == DetectionCommands(results[..i], measure)
    {
      var r := results[i];
      var boxesDrawn := DrawResultBoxes(r, measure);
      if boxesDrawn.None? {
        assert r in results;
        return None;
      }
      assert results[..i + 1][..i] == results[..i];
      assert forall q :: q in results[..i + 1] ==> q in results[..i] || q == r;
      BoxesCommandsAppend(AllBoxes(results[..i]), Labelled(r.names, r.boxes), measure);
      out := out + boxesDrawn.value;
      i := i + 1;
    }
    assert results[..i] == results;
    drawn := Some(out);
  }

  /** Concatenating box lists concatenates their calls. */
  lemma {:induction false} BoxesCommandsAppend(a: seq<LabelledBox>, b: seq<LabelledBox>, measure: Measure)
    ensures BoxesCommands(a + b, measure) == BoxesCommands(a, measure) + BoxesCommands(b, measure)
    decreases |b|
  {
    if b == [] {
      assert a + b == a;
    } else {
      var n := |b| - 1;
      assert (a + b)[..|a + b| - 1] == a + b[..n];
      BoxesCommandsAppend(a, b[..n], measure);
    }
  }

  /**
   * Every labelled box contributes exactly three calls, in input order: the
   * outline, the background and the text, with no filtering of any kind.
   */
  lemma {:induction false} BoxesCommandsPerBox(bs: seq<LabelledBox>, measure: Measure)
    ensures |BoxesCommands(bs, measure)| == 3 * |bs|
    ensures forall k :: 0 <= k < |bs| ==>
      BoxesCommands(bs, measure)[3 * k .. 3 * k + 3] == BoxCommands(bs[k], measure)
  {
    if bs != [] {
      var n := |bs| - 1;
      BoxesCommandsPerBox(bs[..n], measure);
      var prefix := BoxesCommands(bs[..n], measure);
      var all := BoxesCommands(bs, measure);
      assert all == prefix + BoxCommands(bs[n], measure);
      forall k | 0 <= k < |bs|
        ensures all[3 * k .. 3 * k + 3] == BoxCommands(bs[k], measure)
      {
        if k < n {
          assert bs[..n][k] == bs[k];
          assert all[3 * k .. 3 * k + 3] == prefix[3 * k .. 3 * k + 3];
        } else {
          assert all[3 * k .. 3 * k + 3] == all[|prefix|..];
        }
      }
    }
  }

  /**
   * The pass draws one outline (width 3), one background and one text per box
   * of every result, in input order; the text sits at the background's top
   * left corner moved right by two pixels.
   */
  lemma DetectionCommandsPerBox(results: seq<FrameResult>, measure: Measure, k: nat)
    requires AllClassesKnown(results)
    requires k < |AllBoxes(results)|
    ensures |DetectionCommands(results, measure)| == 3 * |AllBoxes(results)|
    ensures var b := AllBoxes(results)[k];
            var bg := LabelBackground(b.box, measure(b.caption));
            var cs := DetectionCommands(results, measure);
            && cs[3 * k] == Outline(b.box.x1, b.box.y1, b.box.x2, b.box.y2, BoxColor, BoxWidth)
            && cs[3 * k + 1] == Fill(bg.left, bg.top, bg.right, bg.bottom, TextBackgroundColor)
            && cs[3 * k + 2] == Text(bg.left + TextInset, bg.top, b.caption, TextColor)
  {
    var bs := AllBoxes(results);
    BoxesCommandsPerBox(bs, measure);
    var cs := DetectionCommands(results, measure);
    var triple := cs[3 * k .. 3 * k + 3];
    assert triple == BoxCommands(bs[k], measure);
    assert cs[3 * k] == triple[0];
    assert cs[3 * k + 1] == triple[1];
    assert cs[3 * k + 2] == triple[2];
  }

  /** The number of boxes over all results. */
  function TotalBoxes(results: seq<FrameResult>): nat
  {
    if results == [] then 0
    else TotalBoxes(results[..|results| - 1]) + |results[|results| - 1].boxes|
  }

  /**
   * The labelled boxes are exactly the input boxes, each with its own label:
   * one per box of every result, every box of every result among them, and
   * nothing else. No confidence filter applies here.
   */
  lemma {:induction false} AllBoxesCount(results: seq<FrameResult>)
    requires AllClassesKnown(results)
    ensures |AllBoxes(results)| == TotalBoxes(results)
    ensures forall r, d :: r in results && d in r.boxes ==>
      LabelledBox(d.box, LabelOf(r.names, d)) in AllBoxes(results)
    ensures forall b :: b in AllBoxes(results) ==>
      exists r, d :: r in results && d in r.boxes && d.cls in r.names &&
                     b == LabelledBox(d.box, LabelOf(r.names, d))
  {
    if results != [] {
      var n := |results| - 1;
      var r := results[n];
      assert r in results;
      assert results == results[..n] + [r];
      AllBoxesCount(results[..n]);
      var ls := Labelled(r.names, r.boxes);
      forall r', d | r' in results && d in r'.boxes
        ensures LabelledBox(d.box, LabelOf(r'.names, d)) in AllBoxes(results)
      {
        if r' != r {
          assert r' in results[..n];
        } else {
          var i :| 0 <= i < |r.boxes| && r.boxes[i] == d;
          assert ls[i] == LabelledBox(d.box, LabelOf(r.names, d));
        }
      }
      forall b | b in AllBoxes(results)
        ensures exists r, d :: r in results && d in r.boxes && d.cls in r.names &&
                               b == LabelledBox(d.box, LabelOf(r.names, d))
      {
        if b in AllBoxes(results[..n]) {
          var r', d :| r' in results[..n] && d in r'.boxes && d.cls in r'.names &&
                       b == LabelledBox(d.box, LabelOf(r'.names, d));
          assert r' in results;
        } else {
          assert b in ls;
          var i :| 0 <= i < |ls| && ls[i] == b;
          assert r.boxes[i] in r.boxes;
        }
      }
    }
  }

  /** The box pass makes exactly three calls per box of every result. */
  lemma DetectionCommandsCount(results: seq<FrameResult>, measure: Measure)
    requires AllClassesKnown(results)
    ensures |DetectionCommands(results, measure)| == 3 * TotalBoxes(results)
  {
    AllBoxesCount(results);
    BoxesCommandsPerBox(AllBoxes(results), measure);
  }

  /** No label background of a sequence of boxes starts above the frame when no box does. */
  lemma {:induction false} BackgroundsBelowTop(bs: seq<LabelledBox>, measure: Measure)
    requires forall b :: b in bs ==> b.box.y1 >= 0
    ensures forall c :: c in BoxesCommands(bs, measure) && c.Fill? ==> c.top >= 0
  {
    if bs != [] {
      var n := |bs| - 1;
      assert forall b :: b in bs[..n] ==> b in bs;
      assert bs[n] in bs;
      BackgroundsBelowTop(bs[..n], measure);
    }
  }

  /**
   * A label background never starts above the frame's top edge when the boxes
   * lie inside the frame vertically (every `y1 >= 0`).
   */
  lemma DetectionBackgroundsInsideFrame(results: seq<FrameResult>, measure: Measure)
    requires AllClassesKnown(results)
    requires forall r, d :: r in results && d in r.boxes ==> d.box.y1 >= 0
    ensures forall c :: c in DetectionCommands(results, measure) && c.Fill? ==> c.top >= 0
  {
    AllBoxesCount(results);
    BackgroundsBelowTop(AllBoxes(results), measure);
  }

  // ---------------------------------------------------------------------------
  // Pose skeletons
  // ---------------------------------------------------------------------------

  /** A 1-based keypoint number of the 17-keypoint COCO layout. */
  type KeypointNumber = n: int | 1 <= n <= 17 witness 1

  /** The 19 skeleton edges, as pairs of 1-based keypoint numbers. */
  const Skeleton: seq<(KeypointNumber, KeypointNumber)> :=
    [ (16, 14), (14, 12), (17, 15), (15, 13), (12, 13), (6, 12), (7, 13),
      (6, 7), (6, 8), (7, 9), (8, 10), (9, 11), (2, 3), (1, 2), (1, 3),
      (2, 4), (3, 5), (4, 6), (5, 7) ]

  /** A keypoint counts as detected when both coordinates are positive. */
  predicate Visible(p: Point)
  {
    p.x > 0 && p.y > 0
  }

  /** Edge `k` is drawn when both its 0-based indices are keypoints of the person and both are detected. */
  predicate EdgeDrawn(kpts: seq<Point>, k: nat)
    requires k < |Skeleton|
  {
    var a: int, b: int := Skeleton[k].0 as int - 1, Skeleton[k].1 as int - 1;
    a < |kpts| && b < |kpts| && Visible(kpts[a]) && Visible(kpts[b])
  }

  /** The line drawn for edge `k`. */
  function EdgeLine(kpts: seq<Point>, k: nat): Command
    requires k < |Skeleton| && EdgeDrawn(kpts, k)
  {
    Line(kpts[Skeleton[k].0 as int - 1], kpts[Skeleton[k].1 as int - 1], SkeletonColor, SkeletonWidth)
  }

  /** The ellipse drawn for a keypoint. */
  function Dot(p: Point): Command
  {
    Ellipse(p.x - KeypointRadius, p.y - KeypointRadius, p.x + KeypointRadius, p.y + KeypointRadius, KeypointColor)
  }

  /** The lines drawn for the first `n` skeleton edges of one person. */
  function SkeletonLines(kpts: seq<Point>, n: nat): seq<Command>
    requires n <= |Skeleton|
  {
    if n == 0 then []
    else SkeletonLines(kpts, n - 1) + (if EdgeDrawn(kpts, n - 1) then [EdgeLine(kpts, n - 1)] else [])
  }

  /** The ellipses drawn for the first `n` keypoints of one person. */
  function KeypointDots(kpts: seq<Point>, n: nat): seq<Command>
    requires n <= |kpts|
  {
    if n == 0 then []
    else KeypointDots(kpts, n - 1) + (if Visible(kpts[n - 1]) then [Dot(kpts[n - 1])] else [])
  }

  /** One person: every drawable skeleton edge, then every detected keypoint. */
  function PersonCommands(kpts: seq<Point>): seq<Command>
  {
    SkeletonLines(kpts, |Skeleton|) + KeypointDots(kpts, |kpts|)
  }

  function PersonsCommands(persons: seq<seq<Point>>): seq<Command>
  {
    if persons == [] then []
    else PersonsCommands(persons[..|persons| - 1]) + PersonCommands(persons[|persons| - 1])
  }

  /** A result without keypoints draws nothing. */
  function ResultPoseCommands(r: FrameResult): seq<Command>
  {
    match r.keypoints
    case None => []
    case Some(persons) => PersonsCommands(persons)
  }

  /** Everything the pose pass draws for `results`. */
  function PoseCommands(results: seq<FrameResult>): seq<Command>
  {
    if results == [] then []
    else PoseCommands(results[..|results| - 1]) + ResultPoseCommands(results[|results| - 1])
  }

  /** The skeleton lines of one person, edge by edge. */
  method DrawSkeleton(person: seq<Point>) returns (drawn: seq<Command>)
    ensures drawn == SkeletonLines(person, |Skeleton|)
  {
    drawn := [];
    var e := 0;
    while e < |Skeleton|
      invariant 0 <= e <= |Skeleton|
      invariant drawn == SkeletonLines(person, e)
    {
      var a: int, b: int := Skeleton[e].0 as int - 1, Skeleton[e].1 as int - 1;
      if a < |person| && b < |person| {
        var p1, p2 := person[a], person[b];
        if p1.x > 0 && p1.y > 0 && p2.x > 0 && p2.y > 0 {
          drawn := drawn + [Line(p1, p2, SkeletonColor, SkeletonWidth)];
        }
      }
      e := e + 1;
    }
  }

  /** The keypoints of one person, point by point. */
  method DrawKeypoints(person: seq<Point>) returns (drawn: seq<Command>)
    ensures drawn == KeypointDots(person, |person|)
  {
    drawn := [];
    var q := 0;
    while q < |person|
      invariant 0 <= q <= |person|
      invariant drawn == KeypointDots(person, q)
    {
      var pt := person[q];
      if pt.x > 0 && pt.y > 0 {
        drawn := drawn + [Ellipse(pt.x - KeypointRadius, pt.y - KeypointRadius,
                                  pt.x + KeypointRadius, pt.y + KeypointRadius, KeypointColor)];
      }
      q := q + 1;
    }
  }

  /** The persons of one result, in order; for each, its skeleton lines and then its keypoints. */
  method DrawPersons(persons: seq<seq<Point>>) returns (drawn: seq<Command>)
    ensures drawn == PersonsCommands(persons)
  {
    drawn := [];
    var p := 0;
    while p < |persons|
      invariant 0 <= p <= |persons|
      invariant drawn == PersonsCommands(persons[..p])
    {
      var lines := DrawSkeleton(persons[p]);
      var dots := DrawKeypoints(persons[p]);
      drawn := drawn + (lines + dots);
      assert persons[..p + 1][..p] == persons[..p];
      p := p + 1;
    }
    assert persons[..p] == persons;
  }

  /** The pose pass: every result that has keypoints, in order. */
  method DrawPose(results: seq<FrameResult>) returns (drawn: seq<Command>)
    ensures drawn == PoseCommands(results)
  {
    drawn := [];
    var i := 0;
    while i < |results|
      invariant 0 <= i <= |results|
      invariant drawn == PoseCommands(results[..i])
    {
      var r := results[i];
      assert results[..i + 1][..i] == results[..i];
      if r.keypoints.Some? {
        var personsDrawn := DrawPersons(r.keypoints.value);
        drawn := drawn + personsDrawn;
      }
      i := i + 1;
    }
    assert results[..i] == results;
  }

  /** The lines of one person are exactly the lines of the drawable edges; at most one per edge. */
  lemma {:induction false} SkeletonLinesExact(kpts: seq<Point>, n: nat)
    requires n <= |Skeleton|
    ensures |SkeletonLines(kpts, n)| <= n
    ensures forall c :: c in SkeletonLines(kpts, n) <==>
      exists k :: 0 <= k < n && EdgeDrawn(kpts, k) && c == EdgeLine(kpts, k)
  {
    if n > 0 {
      SkeletonLinesExact(kpts, n - 1);
    }
  }

  /** The ellipses of one person are exactly those of its detected keypoints. */
  lemma {:induction false} KeypointDotsExact(kpts: seq<Point>, n: nat)
    requires n <= |kpts|
    ensures forall c :: c in KeypointDots(kpts, n) <==>
      exists i :: 0 <= i < n && Visible(kpts[i]) && c == Dot(kpts[i])
  {
    if n > 0 {
      KeypointDotsExact(kpts, n - 1);
    }
  }

  /** At most 19 lines per person, and both ends of every drawn line are detected and drawn as points too. */
  lemma EdgeEndpointsDrawn(kpts: seq<Point>)
    ensures |SkeletonLines(kpts, |Skeleton|)| <= 19
    ensures forall c :: c in SkeletonLines(kpts, |Skeleton|) ==>
      c.Line? && Visible(c.from) && Visible(c.to) &&
      Dot(c.from) in KeypointDots(kpts, |kpts|) && Dot(c.to) in KeypointDots(kpts, |kpts|)
  {
    SkeletonLinesExact(kpts, |Skeleton|);
    KeypointDotsExact(kpts, |kpts|);
    forall c | c in SkeletonLines(kpts, |Skeleton|)
      ensures c.Line? && Visible(c.from) && Visible(c.to) &&
              Dot(c.from) in KeypointDots(kpts, |kpts|) && Dot(c.to) in KeypointDots(kpts, |kpts|)
    {
      var k :| 0 <= k < |Skeleton| && EdgeDrawn(kpts, k) && c == EdgeLine(kpts, k);
      var a: int, b: int := Skeleton[k].0 as int - 1, Skeleton[k].1 as int - 1;
      assert c.from == kpts[a] && c.to == kpts[b];
    }
  }

  /** Every line one person contributes joins two detected keypoints. */
  lemma PersonLinesVisible(kpts: seq<Point>)
    ensures forall c :: c in PersonCommands(kpts) && c.Line? ==> Visible(c.from) && Visible(c.to)
  {
    EdgeEndpointsDrawn(kpts);
    KeypointDotsExact(kpts, |kpts|);
  }

  lemma {:induction false} PersonsLinesVisible(persons: seq<seq<Point>>)
    ensures forall c :: c in PersonsCommands(persons) && c.Line? ==> Visible(c.from) && Visible(c.to)
  {
    if persons != [] {
      PersonsLinesVisible(persons[..|persons| - 1]);
      PersonLinesVisible(persons[|persons| - 1]);
    }
  }

  /** The pose pass never draws an edge one of whose endpoints has a coordinate `<= 0`. */
  lemma {:induction false} PoseLinesVisible(results: seq<FrameResult>)
    ensures forall c :: c in PoseCommands(results) && c.Line? ==> Visible(c.from) && Visible(c.to)
  {
    if results != [] {
      PoseLinesVisible(results[..|results| - 1]);
      var r := results[|results| - 1];
      if r.keypoints.Some? {
        PersonsLinesVisible(r.keypoints.value);
      }
    }
  }
}
