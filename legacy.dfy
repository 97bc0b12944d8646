/**
 * The older stand-alone webcam script: per box, a confidence filter on the
 * confidence rounded up to hundredths, the box outline, and a label placed
 * BELOW the box that is dropped when it would reach the frame's bottom edge.
 */
module LegacyLabels {
  import opened Inference
  import opened Canvas
  import Visualizer

  const ConfidenceThreshold: real := 0.5
  /** Pixels of background around the text on each side. */
  const TextPadding := 4
  /** Vertical gap between the box's bottom edge and the label background. */
  const GapBelowBox := 5
  const BoxThickness := 2
  const BackgroundColor := Rgb(0, 255, 0)
  const TextColor := Rgb(0, 0, 0)
  const BoxColor := Rgb(0, 255, 0)

  /** `math.ceil`: the least integer not below `x`. */
  function Ceil(x: real): (n: int)
    ensures n as real - 1.0 < x <= n as real
  {
    -((-x).Floor)
  }

  /** The confidence as the script uses it: `ceil(conf * 100) / 100`. */
  function RoundedConfidence(conf: real): real
  {
    Ceil(conf * 100.0) as real / 100.0
  }

  /** The script's filter: the rounded confidence reaches the threshold. */
  predicate Confident(conf: real)
  {
    RoundedConfidence(conf) >= ConfidenceThreshold
  }

  /**
   * Because the confidence is rounded up before it is compared, every score
   * above 0.49 passes the 0.5 threshold, and no score at or below 0.49 does.
   */
  lemma ConfidentIff(conf: real)
    ensures Confident(conf) <==> conf > 0.49
  {
  }

  /** Where the label's background and text go, relative to a box. */
  datatype Placement = Placement(
    bgLeft: int, bgTop: int, bgRight: int, bgBottom: int,
    textX: int, textY: int)

  /** The label background starts a fixed gap below the box and pads the text on every side. */
  function BelowBox(box: Box, ext: Extent): (p: Placement)
    ensures p.bgTop == box.y2 + GapBelowBox
    ensures p.bgBottom - p.bgTop == ext.h + 2 * TextPadding
    ensures p.textX == box.x1
    ensures p.textY - p.bgTop == TextPadding && p.bgBottom - (p.textY + ext.h) == TextPadding
    ensures p.bgLeft >= 0 && p.bgLeft >= box.x1 - TextPadding
    ensures p.bgLeft == 0 || p.bgLeft == box.x1 - TextPadding
    ensures p.bgRight == box.x1 + ext.w + TextPadding
  {
    var bgTop := box.y2 + GapBelowBox;
    var textY := bgTop + TextPadding;
    var textX := box.x1;
    var bgBottom := bgTop + (ext.h + 2 * TextPadding);
    var bgLeft := if textX - TextPadding > 0 then textX - TextPadding else 0;
    Placement(bgLeft, bgTop, textX + ext.w + TextPadding, bgBottom, textX, textY)
  }

  /**
   * What the script draws for one box: nothing when its class id is unknown
   * (the lookup raises and the box is skipped) or when it is not confident;
   * otherwise its outline, then the background and the text when the
   * background ends above the frame's bottom row.
   */
  function BoxCommands(names: map<int, string>, d: Detection, frameHeight: int, measure: Measure): (cs: seq<Command>)
    ensures |cs| == 0 || |cs| == 1 || |cs| == 3
    ensures cs != [] <==> d.cls in names && Confident(d.conf)
  {
    if d.cls !in names || !Confident(d.conf) then []
    else
      var caption := Label(names[d.cls], RoundedConfidence(d.conf));
      var p := BelowBox(d.box, measure(caption));
      [Outline(d.box.x1, d.box.y1, d.box.x2, d.box.y2, BoxColor, BoxThickness)] +
      (if p.bgBottom < frameHeight then
         [Fill(p.bgLeft, p.bgTop, p.bgRight, p.bgBottom, BackgroundColor),
          Text(p.textX, p.textY, caption, TextColor)]
       else [])
  }

  /** The calls for a sequence of boxes, in order. */
  function BoxesCommands(names: map<int, string>, ds: seq<Detection>, frameHeight: int, measure: Measure): seq<Command>
  {
    if ds == [] then []
    else BoxesCommands(names, ds[..|ds| - 1], frameHeight, measure) + BoxCommands(names, ds[|ds| - 1], frameHeight, measure)
  }

  /** The boxes of all results, in order. */
  function AllDetections(results: seq<FrameResult>): seq<Detection>
  {
    if results == [] then []
    else AllDetections(results[..|results| - 1]) + results[|results| - 1].boxes
  }

  /** Everything the script draws on one frame. */
  function FrameCommands(names: map<int, string>, results: seq<FrameResult>, frameHeight: int, measure: Measure): seq<Command>
  {
    BoxesCommands(names, AllDetections(results), frameHeight, measure)
  }

  /** The boxes of one result, drawn box by box. */
  method DrawBoxes(names: map<int, string>, boxes: seq<Detection>, frameHeight: int, measure: Measure)
    returns (drawn: seq<Command>)
    ensures drawn == BoxesCommands(names, boxes, frameHeight, measure)
  {
    drawn := [];
    var j := 0;
    while j < |boxes|
      invariant 0 <= j <= |boxes|
      invariant drawn == BoxesCommands(names, boxes[..j], frameHeight, measure)
    {
      var d := boxes[j];
      assert boxes[..j + 1][..j] == boxes[..j];
      if d.cls in names {
        var confidence := RoundedConfidence(d.conf);
        if confidence >= ConfidenceThreshold {
          drawn := drawn + [Outline(d.box.x1, d.box.y1, d.box.x2, d.box.y2, BoxColor, BoxThickness)];
          var caption := Label(names[d.cls], confidence);
          var ext := measure(caption);
          var bgTop := d.box.y2 + GapBelowBox;
          var textY := bgTop + TextPadding;
          var textX := d.box.x1;
          var bgBottom := bgTop + (ext.h + 2 * TextPadding);
          if bgBottom < frameHeight {
            var bgLeft := if textX - TextPadding > 0 then textX - TextPadding else 0;
            var bgRight := textX + ext.w + TextPadding;
            drawn := drawn + [Fill(bgLeft, bgTop, bgRight, bgBottom, BackgroundColor)];
            drawn := drawn + [Text(textX, textY, caption, TextColor)];
          }
        }
      }
      j := j + 1;
    }
    assert boxes[..j] == boxes;
  }

  /** The boxes of every result of one frame, results in order. */
  method DrawFrame(names: map<int, string>, results: seq<FrameResult>, frameHeight: int, measure: Measure)
    returns (drawn: seq<Command>)
    ensures drawn == FrameCommands(names, results, frameHeight, measure)
  {
    drawn := [];
    var i := 0;
    while i < |results|
      invariant 0 <= i <= |results|
      invariant drawn == FrameCommands(names, results[..i], frameHeight, measure)
    {
      var boxesDrawn := DrawBoxes(names, results[i].boxes, frameHeight, measure);
      assert results[..i + 1][..i] == results[..i];
      assert AllDetections(results[..i + 1]) == AllDetections(results[..i]) + results[i].boxes;
      BoxesCommandsAppend(names, AllDetections(results[..i]), results[i].boxes, frameHeight, measure);
      drawn := drawn + boxesDrawn;
      i := i + 1;
    }
    assert results[..i] == results;
  }

  lemma {:induction false} BoxesCommandsAppend(names: map<int, string>, a: seq<Detection>, b: seq<Detection>,
                                               frameHeight: int, measure: Measure)
    ensures BoxesCommands(names, a + b, frameHeight, measure) ==
            BoxesCommands(names, a, frameHeight, measure) + BoxesCommands(names, b, frameHeight, measure)
    decreases |b|
  {
    if b == [] {
      assert a + b == a;
    } else {
      var n := |b| - 1;
      assert (a + b)[..|a + b| - 1] == a + b[..n];
      BoxesCommandsAppend(names, a, b[..n], frameHeight, measure);
    }
  }

  /**
   * The three outcomes for one box: nothing unless its class is known and it
   * is confident; the outline alone when the background would reach the
   * bottom row; otherwise the outline, the background and the text, with the
   * text vertically inside the background.
   */
  lemma BoxOutcomes(names: map<int, string>, d: Detection, frameHeight: int, measure: Measure)
    ensures var cs := BoxCommands(names, d, frameHeight, measure);
      && (cs == [] <==> d.cls !in names || !Confident(d.conf))
      && (cs != [] ==> cs[0] == Outline(d.box.x1, d.box.y1, d.box.x2, d.box.y2, BoxColor, BoxThickness))
      && (|cs| == 0 || |cs| == 1 || |cs| == 3)
    ensures d.cls in names && Confident(d.conf) ==>
      var caption := Label(names[d.cls], RoundedConfidence(d.conf));
      var ext := measure(caption);
      var p := BelowBox(d.box, ext);
      var cs := BoxCommands(names, d, frameHeight, measure);
      && (|cs| == 3 <==> p.bgBottom < frameHeight)
      && (|cs| == 3 ==>
            && cs[1] == Fill(p.bgLeft, p.bgTop, p.bgRight, p.bgBottom, BackgroundColor)
            && cs[2] == Text(p.textX, p.textY, caption, TextColor)
            && cs[1].top <= cs[2].y && cs[2].y + ext.h <= cs[1].bottom)
  {
  }

  /** Every box of every result appears in the flattened sequence, and nothing else does. */
  lemma {:induction false} AllDetectionsMembers(results: seq<FrameResult>)
    ensures forall d :: d in AllDetections(results) <==> exists r :: r in results && d in r.boxes
  {
    if results != [] {
      var n := |results| - 1;
      AllDetectionsMembers(results[..n]);
      assert results == results[..n] + [results[n]];
    }
  }

  /** Every call made for a sequence of boxes belongs to one confident box of a known class. */
  lemma {:induction false} BoxesCommandsOnlyConfident(names: map<int, string>, ds: seq<Detection>,
                                                      frameHeight: int, measure: Measure)
    ensures forall c :: c in BoxesCommands(names, ds, frameHeight, measure) ==>
      exists d :: d in ds && d.cls in names && Confident(d.conf) && c in BoxCommands(names, d, frameHeight, measure)
  {
    if ds != [] {
      var n := |ds| - 1;
      BoxesCommandsOnlyConfident(names, ds[..n], frameHeight, measure);
      assert ds[n] in ds;
      assert forall d :: d in ds[..n] ==> d in ds;
    }
  }

  /**
   * Nothing is drawn for a box whose rounded confidence is below the
   * threshold: every call on the frame belongs to a confident box.
   */
  lemma FrameOnlyConfident(names: map<int, string>, results: seq<FrameResult>, frameHeight: int, measure: Measure)
    ensures forall c :: c in FrameCommands(names, results, frameHeight, measure) ==>
      exists r, d :: r in results && d in r.boxes && d.cls in names && Confident(d.conf) &&
                     c in BoxCommands(names, d, frameHeight, measure)
  {
    BoxesCommandsOnlyConfident(names, AllDetections(results), frameHeight, measure);
    AllDetectionsMembers(results);
  }

  /** Every label background drawn on a frame starts at or right of the left edge and ends above the bottom row. */
  lemma {:induction false} BackgroundsInsideFrame(names: map<int, string>, ds: seq<Detection>,
                                                  frameHeight: int, measure: Measure)
    ensures forall c :: c in BoxesCommands(names, ds, frameHeight, measure) && c.Fill? ==>
      c.left >= 0 && c.bottom < frameHeight
  {
    if ds != [] {
      BackgroundsInsideFrame(names, ds[..|ds| - 1], frameHeight, measure);
    }
  }

  /**
   * The two placements disagree on which side of the box the label goes: this
   * script's background starts strictly below the box, the visualizer's
   * starts at or above the box's top edge.
   */
  lemma BelowVersusAbove(box: Box, ext: Extent)
    requires ext.h >= 0
    ensures BelowBox(box, ext).bgTop > box.y2
    ensures Visualizer.LabelBackground(box, ext).top <= box.y1
  {
  }
}
