/** bbox_view.py: the three `draw_boxes_*` loops. The image they draw on is modelled as the list
    of drawing calls made on it, each rectangle given by its clamped corners. */
module BBoxView {
  import opened Wrappers
  import opened Markup

  /** A polygon vertex of a JSON OCR response. */
  datatype Point = Point(x: real, y: real)

  /** One entry `[polygon, [text, score]]` of `text_content`. */
  datatype Detection = Detection(polygon: seq<Point>, text: string, score: string)

  /** A drawing call: `cv2.rectangle` with two corners, or `cv2ImgAddText` at a position. */
  datatype DrawOp = Outline(left: int, top: int, right: int, bottom: int) | Caption(text: string, x: int, y: int)

  /** The `(rec, image)` pair every draw function returns. */
  datatype Rendering = Rendering(rec: real, ops: seq<DrawOp>)

  /** Why a detection raises inside the loop. */
  datatype Fault = MissingCorner | BadScore

  /** The exception that ends a draw function: the fault of the first faulty detection, or the
      `ZeroDivisionError` of `rec_score / n` when there is no detection. */
  datatype DrawError = Malformed(fault: Fault) | DivisionByZero

  /** Python's `int(v)` on a float: truncation toward zero. */
  function Trunc(v: real): int
  {
    if v >= 0.0 then v.Floor else -((-v).Floor)
  }

  /** `Trunc` drops the fractional part: it moves toward zero by less than one. */
  lemma TruncTowardZero(v: real)
    ensures 0.0 <= v ==> 0 <= Trunc(v) && Trunc(v) as real <= v < Trunc(v) as real + 1.0
    ensures v < 0.0 ==> Trunc(v) <= 0 && v <= Trunc(v) as real && Trunc(v) as real - 1.0 < v
  {
  }

  function Max(a: int, b: int): int { if a >= b then a else b }
  function Min(a: int, b: int): int { if a <= b then a else b }

  /** The `cv2.rectangle` call: corners `(max(0, x1), max(0, y1))` and `(min(w, x2), min(h, y2))`.
      Each corner is bounded on one side only: a corner left of the origin moves onto it, one right
      of the frame moves onto its edge. */
  function Clamp(x1: int, y1: int, x2: int, y2: int, w: int, h: int): (op: DrawOp)
    ensures op.Outline?
    ensures 0 <= op.left && 0 <= op.top && op.right <= w && op.bottom <= h
    ensures 0 <= x1 ==> op.left == x1
    ensures 0 <= y1 ==> op.top == y1
    ensures x2 <= w ==> op.right == x2
    ensures y2 <= h ==> op.bottom == y2
    ensures x1 < 0 ==> op.left == 0
    ensures y1 < 0 ==> op.top == 0
    ensures w < x2 ==> op.right == w
    ensures h < y2 ==> op.bottom == h
  {
    Outline(Max(0, x1), Max(0, y1), Min(w, x2), Min(h, y2))
  }

  /** A clamped rectangle is non-degenerate exactly when the raw one is and it meets the frame. */
  lemma ClampOrdered(x1: int, y1: int, x2: int, y2: int, w: nat, h: nat)
    ensures var op := Clamp(x1, y1, x2, y2, w, h);
      (op.left <= op.right <==> x1 <= x2 && x1 <= w && 0 <= x2) &&
      (op.top <= op.bottom <==> y1 <= y2 && y1 <= h && 0 <= y2)
  {
  }

  /** A rectangle that is ordered and meets the frame is clamped to one lying wholly inside it. */
  lemma ClampInside(x1: int, y1: int, x2: int, y2: int, w: nat, h: nat)
    requires x1 <= x2 && x1 <= w && 0 <= x2
    requires y1 <= y2 && y1 <= h && 0 <= y2
    ensures var op := Clamp(x1, y1, x2, y2, w, h);
      0 <= op.left <= op.right <= w && 0 <= op.top <= op.bottom <= h
  {
    ClampOrdered(x1, y1, x2, y2, w, h);
  }

  /** The calls made for one box: the rectangle, then (with `text_view`) the text 10 pixels left
      of and 5 pixels above its clamped top-left corner. */
  function Marks(rect: DrawOp, text: string, textView: bool): seq<DrawOp>
    requires rect.Outline?
  {
    [rect] + if textView then [Caption(text, rect.left - 10, rect.top - 5)] else []
  }

  /** The rectangle of a detection: its first and third polygon points, truncated and clamped. */
  function DetectionRect(d: Detection, w: int, h: int): (op: DrawOp)
    requires |d.polygon| >= 3
    ensures op.Outline? && 0 <= op.left && 0 <= op.top && op.right <= w && op.bottom <= h
    ensures var x1, y1 := Trunc(d.polygon[0].x), Trunc(d.polygon[0].y);
      op.left == (if x1 < 0 then 0 else x1) && op.top == (if y1 < 0 then 0 else y1)
    ensures var x2, y2 := Trunc(d.polygon[2].x), Trunc(d.polygon[2].y);
      op.right == (if w < x2 then w else x2) && op.bottom == (if h < y2 then h else y2)
  {
    var first, last := d.polygon[0], d.polygon[2];
    Clamp(Trunc(first.x), Trunc(first.y), Trunc(last.x), Trunc(last.y), w, h)
  }

  /** Only the first and third polygon points decide the rectangle: the others are ignored. */
  lemma DetectionRectCorners(d: Detection, e: Detection, w: int, h: int)
    requires |d.polygon| >= 3 && |e.polygon| >= 3
    requires d.polygon[0] == e.polygon[0] && d.polygon[2] == e.polygon[2]
    ensures DetectionRect(d, w, h) == DetectionRect(e, w, h)
  {
  }

  /** What stops the loop at detection `d`: a polygon without a third point (read on every
      iteration), or a score that `float` rejects (read only when the score is used). */
  function DetectionFault(d: Detection, scored: bool, parseScore: string -> Option<real>): Option<Fault>
  {
    if |d.polygon| < 3 then Some(MissingCorner)
    else if scored && parseScore(d.score).None? then Some(BadScore)
    else None
  }

  /** None of the first `n` detections raises. */
  ghost predicate SoundUpTo(ds: seq<Detection>, n: int, scored: bool, parseScore: string -> Option<real>)
  {
    forall j :: 0 <= j < n && j < |ds| ==> DetectionFault(ds[j], scored, parseScore).None?
  }

  /** Detection `i` is the first one that raises, with fault `f`. */
  ghost predicate FirstFault(ds: seq<Detection>, scored: bool, parseScore: string -> Option<real>, i: int, f: Fault)
  {
    0 <= i < |ds| && DetectionFault(ds[i], scored, parseScore) == Some(f) && SoundUpTo(ds, i, scored, parseScore)
  }

  /** The drawing calls made for the first `n` detections, in order. */
  function Drawing(ds: seq<Detection>, n: nat, w: int, h: int, boxOutput: bool, textView: bool): seq<DrawOp>
    requires n <= |ds|
    requires forall j :: 0 <= j < n ==> |ds[j].polygon| >= 3
  {
    if n == 0 then []
    else
      Drawing(ds, n - 1, w, h, boxOutput, textView) +
      if boxOutput then Marks(DetectionRect(ds[n - 1], w, h), ds[n - 1].text, textView) else []
  }

  /** Every rectangle drawn starts at or right of and below the origin and ends at or left of `w`
      and above `h`; without `box_output` nothing is drawn. */
  lemma {:induction false} DrawingInFrame(ds: seq<Detection>, n: nat, w: int, h: int, boxOutput: bool, textView: bool)
    requires n <= |ds|
    requires forall j :: 0 <= j < n ==> |ds[j].polygon| >= 3
    ensures forall op :: op in Drawing(ds, n, w, h, boxOutput, textView) && op.Outline? ==>
      0 <= op.left && 0 <= op.top && op.right <= w && op.bottom <= h
    ensures !boxOutput ==> Drawing(ds, n, w, h, boxOutput, textView) == []
  {
    if n > 0 {
      DrawingInFrame(ds, n - 1, w, h, boxOutput, textView);
      var front := Drawing(ds, n - 1, w, h, boxOutput, textView);
      forall op | op in Drawing(ds, n, w, h, boxOutput, textView) && op.Outline?
        ensures 0 <= op.left && 0 <= op.top && op.right <= w && op.bottom <= h
      {
        if op !in front {
          assert op == DetectionRect(ds[n - 1], w, h);
        }
      }
    }
  }

  /** With `box_output`, one rectangle is drawn per detection, and one caption too with `text_view`. */
  lemma {:induction false} DrawingSize(ds: seq<Detection>, n: nat, w: int, h: int, boxOutput: bool, textView: bool)
    requires n <= |ds|
    requires forall j :: 0 <= j < n ==> |ds[j].polygon| >= 3
    ensures |Drawing(ds, n, w, h, boxOutput, textView)| ==
      if !boxOutput then 0 else if textView then 2 * n else n
  {
    if n > 0 {
      DrawingSize(ds, n - 1, w, h, boxOutput, textView);
    }
  }

  /** With `box_output`, detection `j` gives the drawing call at position `j`, or the two at
      positions `2j` and `2j + 1` with `text_view`: its rectangle, then its text 10 pixels left of
      and 5 pixels above the rectangle's top-left corner. */
  lemma {:induction false} DrawingAt(ds: seq<Detection>, n: nat, w: int, h: int, textView: bool, j: nat)
    requires n <= |ds|
    requires forall i :: 0 <= i < n ==> |ds[i].polygon| >= 3
    requires j < n
    ensures var ops, rect := Drawing(ds, n, w, h, true, textView), DetectionRect(ds[j], w, h);
      if textView then
        |ops| == 2 * n && ops[2 * j] == rect && ops[2 * j + 1] == Caption(ds[j].text, rect.left - 10, rect.top - 5)
      else
        |ops| == n && ops[j] == rect
  {
    DrawingSize(ds, n - 1, w, h, true, textView);
    if j < n - 1 {
      DrawingAt(ds, n - 1, w, h, textView, j);
    }
  }

  /** The sum of the scores of the first `n` detections, as `float` parses them. */
  function ScoreTotal(ds: seq<Detection>, n: nat, parseScore: string -> Option<real>): real
    requires n <= |ds|
    requires forall j :: 0 <= j < n ==> parseScore(ds[j].score).Some?
  {
    if n == 0 then 0.0 else ScoreTotal(ds, n - 1, parseScore) + parseScore(ds[n - 1].score).value
  }

  /** Scores that all lie in `[lo, hi]` have a total between `n * lo` and `n * hi`, so their mean
      lies in `[lo, hi]` too. */
  lemma {:induction false} ScoreTotalBounds(ds: seq<Detection>, n: nat, parseScore: string -> Option<real>, lo: real, hi: real)
    requires n <= |ds|
    requires forall j :: 0 <= j < n ==> parseScore(ds[j].score).Some?
    requires forall j :: 0 <= j < n ==> lo <= parseScore(ds[j].score).value <= hi
    ensures lo * n as real <= ScoreTotal(ds, n, parseScore) <= hi * n as real
  {
    if n > 0 {
      ScoreTotalBounds(ds, n - 1, parseScore, lo, hi);
      assert lo * n as real == lo * (n - 1) as real + lo;
      assert hi * n as real == hi * (n - 1) as real + hi;
    }
  }

  /** Real division by a non-zero count. */
  function Ratio(total: real, n: int): real
    requires n != 0
  {
    total / n as real
  }

  /** The mean of scores that all lie in `[lo, hi]` lies in `[lo, hi]`. */
  lemma MeanBounds(ds: seq<Detection>, n: nat, parseScore: string -> Option<real>, lo: real, hi: real)
    requires 0 < n <= |ds|
    requires forall j :: 0 <= j < n ==> parseScore(ds[j].score).Some?
    requires forall j :: 0 <= j < n ==> lo <= parseScore(ds[j].score).value <= hi
    ensures lo <= Ratio(ScoreTotal(ds, n, parseScore), n) <= hi
  {
    ScoreTotalBounds(ds, n, parseScore, lo, hi);
    RatioBounds(ScoreTotal(ds, n, parseScore), n, lo, hi);
  }

  /** A total between `n * lo` and `n * hi` gives a ratio between `lo` and `hi`. */
  lemma RatioBounds(total: real, n: nat, lo: real, hi: real)
    requires n > 0
    requires lo * n as real <= total <= hi * n as real
    ensures lo <= Ratio(total, n) <= hi
  {
    var q := Ratio(total, n);
    var m := n as real;
    assert q * m == total;
    assert (q - lo) * m == q * m - lo * m;
    assert (hi - q) * m == hi * m - q * m;
    NonNegativeFactor(q - lo, m);
    NonNegativeFactor(hi - q, m);
  }

  lemma NonNegativeFactor(a: real, b: real)
    requires b > 0.0 && a * b >= 0.0
    ensures a >= 0.0
  {
  }

  /** Python's `total / n`: a `ZeroDivisionError` when `n` is 0. */
  method TrueDivide(total: real, n: int) returns (r: Result<real, DrawError>)
    ensures r.Failure? <==> n == 0
    ensures r.Failure? ==> r.error == DivisionByZero
    ensures r.Success? ==> r.value == Ratio(total, n)
    ensures r.Success? && total == 0.0 ==> r.value == 0.0
  {
    if n == 0 {
      return Failure(DivisionByZero);
    }
    r := Success(Ratio(total, n));
  }

  /** `draw_boxes_gil`: returns `(rec, image, text_list)`. `score` is assigned only under
      `box_output`, so without it every detection adds 0 to `rec_score`. */
  method DrawBoxesGil(boxes: seq<Detection>, w: int, h: int, boxOutput: bool, textView: bool, textOutput: bool,
                      parseScore: string -> Option<real>)
    returns (r: Result<(Rendering, seq<string>), DrawError>)
    ensures r.Success? <==> |boxes| > 0 && SoundUpTo(boxes, |boxes|, boxOutput, parseScore)
    ensures r == Failure(DivisionByZero) <==> |boxes| == 0
    ensures r.Failure? && r.error.Malformed? ==>
      exists i :: FirstFault(boxes, boxOutput, parseScore, i, r.error.fault)
    ensures r.Success? ==>
      r.value.0.rec == (if boxOutput then Ratio(ScoreTotal(boxes, |boxes|, parseScore), |boxes|) else 0.0)
    ensures r.Success? ==> r.value.0.ops == Drawing(boxes, |boxes|, w, h, boxOutput, textView)
    ensures r.Success? && textOutput ==>
      |r.value.1| == |boxes| && forall j :: 0 <= j < |boxes| ==> r.value.1[j] == boxes[j].text
    ensures r.Success? && !textOutput ==> r.value.1 == []
  {
    var n := 0;
    var score := 0.0;
    var recScore := 0.0;
    var textList: seq<string> := [];
    var ops: seq<DrawOp> := [];
    for i := 0 to |boxes|
      invariant n == i
      invariant SoundUpTo(boxes, i, boxOutput, parseScore)
      invariant ops == Drawing(boxes, i, w, h, boxOutput, textView)
      invariant textOutput ==> |textList| == i && forall j :: 0 <= j < i ==> textList[j] == boxes[j].text
      invariant !textOutput ==> textList == []
      invariant recScore == if boxOutput then ScoreTotal(boxes, i, parseScore) else 0.0
      invariant !boxOutput ==> score == 0.0
    {
      var box := boxes[i];
      if |box.polygon| < 3 {
        assert FirstFault(boxes, boxOutput, parseScore, i, MissingCorner);
        return Failure(Malformed(MissingCorner));
      }
      if boxOutput {
        var rect := DetectionRect(box, w, h);
        ops := ops + [rect];
        var parsed := parseScore(box.score);
        if parsed.None? {
          assert FirstFault(boxes, boxOutput, parseScore, i, BadScore);
          return Failure(Malformed(BadScore));
        }
        score := parsed.value;
        if textView {
          ops := ops + [Caption(box.text, rect.left - 10, rect.top - 5)];
        }
      }
      if textOutput {
        textList := textList + [box.text];
      }
      n := n + 1;
      recScore := recScore + score;
    }
    var rec := TrueDivide(recScore, n);
    if rec.Failure? {
      return Failure(rec.error);
    }
    r := Success((Rendering(rec.value, ops), textList));
  }

  /** `draw_boxes_hs`: the boxes sit under `data["data"]["text_content"]`; every box is drawn and
      its score always parsed, and `rec` is the mean score. */
  method DrawBoxesHs(boxes: seq<Detection>, w: int, h: int, textView: bool, parseScore: string -> Option<real>)
    returns (r: Result<Rendering, DrawError>)
    ensures r.Success? <==> |boxes| > 0 && SoundUpTo(boxes, |boxes|, true, parseScore)
    ensures r == Failure(DivisionByZero) <==> |boxes| == 0
    ensures r.Failure? && r.error.Malformed? ==>
      exists i :: FirstFault(boxes, true, parseScore, i, r.error.fault)
    ensures r.Success? ==> r.value.rec == Ratio(ScoreTotal(boxes, |boxes|, parseScore), |boxes|)
    ensures r.Success? ==> r.value.ops == Drawing(boxes, |boxes|, w, h, true, textView)
  {
    var n := 0;
    var recScore := 0.0;
    var ops: seq<DrawOp> := [];
    for i := 0 to |boxes|
      invariant n == i
      invariant SoundUpTo(boxes, i, true, parseScore)
      invariant ops == Drawing(boxes, i, w, h, true, textView)
      invariant recScore == ScoreTotal(boxes, i, parseScore)
    {
      var box := boxes[i];
      if |box.polygon| < 3 {
        assert FirstFault(boxes, true, parseScore, i, MissingCorner);
        return Failure(Malformed(MissingCorner));
      }
      var rect := DetectionRect(box, w, h);
      ops := ops + [rect];
      var parsed := parseScore(box.score);
      if parsed.None? {
        assert FirstFault(boxes, true, parseScore, i, BadScore);
        return Failure(Malformed(BadScore));
      }
      if textView {
        ops := ops + [Caption(box.text, rect.left - 10, rect.top - 5)];
      }
      n := n + 1;
      recScore := recScore + parsed.value;
    }
    var rec := TrueDivide(recScore, n);
    if rec.Failure? {
      return Failure(rec.error);
    }
    r := Success(Rendering(rec.value, ops));
  }

  /** The drawing calls for the first `n` markup records: each record's box, clamped, then its
      text if asked. */
  function ItemDrawing(items: seq<TagItem>, n: nat, w: int, h: int, textView: bool): seq<DrawOp>
    requires n <= |items|
  {
    if n == 0 then []
    else
      var b := items[n - 1].box;
      ItemDrawing(items, n - 1, w, h, textView) + Marks(Clamp(b.x1, b.y1, b.x2, b.y2, w, h), items[n - 1].text, textView)
  }

  /** Every rectangle drawn for the markup records has its top-left corner at or past the origin
      and its bottom-right corner at or before `(w, h)`; there is one call per record, two with
      `text_view`. */
  lemma {:induction false} ItemDrawingInFrame(items: seq<TagItem>, n: nat, w: int, h: int, textView: bool)
    requires n <= |items|
    ensures forall op :: op in ItemDrawing(items, n, w, h, textView) && op.Outline? ==>
      0 <= op.left && 0 <= op.top && op.right <= w && op.bottom <= h
    ensures |ItemDrawing(items, n, w, h, textView)| == if textView then 2 * n else n
  {
    if n > 0 {
      ItemDrawingInFrame(items, n - 1, w, h, textView);
      var b := items[n - 1].box;
      var rect := Clamp(b.x1, b.y1, b.x2, b.y2, w, h);
      forall op | op in ItemDrawing(items, n, w, h, textView) && op.Outline?
        ensures 0 <= op.left && 0 <= op.top && op.right <= w && op.bottom <= h
      {
        if op !in ItemDrawing(items, n - 1, w, h, textView) {
          assert op == rect;
        }
      }
    }
  }

  /** Record `j` gives the drawing call at position `j`, or the two at positions `2j` and `2j + 1`
      with `text_view`: its box clamped to the frame, then its text beside the clamped corner. */
  lemma {:induction false} ItemDrawingAt(items: seq<TagItem>, n: nat, w: int, h: int, textView: bool, j: nat)
    requires n <= |items|
    requires j < n
    ensures var ops, b := ItemDrawing(items, n, w, h, textView), items[j].box;
      var rect := Clamp(b.x1, b.y1, b.x2, b.y2, w, h);
      if textView then
        |ops| == 2 * n && ops[2 * j] == rect && ops[2 * j + 1] == Caption(items[j].text, rect.left - 10, rect.top - 5)
      else
        |ops| == n && ops[j] == rect
  {
    ItemDrawingInFrame(items, n - 1, w, h, textView);
    if j < n - 1 {
      ItemDrawingAt(items, n - 1, w, h, textView, j);
    }
  }

  /** `draw_boxes_dmp`: the records are `get_tag(soup, 'td') + get_tag(soup, 'p')`, each is drawn,
      and since nothing is ever added to `rec_score`, `rec` is 0 whenever there is a record. */
  method DrawBoxesDmp(doc: seq<Element>, w: int, h: int, textView: bool, parse: string -> Option<int>)
    returns (r: Result<Rendering, DrawError>)
    ensures r.Failure? <==> MarkupItems(doc, parse) == []
    ensures r.Failure? ==> r.error == DivisionByZero
    ensures r.Success? ==>
      r.value == Rendering(0.0, ItemDrawing(MarkupItems(doc, parse), |MarkupItems(doc, parse)|, w, h, textView))
  {
    var tdItem := GetTag(doc, "td", parse);
    var pItem := GetTag(doc, "p", parse);
    var allItem := tdItem + pItem;
    var n := 0;
    var recScore := 0.0;
    var ops: seq<DrawOp> := [];
    for i := 0 to |allItem|
      invariant n == i
      invariant ops == ItemDrawing(allItem, i, w, h, textView)
    {
      var item := allItem[i];
      var rect := Clamp(item.box.x1, item.box.y1, item.box.x2, item.box.y2, w, h);
      ops := ops + [rect];
      if textView {
        ops := ops + [Caption(item.text, rect.left - 10, rect.top - 5)];
      }
      n := n + 1;
    }
    var rec := TrueDivide(recScore, n);
    if rec.Failure? {
      return Failure(rec.error);
    }
    r := Success(Rendering(rec.value, ops));
  }
}
