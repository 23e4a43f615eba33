/** Turning extracted boxes into rectangle shapes. Three call sites do it, each
    in its own way, and each is kept as written:
    - the chat dialog's entry conversion scales normalized boxes, then clamps;
    - the conversion script clamps, then orders the corners;
    - the reply-to-file path of the chat dialog only clamps. */
module Shapes {
  import opened JsonValues
  import opened Scanners
  import opened Extraction

  datatype Point = Point(x: real, y: real)

  /** A rectangle shape: its label as found in the item, and its corners. */
  datatype Shape = Shape(name: Json, points: seq<Point>)

  /** What one loop iteration does with an item: skip it, emit a shape, or
      raise (which aborts the whole conversion). */
  datatype Step = Skip | Emit(shape: Shape) | Raise

  /** `max(0, min(v, hi))`. */
  function Clamp(v: real, hi: real): (r: real)
    requires 0.0 <= hi
    ensures 0.0 <= r <= hi
    ensures 0.0 <= v <= hi ==> r == v
    ensures v < 0.0 ==> r == 0.0
    ensures hi < v ==> r == hi
  {
    if v < hi then (if v < 0.0 then 0.0 else v) else (if hi < 0.0 then 0.0 else hi)
  }

  /** The four corners in top-left, top-right, bottom-right, bottom-left
      order of the box with opposite corners (x1, y1) and (x2, y2). */
  function Corners(x1: real, y1: real, x2: real, y2: real): (r: seq<Point>)
    ensures |r| == 4 && IsRectangle(r)
    ensures r[0] == Point(x1, y1) && r[2] == Point(x2, y2)
  {
    [Point(x1, y1), Point(x2, y1), Point(x2, y2), Point(x1, y2)]
  }

  /** The corners of the box `[x1, y1, x2, y2]` once each coordinate is
      clamped to the image, in the order the box names them. */
  function ClampedCorners(b: seq<real>, w: real, h: real): (r: seq<Point>)
    requires |b| == 4 && 0.0 <= w && 0.0 <= h
    ensures IsRectangle(r) && InImage(r, w, h)
  {
    Corners(Clamp(b[0], w), Clamp(b[1], h), Clamp(b[2], w), Clamp(b[3], h))
  }

  /** Four points that go round an axis-aligned rectangle. */
  predicate IsRectangle(ps: seq<Point>) {
    |ps| == 4
    && ps[0].y == ps[1].y && ps[1].x == ps[2].x && ps[2].y == ps[3].y && ps[3].x == ps[0].x
  }

  predicate InImage(ps: seq<Point>, w: real, h: real) {
    forall k :: 0 <= k < |ps| ==> 0.0 <= ps[k].x <= w && 0.0 <= ps[k].y <= h
  }

  /** The box `[x1, y1, x2, y2]` of an item when it is a list of four numbers;
      `None` when unpacking it or comparing its elements raises. */
  function FourNumbers(bbox: Json): (r: Option<seq<real>>)
    ensures r.Some? ==> |r.value| == 4
    ensures r.Some? <==> bbox.JArray? && |bbox.items| == 4 && AllNumeric(bbox.items)
  {
    if bbox.JArray? && |bbox.items| == 4 && AllNumeric(bbox.items) then Some(Values(bbox.items)) else None
  }

  lemma FourNumbersOf(a: real, b: real, c: real, d: real)
    ensures FourNumbers(JArray([JNum(a), JNum(b), JNum(c), JNum(d)])) == Some([a, b, c, d])
  {
    var xs := [JNum(a), JNum(b), JNum(c), JNum(d)];
    assert AllNumeric(xs);
    var r := Values(xs);
    assert Coordinate(xs[0]) == Some(r[0]) && Coordinate(xs[1]) == Some(r[1]);
    assert Coordinate(xs[2]) == Some(r[2]) && Coordinate(xs[3]) == Some(r[3]);
    assert r == [a, b, c, d];
  }

  /** Applies the steps of a loop in order; a raise aborts the loop. */
  function Run(steps: seq<Step>): (r: Option<seq<Shape>>)
    ensures r.Some? ==> |r.value| <= |steps|
    ensures r.None? <==> Raise in steps
  {
    if steps == [] then Some([])
    else match (steps[0], Run(steps[1..]))
      case (Raise, _) => None
      case (_, None) => None
      case (Skip, Some(rest)) => Some(rest)
      case (Emit(s), Some(rest)) => Some([s] + rest)
  }

  /** Emitted shapes keep the order of the items they come from. */
  lemma {:induction false} RunAppend(a: seq<Step>, b: seq<Step>)
    requires Raise !in a && Raise !in b
    ensures Run(a + b) == Some(Run(a).value + Run(b).value)
  {
    if a == [] {
      assert a + b == b;
      assert Run(a) == Some([]) && Run(b).Some?;
      assert [] + Run(b).value == Run(b).value;
    } else {
      assert (a + b)[0] == a[0] && (a + b)[1..] == a[1..] + b;
      assert Raise !in a[1..];
      RunAppend(a[1..], b);
      var rest, tail := Run(a[1..]).value, Run(b).value;
      match a[0]
      case Skip =>
      case Emit(s) =>
        assert [s] + (rest + tail) == ([s] + rest) + tail;
    }
  }

  /** One more step that does not raise adds its shape, if any, at the end. */
  lemma PrefixSnoc<T>(xs: seq<T>, i: nat)
    requires i < |xs|
    ensures xs[..i + 1] == xs[..i] + [xs[i]]
  {
  }

  lemma RunSnoc(steps: seq<Step>, last: Step)
    requires Raise !in steps && last != Raise
    ensures Run(steps + [last]) == Some(Run(steps).value + Emitted(last))
  {
    assert [last][1..] == [] && Run([last][1..]) == Some([]);
    if last.Emit? {
      assert Run([last]) == Some([last.shape] + []) && [last.shape] + [] == [last.shape];
    }
    RunAppend(steps, [last]);
  }

  function Emitted(step: Step): seq<Shape> {
    if step.Emit? then [step.shape] else []
  }

  /** A shape is in the result exactly when some item emitted it. */
  lemma {:induction false} RunEmits(steps: seq<Step>, s: Shape)
    requires Raise !in steps
    ensures s in Run(steps).value <==> Emit(s) in steps
  {
    if steps != [] {
      RunEmits(steps[1..], s);
      assert steps == [steps[0]] + steps[1..];
    }
  }

  // ---------------------------------------------------------------------------
  // Chat dialog, entry conversion: scale normalized boxes, then clamp

  /** The size used when the converter reports a zero dimension. */
  function EffectiveSize(w: int, h: int): (r: (int, int))
    ensures w == 0 || h == 0 ==> r == (1024, 538)
    ensures w != 0 && h != 0 ==> r == (w, h)
  {
    if w == 0 || h == 0 then (1024, 538) else (w, h)
  }

  /** A box all of whose coordinates lie in [0, 1] is taken as normalized. */
  predicate Normalized(b: seq<real>) {
    forall k :: 0 <= k < |b| ==> 0.0 <= b[k] <= 1.0
  }

  /** The pixel box of `[x1, y1, x2, y2]`: scaled by the image size when
      normalized, unchanged otherwise. */
  function ToPixels(b: seq<real>, w: real, h: real): (r: seq<real>)
    requires |b| == 4
    ensures |r| == 4
  {
    if Normalized(b) then [Scale(b[0], w), Scale(b[1], h), Scale(b[2], w), Scale(b[3], h)] else b
  }

  /** A normalized coordinate times the image dimension. */
  function Scale(v: real, size: real): (r: real)
    ensures 0.0 <= v <= 1.0 && 0.0 <= size ==> 0.0 <= r <= size
  {
    assert 0.0 <= v <= 1.0 && 0.0 <= size ==> v * size <= 1.0 * size by {
      if 0.0 <= v <= 1.0 && 0.0 <= size {
        assert (1.0 - v) * size >= 0.0;
      }
    }
    v * size
  }

  /** One item of the entry conversion: label defaults to "object" and box to
      `[]`; a box whose length is not 4 is skipped; one with four numbers is
      scaled if normalized, clamped, and expanded to its corners. */
  function ScaledStep(item: Fields, w: int, h: int): (r: Step)
    requires 0 <= w && 0 <= h
  {
    var name := Get(item, "label", JString("object"));
    var bbox := Get(item, "bbox_2d", JArray([]));
    match Len(bbox)
    case None => Raise
    case Some(n) =>
      if n != 4 then Skip
      else match FourNumbers(bbox)
        case None => Raise
        case Some(b) =>
          var p := ToPixels(b, w as real, h as real);
          Emit(Shape(name, ClampedCorners(p, w as real, h as real)))
  }

  function ScaledSteps(items: seq<Fields>, w: int, h: int): (r: seq<Step>)
    requires 0 <= w && 0 <= h
    ensures |r| == |items|
    ensures forall k :: 0 <= k < |items| ==> r[k] == ScaledStep(items[k], w, h)
  {
    if items == [] then [] else [ScaledStep(items[0], w, h)] + ScaledSteps(items[1..], w, h)
  }

  /** The shapes loop of the chat dialog's entry conversion; `None` when an
      item raises. */
  function ScaledShapes(items: seq<Fields>, w: int, h: int): Option<seq<Shape>>
    requires 0 <= w && 0 <= h
  {
    Run(ScaledSteps(items, w, h))
  }

  /** Every emitted shape is a rectangle inside the image, whatever the
      input coordinates. */
  lemma ScaledShapesInImage(items: seq<Fields>, w: int, h: int)
    requires 0 <= w && 0 <= h
    requires ScaledShapes(items, w, h).Some?
    ensures forall s :: s in ScaledShapes(items, w, h).value
              ==> IsRectangle(s.points) && InImage(s.points, w as real, h as real)
  {
    var steps := ScaledSteps(items, w, h);
    forall s | s in ScaledShapes(items, w, h).value
      ensures IsRectangle(s.points) && InImage(s.points, w as real, h as real)
    {
      RunEmits(steps, s);
      var k :| 0 <= k < |steps| && steps[k] == Emit(s);
      assert ScaledStep(items[k], w, h) == Emit(s);
    }
  }

  /** A normalized box is scaled to the image: the box `[a, b, c, d]` with all
      four in [0, 1] becomes the rectangle from (a*w, b*h) to (c*w, d*h). */
  lemma NormalizedBoxScales(name: Json, a: real, b: real, c: real, d: real, w: int, h: int)
    requires 0 <= w && 0 <= h
    requires 0.0 <= a <= 1.0 && 0.0 <= b <= 1.0 && 0.0 <= c <= 1.0 && 0.0 <= d <= 1.0
    ensures ScaledStep(map["label" := name, "bbox_2d" := JArray([JNum(a), JNum(b), JNum(c), JNum(d)])], w, h)
            == Emit(Shape(name, Corners(Scale(a, w as real), Scale(b, h as real), Scale(c, w as real), Scale(d, h as real))))
  {
    FourNumbersOf(a, b, c, d);
    var W, H := w as real, h as real;
    ScaledStepOfBox(name, JArray([JNum(a), JNum(b), JNum(c), JNum(d)]), w, h);
    ToPixelsNormalized(a, b, c, d, W, H);
    assert ClampedCorners([Scale(a, W), Scale(b, H), Scale(c, W), Scale(d, H)], W, H)
        == Corners(Scale(a, W), Scale(b, H), Scale(c, W), Scale(d, H));
  }

  lemma ToPixelsNormalized(a: real, b: real, c: real, d: real, w: real, h: real)
    requires 0.0 <= a <= 1.0 && 0.0 <= b <= 1.0 && 0.0 <= c <= 1.0 && 0.0 <= d <= 1.0
    ensures ToPixels([a, b, c, d], w, h) == [Scale(a, w), Scale(b, h), Scale(c, w), Scale(d, h)]
  {
    var q := [a, b, c, d];
    assert q[0] == a && q[1] == b && q[2] == c && q[3] == d;
    assert Normalized(q);
  }

  /** An item with a label and a box of four numbers emits the clamped
      corners of the box's pixel form. */
  lemma ScaledStepOfBox(name: Json, bbox: Json, w: int, h: int)
    requires 0 <= w && 0 <= h && FourNumbers(bbox).Some?
    ensures ScaledStep(map["label" := name, "bbox_2d" := bbox], w, h)
            == Emit(Shape(name, ClampedCorners(ToPixels(FourNumbers(bbox).value, w as real, h as real), w as real, h as real)))
  {
    var item := map["label" := name, "bbox_2d" := bbox];
    assert Get(item, "label", JString("object")) == name;
    assert Get(item, "bbox_2d", JArray([])) == bbox;
  }

  /** `[0.5, 0.5, 1.0, 1.0]` on a 1024 x 538 image is the pixel box from
      (512, 269) to (1024, 538). */
  lemma HalfBoxExample(name: Json)
    ensures ScaledStep(map["label" := name, "bbox_2d" := JArray([JNum(0.5), JNum(0.5), JNum(1.0), JNum(1.0)])], 1024, 538)
            == Emit(Shape(name, Corners(512.0, 269.0, 1024.0, 538.0)))
  {
    NormalizedBoxScales(name, 0.5, 0.5, 1.0, 1.0, 1024, 538);
    assert Scale(0.5, 1024.0) == 512.0 && Scale(0.5, 538.0) == 269.0;
    assert Scale(1.0, 1024.0) == 1024.0 && Scale(1.0, 538.0) == 538.0;
  }

  /** A box in pixel space is kept as it is when it lies inside the image. */
  lemma PixelBoxKept(name: Json, a: real, b: real, c: real, d: real, w: int, h: int)
    requires 0 <= w && 0 <= h && !Normalized([a, b, c, d])
    requires 0.0 <= a <= w as real && 0.0 <= c <= w as real && 0.0 <= b <= h as real && 0.0 <= d <= h as real
    ensures ScaledStep(map["label" := name, "bbox_2d" := JArray([JNum(a), JNum(b), JNum(c), JNum(d)])], w, h)
            == Emit(Shape(name, Corners(a, b, c, d)))
  {
    FourNumbersOf(a, b, c, d);
  }

  // ---------------------------------------------------------------------------
  // Conversion script: clamp, then order the corners

  /** One item of the script's loop: the box is unpacked into four numbers
      (anything else raises), clamped, and put in min/max order. */
  function OrderedStep(item: Fields, w: int, h: int): (r: Step)
    requires 0 <= w && 0 <= h
  {
    if !("bbox_2d" in item && "label" in item) then Skip
    else match FourNumbers(item["bbox_2d"])
      case None => Raise
      case Some(b) =>
        var x1, y1 := Clamp(b[0], w as real), Clamp(b[1], h as real);
        var x2, y2 := Clamp(b[2], w as real), Clamp(b[3], h as real);
        Emit(Shape(item["label"], Corners(Min(x1, x2), Min(y1, y2), Max(x1, x2), Max(y1, y2))))
  }

  function Min(a: real, b: real): real {
    if b < a then b else a
  }

  function Max(a: real, b: real): real {
    if a < b then b else a
  }

  function OrderedSteps(items: seq<Fields>, w: int, h: int): (r: seq<Step>)
    requires 0 <= w && 0 <= h
    ensures |r| == |items|
    ensures forall k :: 0 <= k < |items| ==> r[k] == OrderedStep(items[k], w, h)
  {
    if items == [] then [] else [OrderedStep(items[0], w, h)] + OrderedSteps(items[1..], w, h)
  }

  /** The shapes `convert_entry_to_xlabel` builds; `None` when an item raises. */
  function OrderedShapes(items: seq<Fields>, w: int, h: int): Option<seq<Shape>>
    requires 0 <= w && 0 <= h
  {
    Run(OrderedSteps(items, w, h))
  }

  /** A rectangle whose first corner is its top-left and third its
      bottom-right, inside the image. */
  predicate Ordered(ps: seq<Point>, w: real, h: real) {
    IsRectangle(ps) && 0.0 <= ps[0].x <= ps[2].x <= w && 0.0 <= ps[0].y <= ps[2].y <= h
  }

  /** Every shape of the script satisfies 0 <= xmin <= xmax <= width and
      0 <= ymin <= ymax <= height. */
  lemma OrderedShapesOrdered(items: seq<Fields>, w: int, h: int)
    requires 0 <= w && 0 <= h
    requires OrderedShapes(items, w, h).Some?
    ensures forall s :: s in OrderedShapes(items, w, h).value ==> Ordered(s.points, w as real, h as real)
  {
    var steps := OrderedSteps(items, w, h);
    forall s | s in OrderedShapes(items, w, h).value ensures Ordered(s.points, w as real, h as real) {
      RunEmits(steps, s);
      var k :| 0 <= k < |steps| && steps[k] == Emit(s);
      OrderedStepOrdered(items[k], w, h, s);
    }
  }

  lemma OrderedStepOrdered(item: Fields, w: int, h: int, s: Shape)
    requires 0 <= w && 0 <= h
    requires OrderedStep(item, w, h) == Emit(s)
    ensures Ordered(s.points, w as real, h as real)
  {
  }

  /** Ordering does not depend on which corner the box names first: the box
      `[x2, y2, x1, y1]` gives the same shape as `[x1, y1, x2, y2]`. */
  lemma OrderedStepSymmetric(name: Json, a: real, b: real, c: real, d: real, w: int, h: int)
    requires 0 <= w && 0 <= h
    ensures OrderedStep(map["label" := name, "bbox_2d" := JArray([JNum(a), JNum(b), JNum(c), JNum(d)])], w, h)
            == OrderedStep(map["label" := name, "bbox_2d" := JArray([JNum(c), JNum(d), JNum(a), JNum(b)])], w, h)
  {
    FourNumbersOf(a, b, c, d);
    FourNumbersOf(c, d, a, b);
  }

  // ---------------------------------------------------------------------------
  // Chat dialog, reply to file: clamp only

  /** One element of the decoded reply: a dict with both keys is unpacked
      and clamped; anything else is skipped. */
  function ClampedStep(item: Json, w: int, h: int): (r: Step)
    requires 0 <= w && 0 <= h
  {
    if !(item.JObject? && "bbox_2d" in item.fields && "label" in item.fields) then Skip
    else match FourNumbers(item.fields["bbox_2d"])
      case None => Raise
      case Some(b) =>
        Emit(Shape(item.fields["label"], ClampedCorners(b, w as real, h as real)))
  }

  function ClampedSteps(items: seq<Json>, w: int, h: int): (r: seq<Step>)
    requires 0 <= w && 0 <= h
    ensures |r| == |items|
    ensures forall k :: 0 <= k < |items| ==> r[k] == ClampedStep(items[k], w, h)
  {
    if items == [] then [] else [ClampedStep(items[0], w, h)] + ClampedSteps(items[1..], w, h)
  }

  /** The shapes loop over the decoded reply. Iterating a string or a dict
      yields strings, none of which is a dict, so it gives no shape; any
      other value is not iterable and raises. */
  function ClampedShapes(data: Json, w: int, h: int): Option<seq<Shape>>
    requires 0 <= w && 0 <= h
  {
    match data
    case JArray(xs) => Run(ClampedSteps(xs, w, h))
    case JString(_) => Some([])
    case JObject(_) => Some([])
    case _ => None
  }

  /** Clamping without ordering: each shape is a rectangle inside the image
      whose first corner is the clamped first corner of its box. */
  lemma ClampedShapesInImage(xs: seq<Json>, w: int, h: int)
    requires 0 <= w && 0 <= h
    requires ClampedShapes(JArray(xs), w, h).Some?
    ensures forall s :: s in ClampedShapes(JArray(xs), w, h).value
              ==> IsRectangle(s.points) && InImage(s.points, w as real, h as real)
  {
    var steps := ClampedSteps(xs, w, h);
    forall s | s in ClampedShapes(JArray(xs), w, h).value
      ensures IsRectangle(s.points) && InImage(s.points, w as real, h as real)
    {
      RunEmits(steps, s);
      var k :| 0 <= k < |steps| && steps[k] == Emit(s);
      assert ClampedStep(xs[k], w, h) == Emit(s);
    }
  }

  /** Unlike the script, the reply path keeps the corner order of the box:
      a box named bottom-right first gives a shape whose first corner is the
      bottom-right one. */
  lemma ClampedKeepsOrder(name: Json, a: real, b: real, c: real, d: real, w: int, h: int)
    requires 0 <= w && 0 <= h
    requires 0.0 <= c < a <= w as real && 0.0 <= d < b <= h as real
    ensures ClampedStep(JObject(map["label" := name, "bbox_2d" := JArray([JNum(a), JNum(b), JNum(c), JNum(d)])]), w, h)
            == Emit(Shape(name, Corners(a, b, c, d)))
    ensures OrderedStep(map["label" := name, "bbox_2d" := JArray([JNum(a), JNum(b), JNum(c), JNum(d)])], w, h)
            == Emit(Shape(name, Corners(c, d, a, b)))
  {
    FourNumbersOf(a, b, c, d);
  }

  // ---------------------------------------------------------------------------
  // The reply path chained

  /** `generate_xlabel_from_assistant_response` up to its shapes: the first
      fenced block, tagged `json` or untagged, that decodes is the box list;
      nothing is written (`None`) when there is no such block, when its value
      is falsy, or when the shapes loop raises. */
  function ReplyShapes(parse: Parser, reply: string, w: int, h: int): Option<seq<Shape>>
    requires 0 <= w && 0 <= h
  {
    var blocks := FencedBlocks(reply, JsonWord);
    match FirstParseable(parse, blocks)
    case None => None
    case Some(k) =>
      var data := parse(blocks[k]).value;
      if !Truthy(data) then None else ClampedShapes(data, w, h)
  }

  /** A reply is turned into shapes only through a fenced block that decodes
      to a truthy value, and every shape it gives is a rectangle inside the
      image. */
  lemma ReplyShapesInImage(parse: Parser, reply: string, w: int, h: int)
    requires 0 <= w && 0 <= h
    requires ReplyShapes(parse, reply, w, h).Some?
    ensures exists k :: 0 <= k < |FencedBlocks(reply, JsonWord)|
              && parse(FencedBlocks(reply, JsonWord)[k]).Some?
              && Truthy(parse(FencedBlocks(reply, JsonWord)[k]).value)
    ensures forall s :: s in ReplyShapes(parse, reply, w, h).value
              ==> IsRectangle(s.points) && InImage(s.points, w as real, h as real)
  {
    var blocks := FencedBlocks(reply, JsonWord);
    var k := FirstParseable(parse, blocks).value;
    var data := parse(blocks[k]).value;
    if data.JArray? {
      ClampedShapesInImage(data.items, w, h);
    }
  }

  /** A reply without a fence writes nothing. */
  lemma UnfencedReplyWritesNothing(parse: Parser, reply: string, w: int, h: int)
    requires 0 <= w && 0 <= h && '`' !in reply
    ensures ReplyShapes(parse, reply, w, h).None?
  {
    FencedSkip(reply, 0, |reply|, JsonWord);
    FencedTail(reply, |reply|, JsonWord);
  }

  /** The chat dialog's entry conversion up to its shapes: an empty answer,
      or one in which the extractor finds nothing, writes nothing; otherwise
      the extracted boxes are scaled to the image (1024 x 538 when its size
      is unknown). */
  function AnswerShapes(parse: Parser, answer: string, w: nat, h: nat): Option<seq<Shape>> {
    var items := ExtractBboxDataAsWritten(parse, answer);
    var size := EffectiveSize(w, h);
    if answer == "" || items == [] then None else ScaledShapes(items, size.0, size.1)
  }

  /** An answer is turned into shapes only when the extractor finds boxes in
      it, and every shape is a rectangle inside the image's effective size. */
  lemma AnswerShapesInImage(parse: Parser, answer: string, w: nat, h: nat)
    requires AnswerShapes(parse, answer, w, h).Some?
    ensures answer != "" && ExtractBboxDataAsWritten(parse, answer) != []
    ensures var size := EffectiveSize(w, h);
      forall s :: s in AnswerShapes(parse, answer, w, h).value
        ==> IsRectangle(s.points) && InImage(s.points, size.0 as real, size.1 as real)
  {
    var size := EffectiveSize(w, h);
    ScaledShapesInImage(ExtractBboxDataAsWritten(parse, answer), size.0, size.1);
  }
}
