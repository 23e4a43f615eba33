/** The Qwen-VL auto-labeling model's reading of a reply: the JSON it pulls
    out of the generated text, the shapes it turns that JSON into, and the
    prompt it sends for each task. Loading the model and generating text are
    not part of this model: the reply arrives as a parameter. */
module QwenVl {
  import opened JsonValues
  import opened Text
  import opened Scanners

  // ---------------------------------------------------------------------------
  // Shapes

  datatype Point = Point(x: real, y: real)

  /** A shape's label: the decoded value as it was found (`Value`), or
      Python's `str()` of a value that is not a string (`StrOf`). */
  datatype Label = Value(j: Json) | StrOf(j: Json)

  datatype Shape =
    | Rectangle(tag: Label, corner1: Point, corner2: Point)
    | Keypoint(tag: Label, at: Point)

  /** `str(value)` as a label: a string stays itself. */
  function StrLabel(j: Json): (r: Label)
    ensures j.JString? ==> r == Value(j)
    ensures r.j == j
  {
    if j.JString? then Value(j) else StrOf(j)
  }

  /** What a stretch of `postprocess` appends to its list of shapes, and
      whether it ended by raising (after which nothing more is appended). */
  datatype Emission = Emission(shapes: seq<Shape>, raised: bool)

  const Nothing := Emission([], false)

  /** `a` followed by `b`: `b` only runs when `a` did not raise. */
  function Then(a: Emission, b: Emission): (r: Emission)
    ensures a.raised ==> r == a
    ensures !a.raised ==> r.shapes == a.shapes + b.shapes && r.raised == b.raised
  {
    if a.raised then a else Emission(a.shapes + b.shapes, b.raised)
  }

  lemma ThenAssoc(a: Emission, b: Emission, c: Emission)
    ensures Then(Then(a, b), c) == Then(a, Then(b, c))
  {
    if !a.raised && !b.raised {
      assert (a.shapes + b.shapes) + c.shapes == a.shapes + (b.shapes + c.shapes);
    }
  }

  lemma ThenNothing(a: Emission)
    requires !a.raised
    ensures Then(a, Nothing) == a
  {
    assert a.shapes + [] == a.shapes;
  }

  // ---------------------------------------------------------------------------
  // Nested `dict.get`

  /** Index of the first of `keys` present in `m`. */
  function FirstPresent(m: Fields, keys: seq<string>): (r: Option<nat>)
    ensures r.Some? ==> r.value < |keys| && keys[r.value] in m
                        && forall j :: 0 <= j < r.value ==> keys[j] !in m
    ensures r.None? ==> forall j :: 0 <= j < |keys| ==> keys[j] !in m
  {
    if keys == [] then None
    else if keys[0] in m then Some(0)
    else match FirstPresent(m, keys[1..])
      case Some(k) => Some(k + 1)
      case None => None
  }

  /** `m.get(k1, m.get(k2, ... m.get(kn, default)))`: the value of the first
      key present, whatever that value is, else the default. */
  function Lookup(m: Fields, keys: seq<string>, default: Json): (r: Json)
    ensures (forall j :: 0 <= j < |keys| ==> keys[j] !in m) ==> r == default
    ensures forall i :: 0 <= i < |keys| && keys[i] in m && (forall j :: 0 <= j < i ==> keys[j] !in m)
                        ==> r == m[keys[i]]
  {
    match FirstPresent(m, keys)
    case Some(i) => m[keys[i]]
    case None => default
  }

  const ContainerKeys: seq<string> := ["objects", "results", "detections"]
  const LabelKeys: seq<string> := ["label", "class", "category"]
  const BoxKeys: seq<string> := ["bbox", "bounding_box", "box"]
  const PointKeys: seq<string> := ["points", "landmarks", "keypoints"]

  // ---------------------------------------------------------------------------
  // extract_json_from_response

  /** The greedy `\{.*\}` span (first `{` to last `}`), else the greedy
      `\[.*\]` span, decoded; `None` when there is no span or the span the
      search found does not decode. */
  function ExtractJsonFromResponse(parse: Parser, text: string): (r: Option<Json>)
    ensures GreedySpan(text, '{', '}').Some? ==> r == parse(GreedySpan(text, '{', '}').value)
  {
    match GreedySpan(text, '{', '}')
    case Some(span) => parse(span)
    case None =>
      match GreedySpan(text, '[', ']')
      case Some(span) => parse(span)
      case None => None
  }

  /** A `{ ... }` span is decoded from the first `{` to the last `}`; when it
      does not decode the result is `None` and no `[ ... ]` span is tried. */
  lemma ObjectSpan(parse: Parser, text: string, o: nat, c: nat)
    requires o < c < |text| && text[o] == '{' && text[c] == '}'
    requires forall j :: 0 <= j < o ==> text[j] != '{'
    requires forall j :: c < j < |text| ==> text[j] != '}'
    ensures ExtractJsonFromResponse(parse, text) == parse(text[o..c + 1])
  {
    var first := FirstIndex(text, '{');
    var last := LastIndexOf(text, '}');
    assert first == Some(o) && last == Some(c);
  }

  /** Without any `{` followed later by a `}`, the first `[` to the last `]`
      is decoded. */
  lemma ArraySpan(parse: Parser, text: string, o: nat, c: nat)
    requires forall i, j :: 0 <= i < j < |text| && text[i] == '{' ==> text[j] != '}'
    requires o < c < |text| && text[o] == '[' && text[c] == ']'
    requires forall j :: 0 <= j < o ==> text[j] != '['
    requires forall j :: c < j < |text| ==> text[j] != ']'
    ensures ExtractJsonFromResponse(parse, text) == parse(text[o..c + 1])
  {
    GreedySpanExists(text, '{', '}');
    var first := FirstIndex(text, '[');
    var last := LastIndexOf(text, ']');
    assert first == Some(o) && last == Some(c);
  }

  /** With neither kind of span there is nothing to decode. */
  lemma NoSpan(parse: Parser, text: string)
    requires forall i, j :: 0 <= i < j < |text| && text[i] == '{' ==> text[j] != '}'
    requires forall i, j :: 0 <= i < j < |text| && text[i] == '[' ==> text[j] != ']'
    ensures ExtractJsonFromResponse(parse, text) == None
  {
    GreedySpanExists(text, '{', '}');
    GreedySpanExists(text, '[', ']');
  }

  // ---------------------------------------------------------------------------
  // postprocess

  /** Where a response's shapes come from. */
  datatype Plan = Objects(items: Json) | WholeImage(category: Json)

  /** A dict's object list is under `objects`, else `results`, else
      `detections`; failing those a `categories` key makes it a
      classification of the whole image; otherwise the dict is the single
      object. A list is the object list. */
  function PlanFor(data: Json): (r: Plan)
    ensures data.JArray? ==> r == Objects(data)
    ensures data.JObject? && (exists j :: 0 <= j < |ContainerKeys| && ContainerKeys[j] in data.fields)
            ==> r == Objects(Lookup(data.fields, ContainerKeys, JNull))
    ensures r.WholeImage? ==> (data.JObject? && "categories" in data.fields
            && forall j :: 0 <= j < |ContainerKeys| ==> ContainerKeys[j] !in data.fields)
  {
    if data.JObject? then
      var m := data.fields;
      match FirstPresent(m, ContainerKeys)
      case Some(k) => Objects(m[ContainerKeys[k]])
      case None =>
        if "categories" in m then WholeImage(Get(m, "category", m["categories"]))
        else Objects(JArray([data]))
    else if data.JArray? then Objects(data)
    else Objects(JArray([]))
  }

  /** The elements a `for obj in objects` loop can use: a list's elements; a
      str or dict yields only strings, which are all skipped; anything else
      raises `TypeError` before the first shape. */
  function ObjectList(objects: Json): (r: seq<Json>)
    ensures objects.JArray? ==> r == objects.items
    ensures !objects.JArray? ==> r == []
  {
    match Iterate(objects)
    case Elements(xs) => xs
    case Strings(_) => []
    case NotIterable => []
  }

  /** Outcome of reading an object's bounding box. */
  datatype Box = NoBox | SkipObject | BadCorner | Corners(x1: real, y1: real, x2: real, y2: real)

  /** Four corner values: building the two points raises unless all four are
      numbers. */
  function CornersOf(x1: Json, y1: Json, x2: Json, y2: Json): (r: Box)
    ensures r.Corners? <==> Coordinate(x1).Some? && Coordinate(y1).Some? && Coordinate(x2).Some? && Coordinate(y2).Some?
    ensures r.Corners? ==> Coordinate(x1) == Some(r.x1) && Coordinate(y1) == Some(r.y1)
                           && Coordinate(x2) == Some(r.x2) && Coordinate(y2) == Some(r.y2)
    ensures !r.Corners? ==> r == BadCorner
  {
    match (Coordinate(x1), Coordinate(y1), Coordinate(x2), Coordinate(y2))
    case (Some(a), Some(b), Some(c), Some(d)) => Corners(a, b, c, d)
    case _ => BadCorner
  }

  /** A falsy bbox means no rectangle; a 4-element list is
      `[xmin, ymin, xmax, ymax]`; a dict names its corners `xmin`/`x1`,
      `ymin`/`y1`, `xmax`/`x2`, `ymax`/`y2`, each 0 when absent; any other
      value skips the object. */
  function BoxOf(bbox: Json): (r: Box)
    ensures r.NoBox? <==> !Truthy(bbox)
    ensures r.SkipObject? <==> Truthy(bbox) && !(bbox.JArray? && |bbox.items| == 4) && !bbox.JObject?
    ensures r.Corners? && bbox.JArray? ==> AllNumeric(bbox.items) && Values(bbox.items) == [r.x1, r.y1, r.x2, r.y2]
  {
    if !Truthy(bbox) then NoBox
    else match bbox
      case JArray(xs) =>
        if |xs| == 4 then
          var r := CornersOf(xs[0], xs[1], xs[2], xs[3]);
          assert r.Corners? ==> AllNumeric(xs) && Values(xs) == [r.x1, r.y1, r.x2, r.y2] by {
            if r.Corners? {
              forall i | 0 <= i < 4 ensures Coordinate(xs[i]).Some? {
                if i == 0 {} else if i == 1 {} else if i == 2 {} else {}
              }
              var vs := Values(xs);
              assert Coordinate(xs[0]) == Some(vs[0]) && Coordinate(xs[1]) == Some(vs[1]);
              assert Coordinate(xs[2]) == Some(vs[2]) && Coordinate(xs[3]) == Some(vs[3]);
            }
          }
          r
        else SkipObject
      case JObject(m) =>
        CornersOf(Lookup(m, ["xmin", "x1"], JNum(0.0)), Lookup(m, ["ymin", "y1"], JNum(0.0)),
                  Lookup(m, ["xmax", "x2"], JNum(0.0)), Lookup(m, ["ymax", "y2"], JNum(0.0)))
      case _ => SkipObject
  }

  /** One element of a points list: a dict is a point labelled `label`
      (default `"point"`) at `x`, `y` (each 0 when absent); a 2-element list
      is a point labelled `"point"`; anything else is skipped. A coordinate
      that is not a number raises. */
  function PointShapeOf(pd: Json): (r: Emission)
    ensures |r.shapes| <= 1 && (r.raised ==> r.shapes == [])
    ensures forall k :: 0 <= k < |r.shapes| ==> r.shapes[k].Keypoint?
    ensures !pd.JObject? && !(pd.JArray? && |pd.items| == 2) ==> r == Nothing
    ensures pd.JArray? && |r.shapes| == 1 ==> r.shapes[0].tag == Value(JString("point"))
  {
    match pd
    case JObject(f) =>
      var x, y := Get(f, "x", JNum(0.0)), Get(f, "y", JNum(0.0));
      if Coordinate(x).Some? && Coordinate(y).Some?
      then Emission([Keypoint(Value(Get(f, "label", JString("point"))), Point(Coordinate(x).value, Coordinate(y).value))], false)
      else Emission([], true)
    case JArray(xs) =>
      if |xs| == 2 then
        if Coordinate(xs[0]).Some? && Coordinate(xs[1]).Some?
        then Emission([Keypoint(Value(JString("point")), Point(Coordinate(xs[0]).value, Coordinate(xs[1]).value))], false)
        else Emission([], true)
      else Nothing
    case _ => Nothing
  }

  /** The points of a list, one after another, up to the first that raises. */
  function PointsEmission(pts: seq<Json>): (r: Emission)
    ensures forall k :: 0 <= k < |r.shapes| ==> r.shapes[k].Keypoint?
  {
    if pts == [] then Nothing
    else Then(PointsEmission(pts[..|pts| - 1]), PointShapeOf(pts[|pts| - 1]))
  }

  /** A truthy list of points is walked; any other value gives none. */
  function PointItems(points: Json): (r: seq<Json>)
    ensures Truthy(points) && points.JArray? ==> r == points.items
    ensures !points.JArray? ==> r == []
  {
    if Truthy(points) && points.JArray? then points.items else []
  }

  /** An object's label: `label`, else `class`, else `category`, else
      `"object"`. */
  function ObjectLabel(m: Fields): (r: Json)
    ensures (forall j :: 0 <= j < 3 ==> LabelKeys[j] !in m) ==> r == JString("object")
    ensures "label" in m ==> r == m["label"]
  {
    Lookup(m, LabelKeys, JString("object"))
  }

  /** The shapes one element of the object list gives: nothing for a
      non-dict; its rectangle, when its bbox has one, and then its points;
      nothing at all (not even points) when the bbox is of a form the
      extractor does not know. */
  function ObjectShapes(obj: Json): (r: Emission)
    ensures !obj.JObject? ==> r == Nothing
    ensures obj.JObject? && BoxOf(Lookup(obj.fields, BoxKeys, JNull)).SkipObject? ==> r == Nothing
    ensures forall k :: 0 < k < |r.shapes| ==> r.shapes[k].Keypoint?
    ensures obj.JObject? && |r.shapes| > 0 && r.shapes[0].Rectangle?
            ==> var b := BoxOf(Lookup(obj.fields, BoxKeys, JNull));
                b.Corners? && r.shapes[0] == Rectangle(Value(ObjectLabel(obj.fields)), Point(b.x1, b.y1), Point(b.x2, b.y2))
  {
    if !obj.JObject? then Nothing
    else
      var m := obj.fields;
      var points := PointsEmission(PointItems(Lookup(m, PointKeys, JNull)));
      match BoxOf(Lookup(m, BoxKeys, JNull))
      case NoBox => points
      case SkipObject => Nothing
      case BadCorner => Emission([], true)
      case Corners(x1, y1, x2, y2) =>
        Then(Emission([Rectangle(Value(ObjectLabel(m)), Point(x1, y1), Point(x2, y2))], false), points)
  }

  /** The objects of a list, one after another, up to the first that
      raises. */
  function ObjectsEmission(objs: seq<Json>): (r: Emission)
  {
    if objs == [] then Nothing
    else Then(ObjectsEmission(objs[..|objs| - 1]), ObjectShapes(objs[|objs| - 1]))
  }

  /** `postprocess(response_text, image_width, image_height)`: the shapes the
      reply describes, or those appended before an exception; never raises. */
  function PostprocessShapes(parse: Parser, text: string, width: nat, height: nat): (r: seq<Shape>)
    ensures ExtractJsonFromResponse(parse, text).None? ==> r == []
    ensures ExtractJsonFromResponse(parse, text).Some? && !Truthy(ExtractJsonFromResponse(parse, text).value) ==> r == []
  {
    match ExtractJsonFromResponse(parse, text)
    case None => []
    case Some(data) =>
      if !Truthy(data) then []
      else match PlanFor(data)
        case WholeImage(category) =>
          if Truthy(category)
          then [Rectangle(StrLabel(category), Point(0.0, 0.0), Point(width as real, height as real))]
          else []
        case Objects(items) => ObjectsEmission(ObjectList(items)).shapes
  }

  // ---------------------------------------------------------------------------
  // Lemmas about postprocess

  lemma {:induction false} PointsAppend(xs: seq<Json>, ys: seq<Json>)
    ensures PointsEmission(xs + ys) == Then(PointsEmission(xs), PointsEmission(ys))
    decreases |ys|
  {
    if ys == [] {
      assert xs + ys == xs;
      if !PointsEmission(xs).raised { ThenNothing(PointsEmission(xs)); }
    } else {
      var init, last := ys[..|ys| - 1], ys[|ys| - 1];
      assert (xs + ys)[..|xs + ys| - 1] == xs + init;
      assert (xs + ys)[|xs + ys| - 1] == last;
      PointsAppend(xs, init);
      ThenAssoc(PointsEmission(xs), PointsEmission(init), PointShapeOf(last));
    }
  }

  lemma {:induction false} ObjectsAppend(xs: seq<Json>, ys: seq<Json>)
    ensures ObjectsEmission(xs + ys) == Then(ObjectsEmission(xs), ObjectsEmission(ys))
    decreases |ys|
  {
    if ys == [] {
      assert xs + ys == xs;
      if !ObjectsEmission(xs).raised { ThenNothing(ObjectsEmission(xs)); }
    } else {
      var init, last := ys[..|ys| - 1], ys[|ys| - 1];
      assert (xs + ys)[..|xs + ys| - 1] == xs + init;
      assert (xs + ys)[|xs + ys| - 1] == last;
      ObjectsAppend(xs, init);
      ThenAssoc(ObjectsEmission(xs), ObjectsEmission(init), ObjectShapes(last));
    }
  }

  /** Once a point raises, the rest of the list adds nothing. */
  lemma PointsStop(pts: seq<Json>, i: nat)
    requires i < |pts| && PointsEmission(pts[..i + 1]).raised
    ensures PointsEmission(pts) == PointsEmission(pts[..i + 1])
  {
    SplitJoin(pts, i + 1);
    PointsAppend(pts[..i + 1], pts[i + 1..]);
  }

  /** Once an object raises, the shapes collected so far are the result. */
  lemma ObjectsStop(objs: seq<Json>, i: nat)
    requires i < |objs| && ObjectsEmission(objs[..i + 1]).raised
    ensures ObjectsEmission(objs) == ObjectsEmission(objs[..i + 1])
  {
    SplitJoin(objs, i + 1);
    ObjectsAppend(objs[..i + 1], objs[i + 1..]);
  }

  lemma SplitJoin<T>(s: seq<T>, n: nat)
    requires n <= |s|
    ensures s[..n] + s[n..] == s
  {
  }

  /** An element that is not a dict changes nothing, wherever it stands. */
  lemma NonDictSkipped(xs: seq<Json>, other: Json, ys: seq<Json>)
    requires !other.JObject?
    ensures ObjectsEmission(xs + [other] + ys) == ObjectsEmission(xs + ys)
  {
    ObjectsAppend(xs + [other], ys);
    ObjectsAppend(xs, [other]);
    ObjectsAppend(xs, ys);
    assert [other][..0] == [];
    assert ObjectsEmission([other]) == Then(Nothing, Nothing);
    if !ObjectsEmission(xs).raised { ThenNothing(ObjectsEmission(xs)); }
  }

  /** A detection in the common form: a dict whose `bbox` is a list of four
      numbers and which has no points. */
  predicate PlainDetection(obj: Json) {
    && obj.JObject?
    && "bbox" in obj.fields
    && obj.fields["bbox"].JArray? && |obj.fields["bbox"].items| == 4
    && AllNumeric(obj.fields["bbox"].items)
    && forall j :: 0 <= j < |PointKeys| ==> PointKeys[j] !in obj.fields
  }

  /** The rectangle a plain detection stands for: its corners exactly as
      given, neither clamped nor reordered. */
  function DetectionBox(obj: Json): Shape
    requires PlainDetection(obj)
  {
    var v := Values(obj.fields["bbox"].items);
    Rectangle(Value(ObjectLabel(obj.fields)), Point(v[0], v[1]), Point(v[2], v[3]))
  }

  lemma PlainObject(obj: Json)
    requires PlainDetection(obj)
    ensures ObjectShapes(obj) == Emission([DetectionBox(obj)], false)
  {
    var m := obj.fields;
    assert BoxKeys[0] == "bbox";
    assert Lookup(m, BoxKeys, JNull) == m["bbox"];
    assert Lookup(m, PointKeys, JNull) == JNull;
    assert PointsEmission(PointItems(JNull)) == Nothing;
    var box := BoxOf(m["bbox"]);
    var xs := m["bbox"].items;
    assert Truthy(m["bbox"]);
    assert Coordinate(xs[0]).Some? && Coordinate(xs[1]).Some? && Coordinate(xs[2]).Some? && Coordinate(xs[3]).Some?;
    assert box.Corners?;
    assert [DetectionBox(obj)] + [] == [DetectionBox(obj)];
  }

  /** A list of plain detections gives exactly one rectangle per detection,
      in order. */
  lemma {:induction false} PlainDetections(objs: seq<Json>)
    requires forall k :: 0 <= k < |objs| ==> PlainDetection(objs[k])
    ensures !ObjectsEmission(objs).raised && |ObjectsEmission(objs).shapes| == |objs|
    ensures forall k :: 0 <= k < |objs| ==> ObjectsEmission(objs).shapes[k] == DetectionBox(objs[k])
  {
    if objs != [] {
      var init, last := objs[..|objs| - 1], objs[|objs| - 1];
      PlainDetections(init);
      PlainObject(last);
      var done := ObjectsEmission(init);
      assert ObjectsEmission(objs) == Then(done, Emission([DetectionBox(last)], false));
      var shapes := done.shapes + [DetectionBox(last)];
      assert ObjectsEmission(objs) == Emission(shapes, false);
      forall k | 0 <= k < |objs| ensures shapes[k] == DetectionBox(objs[k]) {
        if k < |init| {
          assert shapes[k] == done.shapes[k] && objs[k] == init[k];
        }
      }
    }
  }

  /** A reply whose JSON is a non-empty list of plain detections. */
  lemma PostprocessDetections(parse: Parser, text: string, width: nat, height: nat, objs: seq<Json>)
    requires ExtractJsonFromResponse(parse, text) == Some(JArray(objs)) && objs != []
    requires forall k :: 0 <= k < |objs| ==> PlainDetection(objs[k])
    ensures |PostprocessShapes(parse, text, width, height)| == |objs|
    ensures forall k :: 0 <= k < |objs| ==> PostprocessShapes(parse, text, width, height)[k] == DetectionBox(objs[k])
  {
    PostprocessList(parse, text, width, height, objs);
    PlainDetections(objs);
  }

  /** A reply whose JSON is a non-empty list is read as the object list. */
  lemma PostprocessList(parse: Parser, text: string, width: nat, height: nat, objs: seq<Json>)
    requires ExtractJsonFromResponse(parse, text) == Some(JArray(objs)) && objs != []
    ensures PostprocessShapes(parse, text, width, height) == ObjectsEmission(objs).shapes
  {
    var data := JArray(objs);
    assert Truthy(data);
    assert PlanFor(data) == Objects(data);
    assert ObjectList(data) == objs;
  }

  /** A classification reply: one rectangle over the whole image, labelled
      with `category` (or `categories`), or none when that label is falsy. */
  lemma Classification(parse: Parser, text: string, width: nat, height: nat, m: Fields)
    requires ExtractJsonFromResponse(parse, text) == Some(JObject(m))
    requires forall j :: 0 <= j < |ContainerKeys| ==> ContainerKeys[j] !in m
    requires "categories" in m
    ensures var category := Get(m, "category", m["categories"]);
            PostprocessShapes(parse, text, width, height)
            == if Truthy(category) then [Rectangle(StrLabel(category), Point(0.0, 0.0), Point(width as real, height as real))] else []
  {
    assert Truthy(JObject(m)) by { assert "categories" in m; }
  }

  /** A dict with none of the container keys and no `categories` is read as
      a single object. */
  lemma SingleObject(parse: Parser, text: string, width: nat, height: nat, m: Fields)
    requires ExtractJsonFromResponse(parse, text) == Some(JObject(m)) && m != map[]
    requires forall j :: 0 <= j < |ContainerKeys| ==> ContainerKeys[j] !in m
    requires "categories" !in m
    ensures PostprocessShapes(parse, text, width, height) == ObjectShapes(JObject(m)).shapes
  {
    SinglePlan(m);
    SingleEmission(JObject(m));
  }

  lemma SinglePlan(m: Fields)
    requires forall j :: 0 <= j < |ContainerKeys| ==> ContainerKeys[j] !in m
    requires "categories" !in m
    ensures PlanFor(JObject(m)) == Objects(JArray([JObject(m)]))
  {
  }

  lemma SingleEmission(o: Json)
    ensures ObjectsEmission([o]).shapes == ObjectShapes(o).shapes
  {
    assert [o][..0] == [];
    var e := ObjectShapes(o);
    assert ObjectsEmission([o]) == Then(Nothing, e);
    assert [] + e.shapes == e.shapes;
  }

  // ---------------------------------------------------------------------------
  // Prompt selection

  const VisualQaPrefix := "Answer the following question about the image: "

  /** The task prompt templates, keyed by task type. */
  const Templates: map<string, string> := map[
    "object_detection" := "Detect all objects in the image and provide their labels and bounding box coordinates in the format: [label_name] xmin, ymin, xmax, ymax. Return results in JSON format.",
    "instance_segmentation" := "Segment all objects in the image. For each object, provide its label and bounding box coordinates in the format: [label_name] xmin, ymin, xmax, ymax. Return results in JSON format.",
    "classification" := "Classify this image and provide the category. Return the result in JSON format with 'category' field.",
    "caption" := "Provide a concise caption describing the image content. Return the result in JSON format with 'caption' field.",
    "detailed_caption" := "Provide a detailed caption describing the image content. Return the result in JSON format with 'caption' field.",
    "ocr" := "Recognize all text in the image and provide the text content with their locations. Return results in JSON format.",
    "keypoint_detection" := "Detect keypoint locations in the image. For each keypoint, provide its label and coordinates in the format: [label_name] x, y. Return results in JSON format.",
    "visual_qa" := VisualQaPrefix + "{question}",
    "custom" := "{custom_prompt}"
  ]

  const CustomField := "{custom_prompt}"

  /** The prompt `predict_shapes` sends: a non-empty text prompt, else the
      custom prompt of a `custom` task, else the question of a `visual_qa`
      task put into its template, else the task's template (the object
      detection one for an unknown task); a `custom` task then has every
      `{custom_prompt}` in the chosen prompt replaced by the custom prompt. */
  function PromptFor(taskType: string, customPrompt: string, question: string, textPrompt: Option<string>): (r: string)
    ensures taskType != "custom" && textPrompt.Some? && textPrompt.value != "" ==> r == textPrompt.value
    ensures taskType == "visual_qa" && (textPrompt.None? || textPrompt.value == "") && question != ""
            ==> r == VisualQaPrefix + question
    ensures taskType != "custom" && (textPrompt.None? || textPrompt.value == "")
            && !(taskType == "visual_qa" && question != "")
            ==> (taskType in Templates ==> r == Templates[taskType])
                && (taskType !in Templates ==> r == Templates["object_detection"])
  {
    var chosen :=
      if textPrompt.Some? && textPrompt.value != "" then textPrompt.value
      else if taskType == "custom" && customPrompt != "" then customPrompt
      else if taskType == "visual_qa" && question != "" then VisualQaPrefix + question
      else if taskType in Templates then Templates[taskType]
      else Templates["object_detection"];
    if taskType == "custom" then ReplaceAll(chosen, CustomField, customPrompt) else chosen
  }

  /** A `custom` task without a text prompt sends its custom prompt as it
      is (when that prompt does not itself contain the placeholder). */
  lemma CustomPrompt(customPrompt: string, question: string, textPrompt: Option<string>)
    requires textPrompt.None? || textPrompt.value == ""
    requires customPrompt != "" && !Contains(customPrompt, CustomField)
    ensures PromptFor("custom", customPrompt, question, textPrompt) == customPrompt
  {
    ReplaceAbsent(customPrompt, CustomField, customPrompt);
  }

  /** A custom prompt that holds the placeholder has its first occurrence
      replaced by the whole custom prompt, and the rest replaced in turn. */
  lemma CustomPromptPlaceholder(customPrompt: string, question: string, textPrompt: Option<string>, i: nat)
    requires textPrompt.None? || textPrompt.value == ""
    requires HasAt(customPrompt, CustomField, i) && forall j :: 0 <= j < i ==> !HasAt(customPrompt, CustomField, j)
    ensures PromptFor("custom", customPrompt, question, textPrompt)
            == customPrompt[..i] + customPrompt
               + ReplaceAll(customPrompt[i + |CustomField|..], CustomField, customPrompt)
  {
    ReplaceFirst(customPrompt, CustomField, customPrompt, i);
  }

  /** A `custom` task with an empty custom prompt and no text prompt sends
      the empty prompt: the template is the bare placeholder. */
  lemma EmptyCustomPrompt(question: string, textPrompt: Option<string>)
    requires textPrompt.None? || textPrompt.value == ""
    ensures PromptFor("custom", "", question, textPrompt) == ""
  {
    var t := Templates["custom"];
    assert t == CustomField;
    assert HasAt(t, CustomField, 0);
    assert t[|CustomField|..] == [];
  }

  /** In a `custom` task the text prompt wins too, with its placeholders
      filled in. */
  lemma CustomTextPrompt(customPrompt: string, question: string, text: string)
    requires text != "" && !Contains(text, CustomField)
    ensures PromptFor("custom", customPrompt, question, Some(text)) == text
  {
    ReplaceAbsent(text, CustomField, customPrompt);
  }

  /** A text prompt of a `custom` task that holds the placeholder has its
      first occurrence replaced by the custom prompt, and the rest replaced
      in turn. */
  lemma CustomTextPlaceholder(customPrompt: string, question: string, text: string, i: nat)
    requires HasAt(text, CustomField, i) && forall j :: 0 <= j < i ==> !HasAt(text, CustomField, j)
    ensures PromptFor("custom", customPrompt, question, Some(text))
            == text[..i] + customPrompt + ReplaceAll(text[i + |CustomField|..], CustomField, customPrompt)
  {
    ReplaceFirst(text, CustomField, customPrompt, i);
  }

  // ---------------------------------------------------------------------------
  // The model object

  /** `AutoLabelingResult`: the shapes, added to (never replacing) the
      image's existing ones. */
  datatype AutoLabelingResult = AutoLabelingResult(shapes: seq<Shape>, replace: bool)

  /** The Qwen-VL model's task settings and the steps of `predict_shapes`
      that do not run the network. */
  class QwenVL {
    var marks: seq<Json>
    var taskType: string
    var customPrompt: string
    var question: string

    constructor()
      ensures marks == [] && taskType == "object_detection" && customPrompt == "" && question == ""
    {
      marks := [];
      taskType := "object_detection";
      customPrompt := "";
      question := "";
    }

    method SetAutoLabelingMarks(marks: seq<Json>)
      modifies this
      ensures this.marks == marks
      ensures taskType == old(taskType) && customPrompt == old(customPrompt) && question == old(question)
    {
      this.marks := marks;
    }

    method SetTaskType(taskType: string)
      modifies this
      ensures this.taskType == taskType
      ensures marks == old(marks) && customPrompt == old(customPrompt) && question == old(question)
    {
      this.taskType := taskType;
    }

    method SetCustomPrompt(customPrompt: string)
      modifies this
      ensures this.customPrompt == customPrompt
      ensures marks == old(marks) && taskType == old(taskType) && question == old(question)
    {
      this.customPrompt := customPrompt;
    }

    method SetQuestion(question: string)
      modifies this
      ensures this.question == question
      ensures marks == old(marks) && taskType == old(taskType) && customPrompt == old(customPrompt)
    {
      this.question := question;
    }

    /** The prompt `predict_shapes` builds, one reassignment at a time. */
    method SelectPrompt(textPrompt: Option<string>) returns (prompt: string)
      ensures prompt == PromptFor(taskType, customPrompt, question, textPrompt)
    {
      if textPrompt.Some? && textPrompt.value != "" {
        prompt := textPrompt.value;
      } else if taskType == "custom" && customPrompt != "" {
        prompt := customPrompt;
      } else if taskType == "visual_qa" && question != "" {
        prompt := VisualQaPrefix + question;
      } else if taskType in Templates {
        prompt := Templates[taskType];
      } else {
        prompt := Templates["object_detection"];
      }
      if taskType == "custom" {
        prompt := ReplaceAll(prompt, CustomField, customPrompt);
      }
    }

    /** `postprocess`: walks the object list appending shapes, and returns
        what it has collected as soon as building a point raises. */
    method Postprocess(parse: Parser, text: string, width: nat, height: nat) returns (shapes: seq<Shape>)
      ensures shapes == PostprocessShapes(parse, text, width, height)
    {
      shapes := [];
      var response := ExtractJsonFromResponse(parse, text);
      if response.None? || !Truthy(response.value) {
        return;
      }
      var data := response.value;
      assert ContainerKeys[0] == "objects" && ContainerKeys[1] == "results" && ContainerKeys[2] == "detections";
      if data.JObject? && "categories" in data.fields
         && "objects" !in data.fields && "results" !in data.fields && "detections" !in data.fields {
        var m := data.fields;
        var category := Get(m, "category", m["categories"]);
        if Truthy(category) {
          shapes := [Rectangle(StrLabel(category), Point(0.0, 0.0), Point(width as real, height as real))];
        }
        return;
      }
      var objects := SelectObjects(data);
      shapes := AppendObjects(objects);
    }

    /** The object list of a reply that is not a classification: the first
        container key present, else the dict itself; a list as it is. */
    method SelectObjects(data: Json) returns (objects: seq<Json>)
      requires PlanFor(data).Objects?
      ensures objects == ObjectList(PlanFor(data).items)
    {
      objects := [];
      if data.JObject? {
        var m := data.fields;
        assert ContainerKeys[0] == "objects" && ContainerKeys[1] == "results" && ContainerKeys[2] == "detections";
        if "objects" in m {
          objects := ObjectList(m["objects"]);
        } else if "results" in m {
          objects := ObjectList(m["results"]);
        } else if "detections" in m {
          objects := ObjectList(m["detections"]);
        } else {
          objects := [data];
        }
      } else if data.JArray? {
        objects := data.items;
      }
    }

    /** The object loop: each object's shapes are appended in turn, and an
        exception ends the loop with the shapes appended so far. */
    method AppendObjects(objects: seq<Json>) returns (shapes: seq<Shape>)
      ensures shapes == ObjectsEmission(objects).shapes
    {
      shapes := [];
      var i := 0;
      while i < |objects|
        invariant i <= |objects|
        invariant ObjectsEmission(objects[..i]) == Emission(shapes, false)
      {
        assert objects[..i + 1][..i] == objects[..i];
        var added, raised := ShapesOf(objects[i]);
        shapes := shapes + added;
        if raised {
          ObjectsStop(objects, i);
          return;
        }
        i := i + 1;
      }
      assert objects[..i] == objects;
    }

    /** One pass of the object loop: a non-dict is skipped; the rectangle
        is appended before the points. */
    method ShapesOf(obj: Json) returns (added: seq<Shape>, raised: bool)
      ensures Emission(added, raised) == ObjectShapes(obj)
    {
      added, raised := [], false;
      if !obj.JObject? {
        return;
      }
      var m := obj.fields;
      var objLabel := Lookup(m, LabelKeys, JString("object"));
      var bbox := Lookup(m, BoxKeys, JNull);
      if Truthy(bbox) {
        var x1, y1, x2, y2;
        if bbox.JArray? && |bbox.items| == 4 {
          x1, y1, x2, y2 := bbox.items[0], bbox.items[1], bbox.items[2], bbox.items[3];
        } else if bbox.JObject? {
          x1 := Lookup(bbox.fields, ["xmin", "x1"], JNum(0.0));
          y1 := Lookup(bbox.fields, ["ymin", "y1"], JNum(0.0));
          x2 := Lookup(bbox.fields, ["xmax", "x2"], JNum(0.0));
          y2 := Lookup(bbox.fields, ["ymax", "y2"], JNum(0.0));
        } else {
          return;
        }
        if Coordinate(x1).None? || Coordinate(y1).None? || Coordinate(x2).None? || Coordinate(y2).None? {
          raised := true;
          return;
        }
        added := [Rectangle(Value(objLabel), Point(Coordinate(x1).value, Coordinate(y1).value),
                                             Point(Coordinate(x2).value, Coordinate(y2).value))];
      }
      var more;
      more, raised := PointShapes(PointItems(Lookup(m, PointKeys, JNull)));
      added := added + more;
    }

    /** The points loop of one object, stopping at the first point whose
        coordinates are not numbers. */
    method PointShapes(points: seq<Json>) returns (added: seq<Shape>, raised: bool)
      ensures Emission(added, raised) == PointsEmission(points)
    {
      added, raised := [], false;
      var j := 0;
      while j < |points|
        invariant j <= |points|
        invariant PointsEmission(points[..j]) == Emission(added, false)
      {
        var pd := points[j];
        assert points[..j + 1][..j] == points[..j];
        var x, y, pointLabel;
        if pd.JObject? {
          x, y := Get(pd.fields, "x", JNum(0.0)), Get(pd.fields, "y", JNum(0.0));
          pointLabel := Get(pd.fields, "label", JString("point"));
        } else if pd.JArray? && |pd.items| == 2 {
          x, y := pd.items[0], pd.items[1];
          pointLabel := JString("point");
        } else {
          j := j + 1;
          continue;
        }
        if Coordinate(x).None? || Coordinate(y).None? {
          PointsStop(points, j);
          raised := true;
          return;
        }
        added := added + [Keypoint(Value(pointLabel), Point(Coordinate(x).value, Coordinate(y).value))];
        j := j + 1;
      }
      assert points[..j] == points;
    }

    /** `predict_shapes`: no image gives an empty result; otherwise the
        prompt goes to the model (`generate`, whose `None` is an exception
        during inference, also an empty result) and its reply is read for
        an image `width` pixels wide and `height` high. */
    method PredictShapes(image: Option<(nat, nat)>, textPrompt: Option<string>,
                         generate: string -> Option<string>, parse: Parser)
      returns (r: AutoLabelingResult)
      ensures !r.replace
      ensures image.None? ==> r.shapes == []
      ensures image.Some? ==> var prompt := PromptFor(taskType, customPrompt, question, textPrompt);
              r.shapes == match generate(prompt)
                          case None => []
                          case Some(reply) => PostprocessShapes(parse, reply, image.value.0, image.value.1)
    {
      if image.None? {
        return AutoLabelingResult([], false);
      }
      var prompt := SelectPrompt(textPrompt);
      var reply := generate(prompt);
      if reply.None? {
        return AutoLabelingResult([], false);
      }
      var shapes := Postprocess(parse, reply.value, image.value.0, image.value.1);
      r := AutoLabelingResult(shapes, false);
    }
  }
}
