/**
 * The motion exporter: sums the motion samples of every motion-bearing
 * stroke, derives the frame count, and writes the JSON description of the
 * document's pages, strokes and samples.
 */
module MotionExport {
  import opened Wrappers
  import opened Elements
  import opened Decimal
  import opened MotionRecordings

  // ---------------------------------------------------------------------------
  // Which recordings the exporter reads

  /** The recordings of the motion-bearing strokes among `es`, in order. */
  function ElementRecordings(es: seq<Element>): seq<seq<MotionPoint>> {
    if es == [] then []
    else
      var e := es[|es| - 1];
      ElementRecordings(es[..|es| - 1]) + (if e.Stroke? && e.motion.Some? then [e.motion.value] else [])
  }

  function LayersRecordings(layers: seq<seq<Element>>): seq<seq<MotionPoint>> {
    if layers == [] then []
    else LayersRecordings(layers[..|layers| - 1]) + ElementRecordings(layers[|layers| - 1])
  }

  /** Null page slots are skipped. */
  function PagesRecordings(pages: seq<Option<Page>>): seq<seq<MotionPoint>> {
    if pages == [] then []
    else
      var p := pages[|pages| - 1];
      PagesRecordings(pages[..|pages| - 1]) + (if p.Some? then LayersRecordings(p.value.layers) else [])
  }

  /** Every recording of the document, page by page, layer by layer, element by element. */
  function Recordings(doc: Document): seq<seq<MotionPoint>> {
    PagesRecordings(doc.pages)
  }

  lemma {:induction false} ElementRecordingsMembers(es: seq<Element>, r: seq<MotionPoint>)
    ensures r in ElementRecordings(es) <==>
            exists i :: 0 <= i < |es| && es[i].Stroke? && es[i].motion == Some(r)
  {
    if es != [] {
      ElementRecordingsMembers(es[..|es| - 1], r);
      assert forall i :: 0 <= i < |es| - 1 ==> es[..|es| - 1][i] == es[i];
    }
  }

  lemma {:induction false} LayersRecordingsMembers(layers: seq<seq<Element>>, r: seq<MotionPoint>)
    ensures r in LayersRecordings(layers) <==>
            exists j :: 0 <= j < |layers| && r in ElementRecordings(layers[j])
  {
    if layers != [] {
      LayersRecordingsMembers(layers[..|layers| - 1], r);
      assert forall j :: 0 <= j < |layers| - 1 ==> layers[..|layers| - 1][j] == layers[j];
    }
  }

  lemma {:induction false} PagesRecordingsMembers(pages: seq<Option<Page>>, r: seq<MotionPoint>)
    ensures r in PagesRecordings(pages) <==>
            exists p :: 0 <= p < |pages| && pages[p].Some? && r in LayersRecordings(pages[p].value.layers)
  {
    if pages != [] {
      PagesRecordingsMembers(pages[..|pages| - 1], r);
      assert forall p :: 0 <= p < |pages| - 1 ==> pages[..|pages| - 1][p] == pages[p];
    }
  }

  /**
   * A recording is read exactly when some stroke carries it, on some
   * non-null page, in some layer.
   */
  lemma RecordingsAreTheMotionStrokes(doc: Document, r: seq<MotionPoint>)
    ensures r in Recordings(doc) <==>
      exists p, j, i :: 0 <= p < |doc.pages| && doc.pages[p].Some?
        && 0 <= j < |doc.pages[p].value.layers| && 0 <= i < |doc.pages[p].value.layers[j]|
        && doc.pages[p].value.layers[j][i].Stroke? && doc.pages[p].value.layers[j][i].motion == Some(r)
  {
    PagesRecordingsMembers(doc.pages, r);
    forall p | 0 <= p < |doc.pages| && doc.pages[p].Some?
      ensures r in LayersRecordings(doc.pages[p].value.layers) <==>
        exists j, i :: 0 <= j < |doc.pages[p].value.layers| && 0 <= i < |doc.pages[p].value.layers[j]|
          && doc.pages[p].value.layers[j][i].Stroke? && doc.pages[p].value.layers[j][i].motion == Some(r)
    {
      LayersRecordingsMembers(doc.pages[p].value.layers, r);
      forall j | 0 <= j < |doc.pages[p].value.layers|
        ensures r in ElementRecordings(doc.pages[p].value.layers[j]) <==>
          exists i :: 0 <= i < |doc.pages[p].value.layers[j]|
            && doc.pages[p].value.layers[j][i].Stroke? && doc.pages[p].value.layers[j][i].motion == Some(r)
      {
        ElementRecordingsMembers(doc.pages[p].value.layers[j], r);
      }
    }
  }

  // ---------------------------------------------------------------------------
  // The tally: point count, earliest start, latest end

  datatype Tally = Tally(totalMotionPoints: nat, minTimestamp: SizeT, maxTimestamp: SizeT)

  const INITIAL_TALLY: Tally := Tally(0, SIZE_MAX, 0)

  /** One recording: its count always adds; its start and end count only when it is non-empty. */
  function AddRecording(t: Tally, r: seq<MotionPoint>): Tally {
    Tally(t.totalMotionPoints + |r|,
          if r != [] && StartOf(r) < t.minTimestamp then StartOf(r) else t.minTimestamp,
          if r != [] && EndOf(r) > t.maxTimestamp then EndOf(r) else t.maxTimestamp)
  }

  /** The tally of `startExport`'s counting loops over the recordings `rs`, in order. */
  function Summarize(rs: seq<seq<MotionPoint>>): (r: Tally)
    ensures r.totalMotionPoints == 0 ==> r.minTimestamp == SIZE_MAX && r.maxTimestamp == 0
  {
    if rs == [] then INITIAL_TALLY else AddRecording(Summarize(rs[..|rs| - 1]), rs[|rs| - 1])
  }

  lemma SummarizeAppend(rs: seq<seq<MotionPoint>>, r: seq<MotionPoint>)
    ensures Summarize(rs + [r]) == AddRecording(Summarize(rs), r)
  {
    assert (rs + [r])[..|rs|] == rs;
  }

  /** The point count is zero exactly when every recording read is empty. */
  lemma {:induction false} TotalZeroIffAllEmpty(rs: seq<seq<MotionPoint>>)
    ensures Summarize(rs).totalMotionPoints == 0 <==> forall i :: 0 <= i < |rs| ==> rs[i] == []
  {
    if rs != [] {
      TotalZeroIffAllEmpty(rs[..|rs| - 1]);
      assert forall i :: 0 <= i < |rs| - 1 ==> rs[..|rs| - 1][i] == rs[i];
    }
  }

  /**
   * The minimum is at most the start, and the maximum at least the end, of
   * every non-empty recording; with no non-empty recording they keep their
   * initial values.
   */
  lemma {:induction false} SummarizeBounds(rs: seq<seq<MotionPoint>>)
    ensures forall i :: 0 <= i < |rs| && rs[i] != [] ==>
      Summarize(rs).minTimestamp <= StartOf(rs[i]) && EndOf(rs[i]) <= Summarize(rs).maxTimestamp
    ensures (forall i :: 0 <= i < |rs| ==> rs[i] == []) ==>
      Summarize(rs).minTimestamp == SIZE_MAX && Summarize(rs).maxTimestamp == 0
  {
    if rs != [] {
      SummarizeBounds(rs[..|rs| - 1]);
      assert forall i :: 0 <= i < |rs| - 1 ==> rs[..|rs| - 1][i] == rs[i];
    }
  }

  /** When some recording is non-empty, the minimum and maximum are a start and an end actually recorded. */
  lemma {:induction false} SummarizeAttained(rs: seq<seq<MotionPoint>>)
    requires exists i :: 0 <= i < |rs| && rs[i] != []
    ensures exists i :: 0 <= i < |rs| && rs[i] != [] && Summarize(rs).minTimestamp == StartOf(rs[i])
    ensures exists i :: 0 <= i < |rs| && rs[i] != [] && Summarize(rs).maxTimestamp == EndOf(rs[i])
  {
    var n := |rs|;
    var front := rs[..n - 1];
    assert forall i :: 0 <= i < n - 1 ==> front[i] == rs[i];
    if exists i :: 0 <= i < n - 1 && front[i] != [] {
      SummarizeAttained(front);
      var a :| 0 <= a < n - 1 && front[a] != [] && Summarize(front).minTimestamp == StartOf(front[a]);
      var b :| 0 <= b < n - 1 && front[b] != [] && Summarize(front).maxTimestamp == EndOf(front[b]);
      if rs[n - 1] != [] && StartOf(rs[n - 1]) < Summarize(front).minTimestamp {
        assert Summarize(rs).minTimestamp == StartOf(rs[n - 1]);
      } else {
        assert Summarize(rs).minTimestamp == StartOf(rs[a]);
      }
      if rs[n - 1] != [] && EndOf(rs[n - 1]) > Summarize(front).maxTimestamp {
        assert Summarize(rs).maxTimestamp == EndOf(rs[n - 1]);
      } else {
        assert Summarize(rs).maxTimestamp == EndOf(rs[b]);
      }
    } else {
      SummarizeBounds(front);
      assert rs[n - 1] != [];
      assert Summarize(rs).minTimestamp == StartOf(rs[n - 1]);
      assert Summarize(rs).maxTimestamp == EndOf(rs[n - 1]);
    }
  }

  /** One pass of the innermost loop: a motion-bearing stroke adds its count and widens the range. */
  method TallyElement(t0: Tally, ghost before: seq<seq<MotionPoint>>, element: Element) returns (t: Tally)
    requires t0 == Summarize(before)
    ensures t == Summarize(before + (if element.Stroke? && element.motion.Some? then [element.motion.value] else []))
  {
    t := t0;
    if element.Stroke? && element.motion.Some? {
      var motion := element.motion.value;
      SummarizeAppend(before, motion);
      t := Tally(t.totalMotionPoints + |motion|, t.minTimestamp, t.maxTimestamp);
      if motion != [] {
        if StartOf(motion) < t.minTimestamp { t := t.(minTimestamp := StartOf(motion)); }
        if EndOf(motion) > t.maxTimestamp { t := t.(maxTimestamp := EndOf(motion)); }
      }
    } else {
      assert before + [] == before;
    }
  }

  /** The innermost loop: the elements of one layer, continuing the tally `t0` of `before`. */
  method TallyElements(t0: Tally, ghost before: seq<seq<MotionPoint>>, elements: seq<Element>) returns (t: Tally)
    requires t0 == Summarize(before)
    ensures t == Summarize(before + ElementRecordings(elements))
  {
    t := t0;
    var e := 0;
    assert before + ElementRecordings(elements[..e]) == before;
    while e < |elements|
      invariant 0 <= e <= |elements|
      invariant t == Summarize(before + ElementRecordings(elements[..e]))
    {
      assert elements[..e + 1][..e] == elements[..e];
      ghost var added := if elements[e].Stroke? && elements[e].motion.Some? then [elements[e].motion.value] else [];
      t := TallyElement(t, before + ElementRecordings(elements[..e]), elements[e]);
      assert before + ElementRecordings(elements[..e + 1]) == (before + ElementRecordings(elements[..e])) + added;
      e := e + 1;
    }
    assert elements[..e] == elements;
  }

  /** The middle loop: the layers of one page. */
  method TallyLayers(t0: Tally, ghost before: seq<seq<MotionPoint>>, layers: seq<seq<Element>>) returns (t: Tally)
    requires t0 == Summarize(before)
    ensures t == Summarize(before + LayersRecordings(layers))
  {
    t := t0;
    var l := 0;
    assert before + LayersRecordings(layers[..l]) == before;
    while l < |layers|
      invariant 0 <= l <= |layers|
      invariant t == Summarize(before + LayersRecordings(layers[..l]))
    {
      assert layers[..l + 1][..l] == layers[..l];
      t := TallyElements(t, before + LayersRecordings(layers[..l]), layers[l]);
      assert before + LayersRecordings(layers[..l + 1]) == before + LayersRecordings(layers[..l]) + ElementRecordings(layers[l]);
      l := l + 1;
    }
    assert layers[..l] == layers;
  }

  /** The outer loop over the pages, skipping null slots: the tally of the whole document. */
  method TallyDocument(doc: Document) returns (t: Tally)
    ensures t == Summarize(Recordings(doc))
  {
    t := INITIAL_TALLY;
    var pages := doc.pages;
    var p := 0;
    while p < |pages|
      invariant 0 <= p <= |pages|
      invariant t == Summarize(PagesRecordings(pages[..p]))
    {
      assert pages[..p + 1][..p] == pages[..p];
      if pages[p].Some? {
        t := TallyLayers(t, PagesRecordings(pages[..p]), pages[p].value.layers);
        assert PagesRecordings(pages[..p + 1]) == PagesRecordings(pages[..p]) + LayersRecordings(pages[p].value.layers);
      } else {
        assert PagesRecordings(pages[..p + 1]) == PagesRecordings(pages[..p]);
      }
      p := p + 1;
    }
    assert pages[..p] == pages;
  }

  // ---------------------------------------------------------------------------
  // Frame count

  /**
   * `totalFrames`: with a positive span, span * frameRate / 1000 + 1 in
   * `size_t` arithmetic (the `int` frame rate converted to `size_t`, the
   * product taken modulo 2^64); otherwise 1.
   */
  function TotalFrames(minTimestamp: SizeT, maxTimestamp: SizeT, frameRate: int): (r: nat)
    ensures r >= 1
    // all timestamps equal (or no span): a single frame
    ensures maxTimestamp <= minTimestamp ==> r == 1
  {
    if maxTimestamp > minTimestamp then
      ((maxTimestamp - minTimestamp) * (frameRate % SIZE_LIMIT)) % SIZE_LIMIT / 1000 + 1
    else 1
  }

  lemma {:induction false} AtLeastOneFactor(a: nat, b: nat)
    requires a >= 1
    ensures a * b >= b
  {
    if a > 1 {
      AtLeastOneFactor(a - 1, b);
      assert a * b == (a - 1) * b + b;
    }
  }

  /** Without wrap-around the frame count is the plain integer formula. */
  lemma TotalFramesExact(minTimestamp: SizeT, maxTimestamp: SizeT, frameRate: int)
    requires frameRate >= 0 && maxTimestamp > minTimestamp
    requires (maxTimestamp - minTimestamp) * frameRate < SIZE_LIMIT
    ensures TotalFrames(minTimestamp, maxTimestamp, frameRate)
         == (maxTimestamp - minTimestamp) * frameRate / 1000 + 1
  {
    var d := maxTimestamp - minTimestamp;
    AtLeastOneFactor(d, frameRate);
    assert frameRate % SIZE_LIMIT == frameRate;
    var product := d * frameRate;
    assert 0 <= product < SIZE_LIMIT;
    assert product % SIZE_LIMIT == product;
  }

  // ---------------------------------------------------------------------------
  // Name tables

  /** Background format names; any other value is written as "plain". */
  function BackgroundTypeName(f: PageTypeFormat): string {
    match f
    case Plain => "plain"
    case Ruled => "ruled"
    case Lined => "lined"
    case Staves => "staves"
    case Graph => "graph"
    case Dotted => "dotted"
    case IsoDotted => "isodotted"
    case IsoGraph => "isograph"
    case Pdf => "pdf"
    case Image => "image"
    case OtherFormat(_) => "plain"
  }

  /** The reverse of the format table, for the names it writes. */
  function FormatOfName(name: string): Option<PageTypeFormat> {
    if name == "plain" then Some(Plain)
    else if name == "ruled" then Some(Ruled)
    else if name == "lined" then Some(Lined)
    else if name == "staves" then Some(Staves)
    else if name == "graph" then Some(Graph)
    else if name == "dotted" then Some(Dotted)
    else if name == "isodotted" then Some(IsoDotted)
    else if name == "isograph" then Some(IsoGraph)
    else if name == "pdf" then Some(Pdf)
    else if name == "image" then Some(Image)
    else None
  }

  /** Every named format gets its own name back; every other value reads as plain. */
  lemma BackgroundNamesRoundTrip(f: PageTypeFormat)
    ensures !f.OtherFormat? ==> FormatOfName(BackgroundTypeName(f)) == Some(f)
    ensures f.OtherFormat? ==> FormatOfName(BackgroundTypeName(f)) == Some(Plain)
  {
  }

  /** Tool names; any other value is written as "pen". */
  function ToolName(t: StrokeTool): string {
    match t
    case Pen => "pen"
    case Eraser => "eraser"
    case Highlighter => "highlighter"
    case OtherTool(_) => "pen"
  }

  function ToolOfName(name: string): Option<StrokeTool> {
    if name == "pen" then Some(Pen)
    else if name == "eraser" then Some(Eraser)
    else if name == "highlighter" then Some(Highlighter)
    else None
  }

  lemma ToolNamesRoundTrip(t: StrokeTool)
    ensures !t.OtherTool? ==> ToolOfName(ToolName(t)) == Some(t)
    ensures t.OtherTool? ==> ToolOfName(ToolName(t)) == Some(Pen)
  {
  }

  // ---------------------------------------------------------------------------
  // JSON text

  /** How the stream writes a `double`; locale-dependent, so left as a parameter. */
  type NumberText = real -> string

  /**
   * The loop shape used for points, dashes and pages: item `i`, then `sep`
   * unless it is the last item, then `end`, for every item from `i` on.
   */
  function ListedFrom(items: seq<string>, sep: string, end: string, i: nat): string
    decreases |items| - i
  {
    if i >= |items| then ""
    else items[i] + (if i < |items| - 1 then sep else "") + end + ListedFrom(items, sep, end, i + 1)
  }

  /** The items with `sep` between each neighbouring pair and nowhere else. */
  function Join(items: seq<string>, sep: string): string {
    if items == [] then ""
    else if |items| == 1 then items[0]
    else items[0] + sep + Join(items[1..], sep)
  }

  /** The separator goes between items only: no trailing separator after the last one. */
  lemma {:induction false} ListedFromIsJoin(items: seq<string>, sep: string, end: string, i: nat)
    requires i <= |items|
    ensures ListedFrom(items, sep, end, i)
         == if i == |items| then "" else Join(items[i..], sep + end) + end
    decreases |items| - i
  {
    if i < |items| {
      if i == |items| - 1 {
        assert items[i..] == [items[i]];
      } else {
        ListedFromIsJoin(items, sep, end, i + 1);
        assert items[i..][1..] == items[i + 1..];
      }
    }
  }

  function Map<T>(item: T -> string, xs: seq<T>): (r: seq<string>)
    ensures |r| == |xs|
  {
    seq(|xs|, i requires 0 <= i < |xs| => item(xs[i]))
  }

  lemma JoinCons(head: string, tail: seq<string>, sep: string)
    ensures Join([head] + tail, sep) == head + (if tail == [] then "" else sep + Join(tail, sep))
  {
    assert ([head] + tail)[1..] == tail;
  }

  lemma MapCons<T>(item: T -> string, x: T, xs: seq<T>)
    ensures Map(item, [x] + xs) == [item(x)] + Map(item, xs)
  {
  }

  const POINT_OPEN: string := "            {\"t\": "

  /** One motion point: its raw timestamp, coordinates, pressure and eraser flag. */
  function PointEntry(mp: MotionPoint, num: NumberText): string {
    POINT_OPEN + NatText(mp.timestamp) + PointFields(mp, num)
  }

  /** What follows the timestamp in a point entry: coordinates, pressure and eraser flag. */
  function PointFields(mp: MotionPoint, num: NumberText): string {
    ", \"x\": " + num(mp.point.x) + ", \"y\": " + num(mp.point.y)
      + ", \"p\": " + num(mp.point.z) + ", \"isEraser\": " + (if mp.isEraser then "true" else "false") + "}"
  }

  function PointItem(num: NumberText): MotionPoint -> string {
    mp => PointEntry(mp, num)
  }

  /** The timestamp a reader of one point entry finds. */
  function EntryTimestamp(entry: string): Option<nat> {
    if |POINT_OPEN| <= |entry| && entry[..|POINT_OPEN|] == POINT_OPEN
    then Some(DecimalValue(DigitPrefix(entry[|POINT_OPEN|..])))
    else None
  }

  /** Timestamps are written raw: reading an entry gives back the recorded timestamp itself. */
  lemma PointTimestampIsRaw(mp: MotionPoint, num: NumberText)
    ensures EntryTimestamp(PointEntry(mp, num)) == Some(mp.timestamp)
  {
    var digits := NatText(mp.timestamp);
    var rest := PointFields(mp, num);
    Assoc(POINT_OPEN, digits, rest);
    assert PointEntry(mp, num)[|POINT_OPEN|..] == digits + rest;
    DigitPrefixStopsAtNonDigit(digits, rest);
    NatTextRoundTrip(mp.timestamp);
  }

  /** The "motionPoints" array body: a comma after every point except the last, each on its own line. */
  function PointsText(points: seq<MotionPoint>, num: NumberText): string {
    ListedFrom(Map(PointItem(num), points), ",", "\n", 0)
  }

  /** The points appear in recording order, separated by ",\n", ending with one newline. */
  lemma PointsInOrder(points: seq<MotionPoint>, num: NumberText)
    ensures PointsText(points, num)
         == if points == [] then "" else Join(Map(PointItem(num), points), ",\n") + "\n"
  {
    var entries := Map(PointItem(num), points);
    ListedFromIsJoin(entries, ",", "\n", 0);
    assert entries[0..] == entries;
    assert "," + "\n" == ",\n";
  }

  /** The dash lengths, separated by ", ". */
  function DashesText(dashes: seq<real>, num: NumberText): string {
    ListedFrom(Map(num, dashes), ", ", "", 0)
  }

  /** The four channels of a colour as integers, one per line, the last without a comma. */
  function ColorFields(c: Color, indent: string): string {
    indent + "\"r\": " + NatText(c.red) + ",\n"
      + indent + "\"g\": " + NatText(c.green) + ",\n"
      + indent + "\"b\": " + NatText(c.blue) + ",\n"
      + indent + "\"a\": " + NatText(c.alpha) + "\n"
  }

  predicate HasMotion(e: Element) {
    e.Stroke? && e.motion.Some?
  }

  /** A stroke object up to the value of "hasDashes". */
  function StrokeHead(s: Element, num: NumberText): string
    requires s.Stroke?
  {
    "        {\n"
      + "          \"tool\": \"" + ToolName(s.tool) + "\",\n"
      + "          \"width\": " + num(s.width) + ",\n"
      + "          \"color\": {\n" + ColorFields(s.color, "            ") + "          },\n"
      + "          \"fill\": " + IntText(s.fill) + ",\n"
      + "          \"lineStyle\": {\n"
      + "            \"hasDashes\": " + (if s.dashes != [] then "true" else "false")
  }

  const DASHES_OPEN: string := ",\n            \"dashes\": ["
  const POINTS_OPEN: string := "          },\n          \"motionPoints\": [\n"
  const STROKE_CLOSE: string := "          ]\n        }"

  /** The rest of "lineStyle": the dash array only when the style has dashes. */
  function DashesPart(dashes: seq<real>, num: NumberText): string {
    if dashes != [] then DASHES_OPEN + DashesText(dashes, num) + "]\n" else "\n"
  }

  /** One stroke object: tool, width, colour, fill, line style, then its points. */
  function StrokeText(s: Element, num: NumberText): string
    requires HasMotion(s)
  {
    StrokeHead(s, num) + DashesPart(s.dashes, num) + POINTS_OPEN + PointsText(s.motion.value, num) + STROKE_CLOSE
  }

  /** The elements of the layers in order, as the nested layer and element loops visit them. */
  function Flatten<T>(layers: seq<seq<T>>): seq<T> {
    if layers == [] then [] else layers[0] + Flatten(layers[1..])
  }

  /**
   * The stroke loop as written, for any item text: a ",\n" before every
   * element `keep` selects except the first one emitted.
   */
  function EmitSelected<T>(xs: seq<T>, keep: T -> bool, item: T -> string, first: bool): string {
    if xs == [] then ""
    else if keep(xs[0]) then (if first then "" else ",\n") + item(xs[0]) + EmitSelected(xs[1..], keep, item, false)
    else EmitSelected(xs[1..], keep, item, first)
  }

  /** The elements `keep` selects, in order. */
  function Selected<T>(xs: seq<T>, keep: T -> bool): (r: seq<T>)
    ensures forall i :: 0 <= i < |r| ==> keep(r[i])
    ensures forall i :: 0 <= i < |r| ==> r[i] in xs
    ensures forall i :: 0 <= i < |xs| && keep(xs[i]) ==> xs[i] in r
    ensures multiset(r) <= multiset(xs)
    ensures |r| <= |xs|
  {
    if xs == [] then []
    else
      assert xs == [xs[0]] + xs[1..];
      (if keep(xs[0]) then [xs[0]] else []) + Selected(xs[1..], keep)
  }

  /** Selection keeps order: the selection of two parts is the first part's selection, then the second's. */
  lemma {:induction false} SelectedAppend<T>(xs: seq<T>, ys: seq<T>, keep: T -> bool)
    ensures Selected(xs + ys, keep) == Selected(xs, keep) + Selected(ys, keep)
  {
    if xs == [] {
      assert xs + ys == ys;
    } else {
      assert (xs + ys)[0] == xs[0] && (xs + ys)[1..] == xs[1..] + ys;
      SelectedAppend(xs[1..], ys, keep);
      Assoc(if keep(xs[0]) then [xs[0]] else [], Selected(xs[1..], keep), Selected(ys, keep));
    }
  }

  /** A single element is selected exactly when `keep` holds of it. */
  lemma SelectedSingle<T>(x: T, keep: T -> bool)
    ensures Selected([x], keep) == if keep(x) then [x] else []
  {
    assert [x][1..] == [];
  }

  lemma {:induction false} EmitSelectedIsJoin<T>(xs: seq<T>, keep: T -> bool, item: T -> string, first: bool)
    ensures EmitSelected(xs, keep, item, first)
         == if Selected(xs, keep) == [] then ""
            else (if first then "" else ",\n") + Join(Map(item, Selected(xs, keep)), ",\n")
  {
    if xs != [] {
      var rest := Selected(xs[1..], keep);
      if keep(xs[0]) {
        EmitSelectedIsJoin(xs[1..], keep, item, false);
        assert Selected(xs, keep) == [xs[0]] + rest;
        MapCons(item, xs[0], rest);
        JoinCons(item(xs[0]), Map(item, rest), ",\n");
      } else {
        EmitSelectedIsJoin(xs[1..], keep, item, first);
        assert EmitSelected(xs, keep, item, first) == EmitSelected(xs[1..], keep, item, first);
        assert Selected(xs, keep) == [] + rest;
        assert [] + rest == rest;
      }
    }
  }

  function StrokeItem(num: NumberText): Element -> string {
    e => if HasMotion(e) then StrokeText(e, num) else ""
  }

  /** The stroke objects of one page: its layers' motion-bearing strokes. */
  function StrokesText(layers: seq<seq<Element>>, num: NumberText): string {
    EmitSelected(Flatten(layers), HasMotion, StrokeItem(num), true)
  }

  /**
   * Exactly the motion-bearing strokes are written, in document order, separated
   * by ",\n"; strokes without a recording leave no trace.
   */
  lemma StrokesAreTheMotionStrokes(layers: seq<seq<Element>>, num: NumberText)
    ensures StrokesText(layers, num)
         == Join(Map(StrokeItem(num), Selected(Flatten(layers), HasMotion)), ",\n")
  {
    EmitSelectedIsJoin(Flatten(layers), HasMotion, StrokeItem(num), true);
  }

  /** A page object up to the opening of its "strokes" array. */
  function PageHead(index: nat, page: Page, num: NumberText): string {
    "    {\n"
      + "      \"pageIndex\": " + NatText(index) + ",\n"
      + "      \"width\": " + num(page.width) + ",\n"
      + "      \"height\": " + num(page.height) + ",\n"
      + "      \"background\": {\n"
      + "        \"type\": \"" + BackgroundTypeName(page.background.format) + "\",\n"
      + "        \"config\": \"" + page.background.config + "\",\n"
      + "        \"color\": {\n" + ColorFields(page.backgroundColor, "          ") + "        }\n"
      + "      },\n"
      + "      \"strokes\": [\n"
  }

  const PAGE_CLOSE: string := "\n      ]\n    }"

  /** One page object, without the comma and newline that follow it. */
  function PageBody(index: nat, page: Page, num: NumberText): string {
    PageHead(index, page, num) + StrokesText(page.layers, num) + PAGE_CLOSE
  }

  /**
   * The page loop as written, for any page text: null slots are skipped, and
   * the comma after a page depends on its index, not on whether a later page
   * is written.
   */
  function PagesFrom<P>(pages: seq<Option<P>>, p: nat, body: (nat, P) -> string): string
    decreases |pages| - p
  {
    if p >= |pages| then ""
    else
      (if pages[p].Some? then body(p, pages[p].value) + (if p < |pages| - 1 then "," else "") + "\n" else "")
      + PagesFrom(pages, p + 1, body)
  }

  function PageBodies<P>(pages: seq<Option<P>>, body: (nat, P) -> string): (r: seq<string>)
    requires forall p :: 0 <= p < |pages| ==> pages[p].Some?
    ensures |r| == |pages|
  {
    seq(|pages|, p requires 0 <= p < |pages| => body(p, pages[p].value))
  }

  lemma {:induction false} PagesFromIsListed<P>(pages: seq<Option<P>>, p: nat, body: (nat, P) -> string)
    requires forall q :: 0 <= q < |pages| ==> pages[q].Some?
    requires p <= |pages|
    ensures PagesFrom(pages, p, body) == ListedFrom(PageBodies(pages, body), ",", "\n", p)
    decreases |pages| - p
  {
    if p < |pages| {
      PagesFromIsListed(pages, p + 1, body);
    }
  }

  /** With every page present, the page objects are separated by ",\n" with no trailing comma. */
  lemma PagesWellSeparated<P>(pages: seq<Option<P>>, body: (nat, P) -> string)
    requires forall q :: 0 <= q < |pages| ==> pages[q].Some?
    ensures PagesFrom(pages, 0, body)
         == if pages == [] then "" else Join(PageBodies(pages, body), ",\n") + "\n"
  {
    PagesFromIsListed(pages, 0, body);
    ListedFromIsJoin(PageBodies(pages, body), ",", "\n", 0);
    assert PageBodies(pages, body)[0..] == PageBodies(pages, body);
    assert "," + "\n" == ",\n";
  }

  /** A null last page leaves a comma after the page before it, right before the closing bracket. */
  lemma NullLastPageLeavesComma<P>(page: P, body: (nat, P) -> string)
    ensures PagesFrom([Some(page), None], 0, body) == body(0, page) + ",\n"
  {
    assert PagesFrom([Some(page), None], 2, body) == "";
    assert PagesFrom([Some(page), None], 1, body) == "";
    assert body(0, page) + "," + "\n" + "" == body(0, page) + ",\n";
  }

  function PageItem(num: NumberText): (nat, Page) -> string {
    (i: nat, page: Page) => PageBody(i, page, num)
  }

  /** The top-level fields of motion_metadata.json, up to the opening of "pages". */
  function MetadataHead(frameRate: int, totalFrames: nat, t: Tally): string {
    "{\n"
      + "  \"frameRate\": " + IntText(frameRate) + ",\n"
      + "  \"totalFrames\": " + NatText(totalFrames) + ",\n"
      + "  \"totalMotionPoints\": " + NatText(t.totalMotionPoints) + ",\n"
      + "  \"minTimestamp\": " + NatText(t.minTimestamp) + ",\n"
      + "  \"maxTimestamp\": " + NatText(t.maxTimestamp) + ",\n"
      + "  \"pages\": [\n"
  }

  const METADATA_CLOSE: string := "  ]\n}\n"

  /** The whole of motion_metadata.json. */
  function MetadataText(frameRate: int, totalFrames: nat, t: Tally, doc: Document, num: NumberText): (r: string)
    ensures |r| >= 2 + |METADATA_CLOSE| && r[..2] == "{\n" && r[|r| - |METADATA_CLOSE|..] == METADATA_CLOSE
  {
    MetadataHead(frameRate, totalFrames, t) + PagesFrom(doc.pages, 0, PageItem(num)) + METADATA_CLOSE
  }

  // ---------------------------------------------------------------------------
  // Writing the file: the stream writes of `startExport`, piece by piece

  lemma Regroup(a: string, b: string, c: string, d: string)
    ensures a + b + c + d == a + (b + c + d)
  {
  }

  /** The counted loop writing item, separator-unless-last, terminator, for the points and the dashes. */
  method WriteListed<T>(out0: string, xs: seq<T>, item: T -> string, sep: string, end: string) returns (out: string)
    ensures out == out0 + ListedFrom(Map(item, xs), sep, end, 0)
  {
    out := out0;
    var i := 0;
    while i < |xs|
      invariant 0 <= i <= |xs|
      invariant out + ListedFrom(Map(item, xs), sep, end, i) == out0 + ListedFrom(Map(item, xs), sep, end, 0)
    {
      ghost var before := out;
      var text := item(xs[i]);
      var separator := if i < |xs| - 1 then sep else "";
      out := out + text + separator + end;
      Regroup(before, text, separator, end + ListedFrom(Map(item, xs), sep, end, i + 1));
      i := i + 1;
    }
    assert out + "" == out;
  }

  lemma Assoc<T>(a: seq<T>, b: seq<T>, c: seq<T>)
    ensures a + b + c == a + (b + c)
  {
  }

  /** The rest of "lineStyle": the dash loop only when the style has dashes. */
  method WriteDashesPart(out0: string, dashes: seq<real>, num: NumberText) returns (out: string)
    ensures out == out0 + DashesPart(dashes, num)
  {
    if dashes != [] {
      out := out0 + DASHES_OPEN;
      out := WriteListed(out, dashes, num, ", ", "");
      out := out + "]\n";
      Regroup(out0, DASHES_OPEN, DashesText(dashes, num), "]\n");
    } else {
      out := out0 + "\n";
    }
  }

  lemma Regroup6(a: string, b: string, c: string, d: string, e: string, f: string)
    ensures a + b + c + d + e + f == a + (b + c + d + e + f)
  {
  }

  method WriteStroke(out0: string, s: Element, num: NumberText) returns (out: string)
    requires HasMotion(s)
    ensures out == out0 + StrokeText(s, num)
  {
    ghost var head := StrokeHead(s, num);
    ghost var dashesPart := DashesPart(s.dashes, num);
    ghost var pointsText := PointsText(s.motion.value, num);
    out := out0 + StrokeHead(s, num);
    out := WriteDashesPart(out, s.dashes, num);
    out := out + POINTS_OPEN;
    out := WriteListed(out, s.motion.value, PointItem(num), ",", "\n");
    out := out + STROKE_CLOSE;
    Regroup6(out0, head, dashesPart, POINTS_OPEN, pointsText, STROKE_CLOSE);
  }

  /** One step of the stroke loop, for any item text. */
  lemma EmitSelectedStep<T>(xs: seq<T>, keep: T -> bool, item: T -> string, first: bool)
    requires xs != []
    ensures EmitSelected(xs, keep, item, first)
         == (if keep(xs[0]) then (if first then "" else ",\n") + item(xs[0]) else "")
            + EmitSelected(xs[1..], keep, item, first && !keep(xs[0]))
  {
    if !keep(xs[0]) {
      assert "" + EmitSelected(xs[1..], keep, item, first) == EmitSelected(xs[1..], keep, item, first);
    }
  }

  /** The body of the element loop: one element, written only when it is a stroke with a recording. */
  method WriteStrokeSlot(out0: string, element: Element, firstStroke: bool, num: NumberText)
    returns (out: string, first: bool)
    ensures first == (firstStroke && !HasMotion(element))
    ensures out == out0 + (if HasMotion(element)
                           then (if firstStroke then "" else ",\n") + StrokeItem(num)(element) else "")
  {
    first := firstStroke;
    out := out0;
    if HasMotion(element) {
      ghost var separator := if firstStroke then "" else ",\n";
      if !first {
        out := out + ",\n";
      } else {
        assert out0 + "" == out0;
      }
      first := false;
      ghost var text := StrokeText(element, num);
      assert out == out0 + separator;
      out := WriteStroke(out, element, num);
      Assoc(out0, separator, text);
      assert StrokeItem(num)(element) == text;
    } else {
      assert out0 + "" == out0;
    }
  }

  /** One element of the loop, followed by `rest`: the text still to come is unchanged. */
  method WriteStrokeStep(out0: string, element: Element, ghost rest: seq<Element>, firstStroke: bool, num: NumberText)
    returns (out: string, first: bool)
    ensures out + EmitSelected(rest, HasMotion, StrokeItem(num), first)
         == out0 + EmitSelected([element] + rest, HasMotion, StrokeItem(num), firstStroke)
  {
    ghost var item := StrokeItem(num);
    ghost var remaining := [element] + rest;
    assert remaining[0] == element && remaining[1..] == rest;
    EmitSelectedStep(remaining, HasMotion, item, firstStroke);
    ghost var piece := if HasMotion(element) then (if firstStroke then "" else ",\n") + item(element) else "";
    out, first := WriteStrokeSlot(out0, element, firstStroke, num);
    Assoc(out0, piece, EmitSelected(rest, HasMotion, item, first));
  }

  /**
   * The element loop over one layer: whatever `later` elements follow, the
   * text still to come after the layer continues with the new flag.
   */
  method WriteLayerStrokes(out0: string, elements: seq<Element>, ghost later: seq<Element>,
                           firstStroke: bool, num: NumberText)
    returns (out: string, first: bool)
    ensures out + EmitSelected(later, HasMotion, StrokeItem(num), first)
         == out0 + EmitSelected(elements + later, HasMotion, StrokeItem(num), firstStroke)
  {
    ghost var item := StrokeItem(num);
    ghost var goal := out0 + EmitSelected(elements + later, HasMotion, item, firstStroke);
    out := out0;
    first := firstStroke;
    var e := 0;
    ghost var rest := elements + later;
    while e < |elements|
      invariant 0 <= e <= |elements|
      invariant rest == elements[e..] + later
      invariant out + EmitSelected(rest, HasMotion, item, first) == goal
    {
      assert rest == [elements[e]] + (elements[e + 1..] + later);
      out, first := WriteStrokeStep(out, elements[e], elements[e + 1..] + later, first, num);
      rest := elements[e + 1..] + later;
      e := e + 1;
    }
    assert rest == later;
  }

  /** The nested layer and element loops of one page, with the `firstStroke` flag carried across layers. */
  method WriteStrokes(out0: string, layers: seq<seq<Element>>, num: NumberText) returns (out: string)
    ensures out == out0 + StrokesText(layers, num)
  {
    ghost var goal := out0 + StrokesText(layers, num);
    out := out0;
    var firstStroke := true;
    var l := 0;
    assert layers[l..] == layers;
    while l < |layers|
      invariant 0 <= l <= |layers|
      invariant out + EmitSelected(Flatten(layers[l..]), HasMotion, StrokeItem(num), firstStroke) == goal
    {
      assert layers[l..][1..] == layers[l + 1..];
      assert Flatten(layers[l..]) == layers[l] + Flatten(layers[l + 1..]);
      out, firstStroke := WriteLayerStrokes(out, layers[l], Flatten(layers[l + 1..]), firstStroke, num);
      l := l + 1;
    }
    assert out + "" == out;
  }

  method WritePage(out0: string, index: nat, page: Page, num: NumberText) returns (out: string)
    ensures out == out0 + PageBody(index, page, num)
  {
    ghost var head := PageHead(index, page, num);
    out := out0 + PageHead(index, page, num);
    out := WriteStrokes(out, page.layers, num);
    out := out + PAGE_CLOSE;
    Regroup(out0, head, StrokesText(page.layers, num), PAGE_CLOSE);
  }

  /** One step of the page loop, for any page text. */
  lemma PagesFromStep<P>(pages: seq<Option<P>>, p: nat, body: (nat, P) -> string)
    requires p < |pages|
    ensures PagesFrom(pages, p, body)
         == (if pages[p].Some? then body(p, pages[p].value) + (if p < |pages| - 1 then "," else "") + "\n" else "")
            + PagesFrom(pages, p + 1, body)
  {
  }

  /** The body of the page loop: one slot, written only when the page is present. */
  method WritePageSlot(out0: string, pages: seq<Option<Page>>, p: nat, num: NumberText) returns (out: string)
    requires p < |pages|
    ensures out == out0 + (if pages[p].Some?
                           then PageItem(num)(p, pages[p].value) + (if p < |pages| - 1 then "," else "") + "\n"
                           else "")
  {
    if pages[p].Some? {
      out := WritePage(out0, p, pages[p].value, num);
      var comma := if p < |pages| - 1 then "," else "";
      out := out + comma + "\n";
      assert PageItem(num)(p, pages[p].value) == PageBody(p, pages[p].value, num);
      Regroup(out0, PageBody(p, pages[p].value, num), comma, "\n");
    } else {
      out := out0;
      assert out0 + "" == out0;
    }
  }

  /** The page loop: null slots skipped, a comma after every page whose index is not the last. */
  method WritePages(out0: string, pages: seq<Option<Page>>, num: NumberText) returns (out: string)
    ensures out == out0 + PagesFrom(pages, 0, PageItem(num))
  {
    ghost var body := PageItem(num);
    ghost var goal := out0 + PagesFrom(pages, 0, body);
    out := out0;
    var p := 0;
    while p < |pages|
      invariant 0 <= p <= |pages|
      invariant out + PagesFrom(pages, p, body) == goal
    {
      ghost var before := out;
      PagesFromStep(pages, p, body);
      out := WritePageSlot(out, pages, p, num);
      Assoc(before, if pages[p].Some? then body(p, pages[p].value) + (if p < |pages| - 1 then "," else "") + "\n" else "",
            PagesFrom(pages, p + 1, body));
      p := p + 1;
    }
    assert out + "" == out;
  }

  method WriteMetadata(frameRate: int, totalFrames: nat, t: Tally, doc: Document, num: NumberText)
    returns (out: string)
    ensures out == MetadataText(frameRate, totalFrames, t, doc, num)
  {
    ghost var head := MetadataHead(frameRate, totalFrames, t);
    out := MetadataHead(frameRate, totalFrames, t);
    out := WritePages(out, doc.pages, num);
    out := out + METADATA_CLOSE;
  }

  // ---------------------------------------------------------------------------
  // The exporter object

  /** What the filesystem answers: does the output folder exist, can it be created, does the metadata file open. */
  datatype FileSystem = FileSystem(outputExists: bool, createSucceeds: bool, metadataOpens: bool)

  /** Whether `startExport` returns true, as a function of the state it starts from. */
  predicate ExportSucceeds(exporting: bool, document: Option<Document>, fs: FileSystem) {
    !exporting && document.Some? && (fs.outputExists || fs.createSucceeds)
      && Summarize(Recordings(document.value)).totalMotionPoints > 0
  }

  class MotionExporter {
    var document: Option<Document>
    var outputPath: string
    var frameRate: int
    var exporting: bool
    var progress: real
    var frameCount: nat
    var totalFrames: nat
    /** The contents of the last motion_metadata.json written. */
    var metadata: Option<string>

    constructor (document: Option<Document>)
      ensures this.document == document && outputPath == [] && frameRate == 30
      ensures !exporting && progress == 0.0 && frameCount == 0 && totalFrames == 0
      ensures metadata.None?
    {
      this.document := document;
      outputPath := [];
      frameRate := 30;
      exporting := false;
      progress := 0.0;
      frameCount := 0;
      totalFrames := 0;
      metadata := None;
    }

    /** `startExport(outputPath, frameRate = 30)`. */
    method StartExport(outputPath: string, fs: FileSystem, num: NumberText, frameRate: int := 30) returns (ok: bool)
      modifies this
      ensures ok == ExportSucceeds(old(exporting), old(document), fs)
      // a call that finds an export running leaves it running; every other call ends idle
      ensures exporting == old(exporting)
      ensures document == old(document)
      // the guards: already exporting, no document, folder cannot be created
      ensures old(exporting) || document.None? || (!fs.outputExists && !fs.createSucceeds) ==>
        this.outputPath == old(this.outputPath) && this.frameRate == old(this.frameRate)
        && progress == old(progress) && frameCount == old(frameCount)
        && totalFrames == old(totalFrames) && metadata == old(metadata)
      // past the guards: nothing to export
      ensures !old(exporting) && document.Some? && (fs.outputExists || fs.createSucceeds)
              && Summarize(Recordings(document.value)).totalMotionPoints == 0 ==>
        this.outputPath == outputPath && this.frameRate == frameRate
        && progress == 0.0 && frameCount == 0
        && totalFrames == old(totalFrames) && metadata == old(metadata)
      // success
      ensures ok ==>
        var t := Summarize(Recordings(document.value));
        this.outputPath == outputPath && this.frameRate == frameRate
        && totalFrames == TotalFrames(t.minTimestamp, t.maxTimestamp, frameRate)
        && progress == 1.0 && frameCount == totalFrames
        && metadata == (if fs.metadataOpens then Some(MetadataText(frameRate, totalFrames, t, document.value, num))
                        else old(metadata))
    {
      if exporting {
        return false;
      }
      if document.None? {
        return false;
      }
      if !fs.outputExists && !fs.createSucceeds {
        return false;
      }
      this.outputPath := outputPath;
      this.frameRate := frameRate;
      exporting := true;
      progress := 0.0;
      frameCount := 0;

      var t := TallyDocument(document.value);
      if t.totalMotionPoints == 0 {
        exporting := false;
        return false;
      }

      var frames: nat := 1;
      if t.maxTimestamp > t.minTimestamp {
        var durationMs := t.maxTimestamp - t.minTimestamp;
        frames := (durationMs * (frameRate % SIZE_LIMIT)) % SIZE_LIMIT / 1000 + 1;
      }
      assert frames == TotalFrames(t.minTimestamp, t.maxTimestamp, frameRate);
      totalFrames := frames;

      if fs.metadataOpens {
        var text := WriteMetadata(frameRate, totalFrames, t, document.value, num);
        metadata := Some(text);
      }

      progress := 1.0;
      frameCount := totalFrames;
      exporting := false;
      return true;
    }

    method Stop()
      modifies this
      ensures !exporting
      ensures document == old(document) && outputPath == old(outputPath) && frameRate == old(frameRate)
      ensures progress == old(progress) && frameCount == old(frameCount) && totalFrames == old(totalFrames)
      ensures metadata == old(metadata)
    {
      if exporting {
        exporting := false;
      }
    }

    function IsExporting(): (r: bool)
      reads this
      ensures r <==> exporting
    {
      exporting
    }

    function GetProgress(): (r: real)
      reads this
      ensures r == progress
    {
      progress
    }

    function GetFrameCount(): (r: nat)
      reads this
      ensures r == frameCount
    {
      frameCount
    }
  }
}
