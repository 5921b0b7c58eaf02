/**
 * The erase handler: one gesture of the "delete stroke" or the standard
 * eraser over the selected layer of a page. Stroke geometry is an oracle;
 * the undo handler's action list and the selected layer are kept as values
 * the handler updates.
 */
module Erasing {
  import opened Wrappers
  import opened Elements
  import MotionRecordings

  // ---------------------------------------------------------------------------
  // Collaborators and geometry

  /** The eraser modes the tool handler reports; only "delete stroke" is told apart. */
  datatype EraserType = DeleteStroke | Standard | Whiteout

  /** The tool handler's current eraser: its thickness (a radius) and its mode. */
  datatype ToolState = ToolState(thickness: real, eraserType: EraserType)

  /** A `GdkRectangle`: integer origin and size. */
  datatype Rect = Rect(x: int, y: int, width: int, height: int)

  /** The padded eraser shape used against one stroke. */
  datatype PaddedBox = PaddedBox(cx: real, cy: real, innerRadius: real, outerRadius: real)

  /**
   * The stroke geometry, given per stroke identity: area test against the
   * eraser rectangle, circle test, and the intersection parameters with a
   * padded box (empty when they do not meet).
   */
  datatype Geometry = Geometry(
    intersectsArea: (nat, Rect) -> bool,
    intersects: (nat, real, real, real) -> bool,
    intersectWithPaddedBox: (nat, PaddedBox) -> seq<real>)

  /** C++'s conversion of a double to an integer: truncation toward zero. */
  function TruncToInt(r: real): (i: int)
    ensures r >= 0.0 ==> i as real <= r < i as real + 1.0
    ensures r < 0.0 ==> i as real - 1.0 < r <= i as real
  {
    if r >= 0.0 then r.Floor else -((-r).Floor)
  }

  /** The eraser rectangle: a square of side twice the half size around (x, y), each field truncated. */
  function EraserRect(x: real, y: real, half: real): (r: Rect)
    ensures r.x == TruncToInt(x - half) && r.y == TruncToInt(y - half)
    ensures r.width == r.height == TruncToInt(half * 2.0)
  {
    Rect(TruncToInt(x - half), TruncToInt(y - half), TruncToInt(half * 2.0), TruncToInt(half * 2.0))
  }

  /** Padding per cap style: round 0.4, butt 0.01, square 0.5. */
  function PaddingCoefficient(cap: CapStyle): (c: real)
    ensures cap == Round ==> c == 0.4
    ensures cap == Butt ==> c == 0.01
    ensures cap == Square ==> c == 0.5
  {
    match cap
    case Round => 0.4
    case Butt => 0.01
    case Square => 0.5
  }

  /**
   * The padded box around (x, y) for stroke `s`: inner radius the half
   * eraser size, outer radius that plus the cap's coefficient times the
   * stroke width.
   */
  function PaddedEraserBox(x: real, y: real, half: real, s: Element): (b: PaddedBox)
    requires s.Stroke?
    ensures b.cx == x && b.cy == y && b.innerRadius == half
    ensures b.outerRadius == half + PaddingCoefficient(s.cap) * s.width
  {
    PaddedBox(x, y, half, half + PaddingCoefficient(s.cap) * s.width)
  }

  /** The padding never shrinks the box, and never widens it by more than half the stroke width. */
  lemma PaddingBounds(x: real, y: real, half: real, s: Element)
    requires s.Stroke? && s.width >= 0.0
    ensures PaddedEraserBox(x, y, half, s).innerRadius <= PaddedEraserBox(x, y, half, s).outerRadius
    ensures PaddedEraserBox(x, y, half, s).outerRadius <= half + s.width / 2.0
  {
  }

  /** The timestamp recorded for a sample: the argument, or the monotonic clock in milliseconds when it is 0. */
  function StampTime(timestamp: SizeT, monotonicMicros: SizeT): (t: SizeT)
    ensures timestamp != 0 ==> t == timestamp
    ensures timestamp == 0 ==> t == monotonicMicros / 1000
  {
    if timestamp == 0 then monotonicMicros / 1000 else timestamp
  }

  /** The stroke that will carry the eraser's path: eraser tool, twice the thickness wide, white. */
  function NewEraserStroke(id: nat, thickness: real): (s: Element)
    ensures s.Stroke? && s.id == id && s.tool == Eraser
    ensures s.width == thickness * 2.0 && s.color == WHITE && s.motion == None
    // the defaults a new `Stroke` takes: no fill, round caps, no dashes
    ensures s.fill == -1 && s.cap == Round && s.dashes == []
  {
    Stroke(id, Eraser, thickness * 2.0, WHITE, -1, Round, [], None)
  }

  // ---------------------------------------------------------------------------
  // Layer lists and undo actions

  /** `Layer::indexOf`: the first position of the element, or -1. */
  function IndexOf(elements: seq<Element>, id: nat): (r: int)
    ensures -1 <= r < |elements|
    ensures r == -1 <==> forall i :: 0 <= i < |elements| ==> elements[i].id != id
    ensures r >= 0 ==> elements[r].id == id && forall i :: 0 <= i < r ==> elements[i].id != id
  {
    if elements == [] then -1
    else if elements[0].id == id then 0
    else var r := IndexOf(elements[1..], id); if r == -1 then -1 else r + 1
  }

  /** `Layer::removeElement` at a known position: the element there leaves, the others keep their order. */
  function RemoveAt(elements: seq<Element>, i: nat): (r: seq<Element>)
    requires i < |elements|
    ensures |r| == |elements| - 1
    ensures forall j :: 0 <= j < i ==> r[j] == elements[j]
    ensures forall j :: i <= j < |r| ==> r[j] == elements[j + 1]
  {
    elements[..i] + elements[i + 1..]
  }

  /** Removing one element and keeping it aside loses nothing. */
  lemma RemoveAtKeepsAll(elements: seq<Element>, i: nat)
    requires i < |elements|
    ensures multiset(RemoveAt(elements, i)) + multiset{elements[i]} == multiset(elements)
  {
    assert elements == elements[..i] + [elements[i]] + elements[i + 1..];
  }

  /** An element and the position it had in its layer. */
  datatype Entry = Entry(element: Element, position: nat)

  /**
   * The undo handler's actions: a whole-stroke deletion, a partial erasure
   * holding the original strokes (and whether it was finalized), or an
   * action of some other origin.
   */
  datatype UndoAction =
    | DeleteUndo(removed: seq<Entry>)
    | EraseUndo(originals: seq<Entry>, finalized: bool)
    | OtherUndo

  /** The calls made on a stroke's erasable state: the first erasure, then later padded boxes. */
  datatype Erasure = Begin(parameters: seq<real>) | EraseBox(box: PaddedBox)

  datatype ActionKind = DeleteKind | EraseKind

  predicate IsKind(u: UndoAction, k: ActionKind) {
    match k
    case DeleteKind => u.DeleteUndo?
    case EraseKind => u.EraseUndo?
  }

  function CountKind(us: seq<UndoAction>, k: ActionKind): nat {
    if us == [] then 0
    else CountKind(us[..|us| - 1], k) + (if IsKind(us[|us| - 1], k) then 1 else 0)
  }

  lemma CountAppend(us: seq<UndoAction>, u: UndoAction, k: ActionKind)
    ensures CountKind(us + [u], k) == CountKind(us, k) + (if IsKind(u, k) then 1 else 0)
  {
    assert (us + [u])[..|us|] == us;
  }

  /** Replacing an action by one of the same kind keeps the count of every kind. */
  lemma {:induction false} CountUpdate(us: seq<UndoAction>, h: nat, u: UndoAction, k: ActionKind)
    requires h < |us| && IsKind(us[h], k) == IsKind(u, k)
    ensures CountKind(us[h := u], k) == CountKind(us, k)
  {
    var n := |us|;
    if h < n - 1 {
      assert us[h := u][..n - 1] == us[..n - 1][h := u];
      CountUpdate(us[..n - 1], h, u, k);
    } else {
      assert us[h := u][..n - 1] == us[..n - 1];
    }
  }

  // ---------------------------------------------------------------------------
  // The gesture state

  /**
   * Everything one gesture reads and changes: the selected layer's
   * elements, the undo handler's actions, the two non-owning handles into
   * them, the erasable state of touched strokes, the half eraser size, and
   * the eraser's own motion log with the stroke that will carry it.
   */
  datatype Gesture = Gesture(
    layer: Option<seq<Element>>,
    undo: seq<UndoAction>,
    deleteAction: Option<nat>,
    eraseAction: Option<nat>,
    erasable: map<nat, seq<Erasure>>,
    halfEraserSize: real,
    motionLog: Option<seq<MotionPoint>>,
    motionStroke: Option<Element>)

  /** The handles point at actions of their own kind, and the eraser's stroke is a stroke. */
  predicate Consistent(g: Gesture) {
    && (g.motionStroke.Some? ==> g.motionStroke.value.Stroke?)
    && (g.deleteAction.Some? ==> g.deleteAction.value < |g.undo| && g.undo[g.deleteAction.value].DeleteUndo?)
    && (g.eraseAction.Some? ==> g.eraseAction.value < |g.undo| && g.undo[g.eraseAction.value].EraseUndo?)
  }

  /** Register a fresh delete action if none is open. */
  function OpenDeleteAction(g: Gesture): (r: Gesture)
    requires Consistent(g)
    ensures Consistent(r) && r.deleteAction.Some?
  {
    if g.deleteAction.Some? then g
    else g.(undo := g.undo + [DeleteUndo([])], deleteAction := Some(|g.undo|))
  }

  /** Register a fresh erase action if none is open. */
  function OpenEraseAction(g: Gesture): (r: Gesture)
    requires Consistent(g)
    ensures Consistent(r) && r.eraseAction.Some?
  {
    if g.eraseAction.Some? then g
    else g.(undo := g.undo + [EraseUndo([], false)], eraseAction := Some(|g.undo|))
  }

  /** `eraseStroke`: the effect of the eraser at (x, y) on one stroke of the layer. */
  function EraseStrokeStep(g: Gesture, s: Element, x: real, y: real, mode: EraserType, geo: Geometry): (r: Gesture)
    requires g.layer.Some? && s.Stroke? && Consistent(g)
    ensures r.layer.Some? && Consistent(r)
    ensures r.motionLog == g.motionLog && r.motionStroke == g.motionStroke
    ensures r.halfEraserSize == g.halfEraserSize
  {
    var elements := g.layer.value;
    var pos := IndexOf(elements, s.id);
    if s.id !in g.erasable then
      if mode == DeleteStroke then
        if !geo.intersects(s.id, x, y, g.halfEraserSize) || pos == -1 then g
        else
          var g1 := OpenDeleteAction(g);
          var h := g1.deleteAction.value;
          g1.(layer := Some(RemoveAt(elements, pos)),
              undo := g1.undo[h := DeleteUndo(g1.undo[h].removed + [Entry(elements[pos], pos)])])
      else if pos == -1 then g
      else
        var params := geo.intersectWithPaddedBox(s.id, PaddedEraserBox(x, y, g.halfEraserSize, s));
        if params == [] then g
        else
          var g1 := OpenEraseAction(g);
          var h := g1.eraseAction.value;
          var action := g1.undo[h];
          g1.(erasable := g1.erasable[s.id := [Begin(params)]],
              undo := g1.undo[h := EraseUndo(action.originals + [Entry(s, pos)], action.finalized)])
    else if pos == -1 then g
    else g.(erasable := g.erasable[s.id := g.erasable[s.id] + [EraseBox(PaddedEraserBox(x, y, g.halfEraserSize, s))]])
  }

  /** One element of the loop: only strokes whose area meets the eraser rectangle are erased. */
  function VisitStep(g: Gesture, e: Element, rect: Rect, x: real, y: real, mode: EraserType, geo: Geometry): (r: Gesture)
    requires g.layer.Some? && Consistent(g)
    ensures r.layer.Some? && Consistent(r)
    ensures r.motionLog == g.motionLog && r.motionStroke == g.motionStroke
    ensures r.halfEraserSize == g.halfEraserSize
  {
    if e.Stroke? && geo.intersectsArea(e.id, rect) then EraseStrokeStep(g, e, x, y, mode, geo) else g
  }

  /** The loop over a snapshot of the layer's elements, in order. */
  function VisitAll(g: Gesture, es: seq<Element>, rect: Rect, x: real, y: real, mode: EraserType, geo: Geometry): (r: Gesture)
    requires g.layer.Some? && Consistent(g)
    ensures r.layer.Some? && Consistent(r)
    ensures r.motionLog == g.motionLog && r.motionStroke == g.motionStroke
    ensures r.halfEraserSize == g.halfEraserSize
  {
    if es == [] then g
    else VisitStep(VisitAll(g, es[..|es| - 1], rect, x, y, mode, geo), es[|es| - 1], rect, x, y, mode, geo)
  }

  /** The state once the sample at (x, y) is logged, before the layer is walked. */
  function RecordSample(g: Gesture, x: real, y: real, tool: ToolState, monotonicMicros: SizeT,
                        freshId: nat, timestamp: SizeT): (r: Gesture)
    ensures r.motionLog.Some? && |r.motionLog.value| == (if g.motionLog.Some? then |g.motionLog.value| else 0) + 1
    ensures r.motionLog.value[|r.motionLog.value| - 1]
         == MotionPoint(Point(x, y, -1.0), StampTime(timestamp, monotonicMicros), true)
    ensures g.motionLog.Some? ==> r.motionLog.value[..|g.motionLog.value|] == g.motionLog.value
    ensures r.layer == g.layer && r.undo == g.undo && r.erasable == g.erasable
    ensures r.deleteAction == g.deleteAction && r.eraseAction == g.eraseAction
  {
    var g1 := if g.motionLog.None?
              then g.(motionLog := Some([]), motionStroke := Some(NewEraserStroke(freshId, tool.thickness)))
              else g;
    var sample := MotionPoint(Point(x, y, -1.0), StampTime(timestamp, monotonicMicros), true);
    g1.(halfEraserSize := tool.thickness, motionLog := Some(g1.motionLog.value + [sample]))
  }

  /** `erase(x, y, timestamp)`: log the sample, then erase every stroke the rectangle meets. */
  function EraseStep(g: Gesture, x: real, y: real, tool: ToolState, geo: Geometry, monotonicMicros: SizeT,
                     freshId: nat, timestamp: SizeT): (r: Gesture)
    requires g.layer.Some? && Consistent(g)
    ensures r.layer.Some? && Consistent(r)
  {
    var g1 := RecordSample(g, x, y, tool, monotonicMicros, freshId, timestamp);
    VisitAll(g1, g.layer.value, EraserRect(x, y, tool.thickness), x, y, tool.eraserType, geo)
  }

  /**
   * `finalize`: finalize and forget the erase action, or else forget the
   * delete action; attach the eraser's log to its stroke and append that
   * stroke to the selected layer if there is one; reset the eraser log.
   */
  function FinalizeStep(g: Gesture): (r: Gesture)
    requires Consistent(g)
    ensures Consistent(r)
  {
    var g1 :=
      if g.eraseAction.Some? then
        var h := g.eraseAction.value;
        g.(undo := g.undo[h := EraseUndo(g.undo[h].originals, true)], eraseAction := None)
      else if g.deleteAction.Some? then g.(deleteAction := None)
      else g;
    var g2 :=
      if g1.motionLog.Some? && g1.motionStroke.Some? && g1.layer.Some?
      then g1.(layer := Some(g1.layer.value + [g1.motionStroke.value.(motion := g1.motionLog)]))
      else g1;
    g2.(motionLog := None, motionStroke := None)
  }

  /** The destructor: finalize if a delete action is still open, then drop the eraser log. */
  function DestroyStep(g: Gesture): (r: Gesture)
    requires Consistent(g)
    ensures r.motionLog == None && r.motionStroke == None
  {
    if g.deleteAction.Some? then FinalizeStep(g) else g.(motionLog := None, motionStroke := None)
  }

  // ---------------------------------------------------------------------------
  // What one erase call does

  /**
   * Every call appends exactly one sample at (x, y) with pressure -1 and the
   * eraser flag set; the log and the eraser stroke are created on the first
   * call only.
   */
  lemma EraseAppendsOneSample(g: Gesture, x: real, y: real, tool: ToolState, geo: Geometry,
                              monotonicMicros: SizeT, freshId: nat, timestamp: SizeT)
    requires g.layer.Some? && Consistent(g)
    ensures var r := EraseStep(g, x, y, tool, geo, monotonicMicros, freshId, timestamp);
      && r.motionLog == Some((if g.motionLog.Some? then g.motionLog.value else [])
                             + [MotionPoint(Point(x, y, -1.0), StampTime(timestamp, monotonicMicros), true)])
      && r.motionStroke == (if g.motionLog.None? then Some(NewEraserStroke(freshId, tool.thickness)) else g.motionStroke)
      && r.halfEraserSize == tool.thickness
  {
  }

  /** The standard eraser never takes a stroke out of the layer and never opens a delete action. */
  lemma {:induction false} StandardVisitKeepsLayer(g: Gesture, es: seq<Element>, rect: Rect, x: real, y: real,
                                                   mode: EraserType, geo: Geometry)
    requires g.layer.Some? && Consistent(g) && mode != DeleteStroke
    ensures var r := VisitAll(g, es, rect, x, y, mode, geo);
      r.layer == g.layer && r.deleteAction == g.deleteAction
  {
    if es != [] {
      StandardVisitKeepsLayer(g, es[..|es| - 1], rect, x, y, mode, geo);
    }
  }

  lemma StandardEraseKeepsLayer(g: Gesture, x: real, y: real, tool: ToolState, geo: Geometry,
                                monotonicMicros: SizeT, freshId: nat, timestamp: SizeT)
    requires g.layer.Some? && Consistent(g) && tool.eraserType != DeleteStroke
    ensures var r := EraseStep(g, x, y, tool, geo, monotonicMicros, freshId, timestamp);
      r.layer == g.layer && r.deleteAction == g.deleteAction
  {
    var g1 := RecordSample(g, x, y, tool, monotonicMicros, freshId, timestamp);
    StandardVisitKeepsLayer(g1, g.layer.value, EraserRect(x, y, tool.thickness), x, y, tool.eraserType, geo);
  }

  /**
   * Delete mode on an untouched stroke: nothing changes unless the stroke
   * meets the eraser circle and is still in the layer; then it leaves the
   * layer and is appended, with its position, to the delete action (opened
   * now if none is open). No other undo action, handle or erasable state
   * changes.
   */
  lemma DeleteModeOutcome(g: Gesture, s: Element, x: real, y: real, geo: Geometry)
    requires g.layer.Some? && s.Stroke? && Consistent(g) && s.id !in g.erasable
    ensures var r := EraseStrokeStep(g, s, x, y, DeleteStroke, geo);
      var pos := IndexOf(g.layer.value, s.id);
      if !geo.intersects(s.id, x, y, g.halfEraserSize) || pos == -1 then r == g
      else
        var g1 := OpenDeleteAction(g);
        var h := g1.deleteAction.value;
        && r.layer == Some(RemoveAt(g.layer.value, pos))
        && r.deleteAction == Some(h)
        && (g.deleteAction.Some? ==> h == g.deleteAction.value && g1.undo == g.undo)
        && (g.deleteAction.None? ==> h == |g.undo| && g1.undo == g.undo + [DeleteUndo([])])
        && r.undo == g1.undo[h := DeleteUndo(g1.undo[h].removed + [Entry(g.layer.value[pos], pos)])]
        && r.eraseAction == g.eraseAction
        && r.erasable == g.erasable
  {
  }

  /**
   * Standard mode: a stroke missing from the layer, or whose padded box
   * meets nothing, is left alone; on first touch it gets an erasable state
   * and is appended, with its position, to the originals of the erase
   * action (opened now if none is open, its finalized flag kept); on later
   * touches only its erasable state grows. No other undo action or handle
   * changes.
   */
  lemma StandardModeOutcome(g: Gesture, s: Element, x: real, y: real, mode: EraserType, geo: Geometry)
    requires g.layer.Some? && s.Stroke? && Consistent(g)
    requires mode != DeleteStroke || s.id in g.erasable
    ensures var r := EraseStrokeStep(g, s, x, y, mode, geo);
      var pos := IndexOf(g.layer.value, s.id);
      var box := PaddedEraserBox(x, y, g.halfEraserSize, s);
      && r.layer == g.layer
      && (pos == -1 ==> r == g)
      && (pos != -1 && s.id in g.erasable ==>
            r.undo == g.undo && r.eraseAction == g.eraseAction && r.deleteAction == g.deleteAction
            && r.erasable == g.erasable[s.id := g.erasable[s.id] + [EraseBox(box)]])
      && (pos != -1 && s.id !in g.erasable ==>
            var params := geo.intersectWithPaddedBox(s.id, box);
            if params == [] then r == g
            else
              var g1 := OpenEraseAction(g);
              var h := g1.eraseAction.value;
              && r.eraseAction == Some(h)
              && (g.eraseAction.Some? ==> h == g.eraseAction.value && g1.undo == g.undo)
              && (g.eraseAction.None? ==> h == |g.undo| && g1.undo == g.undo + [EraseUndo([], false)])
              && r.undo == g1.undo[h := EraseUndo(g1.undo[h].originals + [Entry(s, pos)], g1.undo[h].finalized)]
              && r.deleteAction == g.deleteAction
              && r.erasable == g.erasable[s.id := [Begin(params)]]
              && r.undo[h].originals
                 == (if g.eraseAction.Some? then g.undo[g.eraseAction.value].originals else []) + [Entry(s, pos)])
  {
  }

  // ---------------------------------------------------------------------------
  // What one gesture keeps

  /** The elements recorded in a list of undo entries, in order. */
  function ElementsOf(entries: seq<Entry>): (r: seq<Element>)
    ensures |r| == |entries|
    ensures forall i :: 0 <= i < |entries| ==> r[i] == entries[i].element
  {
    if entries == [] then [] else ElementsOf(entries[..|entries| - 1]) + [entries[|entries| - 1].element]
  }

  /** The elements the open delete action holds. */
  function RemovedElements(g: Gesture): seq<Element>
    requires Consistent(g)
  {
    if g.deleteAction.Some? then ElementsOf(g.undo[g.deleteAction.value].removed) else []
  }

  /** Every original of the open erase action has an erasable state, and none is recorded twice. */
  predicate OriginalsOnce(g: Gesture)
    requires Consistent(g)
  {
    g.eraseAction.Some? ==>
      var o := g.undo[g.eraseAction.value].originals;
      && (forall i :: 0 <= i < |o| ==> o[i].element.id in g.erasable)
      && (forall i, j :: 0 <= i < j < |o| ==> o[i].element.id != o[j].element.id)
  }

  /**
   * The invariant of a gesture that began with undo actions `base` and a
   * layer `layer0`: earlier actions untouched, exactly one
   * action of a kind registered since iff its handle is open, the layer
   * and the open delete action's elements together are exactly the
   * starting layer (as a multiset), and each original
   * recorded at most once.
   */
  predicate GestureInv(g: Gesture, base: seq<UndoAction>, layer0: seq<Element>) {
    && g.layer.Some? && Consistent(g)
    && |base| <= |g.undo| && g.undo[..|base|] == base
    && (g.deleteAction.Some? ==> g.deleteAction.value >= |base|)
    && (g.eraseAction.Some? ==> g.eraseAction.value >= |base|)
    && CountKind(g.undo[|base|..], DeleteKind) == (if g.deleteAction.Some? then 1 else 0)
    && CountKind(g.undo[|base|..], EraseKind) == (if g.eraseAction.Some? then 1 else 0)
    && multiset(g.layer.value) + multiset(RemovedElements(g)) == multiset(layer0)
    && OriginalsOnce(g)
  }

  /** The handler as constructed, over the selected layer and the undo handler's actions. */
  function Start(layer: seq<Element>, undo: seq<UndoAction>, erasable: map<nat, seq<Erasure>>): (g: Gesture)
    ensures GestureInv(g, undo, layer)
  {
    assert undo[|undo|..] == [];
    Gesture(Some(layer), undo, None, None, erasable, 0.0, None, None)
  }

  /** Appending an action of kind `u` at the end shifts only that kind's count. */
  lemma AppendTail(us: seq<UndoAction>, b: nat, u: UndoAction)
    requires b <= |us|
    ensures (us + [u])[..b] == us[..b]
    ensures forall k :: CountKind((us + [u])[b..], k) == CountKind(us[b..], k) + (if IsKind(u, k) then 1 else 0)
  {
    assert (us + [u])[b..] == us[b..] + [u];
    forall k { CountAppend(us[b..], u, k); }
  }

  /** Replacing an action after the prefix by one of the same kind keeps prefix and counts. */
  lemma UpdateTail(us: seq<UndoAction>, b: nat, h: nat, u: UndoAction)
    requires b <= h < |us| && (us[h].DeleteUndo? <==> u.DeleteUndo?) && (us[h].EraseUndo? <==> u.EraseUndo?)
    ensures us[h := u][..b] == us[..b]
    ensures forall k :: CountKind(us[h := u][b..], k) == CountKind(us[b..], k)
  {
    assert us[h := u][b..] == us[b..][h - b := u];
    forall k { CountUpdate(us[b..], h - b, u, k); }
  }

  lemma DeleteBranchKeepsInv(g: Gesture, base: seq<UndoAction>, layer0: seq<Element>, s: Element, pos: nat)
    requires GestureInv(g, base, layer0) && pos < |g.layer.value|
    ensures var g1 := OpenDeleteAction(g);
      var h := g1.deleteAction.value;
      GestureInv(g1.(layer := Some(RemoveAt(g.layer.value, pos)),
                     undo := g1.undo[h := DeleteUndo(g1.undo[h].removed + [Entry(g.layer.value[pos], pos)])]),
                 base, layer0)
  {
    var g1 := OpenDeleteAction(g);
    if g.deleteAction.None? {
      AppendTail(g.undo, |base|, DeleteUndo([]));
    }
    var h := g1.deleteAction.value;
    var entries := g1.undo[h].removed;
    UpdateTail(g1.undo, |base|, h, DeleteUndo(entries + [Entry(g.layer.value[pos], pos)]));
    assert ElementsOf(entries) == RemovedElements(g);
    DeleteMovesElement(g.layer.value, entries, pos);
  }

  /** Deleting from the layer into the delete action's entries keeps their elements together. */
  lemma DeleteMovesElement(layer: seq<Element>, entries: seq<Entry>, pos: nat)
    requires pos < |layer|
    ensures multiset(RemoveAt(layer, pos)) + multiset(ElementsOf(entries + [Entry(layer[pos], pos)]))
         == multiset(layer) + multiset(ElementsOf(entries))
  {
    assert (entries + [Entry(layer[pos], pos)])[..|entries|] == entries;
    RemoveAtKeepsAll(layer, pos);
  }

  lemma FirstTouchKeepsInv(g: Gesture, base: seq<UndoAction>, layer0: seq<Element>, s: Element, pos: nat, params: seq<real>)
    requires GestureInv(g, base, layer0) && s.id !in g.erasable
    ensures var g1 := OpenEraseAction(g);
      var h := g1.eraseAction.value;
      var action := g1.undo[h];
      GestureInv(g1.(erasable := g1.erasable[s.id := [Begin(params)]],
                     undo := g1.undo[h := EraseUndo(action.originals + [Entry(s, pos)], action.finalized)]),
                 base, layer0)
  {
    var g1 := OpenEraseAction(g);
    if g.eraseAction.None? {
      AppendTail(g.undo, |base|, EraseUndo([], false));
    }
    var h := g1.eraseAction.value;
    var action := g1.undo[h];
    var u := EraseUndo(action.originals + [Entry(s, pos)], action.finalized);
    UpdateTail(g1.undo, |base|, h, u);
    var r := g1.(erasable := g1.erasable[s.id := [Begin(params)]], undo := g1.undo[h := u]);
    if g.deleteAction.Some? {
      assert r.undo[g.deleteAction.value] == g.undo[g.deleteAction.value];
    }
    assert RemovedElements(r) == RemovedElements(g);
    TouchKeepsOriginalsOnce(g1, s, pos, params);
  }

  /** Recording a stroke that had no erasable state as a new original keeps each original once. */
  lemma TouchKeepsOriginalsOnce(g: Gesture, s: Element, pos: nat, params: seq<real>)
    requires Consistent(g) && g.eraseAction.Some? && OriginalsOnce(g) && s.id !in g.erasable
    ensures var h := g.eraseAction.value;
      var action := g.undo[h];
      var r := g.(erasable := g.erasable[s.id := [Begin(params)]],
                  undo := g.undo[h := EraseUndo(action.originals + [Entry(s, pos)], action.finalized)]);
      Consistent(r) && OriginalsOnce(r)
  {
    var o := g.undo[g.eraseAction.value].originals;
    assert forall i :: 0 <= i < |o| ==> o[i].element.id != s.id;
  }

  lemma EraseStrokeKeepsInv(g: Gesture, base: seq<UndoAction>, layer0: seq<Element>,
                            s: Element, x: real, y: real, mode: EraserType, geo: Geometry)
    requires GestureInv(g, base, layer0) && s.Stroke?
    ensures GestureInv(EraseStrokeStep(g, s, x, y, mode, geo), base, layer0)
  {
    var pos := IndexOf(g.layer.value, s.id);
    if s.id !in g.erasable && pos != -1 {
      if mode == DeleteStroke {
        DeleteBranchKeepsInv(g, base, layer0, s, pos);
      } else {
        var params := geo.intersectWithPaddedBox(s.id, PaddedEraserBox(x, y, g.halfEraserSize, s));
        FirstTouchKeepsInv(g, base, layer0, s, pos, params);
      }
    }
  }

  lemma {:induction false} VisitAllKeepsInv(g: Gesture, base: seq<UndoAction>, layer0: seq<Element>, es: seq<Element>,
                                            rect: Rect, x: real, y: real, mode: EraserType, geo: Geometry)
    requires GestureInv(g, base, layer0)
    ensures GestureInv(VisitAll(g, es, rect, x, y, mode, geo), base, layer0)
  {
    if es != [] {
      VisitAllKeepsInv(g, base, layer0, es[..|es| - 1], rect, x, y, mode, geo);
      var e := es[|es| - 1];
      if e.Stroke? && geo.intersectsArea(e.id, rect) {
        EraseStrokeKeepsInv(VisitAll(g, es[..|es| - 1], rect, x, y, mode, geo), base, layer0, e, x, y, mode, geo);
      }
    }
  }

  /** One erase call keeps the gesture invariant. */
  lemma EraseKeepsInv(g: Gesture, base: seq<UndoAction>, layer0: seq<Element>, x: real, y: real, tool: ToolState,
                      geo: Geometry, monotonicMicros: SizeT, freshId: nat, timestamp: SizeT)
    requires GestureInv(g, base, layer0)
    ensures GestureInv(EraseStep(g, x, y, tool, geo, monotonicMicros, freshId, timestamp), base, layer0)
  {
    var g1 := RecordSample(g, x, y, tool, monotonicMicros, freshId, timestamp);
    assert GestureInv(g1, base, layer0);
    VisitAllKeepsInv(g1, base, layer0, g.layer.value, EraserRect(x, y, tool.thickness), x, y, tool.eraserType, geo);
  }

  /** The arguments of one `erase` call: position, tool state, geometry, clock, fresh stroke id, timestamp. */
  datatype EraseCall = EraseCall(x: real, y: real, tool: ToolState, geo: Geometry,
                                 monotonicMicros: SizeT, freshId: nat, timestamp: SizeT)

  /** A gesture's erase calls, in order. */
  function Run(g: Gesture, calls: seq<EraseCall>): (r: Gesture)
    requires g.layer.Some? && Consistent(g)
    ensures r.layer.Some? && Consistent(r)
  {
    if calls == [] then g
    else
      var c := calls[|calls| - 1];
      EraseStep(Run(g, calls[..|calls| - 1]), c.x, c.y, c.tool, c.geo, c.monotonicMicros, c.freshId, c.timestamp)
  }

  /**
   * Over any sequence of erase calls from a fresh handler: the undo
   * actions that existed are untouched, at most one delete action and at
   * most one erase action are registered, the elements still in the layer
   * and those in the delete action are exactly the starting layer, and no
   * original is recorded twice.
   */
  lemma {:induction false} GestureKeepsInv(layer: seq<Element>, undo: seq<UndoAction>,
                                           erasable: map<nat, seq<Erasure>>, calls: seq<EraseCall>)
    ensures var r := Run(Start(layer, undo, erasable), calls);
      && GestureInv(r, undo, layer)
      && r.undo[..|undo|] == undo
      && CountKind(r.undo[|undo|..], DeleteKind) <= 1
      && CountKind(r.undo[|undo|..], EraseKind) <= 1
      && multiset(r.layer.value) + multiset(RemovedElements(r)) == multiset(layer)
      && |r.layer.value| + |RemovedElements(r)| == |layer|
  {
    if calls != [] {
      GestureKeepsInv(layer, undo, erasable, calls[..|calls| - 1]);
      var c := calls[|calls| - 1];
      EraseKeepsInv(Run(Start(layer, undo, erasable), calls[..|calls| - 1]), undo, layer,
                    c.x, c.y, c.tool, c.geo, c.monotonicMicros, c.freshId, c.timestamp);
    }
    var r := Run(Start(layer, undo, erasable), calls);
    assert |multiset(r.layer.value) + multiset(RemovedElements(r))| == |multiset(layer)|;
  }

  // ---------------------------------------------------------------------------
  // Finalize

  /**
   * Finalize forgets the erase action after marking it finalized, or else
   * the delete action; it appends the eraser stroke, carrying its log, to
   * the selected layer when a log exists; and it resets the log.
   */
  lemma FinalizeOutcome(g: Gesture)
    requires Consistent(g)
    ensures var r := FinalizeStep(g);
      && r.eraseAction == None && r.motionLog == None && r.motionStroke == None
      && r.deleteAction == (if g.eraseAction.Some? then g.deleteAction else None)
      && (g.eraseAction.Some? ==>
            r.undo == g.undo[g.eraseAction.value := g.undo[g.eraseAction.value].(finalized := true)])
      && (g.eraseAction.None? ==> r.undo == g.undo)
      && r.layer == (if g.motionLog.Some? && g.motionStroke.Some? && g.layer.Some?
                     then Some(g.layer.value + [g.motionStroke.value.(motion := g.motionLog)])
                     else g.layer)
  {
  }

  /**
   * The destructor finalizes only when a delete action is still open.
   * Otherwise the layer, the undo actions and both handles stay as they
   * were: an open erase action is left unfinalized and the eraser stroke,
   * with its log, is discarded rather than added to the layer.
   */
  lemma DestroyOutcome(g: Gesture)
    requires Consistent(g)
    ensures g.deleteAction.Some? ==> DestroyStep(g) == FinalizeStep(g)
    ensures g.deleteAction.Some? && g.eraseAction.None? ==>
      DestroyStep(g).deleteAction == None && DestroyStep(g).undo == g.undo
    ensures g.deleteAction.Some? && g.motionLog.Some? && g.motionStroke.Some? && g.layer.Some? ==>
      DestroyStep(g).layer == Some(g.layer.value + [g.motionStroke.value.(motion := g.motionLog)])
    ensures g.deleteAction.None? ==>
      && DestroyStep(g).layer == g.layer && DestroyStep(g).undo == g.undo
      && DestroyStep(g).eraseAction == g.eraseAction && DestroyStep(g).deleteAction == None
      && DestroyStep(g).erasable == g.erasable
  {
    if g.deleteAction.Some? {
      FinalizeOutcome(g);
    }
  }

  /** A second finalize adds nothing to the layer and changes no undo action. */
  lemma FinalizeTwiceAddsNothing(g: Gesture)
    requires Consistent(g)
    ensures FinalizeStep(FinalizeStep(g)).layer == FinalizeStep(g).layer
    ensures FinalizeStep(FinalizeStep(g)).undo == FinalizeStep(g).undo
  {
  }

  /**
   * A gesture of at least one call, finalized over a selected layer, ends
   * with the eraser stroke (eraser tool, twice the first call's thickness,
   * white) carrying one sample per call.
   */
  lemma {:induction false} GestureLeavesEraserStroke(layer: seq<Element>, undo: seq<UndoAction>,
                                                     erasable: map<nat, seq<Erasure>>, calls: seq<EraseCall>)
    requires calls != []
    ensures var r := FinalizeStep(Run(Start(layer, undo, erasable), calls));
      && r.layer.Some? && |r.layer.value| >= 1
      && var last := r.layer.value[|r.layer.value| - 1];
      && last.Stroke? && last.tool == Eraser && last.color == WHITE
      && last.width == calls[0].tool.thickness * 2.0
      && last.motion.Some? && |last.motion.value| == |calls|
  {
    RunLog(layer, undo, erasable, calls);
  }

  /** After n calls the log holds n samples and the stroke is the one the first call made. */
  lemma {:induction false} RunLog(layer: seq<Element>, undo: seq<UndoAction>,
                                  erasable: map<nat, seq<Erasure>>, calls: seq<EraseCall>)
    requires calls != []
    ensures var r := Run(Start(layer, undo, erasable), calls);
      && r.motionLog.Some? && |r.motionLog.value| == |calls|
      && r.motionStroke == Some(NewEraserStroke(calls[0].freshId, calls[0].tool.thickness))
  {
    var c := calls[|calls| - 1];
    var prev := Run(Start(layer, undo, erasable), calls[..|calls| - 1]);
    EraseAppendsOneSample(prev, c.x, c.y, c.tool, c.geo, c.monotonicMicros, c.freshId, c.timestamp);
    if |calls| > 1 {
      RunLog(layer, undo, erasable, calls[..|calls| - 1]);
    }
  }

  // ---------------------------------------------------------------------------
  // The handler object

  /**
   * The erase handler with the fields the source keeps across calls. The
   * selected layer's element list, the undo handler's action list and the
   * strokes' erasable states are collaborators' state, held here as fields
   * so that the handler's effect on them is visible.
   */
  class EraseHandler {
    var layer: Option<seq<Element>>
    var undoActions: seq<UndoAction>
    var eraseDeleteUndoAction: Option<nat>
    var eraseUndoAction: Option<nat>
    var erasable: map<nat, seq<Erasure>>
    var halfEraserSize: real
    var eraserMotionRecording: MotionRecordings.MotionRecording?
    var eraserMotionStroke: Option<Element>

    /** The handler's state as a value. */
    function State(): Gesture
      reads this, eraserMotionRecording
    {
      Gesture(layer, undoActions, eraseDeleteUndoAction, eraseUndoAction, erasable, halfEraserSize,
              if eraserMotionRecording == null then None else Some(eraserMotionRecording.points),
              eraserMotionStroke)
    }

    constructor (layer: Option<seq<Element>>, undoActions: seq<UndoAction>, erasable: map<nat, seq<Erasure>>)
      ensures State() == Gesture(layer, undoActions, None, None, erasable, 0.0, None, None)
    {
      this.layer := layer;
      this.undoActions := undoActions;
      this.erasable := erasable;
      eraseDeleteUndoAction, eraseUndoAction := None, None;
      halfEraserSize := 0.0;
      eraserMotionRecording, eraserMotionStroke := null, None;
    }

    method Erase(x: real, y: real, tool: ToolState, geo: Geometry, monotonicMicros: SizeT, freshId: nat,
                 timestamp: SizeT := 0)
      requires layer.Some? && Consistent(State())
      modifies this, eraserMotionRecording
      ensures State() == EraseStep(old(State()), x, y, tool, geo, monotonicMicros, freshId, timestamp)
      ensures old(eraserMotionRecording) == null ==> fresh(eraserMotionRecording)
      ensures old(eraserMotionRecording) != null ==> eraserMotionRecording == old(eraserMotionRecording)
    {
      var elements := layer.value;
      LogSample(x, y, tool, monotonicMicros, freshId, timestamp);
      var rect := EraserRect(x, y, halfEraserSize);
      EraseElements(elements, rect, x, y, tool.eraserType, geo);
    }

    /** Set the half eraser size, create the log and the eraser stroke if needed, append the sample. */
    method LogSample(x: real, y: real, tool: ToolState, monotonicMicros: SizeT, freshId: nat, timestamp: SizeT)
      modifies this, eraserMotionRecording
      ensures State() == RecordSample(old(State()), x, y, tool, monotonicMicros, freshId, timestamp)
      ensures eraserMotionRecording != null
      ensures old(eraserMotionRecording) == null ==> fresh(eraserMotionRecording)
      ensures old(eraserMotionRecording) != null ==> eraserMotionRecording == old(eraserMotionRecording)
    {
      halfEraserSize := tool.thickness;
      if eraserMotionRecording == null {
        eraserMotionRecording := new MotionRecordings.MotionRecording();
        eraserMotionStroke := Some(NewEraserStroke(freshId, tool.thickness));
      }
      var currentTimestamp := timestamp;
      if currentTimestamp == 0 {
        currentTimestamp := monotonicMicros / 1000;
      }
      eraserMotionRecording.AddMotionPoint(Point(x, y, -1.0), currentTimestamp, true);
    }

    /** The loop over a snapshot of the layer: erase each stroke whose area meets the rectangle. */
    method EraseElements(elements: seq<Element>, rect: Rect, x: real, y: real, mode: EraserType, geo: Geometry)
      requires layer.Some? && Consistent(State())
      modifies this
      ensures State() == VisitAll(old(State()), elements, rect, x, y, mode, geo)
      ensures eraserMotionRecording == old(eraserMotionRecording)
    {
      var i := 0;
      while i < |elements|
        invariant 0 <= i <= |elements|
        invariant eraserMotionRecording == old(eraserMotionRecording)
        invariant State() == VisitAll(old(State()), elements[..i], rect, x, y, mode, geo)
      {
        var e := elements[i];
        if e.Stroke? && geo.intersectsArea(e.id, rect) {
          EraseStroke(e, x, y, mode, geo);
        }
        assert elements[..i + 1][..i] == elements[..i];
        i := i + 1;
      }
      assert elements[..i] == elements;
    }

    method EraseStroke(s: Element, x: real, y: real, mode: EraserType, geo: Geometry)
      requires layer.Some? && s.Stroke? && Consistent(State())
      modifies this
      ensures State() == EraseStrokeStep(old(State()), s, x, y, mode, geo)
      ensures eraserMotionRecording == old(eraserMotionRecording)
    {
      var elements := layer.value;
      var pos := IndexOf(elements, s.id);
      if s.id !in erasable {
        if mode == DeleteStroke {
          if !geo.intersects(s.id, x, y, halfEraserSize) {
            return;
          }
          if pos == -1 {
            return;
          }
          layer := Some(RemoveAt(elements, pos));
          if eraseDeleteUndoAction.None? {
            eraseDeleteUndoAction := Some(|undoActions|);
            undoActions := undoActions + [DeleteUndo([])];
          }
          var h := eraseDeleteUndoAction.value;
          undoActions := undoActions[h := DeleteUndo(undoActions[h].removed + [Entry(elements[pos], pos)])];
        } else {
          if pos == -1 {
            return;
          }
          var box := PaddedEraserBox(x, y, halfEraserSize, s);
          var params := geo.intersectWithPaddedBox(s.id, box);
          if params == [] {
            return;
          }
          if eraseUndoAction.None? {
            eraseUndoAction := Some(|undoActions|);
            undoActions := undoActions + [EraseUndo([], false)];
          }
          erasable := erasable[s.id := [Begin(params)]];
          var h := eraseUndoAction.value;
          var action := undoActions[h];
          undoActions := undoActions[h := EraseUndo(action.originals + [Entry(s, pos)], action.finalized)];
        }
      } else {
        if pos == -1 {
          return;
        }
        var box := PaddedEraserBox(x, y, halfEraserSize, s);
        erasable := erasable[s.id := erasable[s.id] + [EraseBox(box)]];
      }
    }

    method Finalize()
      requires Consistent(State())
      modifies this
      ensures State() == FinalizeStep(old(State()))
      ensures eraserMotionRecording == null
    {
      if eraseUndoAction.Some? {
        var h := eraseUndoAction.value;
        undoActions := undoActions[h := EraseUndo(undoActions[h].originals, true)];
        eraseUndoAction := None;
      } else if eraseDeleteUndoAction.Some? {
        eraseDeleteUndoAction := None;
      }
      if eraserMotionRecording != null && eraserMotionStroke.Some? {
        var attached := eraserMotionStroke.value.(motion := Some(eraserMotionRecording.points));
        if layer.Some? {
          layer := Some(layer.value + [attached]);
        }
      }
      eraserMotionStroke := None;
      eraserMotionRecording := null;
    }

    /** The destructor. */
    method Destroy()
      requires Consistent(State())
      modifies this
      ensures State() == DestroyStep(old(State()))
    {
      if eraseDeleteUndoAction.Some? {
        Finalize();
      }
      eraserMotionStroke := None;
      eraserMotionRecording := null;
    }
  }
}
