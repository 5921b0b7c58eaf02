/**
 * The document-level eraser log: timestamped eraser contacts, each with the
 * eraser size, the page it fell on and the strokes it touched.
 */
module EraserRecordings {
  import opened Elements

  /** One eraser contact. The struct is held by value inside the log. */
  datatype EraserMotionPoint = EraserMotionPoint(
    point: Point, timestamp: SizeT, eraserSize: real, pageIndex: SizeT,
    affectedStrokeIndices: seq<SizeT>)
  {
    /** `addAffectedStroke`: the same contact with `strokeIndex` pushed at the back of its list. */
    function AddAffectedStroke(strokeIndex: SizeT): (r: EraserMotionPoint)
      ensures r.affectedStrokeIndices == affectedStrokeIndices + [strokeIndex]
      ensures r.point == point && r.timestamp == timestamp
      ensures r.eraserSize == eraserSize && r.pageIndex == pageIndex
    {
      this.(affectedStrokeIndices := affectedStrokeIndices + [strokeIndex])
    }
  }

  /** A contact as the log builds it: the given values and no affected stroke yet. */
  function NewContact(p: Point, ts: SizeT, size: real, pageIndex: SizeT): (r: EraserMotionPoint)
    ensures r.point == p && r.timestamp == ts && r.eraserSize == size && r.pageIndex == pageIndex
    ensures r.affectedStrokeIndices == []
  {
    EraserMotionPoint(p, ts, size, pageIndex, [])
  }

  /** `addAffectedStrokeToLast` on a value: only the most recent contact changes. */
  function TagLast(points: seq<EraserMotionPoint>, strokeIndex: SizeT): seq<EraserMotionPoint> {
    if points == [] then []
    else points[..|points| - 1] + [points[|points| - 1].AddAffectedStroke(strokeIndex)]
  }

  /**
   * Tagging keeps the count and every earlier contact, and pushes the
   * index onto the last contact's list only; on an empty log it is a no-op.
   */
  lemma TagLastOnlyTouchesLast(points: seq<EraserMotionPoint>, strokeIndex: SizeT)
    ensures |TagLast(points, strokeIndex)| == |points|
    ensures points == [] ==> TagLast(points, strokeIndex) == []
    ensures forall i :: 0 <= i < |points| - 1 ==> TagLast(points, strokeIndex)[i] == points[i]
    ensures points != [] ==>
      var last := TagLast(points, strokeIndex)[|points| - 1];
      last.affectedStrokeIndices == points[|points| - 1].affectedStrokeIndices + [strokeIndex]
      && last.point == points[|points| - 1].point
      && last.timestamp == points[|points| - 1].timestamp
      && last.eraserSize == points[|points| - 1].eraserSize
      && last.pageIndex == points[|points| - 1].pageIndex
  {
  }

  /** Tags land in the order they were given on the contact that was last at the time. */
  lemma TagLastTwice(points: seq<EraserMotionPoint>, a: SizeT, b: SizeT)
    requires points != []
    ensures TagLast(TagLast(points, a), b)[|points| - 1].affectedStrokeIndices
         == points[|points| - 1].affectedStrokeIndices + [a, b]
  {
    var once := TagLast(points, a);
    assert once[..|once| - 1] == points[..|points| - 1];
  }

  function StartOf(points: seq<EraserMotionPoint>): (r: SizeT)
    ensures points == [] ==> r == 0
    ensures points != [] ==> r == points[0].timestamp
  {
    if points == [] then 0 else points[0].timestamp
  }

  function EndOf(points: seq<EraserMotionPoint>): (r: SizeT)
    ensures points == [] ==> r == 0
    ensures points != [] ==> r == points[|points| - 1].timestamp
  {
    if points == [] then 0 else points[|points| - 1].timestamp
  }

  class EraserMotionRecording {
    var points: seq<EraserMotionPoint>

    constructor ()
      ensures points == []
    {
      points := [];
    }

    /** Copy construction: a separate log holding the same contacts by value. */
    constructor Copy(other: EraserMotionRecording)
      ensures points == other.points
    {
      points := other.points;
    }

    /** Copy assignment: replace this log's contacts with a value copy of `other`'s. */
    method Assign(other: EraserMotionRecording)
      modifies this
      ensures points == old(other.points)
      ensures other != this ==> unchanged(other)
    {
      points := other.points;
    }

    /** Append one contact carrying the position, timestamp, size and page index. */
    method AddMotionPoint(point: Point, timestamp: SizeT, eraserSize: real, pageIndex: SizeT)
      modifies this
      ensures points == old(points) + [NewContact(point, timestamp, eraserSize, pageIndex)]
    {
      points := points + [EraserMotionPoint(point, timestamp, eraserSize, pageIndex, [])];
    }

    method AddAffectedStrokeToLast(strokeIndex: SizeT)
      modifies this
      ensures points == TagLast(old(points), strokeIndex)
    {
      if points != [] {
        var last := points[|points| - 1];
        points := points[..|points| - 1] + [last.AddAffectedStroke(strokeIndex)];
      }
    }

    function GetMotionPoints(): (r: seq<EraserMotionPoint>)
      reads this
      ensures r == points
    {
      points
    }

    function HasMotionData(): (r: bool)
      reads this
      ensures r <==> |points| > 0
    {
      points != []
    }

    function GetMotionPointCount(): (r: nat)
      reads this
      ensures r == |points|
    {
      |points|
    }

    method Clear()
      modifies this
      ensures points == []
    {
      points := [];
    }

    function GetStartTimestamp(): (r: SizeT)
      reads this
      ensures points == [] ==> r == 0
      ensures points != [] ==> r == points[0].timestamp
    {
      StartOf(points)
    }

    function GetEndTimestamp(): (r: SizeT)
      reads this
      ensures points == [] ==> r == 0
      ensures points != [] ==> r == points[|points| - 1].timestamp
    {
      EndOf(points)
    }
  }

  /** A copy is independent: tagging the copy leaves the original's contacts as they were. */
  method CopyIsIndependent(original: EraserMotionRecording, strokeIndex: SizeT)
    returns (copy: EraserMotionRecording)
    ensures fresh(copy) && original.points == old(original.points)
    ensures copy.points == TagLast(old(original.points), strokeIndex)
  {
    copy := new EraserMotionRecording.Copy(original);
    copy.AddAffectedStrokeToLast(strokeIndex);
  }
}
