/**
 * The per-stroke motion log: an append-only sequence of timestamped samples
 * with O(1) summary queries, and its binary form on an object stream.
 */
module MotionRecordings {
  import opened Elements

  /** First sample's timestamp, or 0 when there is none. */
  function StartOf(points: seq<MotionPoint>): (r: SizeT)
    ensures points == [] ==> r == 0
    ensures points != [] ==> r == points[0].timestamp
  {
    if points == [] then 0 else points[0].timestamp
  }

  /** Last sample's timestamp, or 0 when there is none. */
  function EndOf(points: seq<MotionPoint>): (r: SizeT)
    ensures points == [] ==> r == 0
    ensures points != [] ==> r == points[|points| - 1].timestamp
  {
    if points == [] then 0 else points[|points| - 1].timestamp
  }

  /** Appending a sample never moves the start, except on an empty log, and always sets the end. */
  lemma AppendTimestamps(points: seq<MotionPoint>, mp: MotionPoint)
    ensures StartOf(points + [mp]) == if points == [] then mp.timestamp else StartOf(points)
    ensures EndOf(points + [mp]) == mp.timestamp
  {
  }

  // ---------------------------------------------------------------------------
  // The object stream

  /** `writeUInt` stores an unsigned 32-bit field. */
  const UINT_LIMIT: nat := 0x1_0000_0000

  /** One typed value on an object stream. */
  datatype Token = UIntToken(u: nat) | DoubleToken(d: real) | BoolToken(b: bool)

  /** What `writeUInt` stores for a `size_t`: the value narrowed to 32 bits. */
  function UIntOf(n: nat): (t: Token)
    ensures t.UIntToken? && t.u < UINT_LIMIT
    ensures n < UINT_LIMIT ==> t.u == n
  {
    UIntToken(n % UINT_LIMIT)
  }

  /** The five fields of one sample, in the order `serialize` writes them. */
  function RecordTokens(mp: MotionPoint): seq<Token> {
    [DoubleToken(mp.point.x), DoubleToken(mp.point.y), DoubleToken(mp.point.z),
     UIntOf(mp.timestamp), BoolToken(mp.isEraser)]
  }

  /** The records of all samples, in order. */
  function RecordsTokens(points: seq<MotionPoint>): (r: seq<Token>)
    ensures |r| == 5 * |points|
  {
    if points == [] then []
    else RecordsTokens(points[..|points| - 1]) + RecordTokens(points[|points| - 1])
  }

  /** Everything `serialize` writes: the count, then one record per sample. */
  function Serialized(points: seq<MotionPoint>): seq<Token> {
    [UIntOf(|points|)] + RecordsTokens(points)
  }

  /** Reading one record: three doubles, an unsigned integer, a boolean. */
  function ReadRecord(s: seq<Token>): (r: Wrappers.Option<(MotionPoint, seq<Token>)>)
    ensures r.Some? ==> |s| >= 5 && r.value.1 == s[5..]
  {
    if |s| >= 5 && s[0].DoubleToken? && s[1].DoubleToken? && s[2].DoubleToken?
       && s[3].UIntToken? && s[3].u < SIZE_LIMIT && s[4].BoolToken?
    then Wrappers.Some((MotionPoint(Point(s[0].d, s[1].d, s[2].d), s[3].u, s[4].b), s[5..]))
    else Wrappers.None
  }

  /**
   * How reading ends: every declared record read, with the rest of the
   * stream; or a read failed (the stream throws), after `points` were
   * already appended.
   */
  datatype ReadOutcome = Complete(points: seq<MotionPoint>, rest: seq<Token>) | Truncated(points: seq<MotionPoint>)

  function Prepend(ps: seq<MotionPoint>, o: ReadOutcome): ReadOutcome {
    match o
    case Complete(qs, rest) => Complete(ps + qs, rest)
    case Truncated(qs) => Truncated(ps + qs)
  }

  /** Reading `n` records from the front of `s`. */
  function ReadRecords(s: seq<Token>, n: nat): ReadOutcome
    decreases n
  {
    if n == 0 then Complete([], s)
    else match ReadRecord(s)
      case None => Truncated([])
      case Some((mp, rest)) => Prepend([mp], ReadRecords(rest, n - 1))
  }

  /** What `readSerialized` leaves in the recording: the count, then that many records. */
  function Deserialized(s: seq<Token>): ReadOutcome {
    if s != [] && s[0].UIntToken? then ReadRecords(s[1..], s[0].u) else Truncated([])
  }

  lemma {:induction false} RecordsTokensCons(mp: MotionPoint, points: seq<MotionPoint>)
    ensures RecordsTokens([mp] + points) == RecordTokens(mp) + RecordsTokens(points)
  {
    if points != [] {
      var all := [mp] + points;
      assert all[..|all| - 1] == [mp] + points[..|points| - 1];
      RecordsTokensCons(mp, points[..|points| - 1]);
    } else {
      assert ([mp] + points)[..0] == [];
    }
  }

  /** The records written for `points` read back as `points`, whatever follows them. */
  lemma {:induction false} RecordsRoundTrip(points: seq<MotionPoint>, tail: seq<Token>)
    requires forall i :: 0 <= i < |points| ==> points[i].timestamp < UINT_LIMIT
    ensures ReadRecords(RecordsTokens(points) + tail, |points|) == Complete(points, tail)
  {
    if points != [] {
      var mp, more := points[0], points[1..];
      assert points == [mp] + more;
      RecordsTokensCons(mp, more);
      var s := RecordsTokens(points) + tail;
      assert s == RecordTokens(mp) + (RecordsTokens(more) + tail);
      assert ReadRecord(s) == Wrappers.Some((mp, RecordsTokens(more) + tail));
      RecordsRoundTrip(more, tail);
    }
  }

  /**
   * Reading back what `serialize` wrote gives the same samples in the same
   * order, also for an empty recording, when the count and every timestamp
   * fit the 32-bit field.
   */
  lemma SerializeRoundTrip(points: seq<MotionPoint>, tail: seq<Token>)
    requires |points| < UINT_LIMIT
    requires forall i :: 0 <= i < |points| ==> points[i].timestamp < UINT_LIMIT
    ensures Deserialized(Serialized(points) + tail) == Complete(points, tail)
  {
    var s := Serialized(points) + tail;
    assert s[1..] == RecordsTokens(points) + tail;
    RecordsRoundTrip(points, tail);
  }

  /** A timestamp beyond 32 bits comes back narrowed: the round trip needs the bound. */
  lemma WideTimestampNarrowed(p: Point)
    ensures Deserialized(Serialized([MotionPoint(p, UINT_LIMIT, false)]))
         == Complete([MotionPoint(p, 0, false)], [])
  {
    var s := Serialized([MotionPoint(p, UINT_LIMIT, false)]);
    assert RecordsTokens([MotionPoint(p, UINT_LIMIT, false)]) == RecordTokens(MotionPoint(p, UINT_LIMIT, false));
    assert s[1..] == RecordTokens(MotionPoint(p, UINT_LIMIT, false));
  }

  // ---------------------------------------------------------------------------
  // The recording

  class MotionRecording {
    var points: seq<MotionPoint>

    constructor ()
      ensures points == []
    {
      points := [];
    }

    /** Copy construction: an independent recording with the same samples. */
    constructor Copy(other: MotionRecording)
      ensures points == other.points
    {
      points := other.points;
    }

    /** Append one sample; the eraser flag is false unless given. */
    method AddMotionPoint(point: Point, timestamp: SizeT, isEraser: bool := false)
      modifies this
      ensures points == old(points) + [MotionPoint(point, timestamp, isEraser)]
    {
      points := points + [MotionPoint(point, timestamp, isEraser)];
    }

    function GetMotionPoints(): (r: seq<MotionPoint>)
      reads this
      ensures r == points
    {
      points
    }

    function HasMotionData(): (r: bool)
      reads this
      ensures r <==> |points| > 0
    {
      points != []
    }

    function GetMotionPointCount(): (r: nat)
      reads this
      ensures r == |points|
    {
      |points|
    }

    method Clear()
      modifies this
      ensures points == []
    {
      points := [];
    }

    function GetStartTimestamp(): (r: SizeT)
      reads this
      ensures points == [] ==> r == 0
      ensures points != [] ==> r == points[0].timestamp
    {
      StartOf(points)
    }

    function GetEndTimestamp(): (r: SizeT)
      reads this
      ensures points == [] ==> r == 0
      ensures points != [] ==> r == points[|points| - 1].timestamp
    {
      EndOf(points)
    }

    /** Write the count, then x, y, pressure, timestamp and flag of each sample in order. */
    method Serialize(stream: seq<Token>) returns (out: seq<Token>)
      ensures out == stream + Serialized(points)
    {
      out := stream + [UIntOf(|points|)];
      var i := 0;
      while i < |points|
        invariant 0 <= i <= |points|
        invariant out == stream + [UIntOf(|points|)] + RecordsTokens(points[..i])
      {
        var mp := points[i];
        out := out + [DoubleToken(mp.point.x), DoubleToken(mp.point.y), DoubleToken(mp.point.z)];
        out := out + [UIntOf(mp.timestamp), BoolToken(mp.isEraser)];
        assert points[..i + 1][..i] == points[..i];
        i := i + 1;
      }
      assert points[..i] == points;
    }

    /**
     * Discard the samples, read a count, then read that many records in
     * order. `ok` is false when a read failed; the samples read before the
     * failure stay, as they do when the stream throws.
     */
    method ReadSerialized(input: seq<Token>) returns (ok: bool, rest: seq<Token>)
      modifies this
      ensures match Deserialized(input)
              case Complete(ps, r) => ok && points == ps && rest == r
              case Truncated(ps) => !ok && points == ps
    {
      points := [];
      if input == [] || !input[0].UIntToken? {
        return false, input;
      }
      var count := input[0].u;
      var cur := input[1..];
      var i := 0;
      while i < count
        invariant 0 <= i <= count
        invariant Deserialized(input) == Prepend(points, ReadRecords(cur, count - i))
      {
        var next := ReadRecord(cur);
        if next.None? {
          assert points + [] == points;
          return false, cur;
        }
        var (mp, after) := next.value;
        assert Prepend(points, Prepend([mp], ReadRecords(after, count - i - 1)))
            == Prepend(points + [mp], ReadRecords(after, count - i - 1));
        points := points + [mp];
        cur := after;
        i := i + 1;
      }
      assert points + [] == points;
      return true, cur;
    }
  }
}
