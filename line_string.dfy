/** LineString, which Polygon builds its rings from and MultiLineString holds.
    LineString.php is not part of this model; it is taken to behave as
    MultiPoint does (points coerced with `new Point()`, stored with SRID 0,
    the SRID argument kept unless loosely null), with `isClosed` meaning
    that the first and last points have the same coordinates. */
module LineStrings {
  import opened Values
  import opened AbstractGeometry
  import opened Points
  import opened MultiPoints

  datatype LineString = LineString(points: seq<PointValue>, srid: Option<int>)

  /** What every line string the constructor builds satisfies. */
  ghost predicate WellFormed(l: LineString)
  {
    SridsStripped(l.points)
  }

  /** `new LineString($points, $srid)`: every point input coerced and
      stored with SRID 0; the first input that is not a point makes it throw. */
  function BuildLineString(inputs: seq<PointInput>, srid: Option<int>, reader: TextReader): (r: Result<LineString>)
    ensures r.Success? ==> r.value.points == AddEach([], inputs, PointAdmitter(reader)).list
    ensures r.Success? <==> AddEach([], inputs, PointAdmitter(reader)).error.None?
    ensures r.Failure? ==> r.error == AddEach([], inputs, PointAdmitter(reader)).error.value
    ensures r.Success? ==> r.value.srid == ConstructSrid(srid)
  {
    var added := AddEach([], inputs, PointAdmitter(reader));
    if added.error.None? then Success(LineString(added.list, ConstructSrid(srid)))
    else Failure(added.error.value)
  }

  /** A built line string is well formed, has one point per input and keeps
      each input's coordinates. */
  lemma BuildLineStringSpec(inputs: seq<PointInput>, srid: Option<int>, reader: TextReader)
    ensures var r := BuildLineString(inputs, srid, reader);
      && (r.Success? <==> forall i :: 0 <= i < |inputs| ==> GetValidObject(inputs[i], reader).Success?)
      && (r.Success? ==>
            && WellFormed(r.value)
            && |r.value.points| == |inputs|
            && forall i :: 0 <= i < |inputs| ==>
                 r.value.points[i] == GetValidObject(inputs[i], reader).value.(srid := Some(0)))
  {
    FillPoints(inputs, reader);
  }

  /** `isClosed`: the ring ends where it starts. */
  predicate IsClosed(l: LineString)
  {
    |l.points| > 0 && l.points[0].x == l.points[|l.points| - 1].x && l.points[0].y == l.points[|l.points| - 1].y
  }

  /** `toArray`: one [x, y] per point. */
  function LineStringArray(l: LineString): (a: seq<seq<real>>)
    ensures |a| == |l.points|
    ensures forall i :: 0 <= i < |l.points| ==> a[i] == [l.points[i].x, l.points[i].y]
  {
    PointsArray(l.points)
  }

  /** `__toString`: the point texts joined by commas. */
  function LineStringText(l: LineString, numeral: real -> string): string
  {
    PointsText(l.points, numeral)
  }

  function LineStringTexter(numeral: real -> string): LineString -> string
  {
    l => LineStringText(l, numeral)
  }

  /** Building a line string from another one's array view keeps every
      coordinate, and hence whether it is closed. */
  lemma LineStringArrayRoundTrip(l: LineString, srid: Option<int>, reader: TextReader)
    ensures var r := BuildLineString(Map(ArrayInput, LineStringArray(l)), srid, reader);
      && r.Success?
      && LineStringArray(r.value) == LineStringArray(l)
      && (IsClosed(r.value) <==> IsClosed(l))
  {
    var inputs := Map(ArrayInput, LineStringArray(l));
    PointsArrayRoundTrip(l.points, reader);
    var r := BuildLineString(inputs, srid, reader);
    assert |r.value.points| == |l.points| by {
      assert |LineStringArray(r.value)| == |LineStringArray(l)|;
    }
    if |l.points| > 0 {
      var n := |l.points| - 1;
      assert LineStringArray(r.value)[0] == LineStringArray(l)[0];
      assert LineStringArray(r.value)[n] == LineStringArray(l)[n];
    }
  }

  /** The points of LineStringTest, as arrays. */
  function ArrayPoints(pairs: seq<(real, real)>): seq<PointInput>
  {
    Map((pair: (real, real)) => RawPoint(Some(Pair(pair.0, pair.1))), pairs)
  }

  /** LineStringTest: (0 0, 1 1, 2 2, 3 3) is open and
      (0 0, 0 5, 5 0, 0 0) is closed. */
  lemma LineStringTestCases(srid: Option<int>, reader: TextReader)
    ensures var open := BuildLineString(ArrayPoints([(0.0, 0.0), (1.0, 1.0), (2.0, 2.0), (3.0, 3.0)]), srid, reader);
      open.Success? && !IsClosed(open.value)
    ensures var closed := BuildLineString(ArrayPoints([(0.0, 0.0), (0.0, 5.0), (5.0, 0.0), (0.0, 0.0)]), srid, reader);
      closed.Success? && IsClosed(closed.value)
  {
  }
}
