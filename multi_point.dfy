/** MultiPoint (MultiPoint.php): an ordered list of points. Every input is
    coerced to a Point (`getValidObject`) and stored with its SRID reset to
    0, which is what the list helpers of AbstractGeometry do on insertion. */
module MultiPoints {
  import opened Values
  import opened AbstractGeometry
  import opened Points

  /** A member input: a Point already built, or the value `new Point()` is
      given (None is PHP's null). */
  datatype PointInput = BuiltPoint(point: PointValue) | RawPoint(value: Option<Input>)

  /** `getValidObject`: a Point passes as it is; anything else becomes
      `new Point($value)`, so a bare non-zero number is refused. */
  function GetValidObject(input: PointInput, reader: TextReader): (r: Result<PointValue>)
    ensures input.BuiltPoint? ==> r == Success(input.point)
    ensures input.RawPoint? ==> r == ConstructPoint(input.value, None, reader)
    ensures input.RawPoint? && (input.value.None? || LooselyNull(input.value.value)) ==>
      r == Success(PointValue(0.0, 0.0, None))
    ensures input.RawPoint? && input.value.Some? && input.value.value.Text? && input.value.value.text != "" ==>
      var text := input.value.value.text;
      reader.numeric(text).None? && reader.parse(text).Some? ==>
        r == Success(PointValue(reader.parse(text).value.0, reader.parse(text).value.1, None))
    ensures input.RawPoint? && input.value.Some? && input.value.value.Pair? ==>
      r == Success(PointValue(input.value.value.first, input.value.value.second, None))
    ensures input.RawPoint? && input.value.Some? && input.value.value.Num? && input.value.value.n != 0.0 ==>
      r == Failure(UnexpectedValueType)
  {
    match input
    case BuiltPoint(p) => Success(p)
    case RawPoint(value) => ConstructPoint(value, None, reader)
  }

  /** `addObject`: coerce, then store with SRID 0. */
  function AdmitPoint(input: PointInput, reader: TextReader): (r: Result<PointValue>)
    ensures r.Success? <==> GetValidObject(input, reader).Success?
    ensures r.Success? ==> r.value.srid == Some(0)
    ensures r.Success? ==>
      && r.value.x == GetValidObject(input, reader).value.x
      && r.value.y == GetValidObject(input, reader).value.y
  {
    match GetValidObject(input, reader)
    case Failure(e) => Failure(e)
    case Success(p) => Success(p.(srid := Some(0)))
  }

  function PointAdmitter(reader: TextReader): PointInput -> Result<PointValue>
  {
    input => AdmitPoint(input, reader)
  }

  /** Every member reports SRID 0. */
  ghost predicate SridsStripped(points: seq<PointValue>)
  {
    forall i :: 0 <= i < |points| ==> points[i].srid == Some(0)
  }

  /** Filling a list succeeds exactly when every input can be coerced to a
      Point; it then holds one point per input, in order, each with the
      input's coordinates and SRID 0. */
  lemma FillPoints(inputs: seq<PointInput>, reader: TextReader)
    ensures var r := AddEach([], inputs, PointAdmitter(reader));
      && SridsStripped(r.list)
      && (r.error.None? <==> forall i :: 0 <= i < |inputs| ==> GetValidObject(inputs[i], reader).Success?)
      && (r.error.None? ==>
            && |r.list| == |inputs|
            && forall i :: 0 <= i < |inputs| ==>
                 r.list[i] == GetValidObject(inputs[i], reader).value.(srid := Some(0)))
  {
    var admit := PointAdmitter(reader);
    var r := AddEach([], inputs, admit);
    AddEachSpec([], inputs, admit);
    AddEachPreserves([], inputs, admit, (p: PointValue) => p.srid == Some(0));
    if forall i :: 0 <= i < |inputs| ==> GetValidObject(inputs[i], reader).Success? {
      AddEachAllAdmitted([], inputs, admit);
    } else {
      var i :| 0 <= i < |inputs| && GetValidObject(inputs[i], reader).Failure?;
      AddEachFailsIfAnyRefused([], inputs, admit, i);
    }
  }

  /** A bare number among the inputs (PHP integers are numbers here) makes
      the fill throw, unless it is 0, which PHP's loose null test lets
      through as the point (0, 0). */
  lemma NumberMemberRefused(inputs: seq<PointInput>, reader: TextReader, i: int)
    requires 0 <= i < |inputs| && inputs[i].RawPoint? && inputs[i].value.Some?
    requires inputs[i].value.value.Num?
    ensures inputs[i].value.value.n != 0.0 ==> AddEach([], inputs, PointAdmitter(reader)).error.Some?
    ensures inputs[i].value.value.n == 0.0 ==> AdmitPoint(inputs[i], reader) == Success(PointValue(0.0, 0.0, Some(0)))
  {
    if inputs[i].value.value.n != 0.0 {
      AddEachFailsIfAnyRefused([], inputs, PointAdmitter(reader), i);
    }
  }

  /** The array view of a list of points. */
  function PointsArray(points: seq<PointValue>): seq<seq<real>>
  {
    Map(PointArray, points)
  }

  /** The text of a list of points: the point texts joined by commas,
      without parentheses. */
  function PointsText(points: seq<PointValue>, numeral: real -> string): string
  {
    Join(",", Rendered(Plain, PointTexter(numeral), points))
  }

  /** The rendering is lossless: when no number is written with a comma,
      cutting the text of a non-empty point list at its commas gives back
      the text of each point, in order. */
  lemma PointsTextSplits(points: seq<PointValue>, numeral: real -> string)
    requires points != []
    requires forall v :: ',' !in numeral(v)
    ensures Split(',', PointsText(points, numeral)) == Rendered(Plain, PointTexter(numeral), points)
    ensures |Split(',', PointsText(points, numeral))| == |points|
  {
    var parts := Rendered(Plain, PointTexter(numeral), points);
    forall i | 0 <= i < |parts| ensures ',' !in parts[i] {
      assert parts[i] == numeral(points[i].x) + " " + numeral(points[i].y);
    }
    SplitJoin(',', parts);
  }

  /** The input `new Point()` rebuilds a point from its array view. */
  function ArrayInput(a: seq<real>): PointInput
  {
    if |a| == 2 then RawPoint(Some(Pair(a[0], a[1]))) else RawPoint(None)
  }

  /** Rebuilding a point list from its array view and taking the array view
      again gives the same nested array. */
  lemma PointsArrayRoundTrip(points: seq<PointValue>, reader: TextReader)
    ensures var r := AddEach([], Map(ArrayInput, PointsArray(points)), PointAdmitter(reader));
      r.error.None? && PointsArray(r.list) == PointsArray(points)
  {
    var inputs := Map(ArrayInput, PointsArray(points));
    var admit := PointAdmitter(reader);
    forall i | 0 <= i < |inputs|
      ensures admit(inputs[i]) == Success(points[i].(srid := Some(0)))
    {
      assert inputs[i] == RawPoint(Some(Pair(points[i].x, points[i].y)));
    }
    AddEachAllAdmitted([], inputs, admit);
    var r := AddEach([], inputs, admit);
    assert PointsArray(r.list) == PointsArray(points);
  }

  /** MultiPointTest: four points built from arrays render as
      "0 0,0 5,5 0,0 0". */
  lemma FourPointsText(numeral: real -> string)
    requires numeral(0.0) == "0" && numeral(5.0) == "5"
    ensures PointsText([PointValue(0.0, 0.0, Some(0)), PointValue(0.0, 5.0, Some(0)),
                        PointValue(5.0, 0.0, Some(0)), PointValue(0.0, 0.0, Some(0))], numeral)
         == "0 0,0 5,5 0,0 0"
  {
  }

  class MultiPoint {
    /** The inherited object list. */
    var points: seq<PointValue>
    var srid: Option<int>

    ghost predicate Valid()
      reads this
    {
      SridsStripped(points)
    }

    /** `parent::__construct($srid)`: no points, and the SRID set unless it
        is loosely null. */
    constructor (srid: Option<int>)
      ensures Valid()
      ensures points == [] && this.srid == ConstructSrid(srid)
    {
      points := [];
      this.srid := ConstructSrid(srid);
    }

    /** `new MultiPoint($points, $srid)`; an input that cannot be coerced to
        a Point makes it throw. */
    static method New(inputs: seq<PointInput>, srid: Option<int>, reader: TextReader) returns (r: Result<MultiPoint>)
      ensures var added := AddEach([], inputs, PointAdmitter(reader));
        if added.error.None? then
          && r.Success? && fresh(r.value) && r.value.Valid()
          && r.value.points == added.list && r.value.srid == ConstructSrid(srid)
        else r == Failure(added.error.value)
    {
      var m := new MultiPoint(srid);
      var outcome := m.SetPoints(inputs, reader);
      if outcome.Failed? {
        return Failure(outcome.error);
      }
      r := Success(m);
    }

    /** `setPoints`: discard the points, then add the inputs in order; an
        input that is refused stops the loop and leaves those added before. */
    method SetPoints(inputs: seq<PointInput>, reader: TextReader) returns (outcome: Outcome)
      requires Valid()
      modifies this
      ensures Valid()
      ensures var added := AddEach([], inputs, PointAdmitter(reader));
        && points == added.list
        && outcome == (if added.error.None? then Done else Failed(added.error.value))
      ensures srid == old(srid)
    {
      points := [];
      outcome := Done;
      for i := 0 to |inputs|
        invariant Valid() && srid == old(srid) && outcome == Done
        invariant AddEach([], inputs, PointAdmitter(reader)) == AddEach(points, inputs[i..], PointAdmitter(reader))
      {
        assert inputs[i..][1..] == inputs[i + 1..];
        outcome := AddPoint(inputs[i], reader);
        if outcome.Failed? {
          return;
        }
      }
    }

    /** `addPoint`: append the coerced point, with SRID 0, at the end. */
    method AddPoint(input: PointInput, reader: TextReader) returns (outcome: Outcome)
      requires Valid()
      modifies this
      ensures Valid()
      ensures match AdmitPoint(input, reader)
        case Success(p) => outcome == Done && points == old(points) + [p]
        case Failure(e) => outcome == Failed(e) && points == old(points)
      ensures srid == old(srid)
    {
      var point := GetValidObject(input, reader);
      if point.Failure? {
        return Failed(point.error);
      }
      points := points + [point.value.(srid := Some(0))];
      outcome := Done;
    }

    function GetPoints(): (r: seq<PointValue>)
      reads this
      requires Valid()
      ensures SridsStripped(r)
    {
      points
    }

    /** `getPoint`: the i-th point added, or the last one for -1. */
    function GetPoint(index: int): (r: Option<PointValue>)
      reads this
      requires Valid()
      ensures r.Some? ==> r.value in points && r.value.srid == Some(0)
      ensures index == -1 && points != [] ==> r == Some(points[|points| - 1])
      ensures 0 <= index < |points| ==> r == Some(points[index])
    {
      GetIndex(points, index)
    }

    /** `setSrid`, inherited from AbstractGeometry. */
    method SetSrid(given: Option<int>)
      modifies this
      ensures srid == StoreSrid(old(srid), given) && points == old(points)
    {
      if given.Some? {
        srid := given;
      }
    }

    /** `toArray`: the array view of every point, same length and order. */
    method ToArray() returns (a: seq<seq<real>>)
      ensures a == PointsArray(points)
      ensures |a| == |points|
    {
      a := ObjectsToArray(points, PointArray);
    }

    /** `__toString`: the point texts joined by commas. */
    method ToString(numeral: real -> string) returns (s: string)
      ensures s == PointsText(points, numeral)
    {
      s := ObjectsToString(points, PointTexter(numeral), Plain, ",");
    }
  }
}
