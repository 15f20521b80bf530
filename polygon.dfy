/** Polygon (Polygon.php): an ordered list of rings. Every ring input is
    coerced to a LineString, refused unless it is closed, and stored with
    its SRID reset to 0. */
module Polygons {
  import opened Values
  import opened AbstractGeometry
  import opened Points
  import opened MultiPoints
  import opened LineStrings

  /** A ring input: a LineString already built, or the point inputs
      `new LineString()` is given. */
  datatype RingInput = BuiltRing(ring: LineString) | RawRing(points: seq<PointInput>)

  /** A built ring comes out of the LineString constructor. */
  ghost predicate RingInputOk(input: RingInput)
  {
    input.BuiltRing? ==> WellFormed(input.ring)
  }

  /** The first step of `addRing`: a LineString passes as it is; anything
      else becomes `new LineString($ring)`, with no SRID. */
  function CoerceRing(input: RingInput, reader: TextReader): (r: Result<LineString>)
    ensures input.BuiltRing? ==> r == Success(input.ring)
    ensures input.RawRing? ==>
      (r.Success? <==> forall i :: 0 <= i < |input.points| ==> GetValidObject(input.points[i], reader).Success?)
    ensures input.RawRing? && r.Success? ==>
      r.value.srid == None && |r.value.points| == |input.points| && WellFormed(r.value)
  {
    match input
    case BuiltRing(ring) => Success(ring)
    case RawRing(points) =>
      BuildLineStringSpec(points, None, reader);
      BuildLineString(points, None, reader)
  }

  /** `addRing` up to the append: coerce, throw on an open ring, then
      `addObject` stores the ring with SRID 0. */
  function AdmitRing(input: RingInput, reader: TextReader): (r: Result<LineString>)
    ensures r.Success? <==> CoerceRing(input, reader).Success? && IsClosed(CoerceRing(input, reader).value)
    ensures CoerceRing(input, reader).Failure? ==> r == CoerceRing(input, reader)
    ensures CoerceRing(input, reader).Success? && !IsClosed(CoerceRing(input, reader).value) ==>
      r == Failure(UnclosedRing)
    ensures r.Success? ==> r.value == CoerceRing(input, reader).value.(srid := Some(0))
  {
    match CoerceRing(input, reader)
    case Failure(e) => Failure(e)
    case Success(ring) =>
      if !IsClosed(ring) then Failure(UnclosedRing) else Success(ring.(srid := Some(0)))
  }

  function RingAdmitter(reader: TextReader): RingInput -> Result<LineString>
  {
    input => AdmitRing(input, reader)
  }

  /** A ring as Polygon stores it: closed, with SRID 0, and with points that
      all carry SRID 0. */
  ghost predicate StoredRing(ring: LineString)
  {
    IsClosed(ring) && ring.srid == Some(0) && WellFormed(ring)
  }

  /** Every ring a polygon holds is stored as `addRing` stores it. */
  ghost predicate RingsStored(rings: seq<LineString>)
  {
    forall i :: 0 <= i < |rings| ==> StoredRing(rings[i])
  }

  /** An admitted ring is always closed with SRID 0 everywhere. */
  lemma AdmitRingStores(input: RingInput, reader: TextReader)
    requires RingInputOk(input)
    ensures AdmitRing(input, reader).Success? ==> StoredRing(AdmitRing(input, reader).value)
  {
  }

  /** Filling the ring list succeeds exactly when every input coerces to a
      closed line string; whatever is kept is stored as `addRing` stores it. */
  lemma FillRings(list: seq<LineString>, inputs: seq<RingInput>, reader: TextReader)
    requires RingsStored(list)
    requires forall i :: 0 <= i < |inputs| ==> RingInputOk(inputs[i])
    ensures var r := AddEach(list, inputs, RingAdmitter(reader));
      && RingsStored(r.list)
      && (r.error.None? <==> forall i :: 0 <= i < |inputs| ==> AdmitRing(inputs[i], reader).Success?)
  {
    var admit := RingAdmitter(reader);
    forall i | 0 <= i < |inputs| && admit(inputs[i]).Success?
      ensures StoredRing(admit(inputs[i]).value)
    {
      AdmitRingStores(inputs[i], reader);
    }
    AddEachPreserves(list, inputs, admit, StoredRing);
    if forall i :: 0 <= i < |inputs| ==> AdmitRing(inputs[i], reader).Success? {
      AddEachAllAdmitted(list, inputs, admit);
    } else {
      var i :| 0 <= i < |inputs| && AdmitRing(inputs[i], reader).Failure?;
      AddEachFailsIfAnyRefused(list, inputs, admit, i);
    }
  }

  /** The value of a polygon: its rings and its SRID. */
  datatype PolygonValue = PolygonValue(rings: seq<LineString>, srid: Option<int>)

  /** A polygon as its constructor leaves it. */
  ghost predicate PolygonWellFormed(p: PolygonValue)
  {
    RingsStored(p.rings)
  }

  /** `new Polygon($rings, $srid)`: the SRID is set unless loosely null, then
      the rings are added in order; the first refused ring makes it throw. */
  function BuildPolygon(inputs: seq<RingInput>, srid: Option<int>, reader: TextReader): (r: Result<PolygonValue>)
    ensures r.Success? <==> AddEach([], inputs, RingAdmitter(reader)).error.None?
    ensures r.Success? ==> r.value == PolygonValue(AddEach([], inputs, RingAdmitter(reader)).list, ConstructSrid(srid))
    ensures r.Failure? ==> r.error == AddEach([], inputs, RingAdmitter(reader)).error.value
  {
    var added := AddEach([], inputs, RingAdmitter(reader));
    if added.error.None? then Success(PolygonValue(added.list, ConstructSrid(srid)))
    else Failure(added.error.value)
  }

  /** A polygon is built exactly when every ring input yields a closed ring;
      it then has one ring per input, each stored as `addRing` stores it. */
  lemma BuildPolygonSpec(inputs: seq<RingInput>, srid: Option<int>, reader: TextReader)
    requires forall i :: 0 <= i < |inputs| ==> RingInputOk(inputs[i])
    ensures var r := BuildPolygon(inputs, srid, reader);
      && (r.Success? <==> forall i :: 0 <= i < |inputs| ==> AdmitRing(inputs[i], reader).Success?)
      && (r.Success? ==> PolygonWellFormed(r.value) && |r.value.rings| == |inputs|)
  {
    FillRings([], inputs, reader);
    AddEachSpec([], inputs, RingAdmitter(reader));
  }

  /** PolygonTest::testOpenPolygonRing: a ring whose last point differs from
      its first makes the whole polygon throw. */
  lemma OpenRingRefused(inputs: seq<RingInput>, srid: Option<int>, reader: TextReader, i: int)
    requires 0 <= i < |inputs| && inputs[i].BuiltRing? && !IsClosed(inputs[i].ring)
    ensures BuildPolygon(inputs, srid, reader).Failure?
  {
    AddEachFailsIfAnyRefused([], inputs, RingAdmitter(reader), i);
  }

  /** `toArray`: the array view of every ring. */
  function PolygonArray(p: PolygonValue): seq<seq<seq<real>>>
  {
    Map(LineStringArray, p.rings)
  }

  /** `__toString`: every ring in parentheses, joined by commas. */
  function PolygonText(p: PolygonValue, numeral: real -> string): string
  {
    Join(",", Rendered(Parenthesized, LineStringTexter(numeral), p.rings))
  }

  function PolygonTexter(numeral: real -> string): PolygonValue -> string
  {
    p => PolygonText(p, numeral)
  }

  /** The input `new Polygon()` rebuilds a ring from its array view. */
  function RingArrayInput(a: seq<seq<real>>): RingInput
  {
    RawRing(Map(ArrayInput, a))
  }

  /** Rebuilding a polygon from its array view gives a polygon with the
      same array view (PolygonTest, rings to arrays and back). */
  lemma {:induction false} PolygonArrayRoundTrip(p: PolygonValue, srid: Option<int>, reader: TextReader)
    requires PolygonWellFormed(p)
    ensures var r := BuildPolygon(Map(RingArrayInput, PolygonArray(p)), srid, reader);
      r.Success? && PolygonArray(r.value) == PolygonArray(p)
  {
    var inputs := Map(RingArrayInput, PolygonArray(p));
    var admit := RingAdmitter(reader);
    forall i | 0 <= i < |inputs|
      ensures admit(inputs[i]).Success?
      ensures LineStringArray(admit(inputs[i]).value) == LineStringArray(p.rings[i])
    {
      assert inputs[i] == RawRing(Map(ArrayInput, LineStringArray(p.rings[i])));
      LineStringArrayRoundTrip(p.rings[i], None, reader);
    }
    AddEachAllAdmitted([], inputs, admit);
    var r := BuildPolygon(inputs, srid, reader);
    assert PolygonArray(r.value) == PolygonArray(p);
  }

  /** PolygonTest::testSolidPolygonFromArraysToString: two rings render as
      "(ring),(ring)". */
  lemma TwoRingText(first: LineString, second: LineString, srid: Option<int>, numeral: real -> string)
    ensures PolygonText(PolygonValue([first, second], srid), numeral)
         == "(" + LineStringText(first, numeral) + "),(" + LineStringText(second, numeral) + ")"
  {
    ParenthesizedPair(LineStringTexter(numeral), first, second);
  }

  class Polygon {
    /** The inherited object list. */
    var rings: seq<LineString>
    var srid: Option<int>

    ghost predicate Valid()
      reads this
    {
      RingsStored(rings)
    }

    function Value(): PolygonValue
      reads this
    {
      PolygonValue(rings, srid)
    }

    /** `parent::__construct($srid)`: no rings, and the SRID set unless it is
        loosely null. */
    constructor (srid: Option<int>)
      ensures Valid()
      ensures rings == [] && this.srid == ConstructSrid(srid)
    {
      rings := [];
      this.srid := ConstructSrid(srid);
    }

    /** `new Polygon($rings, $srid)`. */
    static method New(inputs: seq<RingInput>, srid: Option<int>, reader: TextReader) returns (r: Result<Polygon>)
      requires forall i :: 0 <= i < |inputs| ==> RingInputOk(inputs[i])
      ensures r.Success? ==> fresh(r.value) && r.value.Valid()
      ensures match BuildPolygon(inputs, srid, reader)
        case Success(p) => r.Success? && r.value.Value() == p
        case Failure(e) => r == Failure(e)
    {
      var polygon := new Polygon(srid);
      var outcome := polygon.SetRings(inputs, reader);
      if outcome.Failed? {
        return Failure(outcome.error);
      }
      r := Success(polygon);
    }

    /** `setRings`: discard the rings, then add the inputs in order; a
        refused input stops the loop and leaves the rings added before it. */
    method SetRings(inputs: seq<RingInput>, reader: TextReader) returns (outcome: Outcome)
      requires Valid()
      requires forall i :: 0 <= i < |inputs| ==> RingInputOk(inputs[i])
      modifies this
      ensures Valid()
      ensures var added := AddEach([], inputs, RingAdmitter(reader));
        && rings == added.list
        && outcome == (if added.error.None? then Done else Failed(added.error.value))
      ensures srid == old(srid)
    {
      rings := [];
      outcome := Done;
      for i := 0 to |inputs|
        invariant Valid() && srid == old(srid) && outcome == Done
        invariant AddEach([], inputs, RingAdmitter(reader)) == AddEach(rings, inputs[i..], RingAdmitter(reader))
      {
        assert inputs[i..][1..] == inputs[i + 1..];
        outcome := AddRing(inputs[i], reader);
        if outcome.Failed? {
          return;
        }
      }
    }

    /** `addRing`: append the coerced ring, with SRID 0, unless it is open. */
    method AddRing(input: RingInput, reader: TextReader) returns (outcome: Outcome)
      requires Valid() && RingInputOk(input)
      modifies this
      ensures Valid()
      ensures match AdmitRing(input, reader)
        case Success(ring) => outcome == Done && rings == old(rings) + [ring]
        case Failure(e) => outcome == Failed(e) && rings == old(rings)
      ensures srid == old(srid)
    {
      var ring := CoerceRing(input, reader);
      if ring.Failure? {
        return Failed(ring.error);
      }
      if !IsClosed(ring.value) {
        return Failed(UnclosedRing);
      }
      AdmitRingStores(input, reader);
      rings := rings + [ring.value.(srid := Some(0))];
      outcome := Done;
    }

    /** `getRings`: every ring is closed. */
    function GetRings(): (r: seq<LineString>)
      reads this
      requires Valid()
      ensures forall i :: 0 <= i < |r| ==> IsClosed(r[i]) && r[i].srid == Some(0)
    {
      rings
    }

    /** `getRing`: the i-th ring, or the last one for -1. */
    function GetRing(index: int): (r: Option<LineString>)
      reads this
      requires Valid()
      ensures r.Some? ==> r.value in rings && IsClosed(r.value)
      ensures index == -1 && rings != [] ==> r == Some(rings[|rings| - 1])
      ensures 0 <= index < |rings| ==> r == Some(rings[index])
    {
      GetIndex(rings, index)
    }

    /** `setSrid`, inherited from AbstractGeometry. */
    method SetSrid(given: Option<int>)
      modifies this
      ensures srid == StoreSrid(old(srid), given) && rings == old(rings)
    {
      if given.Some? {
        srid := given;
      }
    }

    /** `toArray`: the array view of every ring. */
    method ToArray() returns (a: seq<seq<seq<real>>>)
      ensures a == PolygonArray(Value())
      ensures |a| == |rings|
    {
      a := ObjectsToArray(rings, LineStringArray);
    }

    /** `__toString`: every ring in parentheses, joined by commas. */
    method ToString(numeral: real -> string) returns (s: string)
      ensures s == PolygonText(Value(), numeral)
    {
      s := ObjectsToString(rings, LineStringTexter(numeral), Parenthesized, ",");
    }
  }
}
