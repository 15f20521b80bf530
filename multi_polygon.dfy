/** MultiPolygon (MultiPolygon.php): an ordered list of polygons kept in its
    own field. A polygon input is coerced with the container's current SRID
    and refused unless its SRID is identical to the container's. The
    constructor fills the list first and then sets the SRID only when one is
    given (the default argument is null). */
module MultiPolygons {
  import opened Values
  import opened AbstractGeometry
  import opened Points
  import opened MultiPoints
  import opened LineStrings
  import opened Polygons

  /** A member input: a Polygon already built, or the ring inputs
      `new Polygon()` is given. */
  datatype PolygonInput = BuiltPolygon(polygon: PolygonValue) | RawPolygon(rings: seq<RingInput>)

  /** A built member comes out of the Polygon constructor; a raw one holds
      ring inputs Polygon accepts. */
  ghost predicate PolygonInputOk(input: PolygonInput)
  {
    match input
    case BuiltPolygon(p) => PolygonWellFormed(p)
    case RawPolygon(rings) => forall i :: 0 <= i < |rings| ==> RingInputOk(rings[i])
  }

  /** The first step of `addPolygon`: a Polygon passes as it is; anything
      else becomes `new Polygon($polygon, $this->srid)`. */
  function CoercePolygon(containerSrid: Option<int>, input: PolygonInput, reader: TextReader): (r: Result<PolygonValue>)
    ensures input.BuiltPolygon? ==> r == Success(input.polygon)
    ensures input.RawPolygon? && r.Success? ==>
      r.value.srid == ConstructSrid(containerSrid) && |r.value.rings| == |input.rings|
    ensures input.RawPolygon? && r.Failure? ==>
      exists i :: 0 <= i < |input.rings| && AdmitRing(input.rings[i], reader) == Failure(r.error)
  {
    match input
    case BuiltPolygon(p) => Success(p)
    case RawPolygon(rings) =>
      AddEachSpec([], rings, RingAdmitter(reader));
      BuildPolygon(rings, containerSrid, reader)
  }

  /** `addPolygon` up to the append: coerce, then throw unless the member's
      SRID is identical (`!==`) to the container's. */
  function AdmitPolygon(containerSrid: Option<int>, input: PolygonInput, reader: TextReader): (r: Result<PolygonValue>)
    ensures r.Success? <==>
      && CoercePolygon(containerSrid, input, reader).Success?
      && CoercePolygon(containerSrid, input, reader).value.srid == containerSrid
    ensures r.Success? ==> r == CoercePolygon(containerSrid, input, reader) && r.value.srid == containerSrid
    ensures CoercePolygon(containerSrid, input, reader).Failure? ==> r == CoercePolygon(containerSrid, input, reader)
    ensures
      (&& CoercePolygon(containerSrid, input, reader).Success?
       && CoercePolygon(containerSrid, input, reader).value.srid != containerSrid)
      ==> r == Failure(SridMismatch)
  {
    match CoercePolygon(containerSrid, input, reader)
    case Failure(e) => Failure(e)
    case Success(p) => if containerSrid != p.srid then Failure(SridMismatch) else Success(p)
  }

  function PolygonAdmitter(containerSrid: Option<int>, reader: TextReader): PolygonInput -> Result<PolygonValue>
  {
    input => AdmitPolygon(containerSrid, input, reader)
  }

  /** Every member is a polygon whose rings are all closed. */
  ghost predicate PolygonsFormed(list: seq<PolygonValue>)
  {
    forall i :: 0 <= i < |list| ==> PolygonWellFormed(list[i])
  }

  /** An admitted polygon has only closed rings. */
  lemma AdmitPolygonForms(containerSrid: Option<int>, input: PolygonInput, reader: TextReader)
    requires PolygonInputOk(input)
    ensures AdmitPolygon(containerSrid, input, reader).Success? ==>
      PolygonWellFormed(AdmitPolygon(containerSrid, input, reader).value)
  {
    if input.RawPolygon? {
      BuildPolygonSpec(input.rings, containerSrid, reader);
    }
  }

  /** Filling the list keeps every member a polygon of closed rings; it
      succeeds exactly when every input is admitted, and every member added
      carries the container's SRID. */
  lemma FillPolygons(list: seq<PolygonValue>, containerSrid: Option<int>, inputs: seq<PolygonInput>, reader: TextReader)
    requires PolygonsFormed(list)
    requires forall i :: 0 <= i < |inputs| ==> PolygonInputOk(inputs[i])
    ensures var r := AddEach(list, inputs, PolygonAdmitter(containerSrid, reader));
      && PolygonsFormed(r.list)
      && (r.error.None? <==> forall i :: 0 <= i < |inputs| ==> AdmitPolygon(containerSrid, inputs[i], reader).Success?)
      && forall k :: |list| <= k < |r.list| ==> r.list[k].srid == containerSrid
  {
    var admit := PolygonAdmitter(containerSrid, reader);
    forall i | 0 <= i < |inputs| && admit(inputs[i]).Success?
      ensures PolygonWellFormed(admit(inputs[i]).value)
    {
      AdmitPolygonForms(containerSrid, inputs[i], reader);
    }
    AddEachPreserves(list, inputs, admit, PolygonWellFormed);
    AddEachSpec(list, inputs, admit);
    var r := AddEach(list, inputs, admit);
    forall k | |list| <= k < |r.list| ensures r.list[k].srid == containerSrid {
      assert admit(inputs[k - |list|]) == Success(r.list[|list| + (k - |list|)]);
    }
    if forall i :: 0 <= i < |inputs| ==> AdmitPolygon(containerSrid, inputs[i], reader).Success? {
      AddEachAllAdmitted(list, inputs, admit);
    } else {
      var i :| 0 <= i < |inputs| && AdmitPolygon(containerSrid, inputs[i], reader).Failure?;
      AddEachFailsIfAnyRefused(list, inputs, admit, i);
    }
  }

  /** MultiPolygonTest, polygons built without an SRID: during construction
      the container's SRID is null and a polygon built with the default SRID
      0 has a null SRID too, so the constructor keeps every such polygon as
      it is, in order; `getPolygon(0)` is the first and `getPolygon(-1)` the
      last. */
  lemma BuiltPolygonsKept(polygons: seq<PolygonValue>, reader: TextReader)
    requires forall i :: 0 <= i < |polygons| ==> polygons[i].srid == None
    ensures AddEach([], Map(p => BuiltPolygon(p), polygons), PolygonAdmitter(None, reader)) == Added(polygons, None)
  {
  }

  /** The array view of a list of polygons. */
  function PolygonsArray(list: seq<PolygonValue>): seq<seq<seq<seq<real>>>>
  {
    Map(PolygonArray, list)
  }

  /** The text of a list of polygons: each in parentheses, joined by commas. */
  function PolygonsText(list: seq<PolygonValue>, numeral: real -> string): string
  {
    Join(",", Rendered(Parenthesized, PolygonTexter(numeral), list))
  }

  /** The input `new MultiPolygon()` rebuilds a member from its array view. */
  function PolygonArrayInput(a: seq<seq<seq<real>>>): PolygonInput
  {
    RawPolygon(Map(RingArrayInput, a))
  }

  /** Filling a fresh container from another one's array view (as the
      constructor does, under a null SRID) succeeds and gives back the same
      array view. */
  lemma {:induction false} PolygonsArrayRoundTrip(list: seq<PolygonValue>, reader: TextReader)
    requires PolygonsFormed(list)
    ensures var r := AddEach([], Map(PolygonArrayInput, PolygonsArray(list)), PolygonAdmitter(None, reader));
      r.error.None? && PolygonsArray(r.list) == PolygonsArray(list)
  {
    var inputs := Map(PolygonArrayInput, PolygonsArray(list));
    var admit := PolygonAdmitter(None, reader);
    forall i | 0 <= i < |inputs|
      ensures admit(inputs[i]).Success?
      ensures PolygonArray(admit(inputs[i]).value) == PolygonArray(list[i])
    {
      var rings := Map(RingArrayInput, PolygonArray(list[i]));
      assert inputs[i] == RawPolygon(rings);
      PolygonArrayRoundTrip(list[i], None, reader);
      var built := BuildPolygon(rings, None, reader);
      assert built.Success? && built.value.srid == None;
      assert CoercePolygon(None, inputs[i], reader) == built;
      assert AdmitPolygon(None, inputs[i], reader) == built;
    }
    AddEachAllAdmitted([], inputs, admit);
    var r := AddEach([], inputs, admit);
    assert PolygonsArray(r.list) == PolygonsArray(list);
  }

  /** MultiPolygonTest::testMultiPolygonFromArraysToString: a polygon of two
      rings followed by a polygon of one ring renders as
      "((ring),(ring)),((ring))". */
  lemma NestedText(a: LineString, b: LineString, c: LineString, srid: Option<int>, numeral: real -> string)
    ensures PolygonsText([PolygonValue([a, b], srid), PolygonValue([c], srid)], numeral)
         == "((" + LineStringText(a, numeral) + "),(" + LineStringText(b, numeral) + ")),(("
            + LineStringText(c, numeral) + "))"
  {
    var first, second := PolygonValue([a, b], srid), PolygonValue([c], srid);
    var ta, tb, tc := LineStringText(a, numeral), LineStringText(b, numeral), LineStringText(c, numeral);
    ParenthesizedPair(LineStringTexter(numeral), a, b);
    ParenthesizedPair(LineStringTexter(numeral), c, c);
    ParenthesizedPair(PolygonTexter(numeral), first, second);
    assert PolygonText(first, numeral) == "(" + ta + "),(" + tb + ")";
    assert PolygonText(second, numeral) == "(" + tc + ")";
    assert "(" + ("(" + ta + "),(" + tb + ")") + "),(" + ("(" + tc + ")") + ")"
        == "((" + ta + "),(" + tb + ")),((" + tc + "))";
  }

  class MultiPolygon {
    var polygons: seq<PolygonValue>
    var srid: Option<int>

    ghost predicate Valid()
      reads this
    {
      PolygonsFormed(polygons)
    }

    /** The object before the constructor body runs: both fields null (the
        list is modelled as empty). */
    constructor ()
      ensures Valid()
      ensures polygons == [] && srid == None
    {
      polygons := [];
      srid := None;
    }

    /** `new MultiPolygon($polygons, $srid)`: fill the list while the SRID is
        still null, then set the SRID when one is given. */
    static method New(inputs: seq<PolygonInput>, srid: Option<int>, reader: TextReader) returns (r: Result<MultiPolygon>)
      requires forall i :: 0 <= i < |inputs| ==> PolygonInputOk(inputs[i])
      ensures var added := AddEach([], inputs, PolygonAdmitter(None, reader));
        if added.error.None? then
          && r.Success? && fresh(r.value) && r.value.Valid()
          && r.value.polygons == added.list && r.value.srid == srid
        else r == Failure(added.error.value)
    {
      var m := new MultiPolygon();
      var outcome := m.SetPolygons(inputs, reader);
      if outcome.Failed? {
        return Failure(outcome.error);
      }
      if srid.Some? {
        m.SetSrid(srid);
      }
      r := Success(m);
    }

    /** `setPolygons`: discard the list, then add the inputs in order; a
        refused input stops the loop and leaves those added before it. */
    method SetPolygons(inputs: seq<PolygonInput>, reader: TextReader) returns (outcome: Outcome)
      requires Valid()
      requires forall i :: 0 <= i < |inputs| ==> PolygonInputOk(inputs[i])
      modifies this
      ensures Valid()
      ensures var added := AddEach([], inputs, PolygonAdmitter(srid, reader));
        && polygons == added.list
        && outcome == (if added.error.None? then Done else Failed(added.error.value))
      ensures srid == old(srid)
    {
      polygons := [];
      outcome := Done;
      for i := 0 to |inputs|
        invariant Valid() && srid == old(srid) && outcome == Done
        invariant AddEach([], inputs, PolygonAdmitter(srid, reader)) ==
                  AddEach(polygons, inputs[i..], PolygonAdmitter(srid, reader))
      {
        assert inputs[i..][1..] == inputs[i + 1..];
        outcome := AddPolygon(inputs[i], reader);
        if outcome.Failed? {
          return;
        }
      }
    }

    /** `addPolygon`: append the coerced member if its SRID is the
        container's. */
    method AddPolygon(input: PolygonInput, reader: TextReader) returns (outcome: Outcome)
      requires Valid() && PolygonInputOk(input)
      modifies this
      ensures Valid()
      ensures match AdmitPolygon(srid, input, reader)
        case Success(p) => outcome == Done && polygons == old(polygons) + [p]
        case Failure(e) => outcome == Failed(e) && polygons == old(polygons)
      ensures srid == old(srid)
    {
      var p := CoercePolygon(srid, input, reader);
      if p.Failure? {
        return Failed(p.error);
      }
      if srid != p.value.srid {
        return Failed(SridMismatch);
      }
      AdmitPolygonForms(srid, input, reader);
      polygons := polygons + [p.value];
      outcome := Done;
    }

    /** `getPolygons`: every ring of every member is closed. */
    function GetPolygons(): (r: seq<PolygonValue>)
      reads this
      requires Valid()
      ensures PolygonsFormed(r)
    {
      polygons
    }

    /** `getPolygon`: the i-th member, or the last one for -1. */
    function GetPolygon(index: int): (r: Option<PolygonValue>)
      reads this
      ensures r.Some? ==> r.value in polygons
      ensures index == -1 && polygons != [] ==> r == Some(polygons[|polygons| - 1])
      ensures 0 <= index < |polygons| ==> r == Some(polygons[index])
    {
      GetIndex(polygons, index)
    }

    /** `setSrid`, inherited from AbstractGeometry; the members keep theirs. */
    method SetSrid(given: Option<int>)
      modifies this
      ensures srid == StoreSrid(old(srid), given) && polygons == old(polygons)
    {
      if given.Some? {
        srid := given;
      }
    }

    /** `toArray`: the array view of every member. */
    method ToArray() returns (a: seq<seq<seq<seq<real>>>>)
      ensures a == PolygonsArray(polygons)
      ensures |a| == |polygons|
    {
      a := ObjectsToArray(polygons, PolygonArray);
    }

    /** `__toString`: every member in parentheses, joined by commas. */
    method ToString(numeral: real -> string) returns (s: string)
      ensures s == PolygonsText(polygons, numeral)
    {
      s := ObjectsToString(polygons, PolygonTexter(numeral), Parenthesized, ",");
    }
  }
}
