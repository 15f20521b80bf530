/** MultiLineString (MultiLineString.php): an ordered list of line strings
    kept in its own field. A line string input is coerced with the
    container's current SRID and refused unless its SRID is identical to the
    container's. The constructor fills the list first and only then sets the
    SRID, so during construction members are compared with a null SRID. */
module MultiLineStrings {
  import opened Values
  import opened AbstractGeometry
  import opened Points
  import opened MultiPoints
  import opened LineStrings

  /** A member input: a LineString already built, or the point inputs
      `new LineString()` is given. */
  datatype LineStringInput = BuiltLineString(lineString: LineString) | RawLineString(points: seq<PointInput>)

  /** A built member comes out of the LineString constructor. */
  ghost predicate LineStringInputOk(input: LineStringInput)
  {
    input.BuiltLineString? ==> WellFormed(input.lineString)
  }

  /** The first step of `addLineString`: a LineString passes as it is;
      anything else becomes `new LineString($lineString, $this->srid)`. */
  function CoerceLineString(containerSrid: Option<int>, input: LineStringInput, reader: TextReader): (r: Result<LineString>)
    ensures input.BuiltLineString? ==> r == Success(input.lineString)
    ensures input.RawLineString? ==>
      (r.Success? <==> forall i :: 0 <= i < |input.points| ==> GetValidObject(input.points[i], reader).Success?)
    ensures input.RawLineString? && r.Success? ==>
      r.value.srid == ConstructSrid(containerSrid) && |r.value.points| == |input.points| && WellFormed(r.value)
  {
    match input
    case BuiltLineString(l) => Success(l)
    case RawLineString(points) =>
      BuildLineStringSpec(points, containerSrid, reader);
      BuildLineString(points, containerSrid, reader)
  }

  /** `addLineString` up to the append: coerce, then throw unless the
      member's SRID is identical (`!==`) to the container's. */
  function AdmitLineString(containerSrid: Option<int>, input: LineStringInput, reader: TextReader): (r: Result<LineString>)
    ensures r.Success? <==>
      && CoerceLineString(containerSrid, input, reader).Success?
      && CoerceLineString(containerSrid, input, reader).value.srid == containerSrid
    ensures r.Success? ==> r == CoerceLineString(containerSrid, input, reader) && r.value.srid == containerSrid
    ensures CoerceLineString(containerSrid, input, reader).Failure? ==> r == CoerceLineString(containerSrid, input, reader)
    ensures
      (&& CoerceLineString(containerSrid, input, reader).Success?
       && CoerceLineString(containerSrid, input, reader).value.srid != containerSrid)
      ==> r == Failure(SridMismatch)
  {
    match CoerceLineString(containerSrid, input, reader)
    case Failure(e) => Failure(e)
    case Success(l) => if containerSrid != l.srid then Failure(SridMismatch) else Success(l)
  }

  function LineStringAdmitter(containerSrid: Option<int>, reader: TextReader): LineStringInput -> Result<LineString>
  {
    input => AdmitLineString(containerSrid, input, reader)
  }

  /** Every member comes out of the LineString constructor. */
  ghost predicate LineStringsFormed(list: seq<LineString>)
  {
    forall i :: 0 <= i < |list| ==> WellFormed(list[i])
  }

  /** Filling the list keeps every member well formed; it succeeds exactly
      when every input is admitted, and then every member carries the
      container's SRID. */
  lemma FillLineStrings(list: seq<LineString>, containerSrid: Option<int>, inputs: seq<LineStringInput>, reader: TextReader)
    requires LineStringsFormed(list)
    requires forall i :: 0 <= i < |inputs| ==> LineStringInputOk(inputs[i])
    ensures var r := AddEach(list, inputs, LineStringAdmitter(containerSrid, reader));
      && LineStringsFormed(r.list)
      && (r.error.None? <==> forall i :: 0 <= i < |inputs| ==> AdmitLineString(containerSrid, inputs[i], reader).Success?)
      && forall k :: |list| <= k < |r.list| ==> r.list[k].srid == containerSrid
  {
    var admit := LineStringAdmitter(containerSrid, reader);
    forall i | 0 <= i < |inputs| && admit(inputs[i]).Success?
      ensures WellFormed(admit(inputs[i]).value)
    {
      if inputs[i].RawLineString? {
        BuildLineStringSpec(inputs[i].points, containerSrid, reader);
      }
    }
    AddEachPreserves(list, inputs, admit, WellFormed);
    AddEachSpec(list, inputs, admit);
    var r := AddEach(list, inputs, admit);
    forall k | |list| <= k < |r.list| ensures r.list[k].srid == containerSrid {
      assert admit(inputs[k - |list|]) == Success(r.list[|list| + (k - |list|)]);
    }
    if forall i :: 0 <= i < |inputs| ==> AdmitLineString(containerSrid, inputs[i], reader).Success? {
      AddEachAllAdmitted(list, inputs, admit);
    } else {
      var i :| 0 <= i < |inputs| && AdmitLineString(containerSrid, inputs[i], reader).Failure?;
      AddEachFailsIfAnyRefused(list, inputs, admit, i);
    }
  }

  /** During construction the container's SRID is still null, so a line
      string that carries an SRID is refused whatever SRID the constructor is
      given, while one built from points is accepted whenever its points are. */
  lemma ConstructionComparesWithNull(input: LineStringInput, reader: TextReader)
    ensures input.BuiltLineString? && input.lineString.srid.Some? ==>
      AdmitLineString(None, input, reader) == Failure(SridMismatch)
    ensures input.RawLineString? ==>
      (AdmitLineString(None, input, reader).Success? <==> BuildLineString(input.points, None, reader).Success?)
  {
  }

  /** Once the container's SRID is 0 (what the constructor's default
      argument leaves), a line string built from points gets a null SRID from
      the loose test in its constructor and is always refused. */
  lemma RawMemberRefusedUnderZeroSrid(points: seq<PointInput>, reader: TextReader)
    ensures AdmitLineString(Some(0), RawLineString(points), reader).Failure?
  {
  }

  /** The array view of a list of line strings. */
  function LineStringsArray(list: seq<LineString>): seq<seq<seq<real>>>
  {
    Map(LineStringArray, list)
  }

  /** The text of a list of line strings: each in parentheses, joined by
      commas. */
  function LineStringsText(list: seq<LineString>, numeral: real -> string): string
  {
    Join(",", Rendered(Parenthesized, LineStringTexter(numeral), list))
  }

  /** The input `new MultiLineString()` rebuilds a member from its array view. */
  function LineStringArrayInput(a: seq<seq<real>>): LineStringInput
  {
    RawLineString(Map(ArrayInput, a))
  }

  /** Filling a fresh container from another one's array view succeeds and
      gives back the same array view. */
  lemma {:induction false} LineStringsArrayRoundTrip(list: seq<LineString>, reader: TextReader)
    ensures var r := AddEach([], Map(LineStringArrayInput, LineStringsArray(list)), LineStringAdmitter(None, reader));
      r.error.None? && LineStringsArray(r.list) == LineStringsArray(list)
  {
    var inputs := Map(LineStringArrayInput, LineStringsArray(list));
    var admit := LineStringAdmitter(None, reader);
    forall i | 0 <= i < |inputs|
      ensures admit(inputs[i]).Success?
      ensures LineStringArray(admit(inputs[i]).value) == LineStringArray(list[i])
    {
      assert inputs[i] == RawLineString(Map(ArrayInput, LineStringArray(list[i])));
      LineStringArrayRoundTrip(list[i], None, reader);
    }
    AddEachAllAdmitted([], inputs, admit);
    var r := AddEach([], inputs, admit);
    assert LineStringsArray(r.list) == LineStringsArray(list);
  }

  class MultiLineString {
    var lineStrings: seq<LineString>
    var srid: Option<int>

    ghost predicate Valid()
      reads this
    {
      LineStringsFormed(lineStrings)
    }

    /** The object before the constructor body runs: both fields null (the
        list is modelled as empty). */
    constructor ()
      ensures Valid()
      ensures lineStrings == [] && srid == None
    {
      lineStrings := [];
      srid := None;
    }

    /** `new MultiLineString($lineStrings, $srid)`: fill the list while the
        SRID is still null, then `setSrid($srid)` (the default argument is 0). */
    static method New(inputs: seq<LineStringInput>, srid: Option<int>, reader: TextReader) returns (r: Result<MultiLineString>)
      requires forall i :: 0 <= i < |inputs| ==> LineStringInputOk(inputs[i])
      ensures var added := AddEach([], inputs, LineStringAdmitter(None, reader));
        if added.error.None? then
          && r.Success? && fresh(r.value) && r.value.Valid()
          && r.value.lineStrings == added.list && r.value.srid == StoreSrid(None, srid)
        else r == Failure(added.error.value)
    {
      var m := new MultiLineString();
      var outcome := m.SetLineStrings(inputs, reader);
      if outcome.Failed? {
        return Failure(outcome.error);
      }
      m.SetSrid(srid);
      r := Success(m);
    }

    /** `setLineStrings`: discard the list, then add the inputs in order; a
        refused input stops the loop and leaves those added before it. */
    method SetLineStrings(inputs: seq<LineStringInput>, reader: TextReader) returns (outcome: Outcome)
      requires Valid()
      requires forall i :: 0 <= i < |inputs| ==> LineStringInputOk(inputs[i])
      modifies this
      ensures Valid()
      ensures var added := AddEach([], inputs, LineStringAdmitter(srid, reader));
        && lineStrings == added.list
        && outcome == (if added.error.None? then Done else Failed(added.error.value))
      ensures srid == old(srid)
    {
      lineStrings := [];
      outcome := Done;
      for i := 0 to |inputs|
        invariant Valid() && srid == old(srid) && outcome == Done
        invariant AddEach([], inputs, LineStringAdmitter(srid, reader)) ==
                  AddEach(lineStrings, inputs[i..], LineStringAdmitter(srid, reader))
      {
        assert inputs[i..][1..] == inputs[i + 1..];
        outcome := AddLineString(inputs[i], reader);
        if outcome.Failed? {
          return;
        }
      }
    }

    /** `addLineString`: append the coerced member if its SRID is the
        container's. */
    method AddLineString(input: LineStringInput, reader: TextReader) returns (outcome: Outcome)
      requires Valid() && LineStringInputOk(input)
      modifies this
      ensures Valid()
      ensures match AdmitLineString(srid, input, reader)
        case Success(l) => outcome == Done && lineStrings == old(lineStrings) + [l]
        case Failure(e) => outcome == Failed(e) && lineStrings == old(lineStrings)
      ensures srid == old(srid)
    {
      var l := CoerceLineString(srid, input, reader);
      if l.Failure? {
        return Failed(l.error);
      }
      if srid != l.value.srid {
        return Failed(SridMismatch);
      }
      if input.RawLineString? {
        BuildLineStringSpec(input.points, srid, reader);
      }
      lineStrings := lineStrings + [l.value];
      outcome := Done;
    }

    function GetLineStrings(): (r: seq<LineString>)
      reads this
      requires Valid()
      ensures LineStringsFormed(r)
    {
      lineStrings
    }

    /** `getLineString`: the i-th member, or the last one for -1. */
    function GetLineString(index: int): (r: Option<LineString>)
      reads this
      ensures r.Some? ==> r.value in lineStrings
      ensures index == -1 && lineStrings != [] ==> r == Some(lineStrings[|lineStrings| - 1])
      ensures 0 <= index < |lineStrings| ==> r == Some(lineStrings[index])
    {
      GetIndex(lineStrings, index)
    }

    /** `setSrid`, inherited from AbstractGeometry; the members keep theirs. */
    method SetSrid(given: Option<int>)
      modifies this
      ensures srid == StoreSrid(old(srid), given) && lineStrings == old(lineStrings)
    {
      if given.Some? {
        srid := given;
      }
    }

    /** `toArray`: the array view of every member. */
    method ToArray() returns (a: seq<seq<seq<real>>>)
      ensures a == LineStringsArray(lineStrings)
      ensures |a| == |lineStrings|
    {
      a := ObjectsToArray(lineStrings, LineStringArray);
    }

    /** `__toString`: every member in parentheses, joined by commas. */
    method ToString(numeral: real -> string) returns (s: string)
      ensures s == LineStringsText(lineStrings, numeral)
    {
      s := ObjectsToString(lineStrings, LineStringTexter(numeral), Parenthesized, ",");
    }
  }
}
