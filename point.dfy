/** Point (Point.php): a two-slot coordinate store that starts at (0, 0),
    setters that accept a number, a two-element array or a string, and
    latitude/longitude views that pick a slot by the axis order. */
module Points {
  import opened Values
  import opened AbstractGeometry

  const ORDER_LON_FIRST: int := 0
  const ORDER_LAT_FIRST: int := 1

  /** An axis order Point::setOrder accepts. */
  type Order = o: int | o == ORDER_LON_FIRST || o == ORDER_LAT_FIRST

  /** A slot of the coordinate store: 0 is X, 1 is Y. */
  type Slot = i: int | 0 <= i < 2

  /** What a setter is given: a PHP number, a two-element array, or a string. */
  datatype Input = Num(n: real) | Pair(first: real, second: real) | Text(text: string)

  /** The inputs PHP's loose `null != $value` treats as absent. */
  predicate LooselyNull(value: Input)
  {
    value == Num(0.0) || value == Text("")
  }

  /** The text services Point relies on and this model does not define:
      PHP's `is_numeric` with its conversion (`numeric` gives the number of a
      numeric string and None otherwise) and the coordinate parser (`parse`
      gives the pair a notation denotes and None where the parser throws). */
  datatype TextReader = TextReader(numeric: string -> Option<real>, parse: string -> Option<(real, real)>)

  /** The coordinates and SRID of a point. */
  datatype PointValue = PointValue(x: real, y: real, srid: Option<int>)

  /** `parseString`: a numeric string becomes its number; any other string
      goes to the coordinate parser, which yields a pair or throws. */
  function ParseString(s: string, reader: TextReader): (r: Result<Input>)
    ensures r.Success? ==> !r.value.Text?
    ensures reader.numeric(s).Some? ==> r == Success(Num(reader.numeric(s).value))
    ensures reader.numeric(s).None? ==> (r.Success? <==> reader.parse(s).Some?)
    ensures reader.numeric(s).None? && reader.parse(s).Some? ==>
      r == Success(Pair(reader.parse(s).value.0, reader.parse(s).value.1))
    ensures r.Failure? ==> r.error == UnparsableText
  {
    match reader.numeric(s)
    case Some(n) => Success(Num(n))
    case None =>
      match reader.parse(s)
      case Some(pair) => Success(Pair(pair.0, pair.1))
      case None => Failure(UnparsableText)
  }

  /** A string is parsed; anything else is taken as it is. */
  function Resolve(value: Input, reader: TextReader): (r: Result<Input>)
    ensures r.Success? ==> !r.value.Text?
    ensures !value.Text? ==> r == Success(value)
    ensures value.Text? ==> r == ParseString(value.text, reader)
  {
    if value.Text? then ParseString(value.text, reader) else Success(value)
  }

  /** What `setX` (slot 0) or `setY` (slot 1) stores: the number itself, or
      the slot's element of an array, after parsing a string. */
  function SlotValue(value: Input, slot: Slot, reader: TextReader): (r: Result<real>)
    ensures value.Num? ==> r == Success(value.n)
    ensures value.Pair? ==> r == Success(if slot == 0 then value.first else value.second)
    ensures r.Failure? <==> Resolve(value, reader).Failure?
    ensures r.Failure? ==> r == Failure(UnparsableText)
    ensures value.Text? && reader.numeric(value.text).Some? ==> r == Success(reader.numeric(value.text).value)
    ensures value.Text? && reader.numeric(value.text).None? && reader.parse(value.text).Some? ==>
      r == Success(if slot == 0 then reader.parse(value.text).value.0 else reader.parse(value.text).value.1)
  {
    match Resolve(value, reader)
    case Failure(e) => Failure(e)
    case Success(v) => Success(if v.Pair? then (if slot == 0 then v.first else v.second) else v.n)
  }

  /** `set`: after parsing a string, only an array is accepted, and it fills
      both slots; anything else throws and stores nothing. */
  function SetValue(p: PointValue, value: Input, reader: TextReader): (r: Result<PointValue>)
    ensures value.Pair? ==> r == Success(p.(x := value.first, y := value.second))
    ensures value.Num? ==> r == Failure(UnexpectedValueType)
    ensures value.Text? && reader.numeric(value.text).Some? ==> r == Failure(UnexpectedValueType)
    ensures value.Text? && reader.numeric(value.text).None? && reader.parse(value.text).Some? ==>
      r == Success(p.(x := reader.parse(value.text).value.0, y := reader.parse(value.text).value.1))
    ensures value.Text? && reader.numeric(value.text).None? && reader.parse(value.text).None? ==>
      r == Failure(UnparsableText)
    ensures r.Success? ==> r.value.srid == p.srid
  {
    match Resolve(value, reader)
    case Failure(e) => Failure(e)
    case Success(v) =>
      if v.Pair? then Success(p.(x := v.first, y := v.second)) else Failure(UnexpectedValueType)
  }

  /** Whenever `set` accepts a value, it stores what `setX` followed by
      `setY` with the same value would store; `set` refuses a number (or a
      numeric string), which `setX` and `setY` accept. */
  lemma SetAgreesWithSetXSetY(p: PointValue, value: Input, reader: TextReader)
    ensures SetValue(p, value, reader).Success? ==>
      && SlotValue(value, 0, reader).Success? && SlotValue(value, 1, reader).Success?
      && SetValue(p, value, reader).value
         == p.(x := SlotValue(value, 0, reader).value, y := SlotValue(value, 1, reader).value)
    ensures Resolve(value, reader).Success? && Resolve(value, reader).value.Num? ==>
      && SetValue(p, value, reader) == Failure(UnexpectedValueType)
      && SlotValue(value, 0, reader) == SlotValue(value, 1, reader) == Success(Resolve(value, reader).value.n)
  {
  }

  /** `new Point($value, $srid)`: start at (0, 0), then `set` the value
      unless it is loosely null, then set the SRID unless it is loosely null. */
  function ConstructPoint(value: Option<Input>, srid: Option<int>, reader: TextReader): (r: Result<PointValue>)
    ensures value.None? ==> r == Success(PointValue(0.0, 0.0, ConstructSrid(srid)))
    ensures value.Some? && value.value.Pair? ==>
      r == Success(PointValue(value.value.first, value.value.second, ConstructSrid(srid)))
    ensures value.Some? && value.value.Num? && value.value.n != 0.0 ==> r == Failure(UnexpectedValueType)
    ensures value.Some? && LooselyNull(value.value) ==> r == Success(PointValue(0.0, 0.0, ConstructSrid(srid)))
    ensures value.Some? && !LooselyNull(value.value) ==>
      var given := SetValue(PointValue(0.0, 0.0, None), value.value, reader);
      && (r.Success? <==> given.Success?)
      && (r.Success? ==> r.value == given.value.(srid := ConstructSrid(srid)))
      && (r.Failure? ==> r == given)
    ensures r.Success? ==> r.value.srid == ConstructSrid(srid)
  {
    var origin := PointValue(0.0, 0.0, None);
    var stored := if value.None? || LooselyNull(value.value) then Success(origin)
               else SetValue(origin, value.value, reader);
    match stored
    case Failure(e) => Failure(e)
    case Success(p) => Success(p.(srid := ConstructSrid(srid)))
  }

  /** `getLatitude` under an order: slot 0 when latitude comes first. */
  function Latitude(p: PointValue, order: Order): real
  {
    if order == ORDER_LAT_FIRST then p.x else p.y
  }

  /** `getLongitude` under an order: slot 0 when longitude comes first. */
  function Longitude(p: PointValue, order: Order): real
  {
    if order == ORDER_LON_FIRST then p.x else p.y
  }

  /** The slot `setLatitude` writes and `getLatitude` reads. */
  function LatitudeSlot(order: Order): (s: Slot)
    ensures forall p: PointValue :: Latitude(p, order) == [p.x, p.y][s]
    ensures s != LongitudeSlot(order)
  {
    if order == ORDER_LAT_FIRST then 0 else 1
  }

  /** The slot `setLongitude` writes and `getLongitude` reads. */
  function LongitudeSlot(order: Order): (s: Slot)
    ensures forall p: PointValue :: Longitude(p, order) == [p.x, p.y][s]
  {
    if order == ORDER_LON_FIRST then 0 else 1
  }

  /** Under either order, latitude and longitude are the two stored slots,
      one each; flipping the order swaps them while X and Y stay put. */
  lemma AxisViews(p: PointValue, order: Order)
    ensures [Latitude(p, order), Longitude(p, order)] == [p.x, p.y] || [Latitude(p, order), Longitude(p, order)] == [p.y, p.x]
    ensures Latitude(p, ORDER_LAT_FIRST) == Longitude(p, ORDER_LON_FIRST) == p.x
    ensures Latitude(p, ORDER_LON_FIRST) == Longitude(p, ORDER_LAT_FIRST) == p.y
  {
  }

  /** `toArray`: the two coordinates. */
  function PointArray(p: PointValue): (a: seq<real>)
    ensures |a| == 2 && a[0] == p.x && a[1] == p.y
  {
    [p.x, p.y]
  }

  /** `__toString`: the two coordinates rendered and separated by a space. */
  function PointText(p: PointValue, numeral: real -> string): string
  {
    numeral(p.x) + " " + numeral(p.y)
  }

  /** PointText as a value a container can apply to each of its members. */
  function PointTexter(numeral: real -> string): PointValue -> string
  {
    p => PointText(p, numeral)
  }

  /** A point built without a value renders as "0 0". */
  lemma EmptyPointText(srid: Option<int>, reader: TextReader, numeral: real -> string)
    requires numeral(0.0) == "0"
    ensures ConstructPoint(None, srid, reader).Success?
    ensures PointArray(ConstructPoint(None, srid, reader).value) == [0.0, 0.0]
    ensures PointText(ConstructPoint(None, srid, reader).value, numeral) == "0 0"
  {
  }

  /** `__toString` as AbstractGeometry.php runs it: `objectsToString`
      takes no separator, PHP drops the extra `' '` argument, and the two
      coordinates are joined with a comma. */
  function PointTextAsWritten(p: PointValue, numeral: real -> string): string
  {
    Join(",", Rendered(Plain, numeral, [p.x, p.y]))
  }

  /** As written, the origin renders as "0,0", not the "0 0" PointText (and
      the point test) gives. */
  lemma AsWrittenOriginText(numeral: real -> string)
    requires numeral(0.0) == "0"
    ensures PointTextAsWritten(PointValue(0.0, 0.0, None), numeral) == "0,0"
    ensures PointTextAsWritten(PointValue(0.0, 0.0, None), numeral) != PointText(PointValue(0.0, 0.0, None), numeral)
  {
    var parts := Rendered(Plain, numeral, [0.0, 0.0]);
    assert parts[1..] == [parts[1]];
    assert PointText(PointValue(0.0, 0.0, None), numeral)[1] == ' ';
  }

  /** The static order Point keeps apart from Configuration's: longitude
      first until setOrder changes it. */
  class PointOrderSetting {
    var order: Order

    constructor ()
      ensures order == ORDER_LON_FIRST
    {
      order := ORDER_LON_FIRST;
    }

    /** setOrder: only 0 and 1 are accepted; anything else throws and the
        order stays as it was. */
    method SetOrder(o: int) returns (outcome: Outcome)
      modifies this
      ensures o == ORDER_LON_FIRST || o == ORDER_LAT_FIRST ==> outcome == Done && order == o
      ensures o != ORDER_LON_FIRST && o != ORDER_LAT_FIRST ==>
        outcome == Failed(InvalidOrder) && order == old(order)
    {
      if o != ORDER_LAT_FIRST && o != ORDER_LON_FIRST {
        return Failed(InvalidOrder);
      }
      order := o;
      outcome := Done;
    }

    function GetOrder(): Order
      reads this
    {
      order
    }
  }

  class Point {
    /** The two coordinate slots. */
    const coords: array<real>
    /** The SRID; None (null) until set. */
    var srid: Option<int>

    ghost predicate Valid()
      reads this
    {
      coords.Length == 2
    }

    /** The point's coordinates and SRID as a value. */
    function Value(): PointValue
      reads this, coords
      requires Valid()
    {
      PointValue(coords[0], coords[1], srid)
    }

    /** `$this->coords = array(0, 0)`, with the SRID still null. */
    constructor ()
      ensures Valid() && fresh(coords)
      ensures Value() == PointValue(0.0, 0.0, None)
    {
      coords := new real[] [0.0, 0.0];
      srid := None;
    }

    /** `new Point($value, $srid)`; a value `set` refuses makes it throw. */
    static method New(value: Option<Input>, srid: Option<int>, reader: TextReader) returns (r: Result<Point>)
      ensures ConstructPoint(value, srid, reader).Failure? ==>
        r == Failure(ConstructPoint(value, srid, reader).error)
      ensures ConstructPoint(value, srid, reader).Success? ==>
        && r.Success? && fresh(r.value) && fresh(r.value.coords) && r.value.Valid()
        && r.value.Value() == ConstructPoint(value, srid, reader).value
    {
      var p := new Point();
      if value.Some? && !LooselyNull(value.value) {
        var outcome := p.Set(value.value, reader);
        if outcome.Failed? {
          return Failure(outcome.error);
        }
      }
      if srid.Some? && srid.value != 0 {
        p.SetSrid(srid);
      }
      r := Success(p);
    }

    /** `set`: see SetValue; on failure nothing is stored. */
    method Set(value: Input, reader: TextReader) returns (outcome: Outcome)
      requires Valid()
      modifies coords
      ensures Valid()
      ensures var r := SetValue(old(Value()), value, reader);
        if r.Success? then outcome == Done && Value() == r.value
        else outcome == Failed(r.error) && Value() == old(Value())
    {
      var v := value;
      if v.Text? {
        var parsed := ParseString(v.text, reader);
        if parsed.Failure? {
          return Failed(parsed.error);
        }
        v := parsed.value;
      }
      if !v.Pair? {
        return Failed(UnexpectedValueType);
      }
      var _ := SetX(v, reader);
      var _ := SetY(v, reader);
      outcome := Done;
    }

    /** `setX`: stores into slot 0 only; slot 1 and the SRID are untouched. */
    method SetX(value: Input, reader: TextReader) returns (outcome: Outcome)
      requires Valid()
      modifies coords
      ensures Valid()
      ensures var r := SlotValue(value, 0, reader);
        if r.Success? then outcome == Done && Value() == old(Value()).(x := r.value)
        else outcome == Failed(r.error) && Value() == old(Value())
    {
      var v := value;
      if v.Text? {
        var parsed := ParseString(v.text, reader);
        if parsed.Failure? {
          return Failed(parsed.error);
        }
        v := parsed.value;
      }
      if v.Pair? {
        coords[0] := v.first;
      } else {
        coords[0] := v.n;
      }
      outcome := Done;
    }

    /** `setY`: stores into slot 1 only; slot 0 and the SRID are untouched. */
    method SetY(value: Input, reader: TextReader) returns (outcome: Outcome)
      requires Valid()
      modifies coords
      ensures Valid()
      ensures var r := SlotValue(value, 1, reader);
        if r.Success? then outcome == Done && Value() == old(Value()).(y := r.value)
        else outcome == Failed(r.error) && Value() == old(Value())
    {
      var v := value;
      if v.Text? {
        var parsed := ParseString(v.text, reader);
        if parsed.Failure? {
          return Failed(parsed.error);
        }
        v := parsed.value;
      }
      if v.Pair? {
        coords[1] := v.second;
      } else {
        coords[1] := v.n;
      }
      outcome := Done;
    }

    function GetX(): real
      reads this, coords
      requires Valid()
    {
      coords[0]
    }

    function GetY(): real
      reads this, coords
      requires Valid()
    {
      coords[1]
    }

    /** `setLatitude`: writes the latitude slot of the order; reading the
        latitude back gives the stored value and the longitude is unchanged. */
    method SetLatitude(value: Input, order: Order, reader: TextReader) returns (outcome: Outcome)
      requires Valid()
      modifies coords
      ensures Valid()
      ensures var r := SlotValue(value, LatitudeSlot(order), reader);
        if r.Success? then
          && outcome == Done
          && Latitude(Value(), order) == r.value
          && Longitude(Value(), order) == Longitude(old(Value()), order)
          && Value().srid == old(Value()).srid
        else outcome == Failed(r.error) && Value() == old(Value())
    {
      if order == ORDER_LAT_FIRST {
        outcome := SetX(value, reader);
      } else {
        outcome := SetY(value, reader);
      }
    }

    function GetLatitude(order: Order): real
      reads this, coords
      requires Valid()
    {
      if order == ORDER_LAT_FIRST then GetX() else GetY()
    }

    /** `setLongitude`: writes the longitude slot of the order; reading the
        longitude back gives the stored value and the latitude is unchanged. */
    method SetLongitude(value: Input, order: Order, reader: TextReader) returns (outcome: Outcome)
      requires Valid()
      modifies coords
      ensures Valid()
      ensures var r := SlotValue(value, LongitudeSlot(order), reader);
        if r.Success? then
          && outcome == Done
          && Longitude(Value(), order) == r.value
          && Latitude(Value(), order) == Latitude(old(Value()), order)
          && Value().srid == old(Value()).srid
        else outcome == Failed(r.error) && Value() == old(Value())
    {
      if order == ORDER_LON_FIRST {
        outcome := SetX(value, reader);
      } else {
        outcome := SetY(value, reader);
      }
    }

    function GetLongitude(order: Order): real
      reads this, coords
      requires Valid()
    {
      if order == ORDER_LON_FIRST then GetX() else GetY()
    }

    /** `setSrid`, inherited from AbstractGeometry. */
    method SetSrid(given: Option<int>)
      modifies this
      ensures srid == StoreSrid(old(srid), given)
    {
      if given.Some? {
        srid := given;
      }
    }

    function GetSrid(): Option<int>
      reads this
    {
      srid
    }

    /** `toArray`: the coordinate store. */
    method ToArray() returns (a: seq<real>)
      requires Valid()
      ensures a == PointArray(Value())
    {
      a := coords[..];
    }

    /** `__toString`: the coordinates rendered one by one and joined with a
        space, giving "x y". */
    method ToString(numeral: real -> string) returns (s: string)
      requires Valid()
      ensures s == PointText(Value(), numeral)
    {
      s := ObjectsToString(coords[..], numeral, Plain, " ");
      assert Rendered(Plain, numeral, coords[..]) == [numeral(coords[0]), numeral(coords[1])];
    }
  }
}
