# Geometry value model of CrEOF Geo, in Dafny

This project models the geometry value objects of the PHP library CrEOF Geo
(`lib/CrEOF/Geo`) and proves what they promise:

- **Point**: a two-slot coordinate store that starts at (0, 0). Its setters
  take a number, a two-element array or a string. A numeric string is
  converted and any other string goes to the coordinate parser. Latitude and
  longitude are views onto slot 0 or slot 1, chosen by an axis order.
  Point is a class over an `array<real>` of length 2; `setX` and `setY`
  are proved to touch one slot only.
- **Configuration**: the axis order, validated to 0 or 1 with longitude
  first as the default, and the default SRID, clamped to be non-negative.
  It is a class whose two fields replace the PHP static fields.
- **AbstractGeometry**: the SRID setter that ignores null, the index lookup
  where -1 means "last", the element-wise array view and the comma-joined
  text rendering. `AddEach` states what every container's fill loop does:
  each input is coerced and checked, then appended, and the first refused
  input stops the loop.
- **Containers** (MultiPoint, Polygon, MultiLineString, MultiPolygon):
  classes with a `seq` field that their `set…` methods reset and their
  `add…` methods append to, behind a guard. Each fill loop is proved
  against `AddEach`. Each class keeps an invariant. MultiPoint members and
  Polygon rings carry SRID 0, and every Polygon ring is closed, also inside
  MultiPolygon members. Each text rendering is proved against a rendering
  function, and each array view against a rebuild that gives back the same
  array.

`LineString.php` and the coordinate parser are not part of this model.
LineString is a value holding a list of points and an SRID. It is built
the way MultiPoint fills its list and is closed when its first and last
points have the same coordinates. The parser is the `parse` field of a
`TextReader` parameter.

Several helpers that Polygon and MultiPoint call are absent from
AbstractGeometry: `parent::__construct`, `addObject`, `setObjects`,
`getObjects` and `getObjectsIndex`. They are modelled as follows:

- the parent constructor sets the SRID unless it is loosely null, so 0
  counts as null, as in Point's constructor;
- `addObject` coerces the input and stores it with SRID 0;
- `setObjects` resets the list and adds each input;
- `getObjectsIndex` is `getIndex`.

Polygon and MultiPoint also call `objectsToArray()` and `objectsToString()`
without the list argument that AbstractGeometry.php:92 and :109 require
(Polygon.php:102 and :110, MultiPoint.php:88 and :96). As written, their
`toArray` and `__toString` would fail on the missing argument instead of
rendering. The model passes the object's own list, as MultiLineString.php
and MultiPolygon.php do.

MultiLineString and MultiPolygon fill their list before they set their
SRID. During construction the members are therefore compared with a null
SRID.

- `MultiLineStrings.ConstructionComparesWithNull`: a ready-made line string
  that carries an SRID is refused by the constructor, whatever SRID the
  constructor is given.
- `MultiLineStrings.RawMemberRefusedUnderZeroSrid`: MultiLineString's
  default SRID argument is 0. If LineString's constructor applies the same
  loose null test to its SRID as Point's does (the assumption this model
  makes about LineString), a line string given as points gets a null SRID
  once the container's SRID is 0, so it is always refused.

## Model

| member | source | states |
|---|---|---|
| AbstractGeometry.GetSridReturnsLastStored | lib/CrEOF/Geo/AbstractGeometry.php:52-69 | after any sequence of `setSrid` calls, `getSrid` is the last non-null value passed, or the initial SRID if every call passed null |
| AbstractGeometry.StoreSridsAppend | lib/CrEOF/Geo/AbstractGeometry.php:62-69 | one more `setSrid` call acts on the SRID the earlier calls left |
| AbstractGeometry.ConstructSrid | lib/CrEOF/Geo/Point.php:62-64 | the loose `null != $srid` test of a constructor never stores SRID 0, and stores any other given SRID unchanged |
| AbstractGeometry.GetIndex | lib/CrEOF/Geo/AbstractGeometry.php:77-85 | -1 gives the last element and nothing for an empty list; any other index gives an element exactly when it is in range, and then the element at that index |
| AbstractGeometry.GetIndexAfterAppend | lib/CrEOF/Geo/AbstractGeometry.php:77-85 | after an append, -1 gives the new element and every existing index is unchanged; on a non-empty list -1 and the last index agree |
| AbstractGeometry.Map | lib/CrEOF/Geo/AbstractGeometry.php:92-101 | same length as the input, and element i is the function applied to element i |
| AbstractGeometry.ObjectsToArray | lib/CrEOF/Geo/AbstractGeometry.php:92-101 | the loop returns a list of the same length and order, whose element i is member i's array view |
| AbstractGeometry.Rendered | lib/CrEOF/Geo/AbstractGeometry.php:109-115 | one formatted string per member, in order, each member's text wrapped by the format |
| AbstractGeometry.ObjectsToString | lib/CrEOF/Geo/AbstractGeometry.php:109-118 | the loop returns the formatted member texts joined by the separator; an empty list gives "" |
| AbstractGeometry.JoinAppend | lib/CrEOF/Geo/AbstractGeometry.php:117 | joining one more part appends the separator and that part to the joined text |
| AbstractGeometry.ParenthesizedPair | lib/CrEOF/Geo/AbstractGeometry.php:109-118 | with the '(%s)' format, one member renders as "(t)" and two as "(t1),(t2)" |
| AbstractGeometry.Split | lib/CrEOF/Geo/AbstractGeometry.php:117 | cutting text at a separator always yields at least one part |
| AbstractGeometry.SplitAfterPart | lib/CrEOF/Geo/AbstractGeometry.php:117 | a part without the separator stays whole at the front of the cut text |
| AbstractGeometry.SplitJoin | lib/CrEOF/Geo/AbstractGeometry.php:117 | joining is lossless: when no part contains the separator, cutting the joined text gives back the parts |
| AbstractGeometry.AddEachSpec | lib/CrEOF/Geo/Polygon.php:50-59 | a fill keeps the old list as a prefix and appends the admitted members of the inputs in order; it stops exactly at the first refused input and reports that input's error; with no refusal it covers every input |
| AbstractGeometry.AddEachFailsIfAnyRefused | lib/CrEOF/Geo/Polygon.php:50-59 | one refused input makes the whole fill fail |
| AbstractGeometry.AddEachAllAdmitted | lib/CrEOF/Geo/Polygon.php:50-59 | with every input admitted, the fill appends exactly one member per input, in order |
| AbstractGeometry.AddEachPreserves | lib/CrEOF/Geo/Polygon.php:50-77 | a property that every kept member and every admitted input has holds of every member after the fill |
| Config.Configuration.constructor | lib/CrEOF/Geo/Configuration.php:42-47 | both settings start unset |
| Config.Configuration.SetOrder | lib/CrEOF/Geo/Configuration.php:54-61 | 0 or 1 is stored and read back by `getOrder`; anything else raises the range error and keeps the order; the default SRID is never touched |
| Config.Configuration.GetOrder | lib/CrEOF/Geo/Configuration.php:66-73 | always 0 or 1; longitude first (0) while no order was set, otherwise the stored order |
| Config.Configuration.SetDefaultSrid | lib/CrEOF/Geo/Configuration.php:78-87 | `getDefaultSrid` then reads max(0, srid); the order is never touched |
| Config.Configuration.GetDefaultSrid | lib/CrEOF/Geo/Configuration.php:92-99 | never negative; 0 while nothing was set, otherwise the stored value |
| Points.ParseString | lib/CrEOF/Geo/Point.php:241-254 | a numeric string gives its number; any other string gives the parser's pair, or the parser's failure; never a string |
| Points.Resolve | lib/CrEOF/Geo/Point.php:75-77 | a string is replaced by what `parseString` makes of it; any other value passes unchanged; the result is never a string |
| Points.SlotValue | lib/CrEOF/Geo/Point.php:94-135 | a number is stored as it is; an array gives element 0 for `setX` and element 1 for `setY`; a numeric string gives its number; another string gives the slot's element of the parsed pair; failure exactly when parsing fails, and then the parse error |
| Points.SetValue | lib/CrEOF/Geo/Point.php:73-87 | an array, or a string the parser turns into a pair, fills both slots; a number or numeric string throws; an unparsable string throws the parse error; the SRID is kept |
| Points.SetAgreesWithSetXSetY | lib/CrEOF/Geo/Point.php:73-135 | whenever `set` accepts a value it stores what `setX` then `setY` store; a number that `set` refuses is accepted by both `setX` and `setY` |
| Points.ConstructPoint | lib/CrEOF/Geo/Point.php:54-65 | no value, 0 or "" gives (0, 0); any other value gives what `set` stores on the origin, or `set`'s error; an array gives its two elements; a non-zero number throws; the SRID is set unless loosely null |
| Points.LatitudeSlot | lib/CrEOF/Geo/Point.php:150-195 | under either order the latitude of every point is the coordinate in the slot it names, and that slot is never longitude's |
| Points.AxisViews | lib/CrEOF/Geo/Point.php:162-195 | latitude is X under latitude-first and Y otherwise; longitude is X under longitude-first and Y otherwise; together they are the two slots |
| Points.PointArray | lib/CrEOF/Geo/Point.php:200-203 | the array view is [x, y] |
| Points.EmptyPointText | lib/CrEOF/Geo/Point.php:54-65 | a point built without a value has array view [0, 0] and renders as "0 0" |
| Points.PointTextAsWritten | lib/CrEOF/Geo/Point.php:208-211 | `__toString` as AbstractGeometry.php:109-118 runs it: the coordinates joined with a comma |
| Points.AsWrittenOriginText | lib/CrEOF/Geo/Point.php:208-211 | as written, the origin renders as "0,0", which differs from the space-separated text |
| Points.PointOrderSetting.constructor | lib/CrEOF/Geo/Point.php:43 | Point's own order starts longitude first |
| Points.PointOrderSetting.SetOrder | lib/CrEOF/Geo/Point.php:218-225 | 0 or 1 is stored; anything else throws and keeps the order |
| Points.Point.constructor | lib/CrEOF/Geo/Point.php:56 | the coordinates start at (0, 0) with no SRID |
| Points.Point.New | lib/CrEOF/Geo/Point.php:54-65 | the built point is ConstructPoint's value; a value `set` refuses makes construction throw |
| Points.Point.Set | lib/CrEOF/Geo/Point.php:73-87 | the new coordinates are SetValue's; on failure nothing changes |
| Points.Point.SetX | lib/CrEOF/Geo/Point.php:94-107 | only slot 0 changes, to SlotValue for slot 0; slot 1 and the SRID stay; on failure nothing changes |
| Points.Point.SetY | lib/CrEOF/Geo/Point.php:122-135 | only slot 1 changes, to SlotValue for slot 1; slot 0 and the SRID stay; on failure nothing changes |
| Points.Point.SetLatitude | lib/CrEOF/Geo/Point.php:150-157 | reading the latitude back under the same order gives the value set; the longitude and the SRID are unchanged |
| Points.Point.SetLongitude | lib/CrEOF/Geo/Point.php:176-183 | reading the longitude back under the same order gives the value set; the latitude and the SRID are unchanged |
| Points.Point.SetSrid | lib/CrEOF/Geo/AbstractGeometry.php:62-69 | null leaves the SRID; any other value replaces it |
| Points.Point.ToArray | lib/CrEOF/Geo/Point.php:200-203 | the array view of the current coordinates |
| Points.Point.ToString | lib/CrEOF/Geo/Point.php:208-211 | the two coordinates rendered and separated by a space |
| MultiPoints.GetValidObject | lib/CrEOF/Geo/MultiPoint.php:104-111 | a Point passes unchanged; anything else is `new Point($value)`: null, 0 or "" give the origin, an array or a string parsed to a pair gives a point with those coordinates, a bare non-zero number is refused |
| MultiPoints.AdmitPoint | lib/CrEOF/Geo/MultiPoint.php:60-63 | an input is admitted exactly when it coerces to a Point, keeping its coordinates and carrying SRID 0 |
| MultiPoints.FillPoints | lib/CrEOF/Geo/MultiPoint.php:50-53 | a fill succeeds exactly when every input coerces to a Point; it then holds one point per input, in order, each with SRID 0 |
| MultiPoints.NumberMemberRefused | lib/CrEOF/Geo/MultiPoint.php:104-111 | a bare non-zero number among the inputs makes the fill throw; 0 passes PHP's loose null test and becomes the point (0, 0) |
| MultiPoints.PointsTextSplits | lib/CrEOF/Geo/MultiPoint.php:94-97 | when no number is written with a comma, cutting a non-empty multipoint's text at the commas gives back each point's text |
| MultiPoints.PointsArrayRoundTrip | lib/CrEOF/Geo/MultiPoint.php:86-89 | filling a multipoint from another one's array view succeeds and gives the same array view |
| MultiPoints.FourPointsText | lib/CrEOF/Geo/MultiPoint.php:94-97 | the points (0,0), (0,5), (5,0), (0,0) render as "0 0,0 5,5 0,0 0" |
| MultiPoints.MultiPoint.constructor | lib/CrEOF/Geo/MultiPoint.php:38-43 | no points, and the SRID set unless loosely null |
| MultiPoints.MultiPoint.New | lib/CrEOF/Geo/MultiPoint.php:38-43 | the points are the fill of the inputs; a refused input makes construction throw |
| MultiPoints.MultiPoint.SetPoints | lib/CrEOF/Geo/MultiPoint.php:50-53 | the loop replaces the points with the fill of the inputs and reports its error; every point keeps SRID 0 |
| MultiPoints.MultiPoint.AddPoint | lib/CrEOF/Geo/MultiPoint.php:60-63 | an admitted point is appended at the end; a refused input throws and leaves the list |
| MultiPoints.MultiPoint.GetPoints | lib/CrEOF/Geo/MultiPoint.php:68-71 | every point reports SRID 0 |
| MultiPoints.MultiPoint.GetPoint | lib/CrEOF/Geo/MultiPoint.php:78-81 | the i-th point added, or the last one for -1 |
| MultiPoints.MultiPoint.SetSrid | lib/CrEOF/Geo/AbstractGeometry.php:62-69 | null leaves the SRID; the points are unchanged |
| MultiPoints.MultiPoint.ToArray | lib/CrEOF/Geo/MultiPoint.php:86-89 | one [x, y] per point, same length and order |
| MultiPoints.MultiPoint.ToString | lib/CrEOF/Geo/MultiPoint.php:94-97 | the point texts joined by commas, without parentheses |
| LineStrings.BuildLineString | lib/CrEOF/Geo/Polygon.php:68-70 | a line string built from points holds exactly the fill of its point inputs; it throws with the first refusal |
| LineStrings.BuildLineStringSpec | lib/CrEOF/Geo/Polygon.php:68-70 | a line string is built exactly when every point input coerces; it holds one point per input, with that input's coordinates and SRID 0 |
| LineStrings.LineStringArray | lib/CrEOF/Geo/AbstractGeometry.php:92-101 | the `toArray` that `objectsToArray` calls on each ring or member line string: one [x, y] per point, in order |
| LineStrings.LineStringArrayRoundTrip | lib/CrEOF/Geo/Polygon.php:100-103 | rebuilding a line string from its array view keeps every coordinate, and so whether it is closed |
| LineStrings.LineStringTestCases | tests/CrEOF/Geo/Tests/LineStringTest.php:36-62 | (0 0, 1 1, 2 2, 3 3) is open; (0 0, 0 5, 5 0, 0 0) is closed |
| Polygons.CoerceRing | lib/CrEOF/Geo/Polygon.php:68-70 | a LineString passes unchanged; point inputs give a line string exactly when every point coerces, and then one well-formed point per input and no SRID |
| Polygons.AdmitRing | lib/CrEOF/Geo/Polygon.php:66-77 | a ring is admitted exactly when it coerces and is closed; an open ring raises UnclosedRing; an admitted ring is stored with SRID 0 |
| Polygons.AdmitRingStores | lib/CrEOF/Geo/Polygon.php:66-77 | an admitted ring is closed, with SRID 0 on it and on all its points |
| Polygons.FillRings | lib/CrEOF/Geo/Polygon.php:50-59 | every ring kept by a fill is closed with SRID 0; the fill succeeds exactly when every input is admitted |
| Polygons.BuildPolygon | lib/CrEOF/Geo/Polygon.php:38-43 | a polygon is built exactly when the ring fill succeeds, holds that fill, and has the SRID unless loosely null; otherwise the first error is thrown |
| Polygons.BuildPolygonSpec | lib/CrEOF/Geo/Polygon.php:38-77 | a polygon is built exactly when every ring input yields a closed ring; it then has one stored ring per input |
| Polygons.OpenRingRefused | lib/CrEOF/Geo/Polygon.php:72-74 | a ring whose ends differ makes the whole polygon throw |
| Polygons.PolygonArrayRoundTrip | lib/CrEOF/Geo/Polygon.php:100-103 | rebuilding a polygon from its array view succeeds and gives the same array view |
| Polygons.TwoRingText | lib/CrEOF/Geo/Polygon.php:108-111 | two rings render as "(ring),(ring)" |
| Polygons.Polygon.constructor | lib/CrEOF/Geo/Polygon.php:38-43 | no rings, and the SRID set unless loosely null |
| Polygons.Polygon.New | lib/CrEOF/Geo/Polygon.php:38-43 | the built polygon is BuildPolygon's value; a refused ring makes construction throw |
| Polygons.Polygon.SetRings | lib/CrEOF/Geo/Polygon.php:50-59 | the loop replaces the rings with the fill of the inputs in order and reports its error; every ring stays closed |
| Polygons.Polygon.AddRing | lib/CrEOF/Geo/Polygon.php:66-77 | a closed ring is appended with SRID 0; an open ring or a coercion failure throws and leaves the rings |
| Polygons.Polygon.GetRings | lib/CrEOF/Geo/Polygon.php:82-85 | every ring returned is closed with SRID 0 |
| Polygons.Polygon.GetRing | lib/CrEOF/Geo/Polygon.php:92-95 | the i-th ring, or the last one for -1; always closed |
| Polygons.Polygon.SetSrid | lib/CrEOF/Geo/AbstractGeometry.php:62-69 | null leaves the SRID; the rings are unchanged |
| Polygons.Polygon.ToArray | lib/CrEOF/Geo/Polygon.php:100-103 | one array view per ring, in order |
| Polygons.Polygon.ToString | lib/CrEOF/Geo/Polygon.php:108-111 | each ring in parentheses, joined by commas |
| MultiLineStrings.CoerceLineString | lib/CrEOF/Geo/MultiLineString.php:73-75 | a LineString passes unchanged; point inputs give a line string exactly when every point coerces, and then one well-formed point per input and the container's SRID after the loose null test |
| MultiLineStrings.AdmitLineString | lib/CrEOF/Geo/MultiLineString.php:71-84 | admitted exactly when it coerces and its SRID is identical to the container's; otherwise SridMismatch or the coercion error |
| MultiLineStrings.FillLineStrings | lib/CrEOF/Geo/MultiLineString.php:54-63 | a fill succeeds exactly when every input is admitted; every member it adds carries the container's SRID |
| MultiLineStrings.ConstructionComparesWithNull | lib/CrEOF/Geo/MultiLineString.php:43-47 | during construction a line string carrying an SRID is refused, and one built from points is admitted exactly when its points coerce |
| MultiLineStrings.RawMemberRefusedUnderZeroSrid | lib/CrEOF/Geo/MultiLineString.php:71-79 | with the container's SRID at 0, a line string given as points is always refused |
| MultiLineStrings.LineStringsArrayRoundTrip | lib/CrEOF/Geo/MultiLineString.php:107-110 | filling a fresh container from another one's array view succeeds and gives the same array view |
| MultiLineStrings.MultiLineString.constructor | lib/CrEOF/Geo/MultiLineString.php:43-47 | before the constructor body runs, there are no members and no SRID |
| MultiLineStrings.MultiLineString.New | lib/CrEOF/Geo/MultiLineString.php:43-47 | the members are the fill under a null SRID; the SRID is set afterwards, and a refused member makes construction throw |
| MultiLineStrings.MultiLineString.SetLineStrings | lib/CrEOF/Geo/MultiLineString.php:54-63 | the loop replaces the members with the fill of the inputs in order and reports its error |
| MultiLineStrings.MultiLineString.AddLineString | lib/CrEOF/Geo/MultiLineString.php:71-84 | an admitted member is appended at the end; an SRID mismatch throws and leaves the list |
| MultiLineStrings.MultiLineString.GetLineStrings | lib/CrEOF/Geo/MultiLineString.php:89-92 | every member comes out of the LineString constructor |
| MultiLineStrings.MultiLineString.GetLineString | lib/CrEOF/Geo/MultiLineString.php:99-102 | the i-th member, or the last one for -1 |
| MultiLineStrings.MultiLineString.SetSrid | lib/CrEOF/Geo/AbstractGeometry.php:62-69 | null leaves the SRID; the members keep theirs |
| MultiLineStrings.MultiLineString.ToArray | lib/CrEOF/Geo/MultiLineString.php:107-110 | one array view per member, in order |
| MultiLineStrings.MultiLineString.ToString | lib/CrEOF/Geo/MultiLineString.php:115-118 | each member in parentheses, joined by commas |
| MultiPolygons.CoercePolygon | lib/CrEOF/Geo/MultiPolygon.php:76-78 | a Polygon passes unchanged; ring inputs give a polygon with one ring per input and the container's SRID after the loose null test, or the error of one of its refused rings |
| MultiPolygons.AdmitPolygon | lib/CrEOF/Geo/MultiPolygon.php:74-87 | admitted exactly when it coerces and its SRID is identical to the container's; otherwise SridMismatch or the coercion error |
| MultiPolygons.AdmitPolygonForms | lib/CrEOF/Geo/MultiPolygon.php:74-87 | an admitted polygon has only closed rings |
| MultiPolygons.FillPolygons | lib/CrEOF/Geo/MultiPolygon.php:57-66 | a fill keeps every member a polygon of closed rings and succeeds exactly when every input is admitted; every member it adds carries the container's SRID |
| MultiPolygons.BuiltPolygonsKept | tests/CrEOF/Geo/Tests/MultiPolygonTest.php:158-222 | polygons built without an SRID pass construction unchanged and in order |
| MultiPolygons.NestedText | tests/CrEOF/Geo/Tests/MultiPolygonTest.php:224-258 | a two-ring polygon then a one-ring polygon render as "((r),(r)),((r))" |
| MultiPolygons.MultiPolygon.constructor | lib/CrEOF/Geo/MultiPolygon.php:43-50 | before the constructor body runs, there are no members and no SRID |
| MultiPolygons.MultiPolygon.New | lib/CrEOF/Geo/MultiPolygon.php:43-50 | the members are the fill under a null SRID; the SRID is then the argument, set only when it is not null |
| MultiPolygons.MultiPolygon.SetPolygons | lib/CrEOF/Geo/MultiPolygon.php:57-66 | the loop replaces the members with the fill of the inputs in order and reports its error |
| MultiPolygons.MultiPolygon.AddPolygon | lib/CrEOF/Geo/MultiPolygon.php:74-87 | an admitted member is appended at the end; an SRID mismatch throws and leaves the list |
| MultiPolygons.MultiPolygon.GetPolygons | lib/CrEOF/Geo/MultiPolygon.php:92-95 | every ring of every member is closed |
| MultiPolygons.MultiPolygon.GetPolygon | lib/CrEOF/Geo/MultiPolygon.php:102-105 | the i-th member, or the last one for -1 |
| MultiPolygons.MultiPolygon.SetSrid | lib/CrEOF/Geo/AbstractGeometry.php:62-69 | null leaves the SRID; the members keep theirs |
| MultiPolygons.MultiPolygon.ToArray | lib/CrEOF/Geo/MultiPolygon.php:110-113 | one array view per member, in order |
| MultiPolygons.PolygonsArrayRoundTrip | lib/CrEOF/Geo/MultiPolygon.php:110-113 | filling a fresh container from another one's array view succeeds and gives the same array view |
| MultiPolygons.MultiPolygon.ToString | lib/CrEOF/Geo/MultiPolygon.php:118-121 | each member in parentheses, joined by commas |

## Findings

| source | as written | input that shows it | evidently intended | confidence | as-written member | corrected member |
|---|---|---|---|---|---|---|
| lib/CrEOF/Geo/Point.php:208-211 | `__toString` passes a `' '` separator to `objectsToString`, which takes no separator and joins with `','`; PHP drops the extra argument | `new Point()` renders as "0,0" | "0 0", the coordinates separated by a space, as the point test expects | not executed; high, given lib/CrEOF/Geo/AbstractGeometry.php:109-118 | Points.AsWrittenOriginText | Points.EmptyPointText |

The rest of the model uses the corrected rendering. `ObjectsToString` takes
the separator as a parameter: the containers pass `","` and Point passes
`" "`.

## Left out

- Polygon and MultiPoint `toArray`/`__toString`: the missing list argument
  described above is not modelled; these methods render the object's own
  list.

- The coordinate parser is not part of this model. It is the `parse` field
  of `TextReader`; PHP's `is_numeric` and `$value + 0` are its `numeric`
  field. DMS folding and cardinal signs are not modelled.
- LineString.php is not part of this model. LineString is assumed to build
  and store points as MultiPoint does. `isClosed` compares the first and
  last coordinates, and an empty line string counts as open.
- Number-to-text conversion by `sprintf('%s')` is the `numeral` parameter.
- Coordinates are mathematical reals. PHP ints and floats are not told
  apart, and there is no float rounding.
- PHP type juggling is replaced by a tagged input: a number, a pair or a
  string, and for containers a ready-made object or the raw value.
  - The loose `null != $value` tests become an explicit check for 0 and "".
  - `(int)` casts of SRIDs given as strings or floats are not modelled:
    SRIDs are integers.
  - Arrays other than two numbers are not modelled, so an array of DMS
    strings handed to `set` is not covered.
  - Values of types other than number, array and string (objects, booleans)
    are not modelled.
- `setOrder`'s strict `!==` is modelled for integer arguments only; a
  string "1" is not covered.
- Containers store member values, not object references. Changing a member
  object after inserting it (aliasing) is not modelled.
- The static order fields of Point and Configuration are explicit state:
  Configuration is an object, and Point's accessors take the order as a
  parameter read from `PointOrderSetting`. Concurrent access is not
  modelled.
- `getIndex` outside the list returns `None`, which stands for PHP's null
  together with its notice. The notice itself is not modelled.
- `getX`, `getY`, `getLatitude`, `getLongitude`, `getSrid` and the
  `getOrder` of `PointOrderSetting` are plain reads with no contract of
  their own. What the setters promise is stated through `Value()`,
  `Latitude` and `Longitude`.
- The commented-out legacy constructor at the end of Point.php is not
  modelled.
- Exception classes and messages are reduced to one `GeoError` value per
  throwing guard.
