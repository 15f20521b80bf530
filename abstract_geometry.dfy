/** What every geometry shares (AbstractGeometry.php): the SRID, the index
    lookup with -1 meaning "last", the element-wise array view and the
    comma-joined text rendering of a list of members, and the loop that
    (re)fills a member list one admitted input at a time. */
module AbstractGeometry {
  import opened Values

  // ---------------------------------------------------------------- SRID

  /** `setSrid`: a null argument leaves the stored SRID alone; any other
      value replaces it. */
  function StoreSrid(stored: Option<int>, given: Option<int>): Option<int>
  {
    if given.Some? then given else stored
  }

  /** The SRID after calling `setSrid` with each of `given` in turn. */
  function StoreSrids(stored: Option<int>, given: seq<Option<int>>): Option<int>
    decreases |given|
  {
    if given == [] then stored else StoreSrids(StoreSrid(stored, given[0]), given[1..])
  }

  /** The last non-null value among `given`, if any. */
  function LastNonNull(given: seq<Option<int>>): Option<int>
    decreases |given|
  {
    if given == [] then None
    else if given[|given| - 1].Some? then given[|given| - 1]
    else LastNonNull(given[..|given| - 1])
  }

  lemma {:induction false} StoreSridsAppend(stored: Option<int>, given: seq<Option<int>>, last: Option<int>)
    ensures StoreSrids(stored, given + [last]) == StoreSrid(StoreSrids(stored, given), last)
    decreases |given|
  {
    if given == [] {
      assert given + [last] == [last];
      assert [last][1..] == [];
    } else {
      assert (given + [last])[0] == given[0];
      assert (given + [last])[1..] == given[1..] + [last];
      StoreSridsAppend(StoreSrid(stored, given[0]), given[1..], last);
    }
  }

  /** `getSrid` returns exactly the last non-null value passed to `setSrid`,
      or the initial SRID when every call passed null. */
  lemma {:induction false} GetSridReturnsLastStored(stored: Option<int>, given: seq<Option<int>>)
    ensures StoreSrids(stored, given) == (if LastNonNull(given).Some? then LastNonNull(given) else stored)
    decreases |given|
  {
    if given != [] {
      var init, last := given[..|given| - 1], given[|given| - 1];
      assert given == init + [last];
      StoreSridsAppend(stored, init, last);
      GetSridReturnsLastStored(stored, init);
    }
  }

  /** The SRID a constructor leaves on a fresh geometry. The constructors
      guard `setSrid` with PHP's loose `null != $srid`, so both null and 0
      leave the SRID unset (null). */
  function ConstructSrid(given: Option<int>): (r: Option<int>)
    ensures r != Some(0)
    ensures r.Some? ==> r == given
    ensures given.Some? && given.value != 0 ==> r == given
  {
    if given.Some? && given.value != 0 then given else None
  }

  // --------------------------------------------------------------- getIndex

  /** `getIndex`: -1 selects the last element, any other index is looked up
      as is; there is no wrap-around for other negative values, and a missing
      entry reads as PHP's null. */
  function GetIndex<T>(items: seq<T>, index: int): (r: Option<T>)
    ensures index == -1 ==> r == (if |items| > 0 then Some(items[|items| - 1]) else None)
    ensures index != -1 ==> (r.Some? <==> 0 <= index < |items|)
    ensures 0 <= index < |items| ==> r == Some(items[index])
  {
    if index == -1 then
      if |items| > 0 then Some(items[|items| - 1]) else None
    else if 0 <= index < |items| then Some(items[index])
    else None
  }

  /** Appending one member makes it what -1 selects and leaves every
      existing index where it was. */
  lemma GetIndexAfterAppend<T>(items: seq<T>, x: T, index: int)
    ensures GetIndex(items + [x], -1) == Some(x)
    ensures 0 <= index < |items| ==> GetIndex(items + [x], index) == GetIndex(items, index)
    ensures |items| > 0 ==> GetIndex(items, -1) == GetIndex(items, |items| - 1)
  {
  }

  // ---------------------------------------------------------- objectsToArray

  /** The list whose element i is f applied to element i of s. */
  function Map<T, U>(f: T -> U, s: seq<T>): (r: seq<U>)
    ensures |r| == |s|
    ensures forall i :: 0 <= i < |s| ==> r[i] == f(s[i])
    decreases |s|
  {
    if s == [] then [] else [f(s[0])] + Map(f, s[1..])
  }

  /** `objectsToArray`: the `toArray()` of every member, in order. */
  method ObjectsToArray<T, A>(objects: seq<T>, toArray: T -> A) returns (arrays: seq<A>)
    ensures |arrays| == |objects|
    ensures forall i :: 0 <= i < |objects| ==> arrays[i] == toArray(objects[i])
    ensures arrays == Map(toArray, objects)
  {
    arrays := [];
    for i := 0 to |objects|
      invariant |arrays| == i
      invariant forall k :: 0 <= k < i ==> arrays[k] == toArray(objects[k])
    {
      arrays := arrays + [toArray(objects[i])];
    }
  }

  // --------------------------------------------------------- objectsToString

  /** The sprintf format a member is rendered with: '%s' or '(%s)'. */
  datatype Format = Plain | Parenthesized

  function Wrap(format: Format, s: string): string
  {
    match format
    case Plain => s
    case Parenthesized => "(" + s + ")"
  }

  /** PHP's `implode(separator, parts)`. */
  function Join(separator: string, parts: seq<string>): string
    decreases |parts|
  {
    if parts == [] then ""
    else if |parts| == 1 then parts[0]
    else parts[0] + separator + Join(separator, parts[1..])
  }

  /** The formatted text of every member, in order. */
  function Rendered<T>(format: Format, render: T -> string, objects: seq<T>): (r: seq<string>)
    ensures |r| == |objects|
    ensures forall i :: 0 <= i < |objects| ==> r[i] == Wrap(format, render(objects[i]))
  {
    Map((o: T) => Wrap(format, render(o)), objects)
  }

  /** `objectsToString`: every member formatted, joined with the separator
      (',' for every container; Point passes ' '). */
  method ObjectsToString<T>(objects: seq<T>, render: T -> string, format: Format, separator: string)
    returns (s: string)
    ensures s == Join(separator, Rendered(format, render, objects))
    ensures objects == [] ==> s == ""
  {
    var strings: seq<string> := [];
    for i := 0 to |objects|
      invariant |strings| == i
      invariant forall k :: 0 <= k < i ==> strings[k] == Wrap(format, render(objects[k]))
    {
      strings := strings + [Wrap(format, render(objects[i]))];
    }
    assert strings == Rendered(format, render, objects);
    s := Join(separator, strings);
  }

  /** Joining a list with one more part adds the separator and that part. */
  lemma {:induction false} JoinAppend(separator: string, parts: seq<string>, last: string)
    requires parts != []
    ensures Join(separator, parts + [last]) == Join(separator, parts) + separator + last
    decreases |parts|
  {
    if |parts| == 1 {
      assert parts + [last] == [parts[0], last];
      assert [parts[0], last][1..] == [last];
    } else {
      assert (parts + [last])[1..] == parts[1..] + [last];
      JoinAppend(separator, parts[1..], last);
    }
  }

  /** One member renders as its text in parentheses; two as both texts in
      parentheses with a comma between them. */
  lemma ParenthesizedPair<T>(render: T -> string, x: T, y: T)
    ensures Join(",", Rendered(Parenthesized, render, [x])) == "(" + render(x) + ")"
    ensures Join(",", Rendered(Parenthesized, render, [x, y])) == "(" + render(x) + "),(" + render(y) + ")"
  {
  }

  /** Cutting a string at every occurrence of a character; the inverse of
      joining with that character. */
  function Split(separator: char, s: string): (r: seq<string>)
    ensures |r| > 0
    decreases |s|
  {
    if s == [] then [[]]
    else if s[0] == separator then [[]] + Split(separator, s[1..])
    else
      var rest := Split(separator, s[1..]);
      [[s[0]] + rest[0]] + rest[1..]
  }

  lemma {:induction false} SplitAfterPart(separator: char, part: string, rest: string)
    requires separator !in part
    ensures Split(separator, part + rest)
         == [part + Split(separator, rest)[0]] + Split(separator, rest)[1..]
    decreases |part|
  {
    if part != [] {
      assert (part + rest)[0] == part[0];
      assert (part + rest)[1..] == part[1..] + rest;
      SplitAfterPart(separator, part[1..], rest);
      assert [part[0]] + (part[1..] + Split(separator, rest)[0]) == part + Split(separator, rest)[0];
    } else {
      var tail := Split(separator, rest);
      assert part + rest == rest;
      assert part + tail[0] == tail[0];
      assert [tail[0]] + tail[1..] == tail;
    }
  }

  /** Rendering is lossless: when no part contains the separator, cutting
      the joined text at the separator gives back the parts. */
  lemma {:induction false} SplitJoin(separator: char, parts: seq<string>)
    requires parts != []
    requires forall i :: 0 <= i < |parts| ==> separator !in parts[i]
    ensures Split(separator, Join([separator], parts)) == parts
    decreases |parts|
  {
    if |parts| == 1 {
      SplitAfterPart(separator, parts[0], []);
      assert parts[0] + [] == parts[0];
    } else {
      var rest := Join([separator], parts[1..]);
      SplitJoin(separator, parts[1..]);
      assert parts[0] + [separator] + rest == parts[0] + ([separator] + rest);
      SplitAfterPart(separator, parts[0], [separator] + rest);
      assert ([separator] + rest)[1..] == rest;
      assert Split(separator, [separator] + rest) == [[]] + Split(separator, rest);
      assert parts[0] + [] == parts[0];
      assert parts == [parts[0]] + parts[1..];
    }
  }

  // ------------------------------------------------ filling a member list

  /** The member list after adding `inputs` one at a time: each input is
      admitted (coerced and checked) and appended; the first input that is
      refused stops the loop, leaving the members added so far. */
  datatype Added<M> = Added(list: seq<M>, error: Option<GeoError>)

  function AddEach<I, M>(list: seq<M>, inputs: seq<I>, admit: I -> Result<M>): Added<M>
    decreases |inputs|
  {
    if inputs == [] then Added(list, None)
    else
      match admit(inputs[0])
      case Failure(e) => Added(list, Some(e))
      case Success(m) => AddEach(list + [m], inputs[1..], admit)
  }

  /** The list grows by the admitted members of a prefix of the inputs, in
      order; it stops exactly at the first refused input, whose error is
      reported, and covers every input when none is refused. */
  lemma {:induction false} AddEachSpec<I, M>(list: seq<M>, inputs: seq<I>, admit: I -> Result<M>)
    ensures var r := AddEach(list, inputs, admit);
      && |list| <= |r.list| <= |list| + |inputs|
      && r.list[..|list|] == list
      && (forall k :: 0 <= k < |r.list| - |list| ==> admit(inputs[k]) == Success(r.list[|list| + k]))
      && (r.error.None? <==> |r.list| == |list| + |inputs|)
      && (r.error.Some? ==> admit(inputs[|r.list| - |list|]) == Failure(r.error.value))
    decreases |inputs|
  {
    if inputs != [] {
      match admit(inputs[0])
      case Failure(e) =>
      case Success(m) =>
        var r := AddEach(list + [m], inputs[1..], admit);
        AddEachSpec(list + [m], inputs[1..], admit);
        assert r.list[..|list| + 1] == list + [m];
        assert r.list[..|list|] == (list + [m])[..|list|];
        forall k | 0 <= k < |r.list| - |list|
          ensures admit(inputs[k]) == Success(r.list[|list| + k])
        {
          if k > 0 {
            assert inputs[1..][k - 1] == inputs[k];
          } else {
            assert r.list[|list|] == (list + [m])[|list|];
          }
        }
        if r.error.Some? {
          assert inputs[1..][|r.list| - (|list| + 1)] == inputs[|r.list| - |list|];
        }
    }
  }

  /** One refused input is enough to make the whole fill fail. */
  lemma AddEachFailsIfAnyRefused<I, M>(list: seq<M>, inputs: seq<I>, admit: I -> Result<M>, i: int)
    requires 0 <= i < |inputs| && admit(inputs[i]).Failure?
    ensures AddEach(list, inputs, admit).error.Some?
  {
    AddEachSpec(list, inputs, admit);
  }

  /** With every input admitted, the fill appends one member per input, in
      the inputs' order. */
  lemma AddEachAllAdmitted<I, M>(list: seq<M>, inputs: seq<I>, admit: I -> Result<M>)
    requires forall i :: 0 <= i < |inputs| ==> admit(inputs[i]).Success?
    ensures AddEach(list, inputs, admit).error.None?
    ensures |AddEach(list, inputs, admit).list| == |list| + |inputs|
    ensures AddEach(list, inputs, admit).list[..|list|] == list
    ensures forall i :: 0 <= i < |inputs| ==>
      AddEach(list, inputs, admit).list[|list| + i] == admit(inputs[i]).value
  {
    AddEachSpec(list, inputs, admit);

  }

  /** A property every kept member and every admitted input has holds of
      every member after the fill. */
  lemma AddEachPreserves<I, M>(list: seq<M>, inputs: seq<I>, admit: I -> Result<M>, P: M -> bool)
    requires forall k :: 0 <= k < |list| ==> P(list[k])
    requires forall i :: 0 <= i < |inputs| && admit(inputs[i]).Success? ==> P(admit(inputs[i]).value)
    ensures var r := AddEach(list, inputs, admit); forall k :: 0 <= k < |r.list| ==> P(r.list[k])
  {
    AddEachSpec(list, inputs, admit);
    var r := AddEach(list, inputs, admit);
    forall k | 0 <= k < |r.list| ensures P(r.list[k]) {
      if k < |list| {
        assert r.list[k] == r.list[..|list|][k];
      } else {
        assert admit(inputs[k - |list|]) == Success(r.list[|list| + (k - |list|)]);
      }
    }
  }
}
