/** The Python exceptions the modelled code raises, and the result type that carries them. */
module Exceptions {

  /** The exception classes that the modelled operations can raise. */
  datatype Exception =
    | AttributeError      // an attribute looked up on None, or a missing export_<ext> method
    | IndexError          // a list index or a pin lookup out of range
    | KeyError            // a dictionary lookup of a missing key
    | TypeError           // an operand of the wrong type, or reduce() over an empty list
    | NotImplementedError // an unknown connection mode
    | AssertionError      // a failed `assert`
    | ZeroDivisionError   // a division by a zero distance
    | UnboundLocalError   // a loop variable read after a loop with no iterations

  datatype Option<+T> = None | Some(value: T)

  /** Either a value or the exception that was raised instead. */
  datatype Result<+T> = Ok(value: T) | Err(error: Exception)

  /** The values that a sequence of optional values holds, in order, skipping None. */
  function Somes<T>(s: seq<Option<T>>): (r: seq<T>)
    ensures |r| <= |s|
  {
    if s == [] then []
    else Somes(s[..|s| - 1]) + (if s[|s| - 1].Some? then [s[|s| - 1].value] else [])
  }

  lemma {:induction false} SomesAppend<T>(s: seq<Option<T>>, x: Option<T>)
    ensures Somes(s + [x]) == Somes(s) + (if x.Some? then [x.value] else [])
  {
    assert (s + [x])[..|s + [x]| - 1] == s;
  }

  lemma ConcatAssoc<T>(a: seq<T>, b: seq<T>, c: seq<T>)
    ensures a + (b + c) == (a + b) + c
  {
  }

  /** Somes keeps exactly the present values: every kept value comes from the input, and nothing is dropped
      when nothing is None. */
  lemma {:induction false} SomesMembers<T>(s: seq<Option<T>>)
    ensures forall v :: v in Somes(s) <==> Some(v) in s
    ensures (forall i :: 0 <= i < |s| ==> s[i].Some?) ==> |Somes(s)| == |s|
  {
    if s != [] {
      var init := s[..|s| - 1];
      SomesMembers(init);
      assert s == init + [s[|s| - 1]];
      forall v ensures v in Somes(s) <==> Some(v) in s {
        assert Some(v) in s <==> Some(v) in init || Some(v) == s[|s| - 1];
      }
      if forall i :: 0 <= i < |s| ==> s[i].Some? {
        assert forall i :: 0 <= i < |init| ==> init[i] == s[i];
      }
    }
  }
}

/** Plane geometry shared by both PCB libraries: points, connection endpoints and opaque shapes. */
module Geometry {

  /** A point of the board plane (the `Point` class: an object with x and y). */
  datatype Point = Point(x: real, y: real)

  /** A connection endpoint. `Pinned` stands for a BoundPin, a pin placed on a component, whose position is taken as
      already resolved (the rotation by cos/sin is not modelled); `Free` is an instance of the `Point` class, which
      has `.x` and `.y` and can be unpacked but not subscripted; `Coords` is a plain coordinate pair (a tuple or a
      list), which can be subscripted and unpacked but has no `.x`. */
  datatype Endpoint = Pinned(at: Point) | Free(at: Point) | Coords(at: Point)

  /** An RGB colour tuple. */
  datatype Color = Rgb(r: int, g: int, b: int)

  /** A 2D shape of the shape library, kept opaque: only its identity matters to the modelled code. */
  datatype Shape = Shape(id: nat)

  function Add(p: Point, q: Point): (r: Point)
    ensures r.x - p.x == q.x && r.y - p.y == q.y
  {
    Point(p.x + q.x, p.y + q.y)
  }

  function Abs(v: real): (r: real)
    ensures r >= 0.0 && (r == v || r == -v)
  {
    if v >= 0.0 then v else -v
  }

  /** The sign function of connectD: note that the sign of zero is 1. */
  function Sgn(v: real): (r: real)
    ensures r * Abs(v) == v
    ensures r == 1.0 || r == -1.0
    ensures v == 0.0 ==> r == 1.0
  {
    if v >= 0.0 then 1.0 else -1.0
  }
}

/** The pin lookup `Component.__getitem__` shared by both PCB libraries, on the list of pin names. */
module Pins {
  import opened Exceptions

  /** The key of a pin lookup: a pin name, a 1-based pin number, or a value of any other type. */
  datatype Key = Name(name: string) | Number(i: int) | OtherKey

  /** The index of the first pin called `name`, as `[p for p in pins if p.name == i][0]` finds it. */
  function FirstNamed(names: seq<string>, name: string): (r: Option<nat>)
    ensures r.Some? ==> r.value < |names| && names[r.value] == name
    ensures r.Some? ==> forall j :: 0 <= j < r.value ==> names[j] != name
    ensures r.None? ==> forall j :: 0 <= j < |names| ==> names[j] != name
  {
    if names == [] then None
    else if names[0] == name then Some(0)
    else
      var rest := FirstNamed(names[1..], name);
      if rest.None? then None else Some(rest.value + 1)
  }

  /** The lookup as written: `self.pins[i-1]` is a Python list index, so a number i <= 0 counts from the end of
      the list; a key that is neither a string nor an int leaves `pin` unbound. */
  function PinIndexAsWritten(names: seq<string>, key: Key): (r: Result<nat>)
    ensures r.Ok? ==> r.value < |names|
  {
    match key
    case Name(name) =>
      var found := FirstNamed(names, name);
      if found.None? then Err(IndexError) else Ok(found.value)
    case Number(i) =>
      if 0 <= i - 1 < |names| then Ok(i - 1)
      else if -|names| <= i - 1 < 0 then Ok(|names| + i - 1)
      else Err(IndexError)
    case OtherKey => Err(UnboundLocalError)
  }

  /** The lookup with the 1-based numbering it evidently intends: numbers below 1 are not pins. */
  function PinIndex(names: seq<string>, key: Key): (r: Result<nat>)
    ensures r.Ok? ==> r.value < |names|
  {
    match key
    case Name(name) =>
      var found := FirstNamed(names, name);
      if found.None? then Err(IndexError) else Ok(found.value)
    case Number(i) => if 1 <= i <= |names| then Ok(i - 1) else Err(IndexError)
    case OtherKey => Err(UnboundLocalError)
  }

  /** A name finds the first pin of that name, and raises IndexError when no pin has it. */
  lemma PinIndexByName(names: seq<string>, name: string)
    ensures PinIndex(names, Name(name)).Err? <==> forall j :: 0 <= j < |names| ==> names[j] != name
    ensures PinIndex(names, Name(name)).Err? ==> PinIndex(names, Name(name)).error == IndexError
    ensures PinIndex(names, Name(name)).Ok? ==>
      var j := PinIndex(names, Name(name)).value;
      names[j] == name && forall l :: 0 <= l < j ==> names[l] != name
  {
  }

  /** Numbers 1..len(pins) select index i-1; every other number raises IndexError. */
  lemma PinIndexByNumber(names: seq<string>, i: int)
    ensures PinIndex(names, Number(i)).Ok? <==> 1 <= i <= |names|
    ensures 1 <= i <= |names| ==> PinIndex(names, Number(i)) == Ok(i - 1)
    ensures !(1 <= i <= |names|) ==> PinIndex(names, Number(i)) == Err(IndexError)
  {
  }

  /** The two lookups agree on every key except the numbers below 1. */
  lemma PinIndexAgrees(names: seq<string>, key: Key)
    requires key.Number? ==> key.i >= 1
    ensures PinIndexAsWritten(names, key) == PinIndex(names, key)
  {
  }

  /** As written, pin number 0 of a component with pins is not an error: it is the last pin, and number -k is the
      (k+1)-th pin from the end. */
  lemma PinZeroIsLastPin(names: seq<string>, k: int)
    requires 0 <= k < |names|
    ensures PinIndexAsWritten(names, Number(0)) == Ok(|names| - 1)
    ensures PinIndexAsWritten(names, Number(-k)) == Ok(|names| - 1 - k)
    ensures PinIndex(names, Number(0)) == Err(IndexError) && PinIndex(names, Number(-k)) == Err(IndexError)
  {
  }
}
