/** The board bookkeeping of koko/lib/sam_pcb.py: a two-sided PCB with components on the top (side 0) or the bottom
    (side 1), connections routed horizontally, vertically or diagonally first with a side per segment, custom
    layers, and a layout that lists the layers of the chosen sides. Shapes are opaque; only which of them exist,
    and in what order, is modelled. */
module SamPcb {
  import opened Exceptions
  import opened Geometry
  import opened Routing
  import opened Pins

  /** The trace width used when the caller passes none. */
  const DefaultWidth: real := 0.016
  /** The jumper size used for each keyword `add_jumper` is not given. */
  const DefaultJumperWidth: real := 0.12
  const DefaultJumperHeight: real := 0.07
  const DefaultJumperThick: real := 0.05

  /** `[0 for a in args[:-1]]`: the default side list, every segment on the top side. */
  function DefaultSides(n: nat): (s: seq<int>)
    ensures |s| == if n == 0 then 0 else n - 1
    ensures forall j :: 0 <= j < |s| ==> s[j] == 0
  {
    if n == 0 then [] else seq(n - 1, _ => 0)
  }

  // ---------------------------------------------------------------------------------------------------------------
  // Pins, vias and components

  /** A pin of a footprint: position relative to its component, pad shape, name and label placement. */
  datatype Pin = Pin(x: real, y: real, shape: Shape, name: string, labelSize: real, labelRot: real)

  /** A via of a footprint: position relative to its component and hole shape. */
  datatype Via = Via(x: real, y: real, shape: Shape)

  /** `Pin.mirror_x`: the pin reflected in the component's y axis. */
  function MirrorPin(p: Pin): (m: Pin)
    ensures m.x == -p.x && m.y == p.y && m.shape == p.shape && m.name == p.name
    ensures m.labelSize == p.labelSize && m.labelRot == p.labelRot
  {
    Pin(-p.x, p.y, p.shape, p.name, p.labelSize, p.labelRot)
  }

  /** `Via.mirror_x`: the via reflected in the component's y axis. */
  function MirrorVia(v: Via): (m: Via)
    ensures m.x == -v.x && m.y == v.y && m.shape == v.shape
  {
    Via(-v.x, v.y, v.shape)
  }

  /** Mirroring is an involution: mirroring twice restores the pin or via. */
  lemma MirrorTwice(p: Pin, v: Via)
    ensures MirrorPin(MirrorPin(p)) == p && MirrorVia(MirrorVia(v)) == v
  {
  }

  /** A placed component; side 0 is the top of the board, side 1 the bottom. */
  datatype Component = Component(
    x: real, y: real, rot: real, name: string, labelSize: real, side: int,
    pins: seq<Pin>, vias: seq<Via>, shadow: Option<Shape>)

  /** `Component.__init__`: a bottom-side component (side == 1) mirrors every pin and via of its footprint; any
      other side keeps the footprint as it is. */
  function NewComponent(x: real, y: real, rot: real, name: string, labelSize: real, side: int,
                        pins: seq<Pin>, vias: seq<Via>, shadow: Option<Shape>): (c: Component)
    ensures c.x == x && c.y == y && c.rot == rot && c.name == name && c.labelSize == labelSize && c.side == side
    ensures c.shadow == shadow && |c.pins| == |pins| && |c.vias| == |vias|
    ensures forall i :: 0 <= i < |pins| ==> c.pins[i] == if side == 1 then MirrorPin(pins[i]) else pins[i]
    ensures forall i :: 0 <= i < |vias| ==> c.vias[i] == if side == 1 then MirrorVia(vias[i]) else vias[i]
  {
    var ps := if side == 1 then seq(|pins|, i requires 0 <= i < |pins| => MirrorPin(pins[i])) else pins;
    var vs := if side == 1 then seq(|vias|, i requires 0 <= i < |vias| => MirrorVia(vias[i])) else vias;
    Component(x, y, rot, name, labelSize, side, ps, vs, shadow)
  }

  /** Placing the mirrored footprint on the bottom gives back the original pins and vias. */
  lemma BottomOfMirroredFootprint(c: Component)
    ensures var m := NewComponent(c.x, c.y, c.rot, c.name, c.labelSize, 1, c.pins, c.vias, c.shadow);
      NewComponent(m.x, m.y, m.rot, m.name, m.labelSize, 1, m.pins, m.vias, m.shadow).pins == c.pins
      && NewComponent(m.x, m.y, m.rot, m.name, m.labelSize, 1, m.pins, m.vias, m.shadow).vias == c.vias
  {
    var m := NewComponent(c.x, c.y, c.rot, c.name, c.labelSize, 1, c.pins, c.vias, c.shadow);
    var mm := NewComponent(m.x, m.y, m.rot, m.name, m.labelSize, 1, m.pins, m.vias, m.shadow);
    assert forall i :: 0 <= i < |c.pins| ==> mm.pins[i] == MirrorPin(MirrorPin(c.pins[i])) == c.pins[i];
    assert forall i :: 0 <= i < |c.vias| ==> mm.vias[i] == MirrorVia(MirrorVia(c.vias[i])) == c.vias[i];
  }

  predicate HasPinLabels(c: Component) {
    exists p :: p in c.pins && p.name != ""
  }

  /** A pin localised to a component, as `Component.__getitem__` returns it. */
  datatype BoundPin = BoundPin(pin: Pin, component: Component)

  function PinNames(pins: seq<Pin>): (r: seq<string>)
    ensures |r| == |pins| && forall j :: 0 <= j < |pins| ==> r[j] == pins[j].name
  {
    seq(|pins|, j requires 0 <= j < |pins| => pins[j].name)
  }

  /** `Component.__getitem__` as written, where a number i <= 0 counts from the end of the pin list. */
  function GetPinAsWritten(c: Component, key: Key): (r: Result<BoundPin>)
    ensures r.Ok? ==> r.value.component == c && r.value.pin in c.pins
  {
    var found := PinIndexAsWritten(PinNames(c.pins), key);
    if found.Err? then Err(found.error) else Ok(BoundPin(c.pins[found.value], c))
  }

  /** `Component.__getitem__` with the 1-based numbering it evidently intends. */
  function GetPin(c: Component, key: Key): (r: Result<BoundPin>)
    ensures r.Ok? ==> r.value.component == c && r.value.pin in c.pins
  {
    var found := PinIndex(PinNames(c.pins), key);
    if found.Err? then Err(found.error) else Ok(BoundPin(c.pins[found.value], c))
  }

  /** A name selects the first pin of that name, a number i in 1..len(pins) selects pins[i-1], anything else raises;
      the lookup as written differs only on the numbers below 1, where it counts from the end. */
  lemma GetPinCases(c: Component, key: Key)
    ensures key.Name? ==> (GetPin(c, key).Ok? <==> exists j :: 0 <= j < |c.pins| && c.pins[j].name == key.name)
    ensures key.Name? && GetPin(c, key).Ok? ==> GetPin(c, key).value.pin.name == key.name
    ensures key.Number? ==> (GetPin(c, key).Ok? <==> 1 <= key.i <= |c.pins|)
    ensures key.Number? && 1 <= key.i <= |c.pins| ==> GetPin(c, key).value.pin == c.pins[key.i - 1]
    ensures GetPin(c, key).Err? ==> GetPin(c, key).error == if key.OtherKey? then UnboundLocalError else IndexError
    ensures (key.Number? ==> key.i >= 1) ==> GetPinAsWritten(c, key) == GetPin(c, key)
    ensures key.Number? && -|c.pins| < key.i <= 0 ==>
      GetPinAsWritten(c, key) == Ok(BoundPin(c.pins[|c.pins| + key.i - 1], c))
  {
    var names := PinNames(c.pins);
    match key
    case Name(name) =>
      PinIndexByName(names, name);
      if GetPin(c, key).Ok? {
        assert GetPin(c, key).value.pin == c.pins[PinIndex(names, key).value];
      }
    case Number(i) =>
      PinIndexByNumber(names, i);
    case OtherKey =>
  }

  // ---------------------------------------------------------------------------------------------------------------
  // Argument conversion of connectH / connectV

  /** The first k arguments after the conversion loop of connectH/connectV: a BoundPin stays; in mode "explicit"
      any other argument becomes a Point of its coordinates (`Point(*p)` unpacks a pair and a Point alike); in mode
      "diff" it becomes the (already converted) predecessor plus the offset `(p[0], p[1])`, where the predecessor
      of the first argument is `args[-1]`, the unconverted last argument. The predecessor's `.x` is read first, so a
      coordinate pair there raises AttributeError; then subscripting a Point offset raises TypeError. Any other
      mode raises NotImplementedError. */
  function Converted(mode: string, args: seq<Endpoint>, k: nat): (r: Result<seq<Endpoint>>)
    requires k <= |args|
    ensures r.Ok? ==> |r.value| == k
    ensures r.Ok? ==> forall j :: 0 <= j < k ==> !r.value[j].Coords?
  {
    if k == 0 then Ok([])
    else
      var prev := Converted(mode, args, k - 1);
      if prev.Err? then prev
      else
        var done, p := prev.value, args[k - 1];
        if p.Pinned? then Ok(done + [p])
        else if mode == "diff" then
          var pred := if k == 1 then args[|args| - 1] else done[k - 2];
          if pred.Coords? then Err(AttributeError)
          else if p.Free? then Err(TypeError)
          else Ok(done + [Free(Add(pred.at, p.at))])
        else if mode == "explicit" then Ok(done + [Free(p.at)])
        else Err(NotImplementedError)
  }

  /** Once the conversion has raised, the later arguments change nothing. */
  lemma {:induction false} ConvertedSticks(mode: string, args: seq<Endpoint>, k: nat, n: nat)
    requires k <= n <= |args| && Converted(mode, args, k).Err?
    ensures Converted(mode, args, n) == Converted(mode, args, k)
    decreases n
  {
    if n > k {
      ConvertedSticks(mode, args, k, n - 1);
    }
  }

  /** The conversion loop, rewriting `args[i]` in place. */
  method ConvertArgs(mode: string, args: seq<Endpoint>) returns (r: Result<seq<Endpoint>>)
    ensures r == Converted(mode, args, |args|)
  {
    var a := args;
    var i := 0;
    while i < |a|
      invariant 0 <= i <= |args| && |a| == |args|
      invariant Converted(mode, args, i).Ok? && a[..i] == Converted(mode, args, i).value
      invariant a[i..] == args[i..]
    {
      var p := a[i];
      assert p == args[i];
      if !p.Pinned? {
        if mode == "diff" {
          var pred := if i == 0 then a[|a| - 1] else a[i - 1];
          assert i == 0 ==> pred == args[|args| - 1] by {
            if i == 0 && |a| > 1 { assert a[i..][|a| - 1 - i] == args[|args| - 1]; }
          }
          assert i > 0 ==> pred == Converted(mode, args, i).value[i - 1];
          if pred.Coords? {
            ConvertedSticks(mode, args, i + 1, |args|);
            return Err(AttributeError);
          }
          if p.Free? {
            ConvertedSticks(mode, args, i + 1, |args|);
            return Err(TypeError);
          }
          a := a[i := Free(Add(pred.at, p.at))];
        } else if mode == "explicit" {
          a := a[i := Free(p.at)];
        } else {
          ConvertedSticks(mode, args, i + 1, |args|);
          return Err(NotImplementedError);
        }
      }
      assert a[..i + 1] == a[..i] + [a[i]];
      i := i + 1;
    }
    assert a[..i] == a;
    r := Ok(a);
  }

  /** Mode "explicit" never raises: every argument keeps its coordinates, BoundPins stay, and everything else
      becomes a Point. */
  lemma {:induction false} ExplicitKeeps(args: seq<Endpoint>, k: nat)
    requires k <= |args|
    ensures Converted("explicit", args, k).Ok?
    ensures var out := Converted("explicit", args, k).value;
      forall j :: 0 <= j < k ==>
        && out[j].at == args[j].at
        && (if args[j].Pinned? then out[j] == args[j] else out[j].Free?)
  {
    if k > 0 {
      ExplicitKeeps(args, k - 1);
    }
  }

  /** An unknown mode raises NotImplementedError exactly when some argument is not a BoundPin; with BoundPins only,
      the mode is never looked at. */
  lemma {:induction false} UnknownModeFails(mode: string, args: seq<Endpoint>, k: nat)
    requires mode != "diff" && mode != "explicit" && k <= |args|
    ensures Converted(mode, args, k).Err? <==> exists j :: 0 <= j < k && !args[j].Pinned?
    ensures Converted(mode, args, k).Err? ==> Converted(mode, args, k).error == NotImplementedError
    ensures Converted(mode, args, k).Ok? ==> Converted(mode, args, k).value == args[..k]
  {
    if k > 0 {
      UnknownModeFails(mode, args, k - 1);
      assert args[..k] == args[..k - 1] + [args[k - 1]];
    }
  }

  /** Mode "diff": every coordinate pair lands at its predecessor's position plus its offset, the first one after
      `args[-1]`; BoundPins stay. */
  lemma {:induction false} DiffOffsets(args: seq<Endpoint>, k: nat)
    requires k <= |args| && Converted("diff", args, k).Ok?
    ensures var out := Converted("diff", args, k).value;
      && (forall j :: 0 <= j < k && args[j].Pinned? ==> out[j] == args[j])
      && (forall j :: 1 <= j < k && args[j].Coords? ==> out[j] == Free(Add(out[j - 1].at, args[j].at)))
      && (k >= 1 && args[0].Coords? ==> out[0] == Free(Add(args[|args| - 1].at, args[0].at)))
  {
    if k > 0 {
      DiffOffsets(args, k - 1);
    }
  }

  /** Mode "diff" raises exactly when a Point instance is among the arguments (it cannot be subscripted: TypeError)
      or when the first argument needs the `.x` of a last argument that is a coordinate pair (AttributeError, which
      is raised first). */
  lemma {:induction false} DiffFails(args: seq<Endpoint>, k: nat)
    requires k <= |args|
    ensures var first := k >= 1 && !args[0].Pinned? && args[|args| - 1].Coords?;
      && (Converted("diff", args, k).Err? <==> first || exists j :: 0 <= j < k && args[j].Free?)
      && (Converted("diff", args, k).Err? ==>
            Converted("diff", args, k).error == if first then AttributeError else TypeError)
  {
    if k > 0 {
      DiffFails(args, k - 1);
    }
  }

  /** The two cases of mode "diff" that depend on the argument's type: an offset given as a Point instance raises
      TypeError, while a Point instance as the last argument supplies the `.x` and `.y` the first offset needs. */
  lemma DiffPointCases(q: Point, d: Point)
    ensures Converted("diff", [Pinned(q), Free(d)], 2) == Err(TypeError)
    ensures Converted("diff", [Pinned(q), Coords(d)], 2) == Ok([Pinned(q), Free(Add(q, d))])
    ensures Converted("diff", [Coords(d), Pinned(q), Free(q)], 1) == Ok([Free(Add(q, d))])
    ensures Converted("diff", [Coords(d), Pinned(q), Coords(q)], 1) == Err(AttributeError)
  {
    var a, b, c := [Pinned(q), Free(d)], [Pinned(q), Coords(d)], [Coords(d), Pinned(q), Free(q)];
    assert Converted("diff", a, 0) == Converted("diff", b, 0) == Converted("diff", c, 0) == Ok([]);
    assert [] + [Pinned(q)] == [Pinned(q)] && [] + [Free(Add(q, d))] == [Free(Add(q, d))];
    assert [Pinned(q)] + [Free(Add(q, d))] == [Pinned(q), Free(Add(q, d))];
  }

  // ---------------------------------------------------------------------------------------------------------------
  // Connections

  /** A jumper: position, rotation, width, height and thickness. */
  datatype Jumper = Jumper(p: Point, rot: real, width: real, height: real, thick: real)

  /** The points and sides of a connection, the part that `cut_corners` rewrites. */
  datatype Path = Path(points: seq<Endpoint>, sides: seq<int>)

  /** Where a sequence of corner cuts stopped: the path at that moment and the exception raised, if any. */
  datatype Cut = Cut(path: Path, error: Option<Exception>)

  /** One `(i, v)` of `cut_corners`: point i (which must have a predecessor) is replaced by two points at distance v
      from it towards its neighbours, and the side of segment i is duplicated. The distance function (a square
      root) is a parameter. The two asserts guard i; `points[i+1]` fails for the last point; a zero distance fails
      the division; a missing `sides[i]` fails after the points were already replaced. */
  function CutStep(path: Path, i: int, v: real, dist: (Point, Point) -> real): (r: Cut)
  {
    var ps := path.points;
    if !(i > 0) || !(i < |ps|) then Cut(path, Some(AssertionError))
    else if i + 1 >= |ps| then Cut(path, Some(IndexError))
    else
      var prev, here, next := ps[i - 1].at, ps[i].at, ps[i + 1].at;
      var dm, dp := dist(here, prev), dist(here, next);
      if dm == 0.0 || dp == 0.0 then Cut(path, Some(ZeroDivisionError))
      else
        var before := Point(here.x - v / dm * (here.x - prev.x), here.y - v / dm * (here.y - prev.y));
        var after := Point(here.x + v / dp * (next.x - here.x), here.y + v / dp * (next.y - here.y));
        var points' := ps[..i] + [Free(before), Free(after)] + ps[i + 1..];
        if i >= |path.sides| then Cut(Path(points', path.sides), Some(IndexError))
        else Cut(Path(points', path.sides[..i] + [path.sides[i]] + path.sides[i..]), None)
  }

  /** The cuts of `idx` applied in order, stopping at the first exception. */
  function CutAll(path: Path, idx: seq<(int, real)>, dist: (Point, Point) -> real): Cut {
    if idx == [] then Cut(path, None)
    else
      var before := CutAll(path, idx[..|idx| - 1], dist);
      if before.error.Some? then before
      else CutStep(before.path, idx[|idx| - 1].0, idx[|idx| - 1].1, dist)
  }

  /** Once a cut has raised, the later cuts are never applied. */
  lemma {:induction false} CutAllSticks(path: Path, idx: seq<(int, real)>, k: nat, dist: (Point, Point) -> real)
    requires k <= |idx| && CutAll(path, idx[..k], dist).error.Some?
    ensures CutAll(path, idx, dist) == CutAll(path, idx[..k], dist)
    decreases |idx|
  {
    if k < |idx| {
      var init := idx[..|idx| - 1];
      assert init[..k] == idx[..k];
      CutAllSticks(path, init, k, dist);
    } else {
      assert idx[..k] == idx;
    }
  }

  /** A successful cut grows the points and the sides by one each: `points[:i]` and `points[i+1:]` are kept around
      the two new points, and a copy of `sides[i]` is inserted at index i. It fails exactly as the guards say. */
  lemma CutStepShape(path: Path, i: int, v: real, dist: (Point, Point) -> real)
    ensures CutStep(path, i, v, dist).error.None? <==>
      0 < i < |path.points| - 1 && i < |path.sides|
      && dist(path.points[i].at, path.points[i - 1].at) != 0.0 && dist(path.points[i].at, path.points[i + 1].at) != 0.0
    ensures !(0 < i < |path.points|) ==> CutStep(path, i, v, dist) == Cut(path, Some(AssertionError))
    ensures var r := CutStep(path, i, v, dist).path;
      r != path ==>
        && 0 < i < |path.points| - 1 && |r.points| == |path.points| + 1
        && r.points[..i] == path.points[..i] && r.points[i + 2..] == path.points[i + 1..]
        && r.points[i].Free? && r.points[i + 1].Free?
    ensures CutStep(path, i, v, dist).error.None? ==>
      var r := CutStep(path, i, v, dist).path;
      && |r.sides| == |path.sides| + 1
      && r.sides[..i] == path.sides[..i] && r.sides[i] == path.sides[i] && r.sides[i + 1..] == path.sides[i..]
  {
    var r := CutStep(path, i, v, dist);
    if 0 < i < |path.points| - 1 && r.path != path {
      var ps := path.points;
      assert r.path.points[..i] == ps[..i];
      assert r.path.points[i + 2..] == ps[i + 1..];
    }
  }

  /** Cutting keeps a path's shape invariant: one side per segment stays one side per segment. */
  lemma {:induction false} CutAllKeepsSegments(path: Path, idx: seq<(int, real)>, dist: (Point, Point) -> real)
    requires |path.sides| == |path.points| - 1
    ensures CutAll(path, idx, dist).error.None? ==>
      |CutAll(path, idx, dist).path.sides| == |CutAll(path, idx, dist).path.points| - 1
    ensures |CutAll(path, idx, dist).path.points| == |path.points| + |idx|
      - (if CutAll(path, idx, dist).error.Some? then Unapplied(path, idx, dist) else 0)
  {
    if idx != [] {
      CutAllKeepsSegments(path, idx[..|idx| - 1], dist);
      var before := CutAll(path, idx[..|idx| - 1], dist);
      if before.error.None? {
        CutStepShape(before.path, idx[|idx| - 1].0, idx[|idx| - 1].1, dist);
      }
    }
  }

  /** How many cuts of idx did not grow the points (the failed one, and those after it). */
  function Unapplied(path: Path, idx: seq<(int, real)>, dist: (Point, Point) -> real): nat {
    if idx == [] then 0
    else
      var before := CutAll(path, idx[..|idx| - 1], dist);
      if before.error.Some? then Unapplied(path, idx[..|idx| - 1], dist) + 1
      else
        var step := CutStep(before.path, idx[|idx| - 1].0, idx[|idx| - 1].1, dist);
        if step.path == before.path then 1 else 0
  }

  /** A trace: a list of points with a side per segment, jumpers, and a width. */
  class Connection {
    var width: real
    var points: seq<Endpoint>
    var sides: seq<int>
    var jumpers: seq<Jumper>

    /** `Connection.__init__`: every BoundPin stays, every other argument becomes a Point; the sides default to
        the top side for every segment. */
    constructor (width: real, args: seq<Endpoint>, sides: Option<seq<int>>)
      ensures this.width == width && jumpers == []
      ensures |points| == |args| && forall i :: 0 <= i < |args| ==> points[i].at == args[i].at
      ensures forall i :: 0 <= i < |args| ==> (points[i].Pinned? <==> args[i].Pinned?)
      ensures forall i :: 0 <= i < |args| ==> points[i] == if args[i].Pinned? then args[i] else Free(args[i].at)
      ensures this.sides == if sides.Some? then sides.value else DefaultSides(|args|)
    {
      this.width := width;
      points := seq(|args|, i requires 0 <= i < |args| => if args[i].Pinned? then args[i] else Free(args[i].at));
      this.sides := if sides.Some? then sides.value else DefaultSides(|args|);
      jumpers := [];
    }

    /** `add_jumper`: one more jumper at p, each omitted keyword taking its default (rotation 0, width .12,
        height .07, thickness .05); the connection itself is returned. */
    method AddJumper(p: Point, rot: Option<real>, width: Option<real>, height: Option<real>, thick: Option<real>)
      returns (self: Connection)
      modifies this
      ensures self == this && |jumpers| == |old(jumpers)| + 1 && jumpers[..|old(jumpers)|] == old(jumpers)
      ensures var j := jumpers[|old(jumpers)|];
        && j.p == p
        && j.rot == (if rot.Some? then rot.value else 0.0)
        && j.width == (if width.Some? then width.value else DefaultJumperWidth)
        && j.height == (if height.Some? then height.value else DefaultJumperHeight)
        && j.thick == (if thick.Some? then thick.value else DefaultJumperThick)
      ensures this.width == old(this.width) && points == old(points) && sides == old(sides)
    {
      var j := Jumper(p, if rot.Some? then rot.value else 0.0,
                      if width.Some? then width.value else DefaultJumperWidth,
                      if height.Some? then height.value else DefaultJumperHeight,
                      if thick.Some? then thick.value else DefaultJumperThick);
      jumpers := jumpers + [j];
      self := this;
    }

    /** `cut_corners`: apply each `(i, v)` in turn; an exception leaves the points and sides as far as they got. */
    method CutCorners(idx: seq<(int, real)>, dist: (Point, Point) -> real) returns (r: Result<Connection>)
      modifies this
      ensures Path(points, sides) == CutAll(Path(old(points), old(sides)), idx, dist).path
      ensures r.Err? <==> CutAll(Path(old(points), old(sides)), idx, dist).error.Some?
      ensures r.Err? ==> r.error == CutAll(Path(old(points), old(sides)), idx, dist).error.value
      ensures r.Ok? ==> r.value == this
      ensures width == old(width) && jumpers == old(jumpers)
    {
      var start := Path(points, sides);
      var path := start;
      var j := 0;
      while j < |idx|
        invariant 0 <= j <= |idx|
        invariant CutAll(start, idx[..j], dist) == Cut(path, None)
      {
        assert idx[..j + 1][..j] == idx[..j];
        var step := CutStep(path, idx[j].0, idx[j].1, dist);
        assert CutAll(start, idx[..j + 1], dist) == step;
        if step.error.Some? {
          CutAllSticks(start, idx, j + 1, dist);
          points, sides := step.path.points, step.path.sides;
          return Err(step.error.value);
        }
        path := step.path;
        j := j + 1;
      }
      assert idx[..j] == idx;
      points, sides := path.points, path.sides;
      r := Ok(this);
    }

    /** Whether the connection has a segment on the given side (so that its trace for that side is not None). */
    predicate HasSegmentOn(side: int)
      reads this
    {
      exists j :: 0 <= j < |points| - 1 && j < |sides| && sides[j] == side
    }
  }

  // ---------------------------------------------------------------------------------------------------------------
  // Layers

  /** A custom layer: its shape, colour, position (the order it was added in) and visibility flag. */
  datatype CustomLayer = CustomLayer(layer: Shape, color: Color, position: int, visible: int)

  /** The groups of shapes a layout can hold. */
  datatype LayerKind =
    | PartLabels(side: int) | PinLabels(side: int) | Traces(side: int) | Shadows(side: int)
    | Custom(shape: Shape) | Cutout(outline: Outline)

  /** The outline of the board: the custom cutout when one is set, otherwise the rectangle x0..x0+width by
      y0..y0+height, with its four corners chamfered by the chamfer distance when that is not 0. The via holes
      subtracted from it are not modelled. */
  datatype Outline = CustomOutline(shape: Shape) | Rectangle(xmin: real, xmax: real, ymin: real, ymax: real, chamfer: Option<real>)

  datatype Layer = Layer(kind: LayerKind, color: Color)

  /** The layer colours of the layout. */
  function GroupColor(k: LayerKind): Color
    requires !k.Custom?
  {
    match k
    case PartLabels(s) => if s == 0 then Rgb(125, 200, 60) else Rgb(90, 60, 255)
    case PinLabels(s) => if s == 0 then Rgb(255, 90, 60) else Rgb(175, 30, 175)
    case Traces(s) => if s == 0 then Rgb(125, 90, 60) else Rgb(90, 60, 125)
    case Shadows(s) => if s == 0 then Rgb(55, 55, 60) else Rgb(45, 30, 62)
    case Cutout(_) => Rgb(35, 35, 40)
  }

  function Group(k: LayerKind): Layer
    requires !k.Custom?
  {
    Layer(k, GroupColor(k))
  }

  /** `sorted(layers, key=lambda v: -v['position'])`: a stable sort by descending position, as insertion sort. */
  function SortByPosition(s: seq<CustomLayer>): (r: seq<CustomLayer>)
    ensures |r| == |s|
  {
    if s == [] then [] else InsertByPosition(s[|s| - 1], SortByPosition(s[..|s| - 1]))
  }

  /** Insert x after every element whose position is at least x's. */
  function InsertByPosition(x: CustomLayer, s: seq<CustomLayer>): (r: seq<CustomLayer>)
    ensures |r| == |s| + 1
    ensures multiset(r) == multiset(s) + multiset{x}
  {
    if s == [] then [x]
    else if s[0].position >= x.position then
      assert s == [s[0]] + s[1..];
      [s[0]] + InsertByPosition(x, s[1..])
    else [x] + s
  }

  predicate Descending(s: seq<CustomLayer>) {
    forall i, j :: 0 <= i < j < |s| ==> s[i].position >= s[j].position
  }

  predicate AtMost(s: seq<CustomLayer>, b: int) {
    forall i :: 0 <= i < |s| ==> s[i].position <= b
  }

  lemma {:induction false} InsertAtMost(x: CustomLayer, s: seq<CustomLayer>, b: int)
    requires AtMost(s, b) && x.position <= b
    ensures AtMost(InsertByPosition(x, s), b)
  {
    if s != [] && s[0].position >= x.position {
      InsertAtMost(x, s[1..], b);
    }
  }

  lemma {:induction false} InsertKeepsDescending(x: CustomLayer, s: seq<CustomLayer>)
    requires Descending(s)
    ensures Descending(InsertByPosition(x, s))
  {
    if s != [] && s[0].position >= x.position {
      DescendingTail(s);
      InsertKeepsDescending(x, s[1..]);
      InsertAtMost(x, s[1..], s[0].position);
      ConsDescending(s[0], InsertByPosition(x, s[1..]));
    } else {
      if s != [] {
        DescendingTail(s);
      }
      ConsDescending(x, s);
    }
  }

  /** The layers after the first of a descending sequence are descending and at most the first. */
  lemma DescendingTail(s: seq<CustomLayer>)
    requires Descending(s) && s != []
    ensures Descending(s[1..]) && AtMost(s, s[0].position)
  {
    forall i, j | 0 <= i < j < |s| - 1 ensures s[1..][i].position >= s[1..][j].position {
      assert s[1..][i] == s[i + 1] && s[1..][j] == s[j + 1];
    }
    forall i | 0 < i < |s| ensures s[i].position <= s[0].position {
    }
  }

  /** A layer at least as high as every layer of a descending sequence can go in front of it. */
  lemma ConsDescending(h: CustomLayer, t: seq<CustomLayer>)
    requires Descending(t) && AtMost(t, h.position)
    ensures Descending([h] + t)
  {
    var r := [h] + t;
    forall i, j | 0 <= i < j < |r| ensures r[i].position >= r[j].position {
      assert r[j] == t[j - 1];
      if i > 0 {
        assert r[i] == t[i - 1];
      }
    }
  }

  /** The sort orders the layers by descending position and keeps every layer (it is a permutation). */
  lemma SortByPositionCorrect(s: seq<CustomLayer>)
    ensures Descending(SortByPosition(s))
    ensures multiset(SortByPosition(s)) == multiset(s)
  {
    SortByPositionSorted(s);
    SortByPositionPermutes(s);
  }

  lemma {:induction false} SortByPositionSorted(s: seq<CustomLayer>)
    ensures Descending(SortByPosition(s))
  {
    if s != [] {
      SortByPositionSorted(s[..|s| - 1]);
      InsertKeepsDescending(s[|s| - 1], SortByPosition(s[..|s| - 1]));
    }
  }

  lemma {:induction false} SortByPositionPermutes(s: seq<CustomLayer>)
    ensures multiset(SortByPosition(s)) == multiset(s)
  {
    if s != [] {
      var init, last := s[..|s| - 1], s[|s| - 1];
      SortByPositionPermutes(init);
      assert s == init + [last];
      calc {
        multiset(SortByPosition(s));
        multiset(InsertByPosition(last, SortByPosition(init)));
        multiset(SortByPosition(init)) + multiset{last};
        multiset(init) + multiset{last};
        multiset(s);
      }
    }
  }

  /** The layers of s at position p, in their order in s. */
  function AtPosition(s: seq<CustomLayer>, p: int): seq<CustomLayer> {
    if s == [] then [] else KeepAt(s[0], p) + AtPosition(s[1..], p)
  }

  function KeepAt(x: CustomLayer, p: int): seq<CustomLayer> {
    if x.position == p then [x] else []
  }

  lemma AtPositionCons(h: CustomLayer, t: seq<CustomLayer>, p: int)
    ensures AtPosition([h] + t, p) == KeepAt(h, p) + AtPosition(t, p)
  {
    assert ([h] + t)[0] == h && ([h] + t)[1..] == t;
  }

  lemma {:induction false} AtPositionAppend(a: seq<CustomLayer>, b: seq<CustomLayer>, p: int)
    ensures AtPosition(a + b, p) == AtPosition(a, p) + AtPosition(b, p)
  {
    if a == [] {
      assert a + b == b;
    } else {
      var h, t := a[0], a[1..];
      assert a == [h] + t && a + b == [h] + (t + b);
      AtPositionCons(h, t + b, p);
      AtPositionAppend(t, b, p);
      AtPositionCons(h, t, p);
      ConcatAssoc(KeepAt(h, p), AtPosition(t, p), AtPosition(b, p));
    }
  }

  lemma {:induction false} AtPositionAbove(s: seq<CustomLayer>, b: int, p: int)
    requires AtMost(s, b) && b < p
    ensures AtPosition(s, p) == []
  {
    if s != [] {
      assert AtMost(s[1..], b) by {
        forall i | 0 <= i < |s| - 1 ensures s[1..][i].position <= b {
          assert s[1..][i] == s[i + 1];
        }
      }
      AtPositionAbove(s[1..], b, p);
    }
  }

  lemma AtPositionSingle(x: CustomLayer, p: int)
    ensures AtPosition([x], p) == KeepAt(x, p)
  {
    assert [x][1..] == [];
  }

  /** Inserting into a descending sequence puts x after every layer of its own position. */
  lemma {:induction false} InsertAtPosition(x: CustomLayer, s: seq<CustomLayer>, p: int)
    requires Descending(s)
    ensures AtPosition(InsertByPosition(x, s), p) == AtPosition(s, p) + KeepAt(x, p)
  {
    if s == [] {
      AtPositionSingle(x, p);
    } else if s[0].position >= x.position {
      DescendingTail(s);
      InsertAtPosition(x, s[1..], p);
      InsertBehind(x, s, p);
    } else {
      InsertInFront(x, s, p);
    }
  }

  /** A layer no higher than the first of a sequence is inserted into its tail; the first layer stays in front. */
  lemma InsertBehind(x: CustomLayer, s: seq<CustomLayer>, p: int)
    requires s != [] && s[0].position >= x.position
    requires AtPosition(InsertByPosition(x, s[1..]), p) == AtPosition(s[1..], p) + KeepAt(x, p)
    ensures AtPosition(InsertByPosition(x, s), p) == AtPosition(s, p) + KeepAt(x, p)
  {
    var h, t := s[0], s[1..];
    var inserted := InsertByPosition(x, t);
    var front, rest, back := KeepAt(h, p), AtPosition(t, p), KeepAt(x, p);
    calc {
      AtPosition(InsertByPosition(x, s), p);
      AtPosition([h] + inserted, p);
      { AtPositionCons(h, inserted, p); }
      front + AtPosition(inserted, p);
      front + (rest + back);
      { ConcatAssoc(front, rest, back); }
      (front + rest) + back;
      AtPosition(s, p) + back;
    }
  }

  /** A layer higher than the first of a descending sequence goes in front of it, and after all layers of its
      position, since there are none. */
  lemma InsertInFront(x: CustomLayer, s: seq<CustomLayer>, p: int)
    requires Descending(s) && s != [] && s[0].position < x.position
    ensures AtPosition(InsertByPosition(x, s), p) == AtPosition(s, p) + KeepAt(x, p)
  {
    assert InsertByPosition(x, s) == [x] + s;
    AtPositionCons(x, s, p);
    if x.position == p {
      DescendingTail(s);
      AtPositionAbove(s, s[0].position, p);
      assert AtPosition(s, p) + KeepAt(x, p) == [x] == KeepAt(x, p) + AtPosition(s, p);
    } else {
      assert KeepAt(x, p) == [];
      assert AtPosition(s, p) + [] == AtPosition(s, p) == [] + AtPosition(s, p);
    }
  }

  /** The sort is stable, as Python's `sorted` is: the layers of any one position keep their input order. */
  lemma {:induction false} SortByPositionStable(s: seq<CustomLayer>, p: int)
    ensures AtPosition(SortByPosition(s), p) == AtPosition(s, p)
  {
    if s != [] {
      var init, last := s[..|s| - 1], s[|s| - 1];
      SortByPositionSorted(init);
      assert s == init + [last];
      calc {
        AtPosition(SortByPosition(s), p);
        AtPosition(InsertByPosition(last, SortByPosition(init)), p);
        { InsertAtPosition(last, SortByPosition(init), p); }
        AtPosition(SortByPosition(init), p) + KeepAt(last, p);
        { SortByPositionStable(init, p); }
        AtPosition(init, p) + KeepAt(last, p);
        { AtPositionAppend(init, [last], p); AtPositionSingle(last, p); }
        AtPosition(s, p);
      }
    }
  }

  /** The layers of s whose visibility flag is truthy, in order. */
  function Visible(s: seq<CustomLayer>): (r: seq<Layer>)
    ensures |r| <= |s|
  {
    if s == [] then []
    else Visible(s[..|s| - 1]) + (if s[|s| - 1].visible != 0 then [Layer(Custom(s[|s| - 1].layer), s[|s| - 1].color)] else [])
  }

  /** The loop of `layout` over the sorted custom layers: each visible one is appended as a layer. */
  method AppendVisible(fixed: seq<Layer>, sorted: seq<CustomLayer>) returns (layers: seq<Layer>)
    ensures layers == fixed + Visible(sorted)
  {
    layers := fixed;
    var i := 0;
    while i < |sorted|
      invariant 0 <= i <= |sorted|
      invariant layers == fixed + Visible(sorted[..i])
    {
      assert sorted[..i + 1][..i] == sorted[..i];
      var v := sorted[i];
      if v.visible != 0 {
        layers := layers + [Layer(Custom(v.layer), v.color)];
      }
      i := i + 1;
    }
    assert sorted[..i] == sorted;
  }

  lemma {:induction false} VisibleMembers(s: seq<CustomLayer>)
    ensures forall l :: l in Visible(s) <==> exists c :: c in s && c.visible != 0 && l == Layer(Custom(c.layer), c.color)
  {
    if s != [] {
      VisibleMembers(s[..|s| - 1]);
      assert s == s[..|s| - 1] + [s[|s| - 1]];
    }
  }

  /** The layers that `layout` lists for the custom layers are exactly the visible ones. Their order, highest
      position first and dictionary order among equal positions, is `SortByPositionCorrect` and
      `SortByPositionStable`. */
  lemma CustomLayersInOrder(s: seq<CustomLayer>)
    ensures forall l :: l in Visible(SortByPosition(s)) <==>
      exists c :: c in s && c.visible != 0 && l == Layer(Custom(c.layer), c.color)
  {
    SortByPositionCorrect(s);
    VisibleMembers(SortByPosition(s));
    forall c ensures c in SortByPosition(s) <==> c in s {
      assert c in multiset(SortByPosition(s)) <==> c in multiset(s);
    }
  }

  // ---------------------------------------------------------------------------------------------------------------
  // The board

  /** What `PCB += rhs` may receive. */
  datatype Item = ComponentItem(component: Component) | ConnectionItem(connection: Connection) | OtherItem

  class Board {
    const x0: real
    const y0: real
    const width: real
    const height: real
    const chamferDistance: real
    var components: seq<Component>
    var connections: seq<Connection>
    var customCutout: Option<Shape>
    /** The `custom_layers` dictionary, and its keys in insertion order (the order its values are listed in). */
    var customLayers: map<string, CustomLayer>
    var layerOrder: seq<string>

    ghost predicate Valid()
      reads this
    {
      && (forall i :: 0 <= i < |layerOrder| ==> layerOrder[i] in customLayers)
      && (forall n :: n in customLayers ==> n in layerOrder)
      && (forall i, j :: 0 <= i < j < |layerOrder| ==> layerOrder[i] != layerOrder[j])
    }

    constructor (x0: real, y0: real, width: real, height: real, chamferDistance: real)
      ensures Valid()
      ensures this.x0 == x0 && this.y0 == y0 && this.width == width && this.height == height
      ensures this.chamferDistance == chamferDistance
      ensures components == [] && connections == [] && customCutout == None
      ensures customLayers == map[] && layerOrder == []
    {
      this.x0, this.y0, this.width, this.height, this.chamferDistance := x0, y0, width, height, chamferDistance;
      components, connections, customCutout := [], [], None;
      customLayers, layerOrder := map[], [];
    }

    /** `PCB += rhs`: a component goes to `components`, a connection to `connections`, anything else raises
        TypeError; the board itself is the result. */
    method Add(item: Item) returns (r: Result<Board>)
      modifies this
      ensures item.OtherItem? <==> r == Err(TypeError)
      ensures r.Ok? ==> r.value == this
      ensures components == old(components) + (if item.ComponentItem? then [item.component] else [])
      ensures connections == old(connections) + (if item.ConnectionItem? then [item.connection] else [])
      ensures customLayers == old(customLayers) && layerOrder == old(layerOrder)
      ensures customCutout == old(customCutout)
    {
      match item
      case ComponentItem(c) =>
        components := components + [c];
        r := Ok(this);
      case ConnectionItem(k) =>
        connections := connections + [k];
        r := Ok(this);
      case OtherItem =>
        r := Err(TypeError);
    }

    /** `add_custom_layer`: the layer is stored (or replaced) under its name, visible, with the number of layers
        present before the call as its position. A new name goes last in the dictionary order, a replaced one keeps
        its place. */
    method AddCustomLayer(name: string, layer: Shape, color: Color)
      requires Valid()
      modifies this
      ensures Valid()
      ensures customLayers == old(customLayers)[name := CustomLayer(layer, color, |old(customLayers)|, 1)]
      ensures layerOrder == old(layerOrder) + (if name in old(customLayers) then [] else [name])
      ensures components == old(components) && connections == old(connections)
      ensures customCutout == old(customCutout)
    {
      if name !in customLayers {
        layerOrder := layerOrder + [name];
      }
      customLayers := customLayers[name := CustomLayer(layer, color, |customLayers|, 1)];
    }

    /** `hide_layer`: the named layer's visibility becomes 0; an unknown name raises KeyError. */
    method HideLayer(name: string) returns (r: Result<()>)
      requires Valid()
      modifies this
      ensures Valid()
      ensures r.Err? <==> name !in old(customLayers)
      ensures r.Err? ==> r.error == KeyError && customLayers == old(customLayers)
      ensures r.Ok? ==> customLayers == old(customLayers)[name := old(customLayers)[name].(visible := 0)]
      ensures layerOrder == old(layerOrder)
      ensures components == old(components) && connections == old(connections)
      ensures customCutout == old(customCutout)
    {
      if name !in customLayers {
        return Err(KeyError);
      }
      customLayers := customLayers[name := customLayers[name].(visible := 0)];
      r := Ok(());
    }

    /** `cutout`: the custom cutout when one is set, otherwise the chamfered rectangle of the board. */
    function BoardOutline(): (r: Outline)
      reads this
      ensures customCutout.Some? <==> r.CustomOutline?
      ensures customCutout.Some? ==> r.shape == customCutout.value
      ensures customCutout.None? ==>
        && r.Rectangle? && r.xmin == x0 && r.xmax - r.xmin == width && r.ymin == y0 && r.ymax - r.ymin == height
        && (r.chamfer.Some? <==> chamferDistance != 0.0) && (r.chamfer.Some? ==> r.chamfer.value == chamferDistance)
    {
      if customCutout.Some? then CustomOutline(customCutout.value)
      else Rectangle(x0, x0 + width, y0, y0 + height, if chamferDistance != 0.0 then Some(chamferDistance) else None)
    }

    function CutoutLayer(): Layer
      reads this
    {
      Group(Cutout(BoardOutline()))
    }

    /** The values of `custom_layers`, in dictionary order. */
    function CustomValues(): (vs: seq<CustomLayer>)
      requires Valid()
      reads this
      ensures |vs| == |layerOrder|
      ensures forall i :: 0 <= i < |layerOrder| ==> vs[i] == customLayers[layerOrder[i]]
    {
      var order, layers := layerOrder, customLayers;
      seq(|order|, i requires 0 <= i < |order| && order[i] in layers => layers[order[i]])
    }

    /** Whether the property behind each layer is truthy. For the labels and shadows that is whether the
        side-filtered list is non-empty (a label exists for every component). The top traces `reduce` the pads of
        the top components and the top trace of every connection, None included: a lone entry comes back
        unchanged, so a board whose only top entry is the trace of one connection without a segment on top
        draws no top traces. The bottom traces skip the connections whose bottom trace is None. */
    predicate GroupPresent(k: LayerKind)
      reads this, connections
    {
      match k
      case PartLabels(s) => exists c :: c in components && c.side == s
      case PinLabels(s) => exists c :: c in components && c.side == s && HasPinLabels(c)
      case Shadows(s) => exists c :: c in components && c.side == s && c.shadow.Some?
      case Traces(s) =>
        (exists c :: c in components && c.side == s)
        || (if s == 0 then |connections| > 1 || (|connections| == 1 && connections[0].HasSegmentOn(0))
            else exists k :: k in connections && k.HasSegmentOn(1))
      case Custom(_) => false
      case Cutout(_) => true
    }

    /** The layers of one side, in the order layout tests them: part labels, pin labels, traces, shadows. */
    function SideLayers(s: int): (r: seq<Layer>)
      reads this, connections
    {
      (if GroupPresent(PartLabels(s)) then [Group(PartLabels(s))] else [])
      + (if GroupPresent(PinLabels(s)) then [Group(PinLabels(s))] else [])
      + (if GroupPresent(Traces(s)) then [Group(Traces(s))] else [])
      + (if GroupPresent(Shadows(s)) then [Group(Shadows(s))] else [])
    }

    /** A component without pins has no pads: the `reduce` behind the traces of its side runs over an empty list
        and raises TypeError, for the sides that layout draws. */
    predicate PadsFail(sides: seq<int>)
      reads this
    {
      (0 in sides && NoPads(0)) || (1 in sides && NoPads(1))
    }

    predicate NoPads(s: int)
      reads this
    {
      exists c :: c in components && c.side == s && c.pins == []
    }

    /** The side groups that `layout(sides)` lists: the top layers when 0 is among the sides, then the bottom
        layers when 1 is. */
    function SidesLayers(sides: seq<int>): seq<Layer>
      reads this, connections
    {
      (if 0 in sides then SideLayers(0) else []) + (if 1 in sides then SideLayers(1) else [])
    }

    /** What `layout(sides)` lists: the side groups, then the visible custom layers by descending position, then
        the cutout. */
    function Layers(sides: seq<int>): (r: seq<Layer>)
      requires Valid()
      reads this, connections
    {
      SidesLayers(sides) + Visible(SortByPosition(CustomValues())) + [CutoutLayer()]
    }

    /** The two side blocks of `layout(sides)`. */
    method LayoutSides(sides: seq<int>) returns (r: Result<seq<Layer>>)
      ensures r == if PadsFail(sides) then Err(TypeError) else Ok(SidesLayers(sides))
    {
      var top, bottom := [], [];
      if 0 in sides {
        if NoPads(0) {
          return Err(TypeError);
        }
        top := SideLayers(0);
      }
      if 1 in sides {
        if NoPads(1) {
          return Err(TypeError);
        }
        bottom := SideLayers(1);
      }
      r := Ok(top + bottom);
    }

    /** `layout(sides)`, with its loop over the sorted custom layers. */
    method Layout(sides: seq<int>) returns (r: Result<seq<Layer>>)
      requires Valid()
      ensures r == if PadsFail(sides) then Err(TypeError) else Ok(Layers(sides))
    {
      r := LayoutSides(sides);
      if r.Err? {
        return;
      }
      var sorted := SortByPosition(CustomValues());
      var layers := AppendVisible(r.value, sorted);
      r := Ok(layers + [CutoutLayer()]);
    }

    /** The top traces are drawn exactly when a top component exists, or when there are several connections, or
        when the only connection has a segment on top. */
    lemma TopTracesPresence()
      ensures Group(Traces(0)) in SideLayers(0) <==>
        (exists c :: c in components && c.side == 0)
        || |connections| > 1 || (|connections| == 1 && connections[0].HasSegmentOn(0))
    {
      var g := Group(Traces(0));
      if GroupPresent(Traces(0)) {
        assert g == SideLayers(0)[|SideLayers(0)| - 1 - (if GroupPresent(Shadows(0)) then 1 else 0)];
      }
    }

    lemma SideLayersKinds(s: int)
      ensures forall l :: l in SideLayers(s) ==> !l.kind.Custom? && !l.kind.Cutout? && l.kind.side == s
    {
    }

    lemma CustomValuesAreValues()
      requires Valid()
      ensures forall c :: c in CustomValues() <==> c in customLayers.Values
    {
      forall c | c in customLayers.Values ensures c in CustomValues() {
        var n :| n in customLayers && customLayers[n] == c;
        var k :| 0 <= k < |layerOrder| && layerOrder[k] == n;
        assert CustomValues()[k] == c;
      }
    }

    /** The side groups of a layout belong to the requested sides, its custom layers are the visible custom
        layers of the board, and the cutout comes last. */
    lemma LayoutShape(sides: seq<int>)
      requires Valid()
      ensures Layers(sides)[|Layers(sides)| - 1] == CutoutLayer()
      ensures forall l :: l in Layers(sides) && l.kind.Custom? <==>
        exists c :: c in customLayers.Values && c.visible != 0 && l == Layer(Custom(c.layer), c.color)
      ensures forall l :: l in Layers(sides) && !l.kind.Custom? && !l.kind.Cutout? ==> l.kind.side in sides
    {
      var fixed := SidesLayers(sides);
      var custom := Visible(SortByPosition(CustomValues()));
      var all := Layers(sides);
      assert all == fixed + custom + [CutoutLayer()];
      LayoutCustom();
      SideLayersKinds(0);
      SideLayersKinds(1);
      forall l | l in all && !l.kind.Custom? && !l.kind.Cutout? ensures l.kind.side in sides {
        assert l in fixed;
      }
      forall l ensures l in all && l.kind.Custom? <==>
        exists c :: c in customLayers.Values && c.visible != 0 && l == Layer(Custom(c.layer), c.color)
      {
        if l in all && l.kind.Custom? {
          assert l in custom;
        }
      }
    }

    /** The visible custom layers, in position order, are custom layers, and they are the visible custom layers
        of the board. */
    lemma LayoutCustom()
      requires Valid()
      ensures forall l :: l in Visible(SortByPosition(CustomValues())) ==> l.kind.Custom?
      ensures forall l :: l in Visible(SortByPosition(CustomValues())) <==>
        exists c :: c in customLayers.Values && c.visible != 0 && l == Layer(Custom(c.layer), c.color)
    {
      CustomLayersInOrder(CustomValues());
      CustomValuesAreValues();
    }

    /** `connectH` / `connectV` / `connectD`: convert the arguments (connectD always as explicit points), route
        them with the sides (by default every segment on top), and append the one new connection, which is
        returned; the components and custom layers are left alone. */
    method Connect(rule: Rule, args: seq<Endpoint>, mode: string, width: Option<real>, sides: Option<seq<int>>)
      returns (r: Result<Connection>)
      modifies this
      ensures r.Ok? ==> fresh(r.value) && connections == old(connections) + [r.value]
      ensures r.Err? ==> connections == old(connections)
      ensures var converted := Converted(if rule == Diagonal then "explicit" else mode, args, |args|);
        && (converted.Err? ==> r == Err(converted.error))
        && (converted.Ok? ==>
              var route := Route(rule, converted.value, if sides.Some? then sides.value else DefaultSides(|args|));
              && (route.Err? ==> r == Err(route.error))
              && (route.Ok? ==> r.Ok? && r.value.points == route.value.0 && r.value.sides == route.value.1
                                && r.value.width == (if width.Some? then width.value else DefaultWidth)
                                && r.value.jumpers == []))
      ensures components == old(components) && customLayers == old(customLayers) && layerOrder == old(layerOrder)
      ensures customCutout == old(customCutout)
    {
      var w := if width.Some? then width.value else DefaultWidth;
      var ss := if sides.Some? then sides.value else DefaultSides(|args|);
      var converted := ConvertArgs(if rule == Diagonal then "explicit" else mode, args);
      if converted.Err? {
        return Err(converted.error);
      }
      var route := Routing.Connect(rule, converted.value, ss);
      if route.Err? {
        return Err(route.error);
      }
      var (points, newSides) := route.value;
      RoutePoints(rule, converted.value, ss);
      var c := new Connection(w, points, Some(newSides));
      assert c.points == points by {
        forall i | 0 <= i < |points| ensures c.points[i] == points[i] {
          assert points[i] in points;
          assert points[i] in converted.value || points[i].Free?;
        }
      }
      connections := connections + [c];
      r := Ok(c);
    }
  }
}
