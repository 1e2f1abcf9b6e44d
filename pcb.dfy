/** The board bookkeeping of koko/lib/pcb.py: a PCB collects components and connections, routes connections with
    the horizontal-first or vertical-first rule, looks up component pins by 1-based index or by name, and lists the
    layers of its layout. Shapes (pads, labels, traces) are opaque; only which of them exist is modelled. */
module Pcb {
  import opened Exceptions
  import opened Geometry
  import opened Routing
  import opened Pins

  /** The trace width used when the caller passes none. */
  const DefaultWidth: real := 0.016

  /** A pin of a footprint: position relative to its component, pad shape and name (possibly empty). */
  datatype Pin = Pin(x: real, y: real, shape: Shape, name: string)

  /** A placed component; its pins come from the footprint subclass. */
  datatype Component = Component(x: real, y: real, rot: real, name: string, pins: seq<Pin>)

  /** A pin localised to a component, as `Component.__getitem__` returns it. */
  datatype BoundPin = BoundPin(pin: Pin, component: Component)

  /** A trace of the given width through a list of points. */
  datatype Connection = Connection(width: real, points: seq<Endpoint>)

  /** What `PCB += rhs` may receive. */
  datatype Item = ComponentItem(component: Component) | ConnectionItem(connection: Connection) | OtherItem

  /** A layer of the layout: which group of shapes, drawn in which colour. */
  datatype LayerKind = PartLabels | PinLabels | Traces
  datatype Layer = Layer(kind: LayerKind, color: Color)

  /** A label drawn at a pin: its text (the pin name), the pin it belongs to and the text size. */
  datatype PinLabel = PinLabel(text: string, pin: Pin, size: real)

  /** The outline of the board: the custom cutout when one is set, otherwise a rectangle. */
  datatype Outline = CustomOutline(shape: Shape) | Rectangle(xmin: real, xmax: real, ymin: real, ymax: real)

  /** `Connection.__init__`: every BoundPin is kept as it is, every other argument becomes a Point with the same
      coordinates; order and count are preserved. */
  function NewConnection(width: real, args: seq<Endpoint>): (c: Connection)
    ensures c.width == width && |c.points| == |args|
    ensures forall i :: 0 <= i < |args| ==> c.points[i].at == args[i].at
    ensures forall i :: 0 <= i < |args| ==> (args[i].Pinned? ==> c.points[i] == args[i])
    ensures forall i :: 0 <= i < |args| ==> (c.points[i].Pinned? <==> args[i].Pinned?)
  {
    Connection(width, seq(|args|, i requires 0 <= i < |args| => if args[i].Pinned? then args[i] else Free(args[i].at)))
  }

  // ---------------------------------------------------------------------------------------------------------------
  // Pin lookup

  function Names(pins: seq<Pin>): (r: seq<string>)
    ensures |r| == |pins| && forall j :: 0 <= j < |pins| ==> r[j] == pins[j].name
  {
    seq(|pins|, j requires 0 <= j < |pins| => pins[j].name)
  }

  /** `Component.__getitem__` as written, where a number i <= 0 counts from the end of the pin list. */
  function GetPinAsWritten(c: Component, key: Key): (r: Result<BoundPin>)
    ensures r.Ok? ==> r.value.component == c && r.value.pin in c.pins
  {
    var found := PinIndexAsWritten(Names(c.pins), key);
    if found.Err? then Err(found.error) else Ok(BoundPin(c.pins[found.value], c))
  }

  /** `Component.__getitem__` with the 1-based numbering it evidently intends. */
  function GetPin(c: Component, key: Key): (r: Result<BoundPin>)
    ensures r.Ok? ==> r.value.component == c && r.value.pin in c.pins
  {
    var found := PinIndex(Names(c.pins), key);
    if found.Err? then Err(found.error) else Ok(BoundPin(c.pins[found.value], c))
  }

  /** A name finds the first pin of that name, and raises IndexError when no pin has it. */
  lemma GetPinByName(c: Component, name: string)
    ensures GetPin(c, Name(name)).Err? <==> forall j :: 0 <= j < |c.pins| ==> c.pins[j].name != name
    ensures GetPin(c, Name(name)).Err? ==> GetPin(c, Name(name)).error == IndexError
    ensures GetPin(c, Name(name)).Ok? ==>
      exists j :: 0 <= j < |c.pins| && GetPin(c, Name(name)).value.pin == c.pins[j] && c.pins[j].name == name
        && forall l :: 0 <= l < j ==> c.pins[l].name != name
  {
    PinIndexByName(Names(c.pins), name);
    var r := PinIndex(Names(c.pins), Name(name));
    if r.Ok? {
      assert GetPin(c, Name(name)).value.pin == c.pins[r.value];
    }
  }

  /** Numbers 1..len(pins) select pins[i-1]; every other number raises IndexError, and so does any key that is
      neither a name nor a number (as UnboundLocalError). */
  lemma GetPinByNumber(c: Component, i: int)
    ensures GetPin(c, Number(i)).Ok? <==> 1 <= i <= |c.pins|
    ensures 1 <= i <= |c.pins| ==> GetPin(c, Number(i)) == Ok(BoundPin(c.pins[i - 1], c))
    ensures !(1 <= i <= |c.pins|) ==> GetPin(c, Number(i)) == Err(IndexError)
    ensures GetPin(c, OtherKey) == Err(UnboundLocalError)
  {
    PinIndexByNumber(Names(c.pins), i);
  }

  /** The two lookups agree on every key except the numbers below 1. */
  lemma GetPinAgrees(c: Component, key: Key)
    requires key.Number? ==> key.i >= 1
    ensures GetPinAsWritten(c, key) == GetPin(c, key)
  {
    PinIndexAgrees(Names(c.pins), key);
  }

  /** As written, pin number 0 of a component with pins is not an error: it is the last pin. */
  lemma PinZeroIsLastPin(c: Component)
    requires |c.pins| > 0
    ensures GetPinAsWritten(c, Number(0)) == Ok(BoundPin(c.pins[|c.pins| - 1], c))
    ensures GetPin(c, Number(0)) == Err(IndexError)
  {
    Pins.PinZeroIsLastPin(Names(c.pins), 0);
  }

  // ---------------------------------------------------------------------------------------------------------------
  // Pin labels

  /** The pins that carry a label: those with a non-empty name, in pin order. */
  function NamedPins(pins: seq<Pin>): seq<Pin> {
    if pins == [] then []
    else NamedPins(pins[..|pins| - 1]) + (if pins[|pins| - 1].name != "" then [pins[|pins| - 1]] else [])
  }

  lemma {:induction false} NamedPinsMembers(pins: seq<Pin>)
    ensures forall p :: p in NamedPins(pins) <==> p in pins && p.name != ""
    ensures |NamedPins(pins)| <= |pins|
  {
    if pins != [] {
      var init := pins[..|pins| - 1];
      NamedPinsMembers(init);
      assert pins == init + [pins[|pins| - 1]];
    }
  }

  function LabelOf(p: Pin): PinLabel {
    PinLabel(p.name, p, 0.03)
  }

  /** `Component.pin_labels`: one label (text size 0.03) per named pin, in pin order, or None when no pin is
      named. */
  method ComponentPinLabels(c: Component) returns (r: Option<seq<PinLabel>>)
    ensures r.None? <==> forall p :: p in c.pins ==> p.name == ""
    ensures r.Some? ==> |r.value| == |NamedPins(c.pins)|
    ensures r.Some? ==> forall j :: 0 <= j < |r.value| ==> r.value[j] == LabelOf(NamedPins(c.pins)[j])
  {
    var labels: seq<PinLabel> := [];
    var i := 0;
    while i < |c.pins|
      invariant 0 <= i <= |c.pins|
      invariant |labels| == |NamedPins(c.pins[..i])|
      invariant forall j :: 0 <= j < |labels| ==> labels[j] == LabelOf(NamedPins(c.pins[..i])[j])
    {
      assert c.pins[..i + 1][..i] == c.pins[..i];
      var p := c.pins[i];
      if p.name != "" {
        labels := labels + [LabelOf(p)];
      }
      i := i + 1;
    }
    assert c.pins[..i] == c.pins;
    NamedPinsMembers(c.pins);
    if labels != [] {
      assert NamedPins(c.pins)[0] in NamedPins(c.pins);
    }
    r := if labels == [] then None else Some(labels);
  }

  /** Whether `Component.pin_labels` is not None, without building the labels. */
  predicate HasPinLabels(c: Component) {
    exists p :: p in c.pins && p.name != ""
  }

  // ---------------------------------------------------------------------------------------------------------------
  // The board

  /** The colours of the three layout layers. */
  const PartLabelColor := Rgb(125, 200, 60)
  const PinLabelColor := Rgb(255, 90, 60)
  const TraceColor := Rgb(125, 90, 60)

  class Board {
    const x0: real
    const y0: real
    const width: real
    const height: real
    var components: seq<Component>
    var connections: seq<Connection>
    /** `_cutout`: a custom board outline, None until a caller sets it. */
    var customCutout: Option<Shape>

    constructor (x0: real, y0: real, width: real, height: real)
      ensures this.x0 == x0 && this.y0 == y0 && this.width == width && this.height == height
      ensures components == [] && connections == [] && customCutout == None
    {
      this.x0, this.y0, this.width, this.height := x0, y0, width, height;
      components, connections, customCutout := [], [], None;
    }

    /** `PCB.cutout`: the custom outline when set, otherwise the rectangle whose lower-left corner is (x0, y0) and
        whose extent is width by height. */
    function Cutout(): (r: Outline)
      reads this
      ensures customCutout.Some? <==> r.CustomOutline?
      ensures customCutout.Some? ==> r.shape == customCutout.value
      ensures r.Rectangle? ==>
        r.xmin == x0 && r.ymin == y0 && r.xmax - r.xmin == width && r.ymax - r.ymin == height
    {
      match customCutout
      case Some(s) => CustomOutline(s)
      case None => Rectangle(x0, x0 + width, y0, y0 + height)
    }

    /** Building the trace shapes fails with TypeError (reduce() over an empty list) when a component has no pins
        or a connection has fewer than two points. */
    predicate TracesFail()
      reads this
    {
      (exists c :: c in components && c.pins == []) || (exists k :: k in connections && |k.points| < 2)
    }

    predicate AnyPinLabels()
      reads this
    {
      exists c :: c in components && HasPinLabels(c)
    }

    /** `PCB.layout` as written: `part_labels`, `pin_labels` and `traces` each assign `.bounds` on the reduced
        shape, which is None when their list is empty, so an empty group raises AttributeError instead of being
        left out. */
    function LayoutAsWritten(): (r: Result<seq<Layer>>)
      reads this
    {
      if components == [] then Err(AttributeError)
      else if !AnyPinLabels() then Err(AttributeError)
      else if TracesFail() then Err(TypeError)
      else Ok([Layer(PartLabels, PartLabelColor), Layer(PinLabels, PinLabelColor), Layer(Traces, TraceColor)])
    }

    /** `PCB.layout` with empty groups left out, as the `if` tests in `layout` intend: part labels, then pin labels,
        then traces. */
    function Layout(): (r: Result<seq<Layer>>)
      reads this
    {
      if TracesFail() then Err(TypeError)
      else Ok((if components != [] then [Layer(PartLabels, PartLabelColor)] else [])
              + (if AnyPinLabels() then [Layer(PinLabels, PinLabelColor)] else [])
              + (if components != [] || connections != [] then [Layer(Traces, TraceColor)] else []))
    }

    /** The layout lists each group exactly when that group has a shape, in the order part labels, pin labels,
        traces, each in its own colour. */
    lemma LayoutGroups()
      ensures Layout().Err? <==> TracesFail()
      ensures Layout().Ok? ==>
        var ls := Layout().value;
        && (Layer(PartLabels, PartLabelColor) in ls <==> components != [])
        && (Layer(PinLabels, PinLabelColor) in ls <==> AnyPinLabels())
        && (Layer(Traces, TraceColor) in ls <==> components != [] || connections != [])
        && (forall i, j :: 0 <= i < j < |ls| ==> Rank(ls[i].kind) < Rank(ls[j].kind))
    {
    }

    /** Where the layout as written succeeds, the intended layout is the same. */
    lemma LayoutAgrees()
      requires LayoutAsWritten().Ok?
      ensures Layout() == LayoutAsWritten()
    {
      assert components != [] && AnyPinLabels() && !TracesFail();
      var ls := [Layer(PartLabels, PartLabelColor)] + [Layer(PinLabels, PinLabelColor)] + [Layer(Traces, TraceColor)];
      assert Layout() == Ok(ls);
      assert ls == [Layer(PartLabels, PartLabelColor), Layer(PinLabels, PinLabelColor), Layer(Traces, TraceColor)];
    }

    /** A board with no components: the layout as written raises AttributeError, the intended one lists at most the
        traces. */
    lemma EmptyBoardLayout()
      requires components == [] && connections == []
      ensures LayoutAsWritten() == Err(AttributeError)
      ensures Layout() == Ok([])
    {
      assert !TracesFail() && !AnyPinLabels();
      var none: seq<Layer> := [];
      assert Layout() == Ok(none + none + none);
      assert none + none + none == [];
    }

    /** `PCB += rhs`: a component goes to `components`, a connection to `connections`, anything else raises
        TypeError; the board itself is the result. */
    method Add(item: Item) returns (r: Result<Board>)
      modifies this
      ensures item.OtherItem? <==> r == Err(TypeError)
      ensures r.Ok? ==> r.value == this
      ensures components == old(components) + (if item.ComponentItem? then [item.component] else [])
      ensures connections == old(connections) + (if item.ConnectionItem? then [item.connection] else [])
      ensures customCutout == old(customCutout)
    {
      match item
      case ComponentItem(c) =>
        components := components + [c];
        r := Ok(this);
      case ConnectionItem(k) =>
        connections := connections + [k];
        r := Ok(this);
      case OtherItem =>
        r := Err(TypeError);
    }

    /** `PCB.connectH` / `PCB.connectV`: route the endpoints (every pair, no sides), append one connection, leave
        the components alone. Fewer than two endpoints leave the loop variables unbound. */
    method Connect(rule: Rule, args: seq<Endpoint>, width: Option<real>) returns (r: Result<()>)
      requires rule != Diagonal
      modifies this
      ensures r.Err? <==> |args| < 2
      ensures r.Err? ==> r.error == UnboundLocalError && connections == old(connections)
      ensures r.Ok? ==>
        connections == old(connections) + [NewConnection(if width.Some? then width.value else DefaultWidth,
                                                         Polyline(rule, args, |args| - 1))]
      ensures components == old(components) && customCutout == old(customCutout)
    {
      var w := if width.Some? then width.value else DefaultWidth;
      var route := Routing.Connect(rule, args, if args == [] then [] else seq(|args| - 1, _ => 0));
      match route
      case Err(e) =>
        r := Err(e);
      case Ok((points, _)) =>
        connections := connections + [NewConnection(w, points)];
        r := Ok(());
    }
  }

  function Rank(k: LayerKind): nat {
    match k
    case PartLabels => 0
    case PinLabels => 1
    case Traces => 2
  }

  /** Every connection `connectH` or `connectV` appends is an axis-aligned polyline from the first endpoint to the
      last one. */
  lemma ConnectedTraceShape(rule: Rule, args: seq<Endpoint>, width: real)
    requires rule != Diagonal && |args| >= 2
    ensures var c := NewConnection(width, Polyline(rule, args, |args| - 1));
      && c.points[0].at == args[0].at && c.points[|c.points| - 1].at == args[|args| - 1].at
      && forall i :: 0 <= i < |c.points| - 1 ==>
           c.points[i].at.x == c.points[i + 1].at.x || c.points[i].at.y == c.points[i + 1].at.y
  {
    var ps := Polyline(rule, args, |args| - 1);
    PolylineShape(rule, args, |args| - 1);
    var c := NewConnection(width, ps);
    forall i | 0 <= i < |c.points| - 1
      ensures c.points[i].at.x == c.points[i + 1].at.x || c.points[i].at.y == c.points[i + 1].at.y
    {
      assert Step(rule, ps[i].at, ps[i + 1].at);
    }
  }
}
