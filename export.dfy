/** The export drivers of koko/export.py. A CAD export task looks at the extension of the target file name and runs
    the matching driver, which renders, samples, contours or triangulates each shape through the geometry engine,
    reports its progress, checks the cancel flag between stages, and finally merges and saves the result. The
    engine and the files it writes are abstract: every call into it is an entry of the export task's log, and its results
    are functions held by the export task. The cancel button is an oracle that is asked whenever the code reads a flag. */
module Export {
  import opened Exceptions
  import opened Geometry

  // ---------------------------------------------------------------------------------------------------------------
  // The extension and the driver it selects

  /** The index of the last '.' among the first k characters of s. */
  function LastDot(s: string, k: nat): (r: Option<nat>)
    requires k <= |s|
    ensures r.Some? ==> r.value < k && s[r.value] == '.' && forall j :: r.value < j < k ==> s[j] != '.'
    ensures r.None? ==> forall j :: 0 <= j < k ==> s[j] != '.'
  {
    if k == 0 then None else if s[k - 1] == '.' then Some(k - 1) else LastDot(s, k - 1)
  }

  /** `filename.split('.')[-1]`: the text after the last '.', or the whole name when it holds none. */
  function Extension(name: string): (r: string)
    ensures '.' !in r
    ensures |r| <= |name| && r == name[|name| - |r|..]
    ensures |r| < |name| ==> name[|name| - |r| - 1] == '.'
  {
    var dot := LastDot(name, |name|);
    if dot.None? then name else name[dot.value + 1..]
  }

  /** A name without a dot is its own extension; a dot followed by a dot-free tail has that tail as extension. */
  lemma ExtensionCases(base: string, ext: string)
    requires '.' !in ext
    ensures Extension(ext) == ext
    ensures Extension(base + "." + ext) == ext
  {
    var s := base + "." + ext;
    assert s[|base|] == '.';
    var dot := LastDot(s, |s|);
    assert forall j :: |base| < j < |s| ==> s[j] == ext[j - |base| - 1];
    assert dot.Some? && dot.value == |base|;
    assert s[|base| + 1..] == ext;
  }

  /** The drivers of the CAD export task, one per `export_<ext>` method. */
  datatype Driver = Png | AsdfFile | Svg | Stl | Dot

  function DriverName(d: Driver): string {
    match d
    case Png => "png"
    case AsdfFile => "asdf"
    case Svg => "svg"
    case Stl => "stl"
    case Dot => "dot"
  }

  /** `getattr(self, 'export_%s' % self.extension)`: the driver whose name is the extension, if there is one. */
  function CadDriver(ext: string): (r: Option<Driver>)
  {
    if ext == "png" then Some(Png)
    else if ext == "asdf" then Some(AsdfFile)
    else if ext == "svg" then Some(Svg)
    else if ext == "stl" then Some(Stl)
    else if ext == "dot" then Some(Dot)
    else None
  }

  /** The CAD task supports exactly the five drivers, each under its own name. */
  lemma CadDriverNames(ext: string, d: Driver)
    ensures CadDriver(DriverName(d)) == Some(d)
    ensures CadDriver(ext).Some? ==> DriverName(CadDriver(ext).value) == ext
    ensures CadDriver(ext).None? <==> ext !in {"png", "asdf", "svg", "stl", "dot"}
  {
  }

  /** The drivers of the ASDF export task. */
  datatype AsdfDriver = AsdfPng | AsdfStl | AsdfAsdf

  function AsdfDriverName(d: AsdfDriver): string {
    match d
    case AsdfPng => "png"
    case AsdfStl => "stl"
    case AsdfAsdf => "asdf"
  }

  function AsdfTaskDriver(ext: string): (r: Option<AsdfDriver>)
  {
    if ext == "png" then Some(AsdfPng)
    else if ext == "stl" then Some(AsdfStl)
    else if ext == "asdf" then Some(AsdfAsdf)
    else None
  }

  /** The ASDF task supports exactly png, stl and asdf. */
  lemma AsdfTaskDriverNames(ext: string, d: AsdfDriver)
    ensures AsdfTaskDriver(AsdfDriverName(d)) == Some(d)
    ensures AsdfTaskDriver(ext).Some? ==> AsdfDriverName(AsdfTaskDriver(ext).value) == ext
    ensures AsdfTaskDriver(ext).None? <==> ext !in {"png", "stl", "asdf"}
  {
  }

  // ---------------------------------------------------------------------------------------------------------------
  // Shapes and sampling regions

  /** A CAD expression: its bounds, its extent on each axis and its colour (None when it has none). */
  datatype Expr = Expr(
    id: nat, xmin: real, xmax: real, ymin: real, ymax: real, zmin: real, zmax: real,
    dx: real, dy: real, dz: real, color: Option<Color>)

  /** The CAD structure: the shapes, their union, the overall bounds (the z bounds may be missing), the scale and
      the border fraction. */
  datatype Cad = Cad(
    shapes: seq<Expr>, shape: Expr, xmin: real, xmax: real, ymin: real, ymax: real,
    zmin: Option<real>, zmax: Option<real>, mmPerUnit: real, border: real)

  /** The options that the caller injects into an export task. */
  datatype Options = Options(makeHeightmap: bool, useCms: bool, resolution: real, dotArrays: bool)

  datatype Vec3 = Vec3(x: real, y: real, z: real)

  /** A sampling box: two corners and the pitch of the samples (the engine's `Region`). */
  datatype Box = Box(lo: Vec3, hi: Vec3, pitch: real)

  /** The region a driver hands to the engine, kept as the arguments it is built from: the region of
      `make_image` over the CAD bounds, or the region of `make_asdf` around one shape. Corners computes the box. */
  datatype Region =
    | ImageRegion(cad: Cad, resolution: real)
    | FieldRegion(cad: Cad, shape: Expr, resolution: real, flat: bool)

  /** A falsy z bound (None or 0) becomes 0. */
  function OrZero(v: Option<real>): real {
    if v.Some? then v.value else 0.0
  }

  /** The box of a region. For `make_image`: the CAD bounds, a falsy z bound taken as 0, and pitch
      resolution*mm_per_unit. For `make_asdf`: the shape's bounds widened on both sides by border*d on each axis,
      with both z bounds at 0 when `flat` is set, and the same pitch. */
  function Corners(r: Region): Box {
    match r
    case ImageRegion(cad, resolution) =>
      Box(Vec3(cad.xmin, cad.ymin, OrZero(cad.zmin)), Vec3(cad.xmax, cad.ymax, OrZero(cad.zmax)),
          resolution * cad.mmPerUnit)
    case FieldRegion(cad, e, resolution, flat) =>
      var b := cad.border;
      Box(Vec3(e.xmin - b * e.dx, e.ymin - b * e.dy, if flat then 0.0 else e.zmin - b * e.dz),
          Vec3(e.xmax + b * e.dx, e.ymax + b * e.dy, if flat then 0.0 else e.zmax + b * e.dz),
          resolution * cad.mmPerUnit)
  }

  /** The image region spans the CAD bounds, with the z bounds 0 when they are absent or 0. */
  lemma ImageRegionBounds(cad: Cad, resolution: real)
    ensures var r := Corners(ImageRegion(cad, resolution));
      && r.lo.x == cad.xmin && r.hi.x == cad.xmax && r.lo.y == cad.ymin && r.hi.y == cad.ymax
      && (cad.zmin.None? ==> r.lo.z == 0.0) && (cad.zmax.None? ==> r.hi.z == 0.0)
      && (cad.zmin.Some? ==> r.lo.z == cad.zmin.value) && (cad.zmax.Some? ==> r.hi.z == cad.zmax.value)
      && r.pitch == resolution * cad.mmPerUnit
  {
  }

  /** The widened region keeps the shape's centre on every axis, each side grows by 2*border*d, it contains the
      shape's box when border and extents are not negative, and a flat region has both z bounds at 0. */
  lemma FieldRegionWidens(cad: Cad, e: Expr, resolution: real, flat: bool)
    ensures var r := Corners(FieldRegion(cad, e, resolution, flat));
      && r.lo.x + r.hi.x == e.xmin + e.xmax && r.lo.y + r.hi.y == e.ymin + e.ymax
      && r.hi.x - r.lo.x == (e.xmax - e.xmin) + 2.0 * cad.border * e.dx
      && r.hi.y - r.lo.y == (e.ymax - e.ymin) + 2.0 * cad.border * e.dy
      && (flat ==> r.lo.z == 0.0 && r.hi.z == 0.0)
      && (!flat ==> r.lo.z + r.hi.z == e.zmin + e.zmax && r.hi.z - r.lo.z == (e.zmax - e.zmin) + 2.0 * cad.border * e.dz)
      && r.pitch == resolution * cad.mmPerUnit
    ensures var r := Corners(FieldRegion(cad, e, resolution, flat));
      cad.border >= 0.0 && e.dx >= 0.0 && e.dy >= 0.0 ==>
        r.lo.x <= e.xmin && e.xmax <= r.hi.x && r.lo.y <= e.ymin && e.ymax <= r.hi.y
  {
    var b := cad.border;
    if b >= 0.0 && e.dx >= 0.0 && e.dy >= 0.0 {
      assert b * e.dx >= 0.0 && b * e.dy >= 0.0;
    }
  }

  // ---------------------------------------------------------------------------------------------------------------
  // Progress schedules

  /** A value written to the progress gauge: `count*scale/total` after `count` steps of a loop over `total`
      shapes, or a fixed percentage. */
  datatype Progress = Fraction(count: nat, scale: nat, total: nat) | Percent(p: nat)

  predicate Defined(r: Progress) {
    r.Fraction? ==> r.total > 0
  }

  /** The number the gauge is set to (true division). */
  function Value(r: Progress): real
    requires Defined(r)
  {
    match r
    case Fraction(count, scale, total) => (count * scale) as real / total as real
    case Percent(p) => p as real
  }

  /** The progress values of the png loop after k of n shapes: i*90/n for i = 1..k. */
  function PngProgress(k: nat, n: nat): (r: seq<Progress>)
    requires k <= n
    ensures |r| == k
  {
    seq(k, j requires 0 <= j < k => Fraction(j + 1, 90, n))
  }

  lemma PngProgressStep(h: seq<Progress>, k: nat, n: nat)
    requires k < n
    ensures h + PngProgress(k, n) + [Fraction(k + 1, 90, n)] == h + PngProgress(k + 1, n)
  {
    assert PngProgress(k, n) + [Fraction(k + 1, 90, n)] == PngProgress(k + 1, n);
  }

  /** The t-th progress value of the svg and stl loops over n shapes: the counter is 3j+1 after the first stage of
      shape j and 3j+3 after the second, and the value is counter*33/n. */
  function StageProgress(t: nat, n: nat): Progress
    requires t < 2 * n
  {
    var counter := if t % 2 == 0 then 3 * (t / 2) + 1 else 3 * (t / 2) + 3;
    Fraction(counter, 33, n)
  }

  /** The first m progress values of the svg and stl loops. */
  function StageSchedule(m: nat, n: nat): (r: seq<Progress>)
    requires m <= 2 * n
    ensures |r| == m
  {
    seq(m, t requires 0 <= t < m => StageProgress(t, n))
  }

  /** The k progress values of the svg and stl loops from the t0-th on. */
  function Stages(t0: nat, k: nat, n: nat): (r: seq<Progress>)
    requires t0 + k <= 2 * n
    ensures |r| == k
  {
    seq(k, t requires 0 <= t < k => StageProgress(t0 + t, n))
  }

  /** A history that holds the first t0 values of the schedule followed by the next k holds its first t0+k. */
  lemma StagesConcat(h: seq<Progress>, t0: nat, k: nat, n: nat)
    requires t0 + k <= 2 * n
    ensures h + StageSchedule(t0, n) + Stages(t0, k, n) == h + StageSchedule(t0 + k, n)
  {
    assert StageSchedule(t0, n) + Stages(t0, k, n) == StageSchedule(t0 + k, n);
  }

  /** Every value of s is defined and they never decrease. */
  predicate Rising(s: seq<Progress>) {
    && (forall i :: 0 <= i < |s| ==> Defined(s[i]))
    && forall i, j :: 0 <= i < j < |s| ==> Value(s[i]) <= Value(s[j])
  }

  lemma DivMonotone(a: real, b: real, n: real)
    requires n > 0.0 && a <= b
    ensures a / n <= b / n
  {
    assert b / n - a / n == (b - a) / n;
  }

  lemma DivBound(a: real, m: real, n: real)
    requires n > 0.0 && a <= m * n
    ensures a / n <= m
  {
    assert a / n <= (m * n) / n by { DivMonotone(a, m * n, n); }
  }

  lemma DivStrict(a: real, b: real, n: real)
    requires n > 0.0 && a < b
    ensures a / n < b / n
  {
    assert b / n - a / n == (b - a) / n;
  }

  /** One value of the png loop: the c-th of n shapes done gives a value in (0, 90], and 90 only when c == n. */
  lemma PngValue(c: nat, n: nat)
    requires 0 < c <= n
    ensures 0.0 < Value(Fraction(c, 90, n)) <= 90.0
    ensures Value(Fraction(c, 90, n)) == 90.0 <==> c == n
  {
    var a, nr := (c * 90) as real, n as real;
    assert Value(Fraction(c, 90, n)) == a / nr;
    DivBound(a, 90.0, nr);
    assert a / nr * nr == a;
    if a / nr == 90.0 {
      assert a == 90.0 * nr;
    }
  }

  /** The png loop reports rising values in (0, 90], reaching 90 exactly after the last shape. */
  lemma PngProgressBounds(k: nat, n: nat)
    requires k <= n
    ensures Rising(PngProgress(k, n))
    ensures forall j :: 0 <= j < k ==> 0.0 < Value(PngProgress(k, n)[j]) <= 90.0
    ensures 0 < k ==> (Value(PngProgress(k, n)[k - 1]) == 90.0 <==> k == n)
  {
    var r := PngProgress(k, n);
    forall i, j | 0 <= i < j < k ensures Value(r[i]) <= Value(r[j]) {
      DivMonotone(((i + 1) * 90) as real, ((j + 1) * 90) as real, n as real);
    }
    forall j | 0 <= j < k ensures 0.0 < Value(r[j]) <= 90.0 {
      PngValue(j + 1, n);
    }
    if 0 < k {
      PngValue(k, n);
    }
  }

  /** A png export that finishes reports rising values that end with 90 and then 100. */
  lemma PngRunRises(n: nat)
    ensures Rising(PngProgress(n, n) + [Percent(90), Percent(100)])
  {
    var r := PngProgress(n, n);
    PngProgressBounds(n, n);
    var s := r + [Percent(90), Percent(100)];
    forall i, j | 0 <= i < j < |s| ensures Value(s[i]) <= Value(s[j]) {
      if j < n {
        assert s[i] == r[i] && s[j] == r[j];
      } else if i < n {
        assert s[i] == r[i];
      }
    }
  }

  /** The svg and stl loops report rising values below 100 (at most 99), so they never report 100. */
  lemma StageScheduleBounds(m: nat, n: nat)
    requires m <= 2 * n
    ensures Rising(StageSchedule(m, n))
    ensures forall t :: 0 <= t < m ==> 0.0 < Value(StageSchedule(m, n)[t]) <= 99.0
  {
    var r := StageSchedule(m, n);
    forall i, j | 0 <= i < j < m ensures Value(r[i]) <= Value(r[j]) {
      var ci := if i % 2 == 0 then 3 * (i / 2) + 1 else 3 * (i / 2) + 3;
      var cj := if j % 2 == 0 then 3 * (j / 2) + 1 else 3 * (j / 2) + 3;
      assert ci <= cj;
      DivMonotone((ci * 33) as real, (cj * 33) as real, n as real);
    }
    forall t | 0 <= t < m ensures 0.0 < Value(r[t]) <= 99.0 {
      var c := if t % 2 == 0 then 3 * (t / 2) + 1 else 3 * (t / 2) + 3;
      assert c <= 3 * n;
      DivBound((c * 33) as real, 99.0, n as real);
    }
  }

  // ---------------------------------------------------------------------------------------------------------------
  // The engine and the log of what the drivers did

  /** Opaque results of the geometry engine. */
  datatype Image = Image(id: nat, color: Option<Color>)
  datatype Field = Field(id: nat)
  datatype Mesh = Mesh(id: nat)
  datatype SvgPath = SvgPath(id: nat)

  /** What a `save` writes: a single image, the merge of a list of images, a distance field, the merge of a list of
      meshes, a single mesh, or the math tree of an expression (with or without arrays). */
  datatype Artifact =
    | ImageFile(image: Image)
    | MergedImages(images: seq<Image>)
    | FieldFile(field: Field)
    | MergedMeshes(meshes: seq<Mesh>)
    | MeshFile(mesh: Mesh)
    | DotFile(expr: Expr, arrays: bool)

  /** One thing a driver did: a call into the engine with the hard cancel token it got (None when the call takes
      none) and what it returned, a piece of the svg output, or a save. */
  datatype Effect =
    | Rendered(expr: Expr, region: Region, interrupt: bool, image: Option<Image>)
    | Sampled(expr: Expr, region: Region, interrupt: bool, result: Option<Field>)
    | Contoured(source: Field, interrupt: bool, paths: Option<seq<SvgPath>>)
    | Triangulated(input: Field, token: Option<bool>, mesh: Option<Mesh>)
    | AsdfRendered(asdf: Field, alpha: real, beta: real, resolution: real, image: Option<Image>)
    | Compiled(expr: Expr)
    | SvgHeader(dx: real, dy: real)
    | SvgContour(path: SvgPath, xmin: real, ymax: real, stroke: real, color: Color)
    | SvgFooter
    | Saved(file: string, artifact: Artifact)

  /** The engine calls, as functions of their arguments and of the hard cancel token; None is what an interrupted
      (or failed) call returns. */
  datatype Engine = Engine(
    render: (Expr, Region, real, bool) -> Option<Image>,
    asdf: (Expr, Region, real, bool) -> Option<Field>,
    contour: (Field, bool) -> Option<seq<SvgPath>>,
    triangulate: (Field, bool) -> Option<Mesh>,
    triangulateCms: Field -> Option<Mesh>,
    renderAsdf: (Field, real, real, real) -> Option<Image>)

  /** How a driver ended: it reached its end, it returned early because the cancel flag was set, or it raised. */
  datatype Exit = Finished | Cancelled | Raised(error: Exception)

  predicate NoSaves(es: seq<Effect>) {
    forall i :: 0 <= i < |es| ==> !es[i].Saved?
  }

  /** The first |es| shapes were rendered over the region, one render each, in order. */
  predicate RendersInOrder(es: seq<Effect>, shapes: seq<Expr>, region: Region) {
    && |es| <= |shapes|
    && forall j :: 0 <= j < |es| ==> es[j].Rendered? && es[j].expr == shapes[j] && es[j].region == region
  }

  /** The first k renders of es returned images, and imgs holds them in order, each given the colour of its
      expression (`img.color = expr.color`). */
  predicate ImagesOf(es: seq<Effect>, k: nat, imgs: seq<Image>) {
    && k <= |es| && |imgs| == k
    && forall j :: 0 <= j < k ==>
         es[j].Rendered? && es[j].image.Some? && imgs[j] == es[j].image.value.(color := es[j].expr.color)
  }

  /** One more render of the next shape keeps the renders in order; when it returned an image, that image, in
      the shape's colour, extends the images. */
  lemma RenderStep(es: seq<Effect>, x: Effect, shapes: seq<Expr>, region: Region, imgs: seq<Image>)
    requires RendersInOrder(es, shapes, region) && ImagesOf(es, |es|, imgs) && |es| < |shapes|
    requires x.Rendered? && x.expr == shapes[|es|] && x.region == region
    ensures RendersInOrder(es + [x], shapes, region) && ImagesOf(es + [x], |es|, imgs)
    ensures x.image.Some? ==> ImagesOf(es + [x], |es| + 1, imgs + [x.image.value.(color := x.expr.color)])
  {
    var es2 := es + [x];
    assert forall j :: 0 <= j < |es| ==> es2[j] == es[j];
  }

  lemma Snoc<T>(a: seq<T>, b: seq<T>, x: T)
    ensures a + (b + [x]) == a + b + [x]
  {
  }

  /** `expr.color if expr.color else (0,0,0)`. */
  function OrBlack(c: Option<Color>): Color {
    if c.Some? then c.value else Rgb(0, 0, 0)
  }

  function Max(a: real, b: real): real {
    if a >= b then a else b
  }

  /** The placement of the svg drawing: the left and top edges and the size of the CAD bounds in millimetres, and
      the stroke width, one hundredth of the larger side. */
  datatype SvgFrame = SvgFrame(xmin: real, ymax: real, dx: real, dy: real, stroke: real)

  function SvgFrameOf(cad: Cad): SvgFrame {
    var mm := cad.mmPerUnit;
    var dx := (cad.xmax - cad.xmin) * mm;
    var dy := (cad.ymax - cad.ymin) * mm;
    SvgFrame(cad.xmin * mm, cad.ymax * mm, dx, dy, Max(dx, dy) / 100.0)
  }

  /** The stroke is a hundredth of the larger side, and it is positive when the bounds are not empty and the
      scale is positive. */
  lemma SvgFrameStroke(cad: Cad)
    ensures var f := SvgFrameOf(cad); 100.0 * f.stroke == Max(f.dx, f.dy)
    ensures var f := SvgFrameOf(cad); f.stroke >= f.dx / 100.0 && f.stroke >= f.dy / 100.0
    ensures cad.mmPerUnit > 0.0 && cad.xmin < cad.xmax ==> SvgFrameOf(cad).stroke > 0.0
  {
    var f := SvgFrameOf(cad);
    if cad.mmPerUnit > 0.0 && cad.xmin < cad.xmax {
      assert f.dx > 0.0;
    }
  }

  /** The svg contour writes of a list of paths, in order, all with the same placement, stroke and colour. */
  function ContourWrites(paths: seq<SvgPath>, f: SvgFrame, color: Color): (r: seq<Effect>)
    ensures |r| == |paths|
  {
    seq(|paths|, k requires 0 <= k < |paths| => SvgContour(paths[k], f.xmin, f.ymax, f.stroke, color))
  }

  /** The effects of one completed shape of the svg loop start at `at` in es: the flat sampling of the shape, the
      contouring of the field it gave, and one write per contour, in the shape's colour or black. */
  predicate SvgShapeAt(es: seq<Effect>, at: nat, cad: Cad, resolution: real, f: SvgFrame, e: Expr) {
    && at + 2 <= |es|
    && es[at].Sampled? && es[at].expr == e && es[at].region == FieldRegion(cad, e, resolution, true)
    && es[at].result.Some?
    && es[at + 1].Contoured? && es[at + 1].source == es[at].result.value && es[at + 1].paths.Some?
    && at + 2 + |es[at + 1].paths.value| <= |es|
    && es[at + 2..at + 2 + |es[at + 1].paths.value|]
       == ContourWrites(es[at + 1].paths.value, f, OrBlack(e.color))
  }

  function SvgShapeEnd(es: seq<Effect>, at: nat): nat
    requires at + 2 <= |es| && es[at + 1].Contoured? && es[at + 1].paths.Some?
  {
    at + 2 + |es[at + 1].paths.value|
  }

  /** The shapes 0..|starts|-1 of the svg loop were completed one after the other, the first at base and the
      j-th at starts[j], and the last one ends at mark. */
  predicate SvgChunks(es: seq<Effect>, base: nat, starts: seq<nat>, mark: nat, cad: Cad, resolution: real, f: SvgFrame) {
    && |starts| <= |cad.shapes| && base <= mark <= |es|
    && (|starts| == 0 ==> mark == base)
    && (|starts| > 0 ==> starts[0] == base)
    && forall j :: 0 <= j < |starts| ==>
         && SvgShapeAt(es, starts[j], cad, resolution, f, cad.shapes[j])
         && SvgShapeEnd(es, starts[j]) == (if j + 1 < |starts| then starts[j + 1] else mark)
  }

  lemma SvgShapeAtExtend(es: seq<Effect>, more: seq<Effect>, at: nat, cad: Cad, resolution: real, f: SvgFrame, e: Expr)
    requires SvgShapeAt(es, at, cad, resolution, f, e)
    ensures SvgShapeAt(es + more, at, cad, resolution, f, e) && SvgShapeEnd(es + more, at) == SvgShapeEnd(es, at)
  {
    var end := SvgShapeEnd(es, at);
    assert (es + more)[at + 2..end] == es[at + 2..end];
  }

  /** Appending to the log keeps the completed shapes. */
  lemma SvgChunksExtend(es: seq<Effect>, more: seq<Effect>, base: nat, starts: seq<nat>, mark: nat, cad: Cad,
                        resolution: real, f: SvgFrame)
    requires SvgChunks(es, base, starts, mark, cad, resolution, f)
    ensures SvgChunks(es + more, base, starts, mark, cad, resolution, f)
  {
    forall j | 0 <= j < |starts|
      ensures SvgShapeAt(es + more, starts[j], cad, resolution, f, cad.shapes[j])
      ensures SvgShapeEnd(es + more, starts[j]) == SvgShapeEnd(es, starts[j])
    {
      SvgShapeAtExtend(es, more, starts[j], cad, resolution, f, cad.shapes[j]);
    }
  }

  /** One more completed shape at mark extends the chunks. */
  lemma SvgChunksStep(es: seq<Effect>, base: nat, starts: seq<nat>, mark: nat, cad: Cad, resolution: real, f: SvgFrame)
    requires SvgChunks(es, base, starts, mark, cad, resolution, f) && |starts| < |cad.shapes|
    requires SvgShapeAt(es, mark, cad, resolution, f, cad.shapes[|starts|])
    ensures SvgChunks(es, base, starts + [mark], SvgShapeEnd(es, mark), cad, resolution, f)
  {
    var s := starts + [mark];
    forall j | 0 <= j < |s|
      ensures SvgShapeAt(es, s[j], cad, resolution, f, cad.shapes[j])
      ensures SvgShapeEnd(es, s[j]) == (if j + 1 < |s| then s[j + 1] else SvgShapeEnd(es, mark))
    {
      if j < |starts| {
        assert s[j] == starts[j];
        assert SvgShapeEnd(es, starts[j]) == (if j + 1 < |starts| then starts[j + 1] else mark);
        if j + 1 < |starts| {
          assert s[j + 1] == starts[j + 1];
        } else {
          assert s[j + 1] == mark;
        }
      }
    }
  }

  /** How a shape of the svg loop that did not complete left the log after `at`: a cancel at its first check
      (nothing), a cancel at its second check (the sampling only), a sampled field of None, which has no
      `contour` (AttributeError), or contours of None, which cannot be iterated (TypeError). */
  predicate SvgStopped(es: seq<Effect>, at: nat, e: Expr, stop: Exit) {
    && at <= |es|
    && (|es| > at ==> es[at].Sampled? && es[at].expr == e)
    && match stop
       case Cancelled => |es| <= at + 1
       case Raised(err) =>
         if err == AttributeError then |es| == at + 1 && es[at].result.None?
         else
           && err == TypeError && |es| == at + 2 && es[at].result.Some?
           && es[at + 1].Contoured? && es[at + 1].source == es[at].result.value && es[at + 1].paths.None?
       case Finished => false
  }

  /** The effects of one completed shape of the stl loop start at `at`: the sampling of the shape and the
      triangulation of the field it gave, with the hard token unless `use_cms` is set. */
  predicate StlShapeAt(es: seq<Effect>, at: nat, cad: Cad, opts: Options, e: Expr) {
    && at + 2 <= |es|
    && es[at].Sampled? && es[at].expr == e && es[at].region == FieldRegion(cad, e, opts.resolution, false)
    && es[at].result.Some?
    && es[at + 1].Triangulated? && es[at + 1].input == es[at].result.value && (opts.useCms <==> es[at + 1].token.None?)
  }

  /** The shapes 0..k-1 of the stl loop were completed one after the other, two effects each, from base. */
  predicate StlChunks(es: seq<Effect>, base: nat, k: nat, cad: Cad, opts: Options) {
    && k <= |cad.shapes| && base + 2 * k <= |es|
    && forall j :: 0 <= j < k ==> StlShapeAt(es, base + 2 * j, cad, opts, cad.shapes[j])
  }

  /** The meshes of the first k shapes of the stl loop, None where the triangulation returned none. */
  function MeshesOf(es: seq<Effect>, base: nat, k: nat): (r: seq<Option<Mesh>>)
    requires base + 2 * k <= |es|
    ensures |r| == k
  {
    seq(k, j requires 0 <= j < k => if es[base + 2 * j + 1].Triangulated? then es[base + 2 * j + 1].mesh else None)
  }

  /** Appending to the log keeps the completed shapes and their meshes; one more completed shape adds its mesh. */
  lemma StlChunksStep(es: seq<Effect>, more: seq<Effect>, base: nat, k: nat, cad: Cad, opts: Options)
    requires StlChunks(es, base, k, cad, opts)
    ensures StlChunks(es + more, base, k, cad, opts) && MeshesOf(es + more, base, k) == MeshesOf(es, base, k)
    ensures k < |cad.shapes| && |es| == base + 2 * k && StlShapeAt(es + more, |es|, cad, opts, cad.shapes[k]) ==>
      && StlChunks(es + more, base, k + 1, cad, opts)
      && MeshesOf(es + more, base, k + 1) == MeshesOf(es, base, k) + [(es + more)[|es| + 1].mesh]
  {
    var es2 := es + more;
    forall j | 0 <= j < k ensures es2[base + 2 * j] == es[base + 2 * j] && es2[base + 2 * j + 1] == es[base + 2 * j + 1] {
    }
    assert MeshesOf(es2, base, k) == MeshesOf(es, base, k);
    if k < |cad.shapes| && |es| == base + 2 * k && StlShapeAt(es2, |es|, cad, opts, cad.shapes[k]) {
      assert MeshesOf(es2, base, k + 1) == MeshesOf(es2, base, k) + [es2[|es| + 1].mesh];
    }
  }

  /** How a shape of the stl loop that did not complete left the log after `at`: a cancel at its first check
      (nothing), a cancel at its second check (the sampling only), or a sampled field of None, which has no
      `triangulate` (AttributeError). */
  predicate StlStopped(es: seq<Effect>, at: nat, e: Expr, stop: Exit) {
    && at <= |es| && |es| <= at + 1
    && (|es| > at ==> es[at].Sampled? && es[at].expr == e)
    && match stop
       case Cancelled => true
       case Raised(err) => err == AttributeError && |es| == at + 1 && es[at].result.None?
       case Finished => false
  }

  /** A CAD export task (`ExportTaskCad`), with the cancel flags of its progress window, the progress it reported
      and the log of what it did. */
  class ExportTask {
    const filename: string
    const extension: string
    const cad: Cad
    const opts: Options
    const engine: Engine
    /** The cancel button: whether it is pressed just before the n-th read of a cancel flag. */
    const press: nat -> bool
    /** How many flag reads happened so far. */
    var polls: nat
    /** The soft cancel flag `event` and the hard token `c_event` handed to engine calls. */
    var event: bool
    var cEvent: bool
    var history: seq<Progress>
    var log: seq<Effect>
    var windowOpen: bool

    /** `ExportTaskCad.__init__`: the extension is taken from the file name, both flags start clear. */
    constructor (filename: string, cad: Cad, opts: Options, engine: Engine, press: nat -> bool)
      ensures this.filename == filename && extension == Extension(filename)
      ensures this.cad == cad && this.opts == opts && this.engine == engine && this.press == press
      ensures polls == 0 && !event && !cEvent && history == [] && log == [] && windowOpen
    {
      this.filename, extension, this.cad, this.opts, this.engine, this.press :=
        filename, Extension(filename), cad, opts, engine, press;
      polls, event, cEvent, history, log, windowOpen := 0, false, false, [], [], true;
    }

    /** Whether the button was pressed at one of the flag reads a..b-1. */
    predicate Pressed(a: nat, b: nat)
      decreases b - a
    {
      a < b && (press(b - 1) || Pressed(a, b - 1))
    }

    /** Pressed is the existence of a pressed read in a..b-1. */
    lemma {:induction false} PressedExists(a: nat, b: nat)
      ensures Pressed(a, b) <==> exists p :: a <= p < b && press(p)
      decreases b - a
    {
      if a < b {
        PressedExists(a, b - 1);
        if !press(b - 1) && exists p :: a <= p < b && press(p) {
          var p :| a <= p < b && press(p);
          assert p < b - 1;
        }
      }
    }

    lemma {:induction false} PressedConcat(a: nat, b: nat, c: nat)
      requires a <= b <= c
      ensures Pressed(a, c) <==> Pressed(a, b) || Pressed(b, c)
      decreases c - b
    {
      if b < c {
        PressedConcat(a, b, c - 1);
      }
    }

    /** The flags are a latch: they agree, they are set exactly when they were set before or the button was pressed
        at one of the reads since, and the logs and the progress history only grow. */
    twostate predicate Latched()
      reads this
    {
      && event == cEvent && old(polls) <= polls
      && event == (old(event) || Pressed(old(polls), polls))
      && |old(log)| <= |log| && log[..|old(log)|] == old(log)
      && |old(history)| <= |history| && history[..|old(history)|] == old(history)
    }

    /** `ExportProgress.cancel`: set both flags. */
    method Cancel()
      modifies this`event, this`cEvent
      ensures event && cEvent
    {
      event, cEvent := true, true;
    }

    /** A read of a cancel flag: the button may have been pressed since the last read. */
    method Poll() returns (isSet: bool)
      requires event == cEvent
      modifies this`polls, this`event, this`cEvent
      ensures Latched() && polls == old(polls) + 1
      ensures event == (old(event) || press(old(polls))) && isSet == event
    {
      if press(polls) {
        Cancel();
      }
      polls := polls + 1;
      isSet := event;
    }

    /** `self.window.progress = v`. */
    method SetProgress(v: Progress)
      modifies this`history
      ensures history == old(history) + [v]
    {
      history := history + [v];
    }

    /** `out.save(self.filename)` and its kin. */
    method Save(a: Artifact)
      modifies this`log
      ensures log == old(log) + [Saved(filename, a)]
    {
      log := log + [Saved(filename, a)];
    }

    /** `make_image`: render the expression over the CAD bounds with the hard token, then colour the image; an
        image of None has no `color` to set and raises AttributeError. */
    method MakeImage(e: Expr) returns (r: Result<Image>)
      requires event == cEvent
      modifies this`polls, this`event, this`cEvent, this`log
      ensures Latched() && polls == old(polls) + 1 && event == (old(event) || press(old(polls)))
      ensures var region := ImageRegion(cad, opts.resolution);
        log == old(log) + [Rendered(e, region, cEvent, engine.render(e, region, cad.mmPerUnit, cEvent))]
      ensures var img := log[|log| - 1].image;
        r == if img.None? then Err(AttributeError) else Ok(img.value.(color := e.color))
    {
      var region := ImageRegion(cad, opts.resolution);
      var token := Poll();
      var img := engine.render(e, region, cad.mmPerUnit, token);
      log := log + [Rendered(e, region, token, img)];
      if img.None? {
        return Err(AttributeError);
      }
      r := Ok(img.value.(color := e.color));
    }

    /** `make_asdf`: sample the expression over its widened bounds with the hard token. */
    method MakeAsdf(e: Expr, flat: bool) returns (f: Option<Field>)
      requires event == cEvent
      modifies this`polls, this`event, this`cEvent, this`log
      ensures Latched() && polls == old(polls) + 1 && event == (old(event) || press(old(polls)))
      ensures var region := FieldRegion(cad, e, opts.resolution, flat);
        log == old(log) + [Sampled(e, region, cEvent, engine.asdf(e, region, cad.mmPerUnit, cEvent))]
      ensures f == log[|log| - 1].result
    {
      var region := FieldRegion(cad, e, opts.resolution, flat);
      var token := Poll();
      f := engine.asdf(e, region, cad.mmPerUnit, token);
      log := log + [Sampled(e, region, token, f)];
    }

    /** `make_contour`: contour the field with the hard token; a field of None raises AttributeError. */
    method MakeContour(f: Option<Field>) returns (r: Result<Option<seq<SvgPath>>>)
      requires event == cEvent
      modifies this`polls, this`event, this`cEvent, this`log
      ensures Latched()
      ensures f.None? ==> r == Err(AttributeError) && polls == old(polls) && log == old(log)
      ensures f.Some? ==>
        && polls == old(polls) + 1 && event == (old(event) || press(old(polls)))
        && log == old(log) + [Contoured(f.value, cEvent, engine.contour(f.value, cEvent))]
        && r == Ok(engine.contour(f.value, cEvent))
    {
      if f.None? {
        return Err(AttributeError);
      }
      var token := Poll();
      var paths := engine.contour(f.value, token);
      log := log + [Contoured(f.value, token, paths)];
      r := Ok(paths);
    }

    /** `make_mesh`: with `use_cms` the field is triangulated by `triangulate_cms()`, which takes no cancel token;
        otherwise by `triangulate` with the hard token. A field of None raises AttributeError. */
    method MakeMesh(f: Option<Field>) returns (r: Result<Option<Mesh>>)
      requires event == cEvent
      modifies this`polls, this`event, this`cEvent, this`log
      ensures Latched()
      ensures f.None? ==> r == Err(AttributeError) && polls == old(polls) && log == old(log)
      ensures f.Some? && opts.useCms ==>
        && polls == old(polls)
        && log == old(log) + [Triangulated(f.value, None, engine.triangulateCms(f.value))]
        && r == Ok(engine.triangulateCms(f.value))
      ensures f.Some? && !opts.useCms ==>
        && polls == old(polls) + 1 && event == (old(event) || press(old(polls)))
        && log == old(log) + [Triangulated(f.value, Some(cEvent), engine.triangulate(f.value, cEvent))]
        && r == Ok(engine.triangulate(f.value, cEvent))
    {
      if f.None? {
        return Err(AttributeError);
      }
      var m: Option<Mesh>;
      if opts.useCms {
        m := engine.triangulateCms(f.value);
        log := log + [Triangulated(f.value, None, m)];
      } else {
        var token := Poll();
        m := engine.triangulate(f.value, token);
        log := log + [Triangulated(f.value, Some(token), m)];
      }
      r := Ok(m);
    }

    /** One shape of the png loop, after the renders `added` of the shapes 0..i-1 (appended to the log l0): check
        the cancel flag, render the shape and report (i+1)*90/n; a render of None raises AttributeError before the
        report. What the loop keeps about the flag and the progress is given with p0, e0 and h0. */
    method RenderShape(i: nat, imgs: seq<Image>, ghost l0: seq<Effect>, ghost added: seq<Effect>,
                       ghost h0: seq<Progress>, ghost p0: nat, ghost e0: bool)
      returns (stop: Option<Exit>, imgs': seq<Image>, ghost added': seq<Effect>)
      requires i < |cad.shapes| && event == cEvent && p0 <= polls && event == (e0 || Pressed(p0, polls))
      requires log == l0 + added && |added| == i
      requires RendersInOrder(added, cad.shapes, ImageRegion(cad, opts.resolution)) && ImagesOf(added, i, imgs)
      requires history == h0 + PngProgress(i, |cad.shapes|)
      modifies this`polls, this`event, this`cEvent, this`history, this`log
      ensures event == cEvent && p0 <= polls && event == (e0 || Pressed(p0, polls))
      ensures log == l0 + added' && RendersInOrder(added', cad.shapes, ImageRegion(cad, opts.resolution))
      ensures stop.Some? ==> stop == Some(Cancelled) || stop == Some(Raised(AttributeError))
      ensures stop == Some(Cancelled) ==>
        event && added' == added && imgs' == imgs && history == h0 + PngProgress(i, |cad.shapes|)
      ensures stop == Some(Raised(AttributeError)) ==>
        && |added'| == i + 1 && added'[i].image.None? && ImagesOf(added', i, imgs) && imgs' == imgs
        && history == h0 + PngProgress(i, |cad.shapes|)
      ensures stop.None? ==>
        |added'| == i + 1 && ImagesOf(added', i + 1, imgs') && history == h0 + PngProgress(i + 1, |cad.shapes|)
    {
      ghost var polls1 := polls;
      var n := |cad.shapes|;
      var region := ImageRegion(cad, opts.resolution);
      var c := Poll();
      PressedConcat(p0, polls1, polls);
      if c {
        return Some(Cancelled), imgs, added;
      }
      ghost var polls2 := polls;
      var r := MakeImage(cad.shapes[i]);
      PressedConcat(p0, polls2, polls);
      ghost var x := log[|log| - 1];
      RenderStep(added, x, cad.shapes, region, imgs);
      Snoc(l0, added, x);
      added' := added + [x];
      if r.Err? {
        return Some(Raised(r.error)), imgs, added';
      }
      imgs' := imgs + [r.value];
      SetProgress(Fraction(i + 1, 90, n));
      PngProgressStep(h0, i, n);
      stop := None;
    }

    /** The shape loop of `export_png`: for each shape, a check of the cancel flag, a render, and progress i*90/n
        after the i-th of n shapes. It stops early on a cancel or when `make_image` raises; `done` counts the shapes
        rendered successfully. */
    method RenderEach() returns (stop: Option<Exit>, imgs: seq<Image>, ghost done: nat)
      requires event == cEvent
      modifies this`polls, this`event, this`cEvent, this`history, this`log
      ensures Latched()
      ensures stop.Some? ==> stop.value.Cancelled? || stop.value == Raised(AttributeError)
      ensures stop == Some(Cancelled) ==> event
      ensures done <= |cad.shapes| && (stop.None? ==> done == |cad.shapes|)
      ensures history == old(history) + PngProgress(done, |cad.shapes|)
      ensures var added := log[|old(log)|..];
        && RendersInOrder(added, cad.shapes, ImageRegion(cad, opts.resolution)) && ImagesOf(added, done, imgs)
        && |added| == done + (if stop.Some? && stop.value.Raised? then 1 else 0)
        && (stop.Some? && stop.value.Raised? ==> added[done].image.None?)
    {
      ghost var added: seq<Effect> := [];
      var n := |cad.shapes|;
      imgs := [];
      var i := 0;
      while i < n
        invariant 0 <= i <= n && event == cEvent && old(polls) <= polls
        invariant event == (old(event) || Pressed(old(polls), polls))
        invariant log == old(log) + added && |added| == i
        invariant RendersInOrder(added, cad.shapes, ImageRegion(cad, opts.resolution)) && ImagesOf(added, i, imgs)
        invariant history == old(history) + PngProgress(i, n)
      {
        stop, imgs, added := RenderShape(i, imgs, old(log), added, old(history), old(polls), old(event));
        if stop.Some? {
          assert log[|old(log)|..] == added;
          return stop, imgs, i;
        }
        i := i + 1;
      }
      assert log[|old(log)|..] == added;
      stop, done := None, n;
    }

    /** The end of `export_png`: unless the cancel flag is set, report 90, save the picture and report 100. */
    method SaveUnlessCancelled(out: Artifact) returns (cancelled: bool)
      requires event == cEvent
      modifies this`polls, this`event, this`cEvent, this`history, this`log
      ensures Latched() && polls == old(polls) + 1 && cancelled == event
      ensures cancelled ==> log == old(log) && history == old(history)
      ensures !cancelled ==> log == old(log) + [Saved(filename, out)] && history == old(history) + [Percent(90), Percent(100)]
    {
      cancelled := Poll();
      if cancelled {
        return;
      }
      SetProgress(Percent(90));
      Save(out);
      SetProgress(Percent(100));
    }

    /** `export_png` with `make_heightmap`: the whole shape rendered as one image, then the last check of the
        cancel flag, 90, the save and 100. */
    method PngHeightmap() returns (exit: Exit)
      requires event == cEvent
      modifies this`polls, this`event, this`cEvent, this`history, this`log
      ensures Latched()
      ensures exit.Cancelled? ==> event
      ensures exit.Finished? ==> !event
      ensures history == old(history) + (if exit.Finished? then [Percent(90), Percent(100)] else [])
      ensures var added := log[|old(log)|..];
        && |added| == (if exit.Finished? then 2 else 1)
        && added[0].Rendered? && added[0].expr == cad.shape && added[0].region == ImageRegion(cad, opts.resolution)
        && (exit.Raised? ==> exit.error == AttributeError && added[0].image.None?)
        && (exit.Finished? ==>
              added[0].image.Some? && added[1] == Saved(filename, ImageFile(added[0].image.value.(color := cad.shape.color))))
    {
      var r := MakeImage(cad.shape);
      assert log[|old(log)|..] == [log[|old(log)|]];
      if r.Err? {
        return Raised(r.error);
      }
      ghost var log1, polls1 := log, polls;
      var cancelled := SaveUnlessCancelled(ImageFile(r.value));
      PressedConcat(old(polls), polls1, polls);
      if cancelled {
        return Cancelled;
      }
      assert log[|old(log)|..] == log1[|old(log)|..] + [Saved(filename, ImageFile(r.value))];
      exit := Finished;
    }

    /** `export_png` without `make_heightmap`: the shapes rendered one by one, then the last check of the cancel
        flag, 90, the save of the merged images and 100. */
    method PngLayers() returns (exit: Exit, ghost done: nat)
      requires event == cEvent
      modifies this`polls, this`event, this`cEvent, this`history, this`log
      ensures Latched()
      ensures exit.Cancelled? ==> event
      ensures exit.Finished? ==> !event
      ensures done <= |cad.shapes| && (exit.Finished? ==> done == |cad.shapes|)
      ensures history == old(history) + PngProgress(done, |cad.shapes|)
                         + (if exit.Finished? then [Percent(90), Percent(100)] else [])
      ensures var added := log[|old(log)|..]; var region := ImageRegion(cad, opts.resolution);
        && (exit.Raised? ==>
              exit.error == AttributeError && |added| > 0 && added[|added| - 1].Rendered? && added[|added| - 1].image.None?)
        && (!exit.Finished? ==> RendersInOrder(added, cad.shapes, region))
        && (exit.Finished? ==>
              && |added| == |cad.shapes| + 1 && RendersInOrder(added[..|cad.shapes|], cad.shapes, region)
              && added[|cad.shapes|].Saved? && added[|cad.shapes|].file == filename
              && added[|cad.shapes|].artifact.MergedImages?
              && ImagesOf(added, |cad.shapes|, added[|cad.shapes|].artifact.images))
    {
      var stop, imgs;
      stop, imgs, done := RenderEach();
      if stop.Some? {
        return stop.value, done;
      }
      ghost var body := log[|old(log)|..];
      assert log == old(log) + body;
      ghost var polls1 := polls;
      var cancelled := SaveUnlessCancelled(MergedImages(imgs));
      PressedConcat(old(polls), polls1, polls);
      if cancelled {
        return Cancelled, done;
      }
      assert log[|old(log)|..] == body + [Saved(filename, MergedImages(imgs))];
      exit := Finished;
    }

    /** `export_png`. With `make_heightmap` the whole shape is rendered as one image; otherwise the shapes are
        rendered one by one and the images merged in shape order. A last check of the cancel flag comes before 90,
        the save and 100; a cancel seen at any check returns without any of them. */
    method ExportPng() returns (exit: Exit, ghost done: nat)
      requires event == cEvent
      modifies this`polls, this`event, this`cEvent, this`history, this`log
      ensures Latched()
      ensures exit.Cancelled? ==> event
      ensures exit.Finished? ==> !event
      ensures done <= |cad.shapes| && (opts.makeHeightmap ==> done == 0)
      ensures exit.Finished? && !opts.makeHeightmap ==> done == |cad.shapes|
      ensures history == old(history) + (if opts.makeHeightmap then [] else PngProgress(done, |cad.shapes|))
                         + (if exit.Finished? then [Percent(90), Percent(100)] else [])
      ensures var added := log[|old(log)|..]; var region := ImageRegion(cad, opts.resolution);
        && (exit.Finished? ==> |added| > 0 && added[|added| - 1].Saved? && added[|added| - 1].file == filename)
        && (exit.Raised? ==>
              exit.error == AttributeError && |added| > 0 && added[|added| - 1].Rendered? && added[|added| - 1].image.None?)
        && (!opts.makeHeightmap && !exit.Finished? ==> RendersInOrder(added, cad.shapes, region))
        && (!opts.makeHeightmap && exit.Finished? ==>
              && |added| == |cad.shapes| + 1 && RendersInOrder(added[..|cad.shapes|], cad.shapes, region)
              && added[|cad.shapes|].artifact.MergedImages?
              && ImagesOf(added, |cad.shapes|, added[|cad.shapes|].artifact.images))
        && (opts.makeHeightmap ==>
              && |added| == (if exit.Finished? then 2 else 1)
              && added[0].Rendered? && added[0].expr == cad.shape && added[0].region == region)
        && (opts.makeHeightmap && exit.Finished? ==>
              && added[0].image.Some?
              && added[1].artifact == ImageFile(added[0].image.value.(color := cad.shape.color)))
    {
      if opts.makeHeightmap {
        exit := PngHeightmap();
        done := 0;
        assert history == old(history) + [] + (if exit.Finished? then [Percent(90), Percent(100)] else []);
      } else {
        exit, done := PngLayers();
      }
    }

    /** `export_asdf`: sample the whole shape, report 50, and unless the cancel flag is set, save the field and
        report 100; a field of None has no `save` and raises AttributeError. */
    method ExportAsdf() returns (exit: Exit)
      requires event == cEvent
      modifies this`polls, this`event, this`cEvent, this`history, this`log
      ensures Latched()
      ensures exit.Cancelled? <==> event
      ensures history == old(history) + [Percent(50)] + (if exit.Finished? then [Percent(100)] else [])
      ensures var region := FieldRegion(cad, cad.shape, opts.resolution, false);
        && |log| >= |old(log)| + 1 && log[|old(log)|].Sampled?
        && log[|old(log)|].expr == cad.shape && log[|old(log)|].region == region
      ensures exit.Finished? <==> !NoSaves(log[|old(log)|..])
      ensures exit.Finished? ==>
        log[|old(log)|].result.Some? && log == old(log) + [log[|old(log)|], Saved(filename, FieldFile(log[|old(log)|].result.value))]
      ensures exit.Raised? ==> exit.error == AttributeError && log[|old(log)|].result.None?
    {
      ghost var log0 := log;
      var f := MakeAsdf(cad.shape, false);
      SetProgress(Percent(50));
      var c := Poll();
      if c {
        assert log[|log0|..] == [log[|log0|]];
        return Cancelled;
      }
      if f.None? {
        assert log[|log0|..] == [log[|log0|]];
        return Raised(AttributeError);
      }
      Save(FieldFile(f.value));
      SetProgress(Percent(100));
      assert log[|log0|..] == [log[|log0|], Saved(filename, FieldFile(f.value))];
      assert log[|log0|..][1].Saved?;
      exit := Finished;
    }

    /** `export_dot`: compile the shape, report 25, save its math tree and report 100. It never reads the cancel
        flag, so a cancel does not stop it. */
    method ExportDot() returns (exit: Exit)
      requires event == cEvent
      modifies this`polls, this`event, this`cEvent, this`history, this`log
      ensures Latched()
      ensures exit == Finished && polls == old(polls) && event == old(event)
      ensures log == old(log) + [Compiled(cad.shape), Saved(filename, DotFile(cad.shape, opts.dotArrays))]
      ensures history == old(history) + [Percent(25), Percent(100)]
    {
      log := log + [Compiled(cad.shape)];
      SetProgress(Percent(25));
      Save(DotFile(cad.shape, opts.dotArrays));
      SetProgress(Percent(100));
      exit := Finished;
    }
    /** `for c in contours: c.write_svg_contour(...)`: one svg write per contour, in order. */
    method WriteContours(paths: seq<SvgPath>, f: SvgFrame, color: Color)
      modifies this`log
      ensures log == old(log) + ContourWrites(paths, f, color)
    {
      var k := 0;
      while k < |paths|
        invariant 0 <= k <= |paths|
        invariant log == old(log) + ContourWrites(paths[..k], f, color)
      {
        var w := SvgContour(paths[k], f.xmin, f.ymax, f.stroke, color);
        assert ContourWrites(paths[..k + 1], f, color) == ContourWrites(paths[..k], f, color) + [w];
        log := log + [w];
        k := k + 1;
      }
      assert paths[..k] == paths;
    }

    /** The first half of a shape of the svg and stl loops, with the counter i at 3j: check the flag, then sample
        the shape (flat for svg) and report (i+1)*33/n. */
    method SampleStage(j: nat, i: nat, flat: bool) returns (cancelled: bool, f: Option<Field>, next: nat)
      requires j < |cad.shapes| && i == 3 * j && event == cEvent
      modifies this`polls, this`event, this`cEvent, this`history, this`log
      ensures Latched()
      ensures cancelled ==> event && log == old(log) && history == old(history)
      ensures !cancelled ==>
        && |log| == |old(log)| + 1 && log[|old(log)|].Sampled? && log[|old(log)|].expr == cad.shapes[j]
        && log[|old(log)|].region == FieldRegion(cad, cad.shapes[j], opts.resolution, flat)
        && log[|old(log)|].result == f
        && next == i + 1 && history == old(history) + [StageProgress(2 * j, |cad.shapes|)]
    {
      var n := |cad.shapes|;
      assert (2 * j) % 2 == 0 && (2 * j) / 2 == j;
      cancelled := Poll();
      if cancelled {
        return true, None, i;
      }
      f := MakeAsdf(cad.shapes[j], flat);
      assert event == (old(event) || Pressed(old(polls), polls));
      next := i + 1;
      SetProgress(Fraction(next, 33, n));
    }

    /** The second half of a shape of the svg loop, with the counter i at 3j+1: check the flag, contour the field
        and report (i+2)*33/n, then write each contour in the shape's colour, or black. */
    method SvgDraw(j: nat, i: nat, f: Option<Field>, frame: SvgFrame) returns (stop: Option<Exit>, next: nat)
      requires j < |cad.shapes| && i == 3 * j + 1 && event == cEvent
      modifies this`polls, this`event, this`cEvent, this`history, this`log
      ensures Latched()
      ensures stop == Some(Cancelled) ==> event && log == old(log) && history == old(history)
      ensures stop == Some(Raised(AttributeError)) ==> f.None? && log == old(log) && history == old(history)
      ensures stop.Some? ==> stop == Some(Cancelled) || stop == Some(Raised(AttributeError)) || stop == Some(Raised(TypeError))
      ensures stop.None? || stop == Some(Raised(TypeError)) ==>
        && f.Some? && |log| > |old(log)| && log[|old(log)|].Contoured? && log[|old(log)|].source == f.value
        && history == old(history) + [StageProgress(2 * j + 1, |cad.shapes|)]
      ensures stop == Some(Raised(TypeError)) ==> |log| == |old(log)| + 1 && log[|old(log)|].paths.None?
      ensures stop.None? ==>
        && next == i + 2 && log[|old(log)|].paths.Some?
        && log[|old(log)| + 1..] == ContourWrites(log[|old(log)|].paths.value, frame, OrBlack(cad.shapes[j].color))
    {
      var n := |cad.shapes|;
      assert (2 * j + 1) % 2 == 1 && (2 * j + 1) / 2 == j;
      var c := Poll();
      if c {
        return Some(Cancelled), i;
      }
      var r := MakeContour(f);
      assert event == (old(event) || Pressed(old(polls), polls));
      if r.Err? {
        return Some(Raised(r.error)), i;
      }
      next := i + 2;
      SetProgress(Fraction(next, 33, n));
      if r.value.None? {
        return Some(Raised(TypeError)), next;
      }
      ghost var log1 := log;
      WriteContours(r.value.value, frame, OrBlack(cad.shapes[j].color));
      assert log[|old(log)| + 1..] == log[|log1|..];
      stop := None;
    }

    /** One shape of the svg loop, with the counter i at 3j: its two halves. */
    method SvgShape(j: nat, i: nat, frame: SvgFrame) returns (stop: Option<Exit>, next: nat)
      requires j < |cad.shapes| && i == 3 * j && event == cEvent
      modifies this`polls, this`event, this`cEvent, this`history, this`log
      ensures Latched()
      ensures stop == Some(Cancelled) ==> event
      ensures stop.None? ==>
        && SvgShapeAt(log, |old(log)|, cad, opts.resolution, frame, cad.shapes[j])
        && |log| == SvgShapeEnd(log, |old(log)|)
        && next == i + 3 && history == old(history) + Stages(2 * j, 2, |cad.shapes|)
      ensures stop.Some? ==>
        && SvgStopped(log, |old(log)|, cad.shapes[j], stop.value)
        && history == old(history) + Stages(2 * j, |log| - |old(log)|, |cad.shapes|)
    {
      ghost var at := |log|;
      var n := |cad.shapes|;
      var cancelled, f;
      cancelled, f, next := SampleStage(j, i, true);
      if cancelled {
        assert Stages(2 * j, 0, n) == [];
        return Some(Cancelled), next;
      }
      ghost var log1, polls1 := log, polls;
      assert Stages(2 * j, 1, n) == [StageProgress(2 * j, n)];
      assert Stages(2 * j, 2, n) == [StageProgress(2 * j, n), StageProgress(2 * j + 1, n)];
      stop, next := SvgDraw(j, next, f, frame);
      PressedConcat(old(polls), polls1, polls);
      assert log[..at + 1] == log1;
      if stop.None? {
        assert log[at + 2..at + 2 + |log[at + 1].paths.value|] == log[at + 2..];
      }
    }

    /** One shape of the svg loop, appended to the chunks of the shapes 0..j-1, with what the loop keeps about the
        flag, the log before base and the progress (h0 being the progress before the loop, p0 and e0 the reads and
        the flag before it). */
    method SvgStep(j: nat, i: nat, frame: SvgFrame, ghost base: nat, ghost starts: seq<nat>, ghost mark: nat,
                   ghost h0: seq<Progress>, ghost p0: nat, ghost e0: bool)
      returns (stop: Option<Exit>, next: nat, ghost starts': seq<nat>, ghost mark': nat)
      requires j < |cad.shapes| && i == 3 * j && event == cEvent
      requires |starts| == j && |log| == mark && SvgChunks(log, base, starts, mark, cad, opts.resolution, frame)
      requires p0 <= polls && event == (e0 || Pressed(p0, polls))
      requires history == h0 + StageSchedule(2 * j, |cad.shapes|)
      modifies this`polls, this`event, this`cEvent, this`history, this`log
      ensures event == cEvent && p0 <= polls && event == (e0 || Pressed(p0, polls))
      ensures stop == Some(Cancelled) ==> event
      ensures base <= |old(log)| <= |log| && log[..base] == old(log)[..base]
      ensures SvgChunks(log, base, starts', mark', cad, opts.resolution, frame)
      ensures stop.None? ==>
        && starts' == starts + [mark] && mark' == |log| && next == i + 3
        && history == h0 + StageSchedule(2 * (j + 1), |cad.shapes|)
      ensures stop.Some? ==>
        && starts' == starts && mark' == mark && SvgStopped(log, mark, cad.shapes[j], stop.value)
        && history == h0 + StageSchedule(2 * j + (|log| - mark), |cad.shapes|)
    {
      ghost var log1, polls1 := log, polls;
      stop, next := SvgShape(j, i, frame);
      PressedConcat(p0, polls1, polls);
      ghost var more := log[|log1|..];
      assert log == log1 + more;
      assert log[..base] == log1[..base];
      SvgChunksExtend(log1, more, base, starts, mark, cad, opts.resolution, frame);
      if stop.Some? {
        StagesConcat(h0, 2 * j, |log| - mark, |cad.shapes|);
        return stop, next, starts, mark;
      }
      StagesConcat(h0, 2 * j, 2, |cad.shapes|);
      SvgChunksStep(log, base, starts, mark, cad, opts.resolution, frame);
      starts', mark' := starts + [mark], |log|;
    }

    /** The shape loop of `export_svg`: the shapes one after another, until one of them stops. */
    method SvgLoop(frame: SvgFrame) returns (stop: Option<Exit>, ghost starts: seq<nat>, ghost mark: nat)
      requires event == cEvent
      modifies this`polls, this`event, this`cEvent, this`history, this`log
      ensures Latched()
      ensures stop == Some(Cancelled) ==> event
      ensures SvgChunks(log, |old(log)|, starts, mark, cad, opts.resolution, frame)
      ensures stop.None? ==>
        && |starts| == |cad.shapes| && |log| == mark
        && history == old(history) + StageSchedule(2 * |cad.shapes|, |cad.shapes|)
      ensures stop.Some? ==>
        && |starts| < |cad.shapes| && SvgStopped(log, mark, cad.shapes[|starts|], stop.value)
        && history == old(history) + StageSchedule(2 * |starts| + (|log| - mark), |cad.shapes|)
    {
      starts, mark := [], |log|;
      var n := |cad.shapes|;
      var i := 0;
      var j := 0;
      while j < n
        invariant 0 <= j <= n && i == 3 * j && |starts| == j
        invariant event == cEvent && old(polls) <= polls && event == (old(event) || Pressed(old(polls), polls))
        invariant SvgChunks(log, |old(log)|, starts, mark, cad, opts.resolution, frame)
        invariant |log| == mark && log[..|old(log)|] == old(log)
        invariant history == old(history) + StageSchedule(2 * j, n)
      {
        stop, i, starts, mark := SvgStep(j, i, frame, |old(log)|, starts, mark, old(history), old(polls), old(event));
        if stop.Some? {
          return stop, starts, mark;
        }
        j := j + 1;
      }
      stop := None;
    }

    /** `export_svg`: write the header, then draw the shapes one after another as long as the cancel flag stays
        clear, and write the footer after the last one. A return on a cancel leaves the header and the shapes
        drawn so far without a footer; the progress never reaches 100. */
    method ExportSvg() returns (exit: Exit, ghost starts: seq<nat>, ghost mark: nat)
      requires event == cEvent
      modifies this`polls, this`event, this`cEvent, this`history, this`log
      ensures Latched()
      ensures exit.Cancelled? ==> event
      ensures exit.Raised? ==> exit.error == AttributeError || exit.error == TypeError
      ensures var base := |old(log)|; var f := SvgFrameOf(cad);
        && |log| > base && log[base] == SvgHeader(f.dx, f.dy)
        && SvgChunks(log, base + 1, starts, mark, cad, opts.resolution, f)
      ensures exit.Finished? ==>
        && |starts| == |cad.shapes| && |log| == mark + 1 && log[mark] == SvgFooter
        && history == old(history) + StageSchedule(2 * |cad.shapes|, |cad.shapes|)
      ensures !exit.Finished? ==>
        && |starts| < |cad.shapes| && SvgStopped(log, mark, cad.shapes[|starts|], exit)
        && history == old(history) + StageSchedule(2 * |starts| + (|log| - mark), |cad.shapes|)
    {
      ghost var base := |log|;
      var frame := SvgFrameOf(cad);
      log := log + [SvgHeader(frame.dx, frame.dy)];
      ghost var log1 := log;
      var stop;
      stop, starts, mark := SvgLoop(frame);
      assert log[..base + 1] == log1[..base + 1];
      assert log[base] == log1[base];
      if stop.Some? {
        return stop.value, starts, mark;
      }
      ghost var log2 := log;
      log := log + [SvgFooter];
      SvgChunksExtend(log2, [SvgFooter], base + 1, starts, mark, cad, opts.resolution, frame);
      assert log[..base + 1] == log2[..base + 1];
      exit := Finished;
    }
    /** The second half of a shape of the stl loop, with the counter i at 3j+1: check the flag, triangulate the
        field and report (i+2)*33/n. */
    method MeshStage(j: nat, i: nat, f: Option<Field>) returns (stop: Option<Exit>, next: nat, mesh: Option<Mesh>)
      requires j < |cad.shapes| && i == 3 * j + 1 && event == cEvent
      modifies this`polls, this`event, this`cEvent, this`history, this`log
      ensures Latched()
      ensures stop.Some? ==> log == old(log) && history == old(history)
      ensures stop.Some? ==> stop == Some(Cancelled) || (stop == Some(Raised(AttributeError)) && f.None?)
      ensures stop == Some(Cancelled) ==> event
      ensures stop.None? ==>
        && f.Some? && |log| == |old(log)| + 1 && log[|old(log)|].Triangulated?
        && log[|old(log)|].input == f.value && (opts.useCms <==> log[|old(log)|].token.None?)
        && mesh == log[|old(log)|].mesh
        && next == i + 2 && history == old(history) + [StageProgress(2 * j + 1, |cad.shapes|)]
    {
      var n := |cad.shapes|;
      assert (2 * j + 1) % 2 == 1 && (2 * j + 1) / 2 == j;
      var c := Poll();
      if c {
        return Some(Cancelled), i, None;
      }
      var r := MakeMesh(f);
      assert event == (old(event) || Pressed(old(polls), polls));
      if r.Err? {
        return Some(Raised(r.error)), i, None;
      }
      next := i + 2;
      SetProgress(Fraction(next, 33, n));
      stop, mesh := None, r.value;
    }

    /** One shape of the stl loop, with the counter i at 3j: its two halves. */
    method StlShape(j: nat, i: nat) returns (stop: Option<Exit>, next: nat, mesh: Option<Mesh>)
      requires j < |cad.shapes| && i == 3 * j && event == cEvent
      modifies this`polls, this`event, this`cEvent, this`history, this`log
      ensures Latched()
      ensures stop == Some(Cancelled) ==> event
      ensures stop.None? ==>
        && StlShapeAt(log, |old(log)|, cad, opts, cad.shapes[j]) && |log| == |old(log)| + 2
        && mesh == log[|old(log)| + 1].mesh
        && next == i + 3 && history == old(history) + Stages(2 * j, 2, |cad.shapes|)
      ensures stop.Some? ==>
        && StlStopped(log, |old(log)|, cad.shapes[j], stop.value)
        && history == old(history) + Stages(2 * j, |log| - |old(log)|, |cad.shapes|)
    {
      ghost var at := |log|;
      var n := |cad.shapes|;
      var cancelled, f;
      cancelled, f, next := SampleStage(j, i, false);
      if cancelled {
        assert Stages(2 * j, 0, n) == [];
        return Some(Cancelled), next, None;
      }
      ghost var log1, polls1 := log, polls;
      assert Stages(2 * j, 1, n) == [StageProgress(2 * j, n)];
      assert Stages(2 * j, 2, n) == [StageProgress(2 * j, n), StageProgress(2 * j + 1, n)];
      stop, next, mesh := MeshStage(j, next, f);
      PressedConcat(old(polls), polls1, polls);
      assert log[..at + 1] == log1;
    }

    /** One shape of the stl loop, appended to the completed shapes 0..j-1 and their kept meshes, with what the
        loop keeps about the flag, the log before base and the progress (h0 being the progress before the loop, p0
        and e0 the reads and the flag before it). */
    method StlStep(j: nat, i: nat, ghost base: nat, meshes: seq<Mesh>, ghost h0: seq<Progress>, ghost p0: nat, ghost e0: bool)
      returns (stop: Option<Exit>, next: nat, meshes': seq<Mesh>)
      requires j < |cad.shapes| && i == 3 * j && event == cEvent
      requires StlChunks(log, base, j, cad, opts) && |log| == base + 2 * j && meshes == Somes(MeshesOf(log, base, j))
      requires p0 <= polls && event == (e0 || Pressed(p0, polls))
      requires history == h0 + StageSchedule(2 * j, |cad.shapes|)
      modifies this`polls, this`event, this`cEvent, this`history, this`log
      ensures event == cEvent && p0 <= polls && event == (e0 || Pressed(p0, polls))
      ensures stop == Some(Cancelled) ==> event
      ensures |old(log)| <= |log| && log[..base] == old(log)[..base]
      ensures stop.Some? ==>
        && meshes' == meshes && StlChunks(log, base, j, cad, opts) && meshes == Somes(MeshesOf(log, base, j))
        && StlStopped(log, base + 2 * j, cad.shapes[j], stop.value)
        && history == h0 + StageSchedule(2 * j + (|log| - base - 2 * j), |cad.shapes|)
      ensures stop.None? ==>
        && StlChunks(log, base, j + 1, cad, opts) && |log| == base + 2 * (j + 1)
        && meshes' == Somes(MeshesOf(log, base, j + 1)) && next == i + 3
        && history == h0 + StageSchedule(2 * (j + 1), |cad.shapes|)
    {
      ghost var log1, polls1 := log, polls;
      var mesh;
      stop, next, mesh := StlShape(j, i);
      PressedConcat(p0, polls1, polls);
      ghost var more := log[|log1|..];
      assert log == log1 + more;
      assert log[..base] == log1[..base];
      StlChunksStep(log1, more, base, j, cad, opts);
      if stop.Some? {
        StagesConcat(h0, 2 * j, |log| - |log1|, |cad.shapes|);
        return stop, next, meshes;
      }
      StagesConcat(h0, 2 * j, 2, |cad.shapes|);
      SomesAppend(MeshesOf(log1, base, j), mesh);
      meshes' := meshes + (if mesh.Some? then [mesh.value] else []);
    }

    /** The shape loop of `export_stl`: the shapes one after another, until one of them stops; the meshes that
        are not None are kept in shape order. */
    method StlLoop() returns (stop: Option<Exit>, meshes: seq<Mesh>, ghost done: nat)
      requires event == cEvent
      modifies this`polls, this`event, this`cEvent, this`history, this`log
      ensures Latched()
      ensures stop == Some(Cancelled) ==> event
      ensures done <= |cad.shapes| && StlChunks(log, |old(log)|, done, cad, opts)
      ensures meshes == Somes(MeshesOf(log, |old(log)|, done))
      ensures stop.None? ==>
        && done == |cad.shapes| && |log| == |old(log)| + 2 * done
        && history == old(history) + StageSchedule(2 * |cad.shapes|, |cad.shapes|)
      ensures stop.Some? ==>
        && done < |cad.shapes| && StlStopped(log, |old(log)| + 2 * done, cad.shapes[done], stop.value)
        && history == old(history) + StageSchedule(2 * done + (|log| - |old(log)| - 2 * done), |cad.shapes|)
    {
      ghost var base := |log|;
      meshes, done := [], 0;
      var n := |cad.shapes|;
      var i := 0;
      var j := 0;
      while j < n
        invariant 0 <= j <= n && i == 3 * j && done == j
        invariant event == cEvent && old(polls) <= polls && event == (old(event) || Pressed(old(polls), polls))
        invariant StlChunks(log, base, j, cad, opts) && |log| == base + 2 * j && log[..base] == old(log)
        invariant meshes == Somes(MeshesOf(log, base, j))
        invariant history == old(history) + StageSchedule(2 * j, n)
      {
        stop, i, meshes := StlStep(j, i, base, meshes, old(history), old(polls), old(event));
        if stop.Some? {
          return stop, meshes, j;
        }
        j := j + 1;
        done := j;
      }
      stop := None;
    }

    /** `export_stl`: the shapes one after another, then, unless the cancel flag is set, the merge of the meshes
        that are not None is saved. It never reports 100. */
    method ExportStl() returns (exit: Exit, ghost done: nat)
      requires event == cEvent
      modifies this`polls, this`event, this`cEvent, this`history, this`log
      ensures Latched()
      ensures exit.Cancelled? ==> event
      ensures exit.Raised? ==> exit.error == AttributeError
      ensures done <= |cad.shapes| && StlChunks(log, |old(log)|, done, cad, opts)
      ensures exit.Finished? ==>
        && !event && done == |cad.shapes| && |log| == |old(log)| + 2 * done + 1
        && log[|log| - 1] == Saved(filename, MergedMeshes(Somes(MeshesOf(log, |old(log)|, done))))
        && history == old(history) + StageSchedule(2 * |cad.shapes|, |cad.shapes|)
      ensures exit.Cancelled? && done == |cad.shapes| ==> |log| == |old(log)| + 2 * done
      ensures !exit.Finished? && done < |cad.shapes| ==>
        && StlStopped(log, |old(log)| + 2 * done, cad.shapes[done], exit)
        && history == old(history) + StageSchedule(2 * done + (|log| - |old(log)| - 2 * done), |cad.shapes|)
      ensures !exit.Finished? && done == |cad.shapes| ==>
        history == old(history) + StageSchedule(2 * |cad.shapes|, |cad.shapes|)
    {
      var stop, meshes;
      stop, meshes, done := StlLoop();
      if stop.Some? {
        return stop.value, done;
      }
      ghost var log1, polls1 := log, polls;
      var c := Poll();
      PressedConcat(old(polls), polls1, polls);
      if c {
        return Cancelled, done;
      }
      Save(MergedMeshes(meshes));
      StlChunksStep(log1, [Saved(filename, MergedMeshes(meshes))], |old(log)|, done, cad, opts);
      assert log[..|log1|] == log1;
      exit := Finished;
    }
    /** How a CAD driver ended, as far as `run` is concerned: a cancel is seen on the flag, a completed driver
        ends its output with the save of the file (or the footer, for svg), and only dot and svg can complete with
        the flag set (dot never reads it, svg with no shapes never reads it). */
    twostate predicate Ended(d: Driver, exit: Exit)
      reads this
    {
      && Latched()
      && (exit.Cancelled? ==> event && d != Dot)
      && (exit.Finished? && d == Svg ==> |log| > |old(log)| && log[|log| - 1] == SvgFooter)
      && (exit.Finished? && d != Svg ==> |log| > |old(log)| && log[|log| - 1].Saved? && log[|log| - 1].file == filename)
      && (exit.Finished? && d != Dot && d != Svg ==> !event)
    }

    /** The driver `d`, with only what `run` relies on. */
    method Drive(d: Driver) returns (exit: Exit)
      requires event == cEvent
      modifies this`polls, this`event, this`cEvent, this`history, this`log
      ensures Ended(d, exit)
    {
      match d {
        case Png =>
          ghost var done;
          exit, done := ExportPng();
        case AsdfFile =>
          exit := DriveAsdf();
        case Svg =>
          ghost var starts, mark;
          exit, starts, mark := ExportSvg();
        case Stl =>
          ghost var done;
          exit, done := ExportStl();
        case Dot =>
          exit := ExportDot();
      }
    }

    method DriveAsdf() returns (exit: Exit)
      requires event == cEvent
      modifies this`polls, this`event, this`cEvent, this`history, this`log
      ensures Ended(AsdfFile, exit)
    {
      exit := ExportAsdf();
      if exit.Finished? {
        assert log[|log| - 1] == log[|old(log)|..][1];
      }
    }

    /** `ExportTaskCad.run`: call the `export_<extension>` driver and then close the progress window. An extension
        with no driver raises AttributeError before anything is done; a driver that raises leaves the window open. */
    method Run() returns (exit: Exit)
      requires event == cEvent
      modifies this`polls, this`event, this`cEvent, this`history, this`log, this`windowOpen
      ensures Latched()
      ensures windowOpen == (old(windowOpen) && exit.Raised?)
      ensures CadDriver(extension).None? ==>
        exit == Raised(AttributeError) && polls == old(polls) && log == old(log) && history == old(history)
      ensures CadDriver(extension).Some? ==> Ended(CadDriver(extension).value, exit)
    {
      var d := CadDriver(extension);
      if d.None? {
        return Raised(AttributeError);
      }
      exit := Drive(d.value);
      if !exit.Raised? {
        windowOpen := false;
      }
    }
  }

  /** An ASDF export task (`ExportTaskASDF`): an already sampled distance field saved as an image, a mesh or a
      field file. It has a cancel button but never reads it. */
  class AsdfExportTask {
    const filename: string
    const extension: string
    const asdf: Field
    const alpha: real
    const beta: real
    const resolution: real
    const engine: Engine
    var history: seq<Progress>
    var log: seq<Effect>
    var windowOpen: bool

    /** `ExportTaskASDF.__init__`: the extension is taken from the file name. */
    constructor (filename: string, asdf: Field, alpha: real, beta: real, resolution: real, engine: Engine)
      ensures this.filename == filename && extension == Extension(filename) && this.asdf == asdf
      ensures this.alpha == alpha && this.beta == beta && this.resolution == resolution && this.engine == engine
      ensures history == [] && log == [] && windowOpen
    {
      this.filename, extension, this.asdf, this.alpha, this.beta, this.resolution, this.engine :=
        filename, Extension(filename), asdf, alpha, beta, resolution, engine;
      history, log, windowOpen := [], [], true;
    }

    /** `export_png`: render the field with the view angles, report 90, save the image and report 100; an image
        of None has no `save` and raises AttributeError after the 90. */
    method ExportPng() returns (exit: Exit)
      modifies this`history, this`log
      ensures exit != Cancelled
      ensures var img := engine.renderAsdf(asdf, alpha, beta, resolution);
        && (exit.Finished? <==> img.Some?)
        && (exit.Raised? ==> exit.error == AttributeError)
        && log == old(log) + [AsdfRendered(asdf, alpha, beta, resolution, img)]
                           + (if img.Some? then [Saved(filename, ImageFile(img.value))] else [])
        && history == old(history) + [Percent(90)] + (if img.Some? then [Percent(100)] else [])
    {
      var img := engine.renderAsdf(asdf, alpha, beta, resolution);
      log := log + [AsdfRendered(asdf, alpha, beta, resolution, img)];
      history := history + [Percent(90)];
      if img.None? {
        return Raised(AttributeError);
      }
      log := log + [Saved(filename, ImageFile(img.value))];
      history := history + [Percent(100)];
      exit := Finished;
    }

    /** `export_stl`: triangulate the field with the cms triangulator (which takes no cancel token), report 60,
        save the mesh and report 100; a mesh of None raises AttributeError after the 60. */
    method ExportStl() returns (exit: Exit)
      modifies this`history, this`log
      ensures exit != Cancelled
      ensures var mesh := engine.triangulateCms(asdf);
        && (exit.Finished? <==> mesh.Some?)
        && (exit.Raised? ==> exit.error == AttributeError)
        && log == old(log) + [Triangulated(asdf, None, mesh)]
                           + (if mesh.Some? then [Saved(filename, MeshFile(mesh.value))] else [])
        && history == old(history) + [Percent(60)] + (if mesh.Some? then [Percent(100)] else [])
    {
      var mesh := engine.triangulateCms(asdf);
      log := log + [Triangulated(asdf, None, mesh)];
      history := history + [Percent(60)];
      if mesh.None? {
        return Raised(AttributeError);
      }
      log := log + [Saved(filename, MeshFile(mesh.value))];
      history := history + [Percent(100)];
      exit := Finished;
    }

    /** `export_asdf`: save the field itself and report 100. */
    method ExportAsdf() returns (exit: Exit)
      modifies this`history, this`log
      ensures exit == Finished
      ensures log == old(log) + [Saved(filename, FieldFile(asdf))] && history == old(history) + [Percent(100)]
    {
      log := log + [Saved(filename, FieldFile(asdf))];
      history := history + [Percent(100)];
      exit := Finished;
    }

    /** `ExportTaskASDF.run`: call the `export_<extension>` driver and then close the progress window; an
        extension with no driver, or a driver that raises, leaves the window open. */
    method Run() returns (exit: Exit)
      modifies this`history, this`log, this`windowOpen
      ensures exit != Cancelled
      ensures windowOpen == (old(windowOpen) && exit.Raised?)
      ensures AsdfTaskDriver(extension).None? ==>
        exit == Raised(AttributeError) && log == old(log) && history == old(history)
      ensures exit.Finished? ==>
        && |log| > |old(log)| && log[|log| - 1].Saved? && log[|log| - 1].file == filename
        && |history| > |old(history)| && history[|history| - 1] == Percent(100)
      ensures AsdfTaskDriver(extension) == Some(AsdfAsdf) ==> exit == Finished
    {
      var d := AsdfTaskDriver(extension);
      if d.None? {
        return Raised(AttributeError);
      }
      match d.value {
        case AsdfPng => exit := ExportPng();
        case AsdfStl => exit := ExportStl();
        case AsdfAsdf => exit := ExportAsdf();
      }
      if exit.Finished? {
        windowOpen := false;
      }
    }
  }
}
