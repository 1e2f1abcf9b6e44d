# kokopelli export drivers and PCB bookkeeping, in Dafny

This project models two sequential parts of kokopelli and proves properties of the model.

**The export tasks of `koko/export.py`.**
- An `ExportTaskCad` takes the extension of its target file name. Its `run` calls the matching `export_<ext>` driver: png, asdf, svg, stl or dot.
- Each driver walks the shapes of the CAD structure. For each shape it checks the soft cancel flag, calls the geometry engine with the hard cancel token, and reports progress. At the end it merges and saves the result.
- `ExportTaskASDF` saves an already sampled distance field as an image, a mesh or a field file.

In the model, a task is a class (`Export.ExportTask`, `Export.AsdfExportTask`):
- **Fields:**
  - the two cancel flags;
  - the number of flag reads so far;
  - the history of progress values;
  - a log of what the driver did: engine calls with the token they got, svg header/contour/footer writes, and saves;
  - whether the progress window is still open.
- **The cancel button** is an oracle `press(n)`: whether the user pressed it just before the n-th flag read. Pressing sets both flags, and they are never cleared.
- **The engine** is a record of functions. A result of None stands for an interrupted call.
- **Each driver** is a method proved against a specification of its log and its progress schedule. The schedule's properties are separate lemmas: values rising, at most 90 or 99, reaching 100 or not.

**The board bookkeeping of `koko/lib/pcb.py` and `koko/lib/sam_pcb.py`.**
- A PCB collects components and connections.
- Routing turns a list of endpoints into a polyline by inserting corner points:
  - horizontal-first and vertical-first, as Manhattan routes;
  - diagonal-first, at 45 degrees and then along an axis.
- The two-sided board also:
  - keeps a side per segment;
  - mirrors bottom-side footprints;
  - cuts corners of connections;
  - keeps named custom layers that it can hide;
  - lists a layout of the requested sides.
- In the model:
  - boards and the sam_pcb connections are classes whose methods update their fields;
  - routing, pin lookup, mirroring and the layout are functions;
  - the routing and argument-conversion loops are methods proved against those functions;
  - shapes are opaque, and only which groups exist, and in what order, is modelled.
  - an endpoint is a BoundPin, a `Point` instance or a plain coordinate pair, because mode diff of `connectH`/`connectV` subscripts the one and reads `.x` of the other.

Files:
- `common.dfy`: the exception kinds and `Result`, the plane points and endpoints, and the pin lookup.
- `routing.dfy`: the corner rules.
- `pcb.dfy`, `sam_pcb.dfy`, `export.dfy`: one module per source file.

Behaviour of the export code that is easy to misread:
- `export_dot` never reads the cancel flag, so a cancel does not stop its save.
- `export_svg` and `export_stl` never report 100 (`Export.StageScheduleBounds`).
- A cancelled `export_svg` leaves the header and the shapes written so far without a footer.
- An svg export of zero shapes never reads the flag, so it can finish while the flag is set.
- `make_image` sets `img.color` on whatever the render returned. An interrupted render (None) therefore raises AttributeError, and the `if img is not None` filter of `export_png` never drops anything.
- The progress value is Python 3 true division (`i*90/n`), not an integer percentage.

## Model

| member | source | states |
|---|---|---|
| Exceptions.SomesMembers | koko/export.py:186 | Keeping the non-None results keeps exactly the present values, and drops nothing when none is None |
| Geometry.Sgn | koko/lib/sam_pcb.py:203-207 | The sign is 1 or -1, rebuilds v from its magnitude, and is 1 for 0 |
| Pins.FirstNamed | koko/lib/pcb.py:117 | The index found holds the name and no earlier pin does; None only when no pin has the name |
| Pins.PinIndexAsWritten | koko/lib/pcb.py:114-125 | The lookup as written only ever selects an index inside the pin list |
| Pins.PinIndex | koko/lib/pcb.py:114-125 | The 1-based lookup only ever selects an index inside the pin list |
| Pins.PinIndexByName | koko/lib/pcb.py:115-119 | A name fails with IndexError exactly when no pin has it, otherwise selects the first pin of that name |
| Pins.PinIndexByNumber | koko/lib/pcb.py:120-124 | A number i succeeds exactly when 1 <= i <= len(pins), selecting i-1; any other number raises IndexError |
| Pins.PinIndexAgrees | koko/lib/pcb.py:114-125 | The lookup as written and the 1-based lookup agree on every key but the numbers below 1 |
| Pins.PinZeroIsLastPin | koko/lib/pcb.py:120-124 | As written, number 0 selects the last pin and -k the (k+1)-th from the end; the 1-based lookup rejects both |
| Routing.Connect | koko/lib/sam_pcb.py:159-163 | The loop over the pairs and the final append compute exactly the route: the polyline and its side list, or UnboundLocalError when no pair is visited |
| Routing.HorizontalCorner | koko/lib/sam_pcb.py:161-162 | Horizontal-first inserts a corner exactly when x differs, at (B.x, A.y) |
| Routing.VerticalCorner | koko/lib/sam_pcb.py:188-189 | Vertical-first inserts a corner exactly when y differs, at (A.x, B.y) |
| Routing.DiagonalCorner | koko/lib/sam_pcb.py:214-218 | Diagonal-first inserts no corner exactly when dy == dx; otherwise A to corner is at 45 degrees and corner to B is axis-aligned |
| Routing.SteepCorner | koko/lib/sam_pcb.py:215-216 | When abs(dy) > abs(dx) the corner is at 45 degrees from A, on B's vertical, and is not B |
| Routing.ShallowCorner | koko/lib/sam_pcb.py:217-218 | Otherwise the corner is at 45 degrees from A and on B's horizontal |
| Routing.SignedMagnitude | koko/lib/sam_pcb.py:216 | sgn(s)*abs(m) has magnitude abs(m), and equals s only when the magnitudes agree |
| Routing.AntiDiagonalCornerIsEnd | koko/lib/sam_pcb.py:214-219 | When dy == -dx != 0 the diagonal corner is B itself, so B then appears twice |
| Routing.PairChain | koko/lib/sam_pcb.py:159-162 | One pair routes as an allowed chain A, corner, B |
| Routing.TraceLength | koko/lib/sam_pcb.py:159-162 | k pairs append between k and 2k points, starting with the first endpoint |
| Routing.TraceChain | koko/lib/sam_pcb.py:159-163 | The points of k pairs followed by the next endpoint form an allowed chain |
| Routing.TraceEndsAt | koko/lib/sam_pcb.py:163 | When the final B is not appended, the points already end at B's coordinates |
| Routing.PolylineShape | koko/lib/sam_pcb.py:159-163 | The polyline starts at the first endpoint, ends at the last visited endpoint's coordinates, and each segment is allowed by the rule |
| Routing.TraceSidesShape | koko/lib/sam_pcb.py:159-162 | There is one side entry per appended A and corner, each the side of one of the visited pairs |
| Routing.TraceSidesLength | koko/lib/sam_pcb.py:159-162 | The side list is exactly as long as the list of points it labels |
| Routing.TraceSidesFrom | koko/lib/sam_pcb.py:159-162 | Every side entry is the side of one of the pairs visited so far |
| Routing.RoutePoints | koko/lib/sam_pcb.py:159-164 | Every point of a route is one of the endpoints given, or a new corner Point |
| Routing.RouteShape | koko/lib/sam_pcb.py:159-164 | The route fails exactly when fewer than two endpoints or no sides are given; otherwise it has the polyline properties, and one more point than sides when B is appended |
| Pcb.NewConnection | koko/lib/pcb.py:198-202 | BoundPins are kept, every other argument becomes a Point at the same coordinates, and order and count are preserved |
| Pcb.GetPinAsWritten | koko/lib/pcb.py:114-125 | A lookup as written returns a pin of the component, bound to it |
| Pcb.GetPin | koko/lib/pcb.py:114-125 | A 1-based lookup returns a pin of the component, bound to it |
| Pcb.GetPinByName | koko/lib/pcb.py:115-119 | A name raises IndexError exactly when no pin has it, otherwise binds the first pin of that name |
| Pcb.GetPinByNumber | koko/lib/pcb.py:120-125 | Numbers 1..len(pins) bind pins[i-1], any other number raises IndexError, and a key of another type leaves pin unbound |
| Pcb.GetPinAgrees | koko/lib/pcb.py:114-125 | Both lookups agree except on numbers below 1 |
| Pcb.PinZeroIsLastPin | koko/lib/pcb.py:120-124 | As written, pin 0 of a component with pins is its last pin; the 1-based lookup raises IndexError |
| Pcb.NamedPinsMembers | koko/lib/pcb.py:135-137 | The labelled pins are exactly the pins with a non-empty name |
| Pcb.ComponentPinLabels | koko/lib/pcb.py:132-139 | One label (size 0.03) per named pin, in pin order; None exactly when no pin is named |
| Pcb.Board.constructor | koko/lib/pcb.py:8-17 | A new board has its bounds, no components, no connections and no custom outline |
| Pcb.Board.Cutout | koko/lib/pcb.py:51-55 | The custom outline when set, otherwise the rectangle x0..x0+width by y0..y0+height |
| Pcb.Board.LayoutGroups | koko/lib/pcb.py:40-49 | The corrected layout fails exactly when building the traces fails. It lists each group exactly when that group has a shape, in the order part labels, pin labels, traces, each in its colour |
| Pcb.Board.LayoutAgrees | koko/lib/pcb.py:19-49 | Where the layout as written succeeds, the corrected one gives the same layers |
| Pcb.Board.EmptyBoardLayout | koko/lib/pcb.py:19-49 | On an empty board the layout as written raises AttributeError, and the corrected one lists nothing |
| Pcb.Board.Add | koko/lib/pcb.py:57-64 | A component goes to components and a connection to connections; anything else raises TypeError; self is returned |
| Pcb.Board.Connect | koko/lib/pcb.py:66-94 | connectH/connectV append exactly one connection, the routed polyline with the default width 0.016 when none is given. Fewer than two endpoints raise UnboundLocalError. Components are unchanged |
| Pcb.ConnectedTraceShape | koko/lib/pcb.py:72-93 | Every appended connection runs from the first to the last endpoint, with consecutive points sharing x or y |
| SamPcb.DefaultSides | koko/lib/sam_pcb.py:147 | The default side list puts each of the n-1 segments on the top side |
| SamPcb.MirrorPin | koko/lib/sam_pcb.py:310-311 | Mirroring negates x and keeps y, shape, name, label size and label rotation |
| SamPcb.MirrorVia | koko/lib/sam_pcb.py:327-328 | Mirroring negates x and keeps y and shape |
| SamPcb.MirrorTwice | koko/lib/sam_pcb.py:310-328 | Mirroring twice restores a pin and a via |
| SamPcb.NewComponent | koko/lib/sam_pcb.py:230-246 | A side-1 component mirrors every pin and via, any other side keeps them, and the other fields are stored |
| SamPcb.BottomOfMirroredFootprint | koko/lib/sam_pcb.py:244-246 | Building a bottom-side component from a mirrored bottom-side footprint gives back the original pins and vias |
| SamPcb.GetPinAsWritten | koko/lib/sam_pcb.py:248-259 | A lookup as written returns a pin of the component, bound to it |
| SamPcb.GetPin | koko/lib/sam_pcb.py:248-259 | A 1-based lookup returns a pin of the component, bound to it |
| SamPcb.GetPinCases | koko/lib/sam_pcb.py:248-259 | A name binds the first pin of that name and a number in 1..len(pins) binds pins[i-1]; the failures are IndexError, or UnboundLocalError for another key type. As written, the lookup differs only below 1, counting from the end |
| SamPcb.Converted | koko/lib/sam_pcb.py:151-158 | A successful conversion of k arguments yields k endpoints, none of them a bare coordinate pair |
| SamPcb.ConvertedSticks | koko/lib/sam_pcb.py:151-158 | Once the conversion has raised, later arguments change nothing |
| SamPcb.ConvertArgs | koko/lib/sam_pcb.py:151-158 | The loop that rewrites args[i] in place computes exactly the conversion, including its exceptions |
| SamPcb.ExplicitKeeps | koko/lib/sam_pcb.py:155-156 | Mode explicit never raises; it keeps every argument at its coordinates, keeps BoundPins and turns pairs and Points into Points |
| SamPcb.UnknownModeFails | koko/lib/sam_pcb.py:151-158 | Another mode raises NotImplementedError exactly when some argument is not a BoundPin, and otherwise keeps the arguments |
| SamPcb.DiffOffsets | koko/lib/sam_pcb.py:153-154 | In mode diff, BoundPins stay, and each coordinate pair lands at its converted predecessor plus its offset, the first one after `args[-1]` |
| SamPcb.DiffFails | koko/lib/sam_pcb.py:151-158 | Mode diff raises exactly when a Point instance is an argument (TypeError: it cannot be subscripted) or the first argument needs the `.x` of a last argument that is a pair (AttributeError, raised first) |
| SamPcb.DiffPointCases | koko/lib/sam_pcb.py:153-154 | A Point offset raises TypeError where the same offset as a pair converts; a Point as the last argument supplies the first offset's origin where a pair raises AttributeError |
| SamPcb.CutAllSticks | koko/lib/sam_pcb.py:396-400 | Once a cut has raised, the later cuts are not applied |
| SamPcb.CutStepShape | koko/lib/sam_pcb.py:397-410 | A cut succeeds exactly when 0 < i < len(points)-1, sides[i] exists and both distances are non-zero. The asserts catch an i outside 0 < i < len(points). A cut replaces point i by two new points, keeping points[:i] and points[i+1:], and inserts a copy of sides[i] at i |
| SamPcb.CutAllKeepsSegments | koko/lib/sam_pcb.py:396-413 | Cuts keep one side per segment, and each applied cut adds one point |
| SamPcb.Connection.constructor | koko/lib/sam_pcb.py:383-390 | BoundPins are kept and other arguments become Points; the sides are as given, or all top; there are no jumpers |
| SamPcb.Connection.AddJumper | koko/lib/sam_pcb.py:392-394 | Appends one jumper at p, each omitted keyword taking its default (rotation 0, width .12, height .07, thickness .05); changes nothing else and returns the connection |
| SamPcb.Connection.CutCorners | koko/lib/sam_pcb.py:396-413 | The points and sides become those of applying the cuts in order; an exception leaves them as far as the cuts got and is returned |
| SamPcb.InsertKeepsDescending | koko/lib/sam_pcb.py:121 | Inserting a layer keeps the list ordered by descending position |
| SamPcb.SortByPositionCorrect | koko/lib/sam_pcb.py:121 | The sort by -position orders the layers by descending position and is a permutation |
| SamPcb.SortByPositionSorted | koko/lib/sam_pcb.py:121 | The sorted list has descending positions |
| SamPcb.SortByPositionPermutes | koko/lib/sam_pcb.py:121 | The sorted list holds the same layers as its input, with the same multiplicities |
| SamPcb.AtPositionAppend | koko/lib/sam_pcb.py:121 | Selecting the layers of one position distributes over concatenation |
| SamPcb.InsertAtPosition | koko/lib/sam_pcb.py:121 | Inserting into a descending list puts the layer after every layer of its own position |
| SamPcb.SortByPositionStable | koko/lib/sam_pcb.py:121 | The sort is stable, as Python's `sorted` is: the layers of each position keep their input order |
| SamPcb.AppendVisible | koko/lib/sam_pcb.py:121-122 | The loop appends exactly the visible layers, in order |
| SamPcb.VisibleMembers | koko/lib/sam_pcb.py:122 | A layer is listed exactly when it comes from a custom layer whose visibility is not 0 |
| SamPcb.CustomLayersInOrder | koko/lib/sam_pcb.py:121-122 | The sorted, filtered custom layers are exactly the visible ones |
| SamPcb.Board.constructor | koko/lib/sam_pcb.py:9-20 | A new board has its bounds and chamfer, and no components, connections, cutout or custom layers |
| SamPcb.Board.Add | koko/lib/sam_pcb.py:127-134 | A component goes to components and a connection to connections; anything else raises TypeError; self is returned |
| SamPcb.Board.AddCustomLayer | koko/lib/sam_pcb.py:136-137 | The layer is stored under its name as visible, with the number of layers before the call as position; a new name goes last |
| SamPcb.Board.HideLayer | koko/lib/sam_pcb.py:138-139 | The named layer's visibility becomes 0; an unknown name raises KeyError and changes nothing |
| SamPcb.Board.BoardOutline | koko/lib/sam_pcb.py:80-97 | The custom cutout when set; otherwise the rectangle x0..x0+width by y0..y0+height, chamfered exactly when the chamfer is not 0 |
| SamPcb.Board.CustomValues | koko/lib/sam_pcb.py:121 | The values of the custom layers, in dictionary order |
| SamPcb.Board.CustomValuesAreValues | koko/lib/sam_pcb.py:121 | They are exactly the dictionary's values |
| SamPcb.Board.SideLayersKinds | koko/lib/sam_pcb.py:102-119 | The groups of one side are label, trace or shadow groups of that side |
| SamPcb.Board.LayoutSides | koko/lib/sam_pcb.py:100-119 | The side groups: top when 0 is in sides, bottom when 1 is, each only when its property is truthy; TypeError when a component of a drawn side has no pins |
| SamPcb.Board.TopTracesPresence | koko/lib/sam_pcb.py:23-33 | The top traces are drawn exactly when a top component exists, or there are several connections, or the only connection has a segment on top (a lone None trace comes back from `reduce` unchanged) |
| SamPcb.Board.Layout | koko/lib/sam_pcb.py:100-124 | The layout is the side groups, then the visible custom layers by descending position, then the cutout; or TypeError as above |
| SamPcb.Board.LayoutCustom | koko/lib/sam_pcb.py:121-122 | The custom part of the layout holds exactly the visible custom layers |
| SamPcb.Board.LayoutShape | koko/lib/sam_pcb.py:100-124 | The cutout is last, the custom layers listed are exactly the visible ones, and every side group belongs to a requested side |
| SamPcb.Board.Connect | koko/lib/sam_pcb.py:141-222 | connectH/V/D convert the arguments (connectD always as in mode explicit), route them with the sides, and append and return exactly one connection of the given or default width. Each exception is passed on. Components and custom layers are unchanged |
| Export.Extension | koko/export.py:61 | The extension is a dot-free tail of the name: the whole name, or the text after a '.' |
| Export.ExtensionCases | koko/export.py:61 | A name without a dot is its own extension, and base.ext has extension ext |
| Export.CadDriverNames | koko/export.py:247-248 | The CAD task has a driver for exactly png, asdf, svg, stl and dot, each under its own name |
| Export.AsdfTaskDriverNames | koko/export.py:294-295 | The ASDF task has a driver for exactly png, stl and asdf |
| Export.ImageRegionBounds | koko/export.py:106-113 | The image region spans the CAD bounds, a missing z bound becomes 0, and the pitch is resolution*mm_per_unit |
| Export.FieldRegionWidens | koko/export.py:194-213 | The sampling region widens every axis by border*d on both sides around the same centre. With flat both z bounds are 0. The pitch is resolution*mm_per_unit. The region contains the shape for non-negative border |
| Export.PngValue | koko/export.py:92 | After c of n shapes the png progress is in (0, 90], and is 90 only after the last |
| Export.PngProgressBounds | koko/export.py:87-92 | The png loop reports rising values in (0, 90], reaching 90 exactly after the last shape |
| Export.PngRunRises | koko/export.py:92-99 | A finished png export reports rising values ending with 90 and then 100 |
| Export.StageScheduleBounds | koko/export.py:150-157 | The svg and stl loops report rising values at most 99 |
| Export.SvgFrameStroke | koko/export.py:136-140 | The stroke is a hundredth of the larger side, and positive for non-empty bounds and a positive scale |
| Export.ExportTask.constructor | koko/export.py:58-66 | The extension is taken from the file name; both flags start clear; nothing is logged |
| Export.ExportTask.Cancel | koko/export.py:46-47 | Cancel sets both flags, so calling it again changes nothing |
| Export.ExportTask.Poll | koko/export.py:88 | A flag read sees the flag set exactly when it was set before or the button was pressed since; the flags stay equal |
| Export.ExportTask.SetProgress | koko/export.py:43-44 | A progress assignment appends its value to the history |
| Export.ExportTask.Save | koko/export.py:98 | A save logs the file name and what is written |
| Export.ExportTask.MakeImage | koko/export.py:103-120 | One render over the image region with the hard token; the image gets the expression's colour, and a None image raises AttributeError |
| Export.ExportTask.MakeAsdf | koko/export.py:192-218 | One sampling over the widened region with the hard token; its result is returned |
| Export.ExportTask.MakeContour | koko/export.py:221-223 | A None field raises AttributeError; otherwise one contouring with the hard token, whose result is returned |
| Export.ExportTask.MakeMesh | koko/export.py:226-231 | With use_cms one triangulate_cms call without a token, otherwise one triangulate with the hard token; a None field raises AttributeError |
| Export.ExportTask.RenderShape | koko/export.py:87-92 | One shape of the png loop: a cancel check, one render, and progress (i+1)*90/n only after a successful render |
| Export.ExportTask.RenderEach | koko/export.py:85-92 | The png loop renders the shapes in order and keeps their images in order. The progress after k shapes is the schedule i*90/n. It stops on a cancel or a None image |
| Export.ExportTask.SaveUnlessCancelled | koko/export.py:95-99 | Unless the last check sees the flag: 90, the save, then 100; otherwise nothing |
| Export.ExportTask.PngHeightmap | koko/export.py:82-99 | One render of the whole shape; if finished, its image saved alone after 90, then 100 |
| Export.ExportTask.PngLayers | koko/export.py:84-99 | If finished, every shape was rendered in order, the merge of all their images is saved, and the progress is the png schedule then 90 and 100 |
| Export.ExportTask.ExportPng | koko/export.py:78-99 | export_png: a cancel seen at any check ends it with no save and no 90/100; a finished export saved the file last, with the flag clear |
| Export.ExportTask.ExportAsdf | koko/export.py:123-130 | 50 is reported before the check. It is cancelled exactly when the flag is set. It saves exactly when it finishes, and 100 follows only the save |
| Export.ExportTask.ExportDot | koko/export.py:234-244 | Compile, 25, save, 100, reading no flag |
| Export.ExportTask.WriteContours | koko/export.py:160-164 | One svg write per contour, in order |
| Export.ExportTask.SampleStage | koko/export.py:148-151 | A cancel check, then one sampling of the shape and progress (3j+1)*33/n |
| Export.ExportTask.SvgDraw | koko/export.py:154-164 | A cancel check, one contouring, progress (3j+3)*33/n, then the writes in the shape's colour or black; a None field or None contours raise |
| Export.ExportTask.SvgShape | koko/export.py:146-164 | One shape of the svg loop, complete or stopped as SvgStopped describes |
| Export.ExportTask.SvgStep | koko/export.py:146-164 | One svg shape appended to the completed ones, with the progress schedule kept |
| Export.ExportTask.SvgLoop | koko/export.py:145-164 | The svg loop completes the shapes in order until one stops, with the schedule (3k-2)*33/n, 3k*33/n |
| Export.ExportTask.ExportSvg | koko/export.py:133-166 | The header first. If finished, every shape's contours follow in order, then the footer. A cancel leaves no footer |
| Export.ExportTask.MeshStage | koko/export.py:181-184 | A cancel check, one triangulation (no token with use_cms), progress (3j+3)*33/n |
| Export.ExportTask.StlShape | koko/export.py:174-186 | One shape of the stl loop, complete with its mesh or stopped as StlStopped describes |
| Export.ExportTask.StlStep | koko/export.py:174-186 | One stl shape appended; the meshes kept are the non-None ones in order |
| Export.ExportTask.StlLoop | koko/export.py:172-186 | The stl loop completes the shapes in order until one stops, keeping the non-None meshes in shape order |
| Export.ExportTask.ExportStl | koko/export.py:169-190 | If finished, the flag is clear, every shape was done, and the merge of the non-None meshes is saved last; 100 is never reported |
| Export.ExportTask.Drive | koko/export.py:247-248 | Each CAD driver ends as run relies on: a cancel is on the flag, and a completed driver ends with its save (the footer for svg). Only dot and svg can complete with the flag set |
| Export.ExportTask.DriveAsdf | koko/export.py:123-130 | The asdf driver ends as run relies on |
| Export.ExportTask.Run | koko/export.py:247-249 | An unknown extension raises AttributeError before anything happens; otherwise the chosen driver runs, and the window is closed unless it raised |
| Export.AsdfExportTask.constructor | koko/export.py:257-262 | The extension is taken from the file name, and the field and view options are stored |
| Export.AsdfExportTask.ExportPng | koko/export.py:275-281 | Render the field, 90, then the image saved and 100 exactly when the render gave an image; otherwise AttributeError |
| Export.AsdfExportTask.ExportStl | koko/export.py:283-287 | triangulate_cms without a token, 60, then the mesh saved and 100 exactly when there is a mesh; otherwise AttributeError |
| Export.AsdfExportTask.ExportAsdf | koko/export.py:289-292 | The field is saved, then 100 |
| Export.AsdfExportTask.Run | koko/export.py:294-296 | An unknown extension raises AttributeError. If finished, the file was saved last and 100 reported last. The asdf driver always finishes. The window closes unless the run raised |

## Left out

- The wx progress window is reduced to the `windowOpen` field. This leaves out the gauge, `wx.CallAfter` and `Destroy`, and the `progress` property, whose value is the last entry of the history.
- Threading is not modelled: the worker thread and real concurrent setting of the flags. Each flag read is one query of the cancel-button oracle.
- The geometry engine (Region, ASDF, Image, Mesh, Path, render/asdf/contour/triangulate, merge and the writers) is foreign code. Its calls are functions held by each export task, and its effects are log entries. Regions are recorded by their arguments, and `Export.Corners` computes the boxes.
- `koko.APP.savepoint` in `ExportTaskASDF.export_asdf` is not modelled.
- Options injected through `**kwargs`/`setattr` become the explicit `Options` record. A missing option, which would raise AttributeError, is not modelled.
- Trigonometry and square roots are not modelled:
  - `BoundPin.x/y` (cos/sin of the rotation): a BoundPin is an endpoint whose position is already resolved;
  - `Connection.traces` (atan2, rounded rectangles, via pads and holes);
  - the distance in `cut_corners`, which is a parameter function. The two new points are only free points.
- `Point.magnitude` and `normalized` are not modelled. `magnitude` adds `self.y+self.y` where `self.y*self.y` is evidently meant (koko/lib/sam_pcb.py:371).
- Shape algebra (s2d union and difference, text, colouring) is not modelled. The footprint subclasses are data tables and are not modelled.
- Python versions: `koko/export.py` is modelled under Python 3 (true division). The two PCB files use `reduce` without importing it, which only Python 2 allows; the model takes its Python 2 behaviour, TypeError on an empty list (under Python 3 every such call raises NameError).
- SamPcb.Board.CustomValues: the custom layers are listed in insertion order, which dictionaries only guarantee from Python 3.7. Under Python 2 `custom_layers.values()` comes in hash order, so the order among layers of equal position (`SamPcb.SortByPositionStable`) holds only for insertion-ordered dictionaries.
- SamPcb.Board.Layout: the only trace failure modelled is a component without pins on a drawn side. Also missing are the failures of `Connection.traces`, a None top-side trace entering a `reduce` together with other entries, and the subtraction `- self.holes` when there are no holes; those depend on shape code that is not part of this model. A lone None top trace is modelled: the top traces group is then left out (`SamPcb.Board.TopTracesPresence`).
- Pcb.Board.Connect: pcb.py has no diagonal rule, so it requires the horizontal or vertical rule. The sides are routed and then dropped.
- Export.ExportTask.Run: it states only what `run` relies on: the latch, the window, and the ending of each driver. Each driver's own method states the full log and progress.
- Export.ExportTask.Drive: as for Run; it states the ending of each driver, not its full log.
- Mode diff of `connectH`/`connectV` takes `args[-1]` as the predecessor of the first argument. That is the unconverted last argument, and a bare coordinate pair there raises AttributeError. A Point instance there has `.x` and supplies it; a Point instance as an offset raises TypeError, since a Point can be unpacked but not subscripted. The model keeps this as written (`SamPcb.Converted`, `SamPcb.DiffFails`).

## Findings

| source | as written | input that shows it | evidently intended | confidence | as-written member | corrected member |
|---|---|---|---|---|---|---|
| koko/lib/pcb.py:120-124 | `self.pins[i-1]` is a Python index, so pin numbers 0 and below count from the end of the list | a component with pins looked up with key 0 returns its last pin instead of raising IndexError | pin numbers are 1-based; numbers below 1 are not pins | not executed | Pins.PinIndexAsWritten, Pins.PinZeroIsLastPin, Pcb.PinZeroIsLastPin | Pins.PinIndex, Pins.PinIndexByNumber, Pcb.GetPinByNumber |
| koko/lib/sam_pcb.py:254-258 | the same lookup, copied into the two-sided library | key 0 selects the last pin of the component | as above | not executed | SamPcb.GetPinAsWritten, SamPcb.GetPinCases | SamPcb.GetPin, SamPcb.GetPinCases |
| koko/lib/pcb.py:19-38 | `traces`, `part_labels` and `pin_labels` assign `shape.bounds` even when the reduced shape is None | a board without components: `layout` raises AttributeError instead of listing no groups | `layout`'s `if` tests skip a group whose shape does not exist | not executed | Pcb.Board.LayoutAsWritten, Pcb.Board.EmptyBoardLayout | Pcb.Board.Layout, Pcb.Board.LayoutGroups, Pcb.Board.LayoutAgrees |
