# nodegraph scene model in Dafny

A model of the scene logic of `nodegraph`, a small node-graph editor built on Qt's
graphics scene. Qt is stripped away and what the package itself decides is kept:

- **Nodes** (`NodeItem`) carry a rectangle, a style with a header size (20 unless the caller
  supplies one), and two insertion-ordered dicts of named ports: plugs (outputs) and sockets
  (inputs). Creating a port stores it under its name, where the last write wins. The node then
  lays all ports out again: sockets down the left edge, plugs down the right edge, each role
  evenly spaced below the header in insertion order.
- **Ports** (`PortItem`) are placed by their centre (for a bound anchored at the origin;
  otherwise the centre lands shifted by the bound's corner). They keep a list of attached connections,
  and on every paint they push their scene centre into each of them, as the plug end first,
  otherwise as the socket end.
- **Connections** (`ConnectionItem`) cache their two end positions. They rebuild their cubic
  curve only when an end really moves, and announce a geometry change only when the curve
  really changes. Their bounding box is the curve's box grown by 10 on each side.
- **The graph** (`GraphModel`) hands out node ids 0, 1, 2, … and registers each node under its
  id.

Modules:
- `Geometry` (geometry.dfy): points, rectangles, the connection curve, and proofs that the
  curve stays inside the box of its ends.
- `Layout` (layout.dfy): the port-spacing arithmetic.
- `OrderedDict` (ordered_dict.dfy): Python's insertion-ordered dict. It is proved to behave
  as a plain map update while keeping key order.
- `NodeGraph` (nodegraph.dfy): the four item classes, as Dafny classes whose methods update
  their fields in place.
- `Demo` (demo.dfy): the demo application's graph, built through the model, with its concrete
  positions.

Coordinates are exact reals. The code only adds, subtracts, multiplies and divides, and it
compares positions with `!=`, taken as exact equality. The scene transform is a translation: a port's
scene point is its node's position plus its own position plus the local point. A node is a
top-level item.

## Model

| member | source | states |
|---|---|---|
| NodeGraph.ApplyDefaults | nodegraph/__init__.py:19-25 | the style ends with exactly the supplied keys plus the default keys; supplied values are kept and only missing keys take the default |
| NodeGraph.NodeItem.constructor | nodegraph/__init__.py:14-32 | id, rect and editable are as given; movable and selectable follow editable; the `header_size` property reads the supplied header size, else 20; both port dicts start empty |
| NodeGraph.NodeItem.CreatePlug | nodegraph/__init__.py:34-36 | the plugs dict is the old one with a fresh port stored under the name (a map update keeping key order); sockets are untouched; the port has that name and bound and no connections; no other port is added; attached connections are kept; a plug replaced under the same name keeps its position; afterwards every port sits at its layout position |
| NodeGraph.NodeItem.CreateSocket | nodegraph/__init__.py:38-40 | the same for the sockets dict, with the plugs untouched |
| NodeGraph.NodeItem.StorePlug | nodegraph/__init__.py:35 | storing a new child port among the plugs keeps both dicts consistent: no port twice, none in both roles, all children of the node |
| NodeGraph.NodeItem.StoreSocket | nodegraph/__init__.py:39 | the same for the sockets |
| NodeGraph.AddPlugKeepsPortDicts | nodegraph/__init__.py:35 | a fresh child port put into the plugs dict preserves the consistency of the two dicts |
| NodeGraph.AddSocketKeepsPortDicts | nodegraph/__init__.py:39 | the same for the sockets dict |
| NodeGraph.NodeItem.AddPort | nodegraph/__init__.py:42-46 | the new port is fresh, has the given name and bound, is a child of this node, sits at the origin and has no connections |
| NodeGraph.NodeItem.LayoutPorts | nodegraph/__init__.py:48-62 | afterwards the i-th socket in insertion order is centred at the left edge and the i-th plug at the right edge, at the height of slot i of that role's count; connections are untouched |
| NodeGraph.PlaceOnEdges | nodegraph/__init__.py:50-62 | places sockets on the left edge and plugs on the right edge; an empty role changes nothing |
| NodeGraph.PlaceDownEdge | nodegraph/__init__.py:54-57 | the loop leaves port i centred on the edge at slot i; running it on ports already placed leaves every position unchanged |
| NodeGraph.PortItem.constructor | nodegraph/__init__.py:112-115 | a port starts with its name, bound and parent node, at the origin, with no connections |
| NodeGraph.PortItem.SetPos | nodegraph/__init__.py:124-128 | the port's position is the requested point less half its size, so the bound's centre lands on that point shifted by the bound's corner, exactly on it for a bound anchored at the origin |
| NodeGraph.PortItem.AddConnection | nodegraph/__init__.py:130-131 | the connection is appended, with no de-duplication |
| NodeGraph.PortItem.Paint | nodegraph/__init__.py:133-140 | every attached connection receives the port's scene centre as its plug end if its plug is this port, otherwise as its socket end if its socket is; the curve is rebuilt and a change counted exactly when that end moved |
| NodeGraph.ConnectionItem.constructor | nodegraph/__init__.py:66-78 | caches start at the origin and are seeded from each present port's position; the path is empty only if both seeds are the origin; one geometry change per seed that moved; the connection is appended to each port, twice when socket and plug are the same port |
| NodeGraph.ConnectionItem.SetPlugPos | nodegraph/__init__.py:80-83 | the plug cache takes the new value; the same value changes nothing, a different one rebuilds the curve to the socket cache and counts one change |
| NodeGraph.ConnectionItem.SetSocketPos | nodegraph/__init__.py:85-88 | the same for the socket cache |
| NodeGraph.ConnectionItem.SetPath | nodegraph/__init__.py:93-96 | the path is replaced, and a geometry change counted, only when the new path differs |
| NodeGraph.ConnectionItem.RebuildPoints | nodegraph/__init__.py:101-108 | the path becomes the curve from the plug cache to the socket cache; a change is counted when it differs from the old path |
| NodeGraph.ConnectionItem.BoundingRect | nodegraph/__init__.py:90-91 | the box of the two cached ends grown by 10 on every side, or the null box at the origin grown by 10 while the path is empty |
| NodeGraph.GraphModel.constructor | nodegraph/__init__.py:144-148 | no node registered, the id counter at -1 |
| NodeGraph.GraphModel.GetNodeId | nodegraph/__init__.py:164-166 | the counter is pre-incremented and its new value returned |
| NodeGraph.GraphModel.CreateNode | nodegraph/__init__.py:156-162 | the node gets the next id, which no registered node has; it is added to the scene and registered under that id, every other entry unchanged; the node's flags follow `editable` and it keeps every supplied style entry, with the header size supplied or 20 |
| NodeGraph.GraphModel.Connect | nodegraph/__init__.py:150-154 | the new connection is attached and seeded as its constructor promises, and added to the scene |
| Geometry.Rect.Center | nodegraph/__init__.py:122 | the centre is equidistant from opposite edges |
| Geometry.Rect.Adjusted | nodegraph/__init__.py:91 | each edge moves by its own offset |
| Geometry.CentredAt | nodegraph/__init__.py:124-128 | the shape's centre lands on the target point, shifted by the bound's corner, exactly on it for a bound at the origin |
| Geometry.ToScene | nodegraph/__init__.py:122 | a port-local point mapped to the scene maps back to itself, so the mapping is the translation by the node's and the port's positions |
| NodeGraph.PortItem.CenterPos | nodegraph/__init__.py:121-122 | the result lies half-way between opposite edges of the port's bounding box placed in the scene |
| Geometry.Bounds | nodegraph/__init__.py:91 | an empty path has the null box at the origin; a cubic's box holds its four points and each edge passes through one of them |
| Geometry.ToSceneFollowsNode | nodegraph/__init__.py:121-122 | moving the node moves a port's scene centre by the same offset |
| Geometry.Curve | nodegraph/__init__.py:101-107 | the curve starts at the plug and ends at the socket; the control points are level with their ends and one third of the horizontal distance in |
| Geometry.PointAt | nodegraph/__init__.py:101-107 | the curve at parameter 0 is its start and at 1 its end |
| Geometry.CurveBounds | nodegraph/__init__.py:90-91 | the box of a connection curve is exactly the box of its two ends |
| Geometry.BernsteinBetween | nodegraph/__init__.py:103-107 | a cubic whose inner control values lie between the outer two stays between them on [0, 1] |
| Geometry.CurveInsideSpan | nodegraph/__init__.py:101-107 | every point of a connection curve lies inside the box of its two ends |
| Layout.NextSlot | nodegraph/__init__.py:55-57 | slot i+1 is one spacing below slot i |
| Layout.EvenlySpaced | nodegraph/__init__.py:50-62 | neighbouring ports of a role are one spacing apart; the first is one spacing below the header and the last one spacing above the node's height |
| Layout.SlotInsideBody | nodegraph/__init__.py:50-62 | in a node taller than its header, every port, a role's only port included, lies strictly between the header and the bottom |
| Layout.SlotsInOrder | nodegraph/__init__.py:50-62 | in a node taller than its header, a later port of a role lies lower than an earlier one |
| OrderedDict.Put | nodegraph/__init__.py:35 | storing keeps the dict well formed; the key set gains the key and loses none |
| OrderedDict.PutAsMap | nodegraph/__init__.py:35 | seen as a map, storing is a map update: the key maps to the new value and all other keys keep theirs |
| OrderedDict.PutNewKey | nodegraph/__init__.py:35 | a new key is appended to the key order with its value at the end |
| OrderedDict.PutExistingKey | nodegraph/__init__.py:35 | an existing key keeps its position and the key order; only its value is replaced |
| OrderedDict.ValuesAreStored | nodegraph/__init__.py:55 | `values()` lists exactly the stored values |
| OrderedDict.PutFreshKeepsInjective | nodegraph/__init__.py:35 | storing a value held nowhere else keeps every value under one key only |
| Demo.NodeIds | nodegraph/__init__.py:164-166 | three nodes created in a new graph get ids 0, 1 and 2 |
| Demo.DemoNode | nodegraph/demo.py:18-20 | a 50 by 50 node with one 10 by 10 plug stored under "out" and one socket under "in" has the plug at (45, 30) and the socket at (-5, 30), centres half-way down the body; these numbers take the port's box to be exactly its 10 by 10 rectangle, that is a pen of zero width |
| Demo.DemoConnection | nodegraph/demo.py:24 | the connection from the first node's socket "in" to the second node's plug "out", both looked up by name, is seeded from the ports' corners, (45, 30) to (-5, 30); after the plug's node moves 100 to the right and the plug repaints, the curve runs from the plug's scene centre (150, 35); for a zero-width pen, as above |
| Demo.MoveAndRepaint | nodegraph/__init__.py:133-140 | after the node of a plug at (45, 30) moves to (100, 0) and the plug repaints, the plug end is the scene centre (150, 35) and the curve runs from there to the socket end |

A connection seeds its two ends from the ports' `pos()` (nodegraph/__init__.py:74, 78). That is the origin of each port's own coordinates in its node's coordinates, the top-left corner of the demo's ports. Every later paint pushes `centerPos()` instead, the port's centre in the scene (nodegraph/__init__.py:138, 140). So the first paint moves an end even when nothing moved, unless the port's scene centre already equals its `pos()`, which never happens for the demo's ports. In `Demo.DemoConnection` the plug end is seeded at (45, 30). After its node moves 100 to the right it lands at (150, 35), 105 further right, because no paint happened before the move.

The layout formula itself is `Layout.Spacing` and `Layout.SlotY`: the gap between ports of a role, and the height of the i-th of k ports (nodegraph/__init__.py:52-62). Their properties are the `Layout` rows above.

## Left out

- `GraphView`, `_setup_background`, the Qt application and stylesheet in `demo.py`, and `setup.py`: view wiring, background painting, application bootstrap and packaging. They hold no scene logic.
- Drawing: `ConnectionItem.paint` and the `super().paint` call in `PortItem.paint`. `prepareGeometryChange` is modelled only as a counter of announcements.
- Item flags: `movable` and `selectable` are booleans; what Qt does with them is not modelled.
- The `port_class`, `node_class` and `connetion_class` keyword arguments that inject other item classes. The model always builds the package's own classes. The misspelled `connetion_class` key and the `node_class` key that is read but not popped are therefore not modelled.
- Floating point: coordinates are exact reals. Qt's fuzzy comparisons of points and paths are modelled as exact equality.
- `mapToScene` is modelled as translation by the node's position plus the port's own position. Rotation, scaling and nested parents are not modelled.
- A port's bounding rectangle is a given rectangle. Qt's widening of an ellipse item's box by half its pen width is folded into it.
- A painter path is either empty or one cubic segment, and its box is taken over its four points. For every curve a connection builds this is the curve's exact box, because `Geometry.CurveBounds` and `Geometry.CurveInsideSpan` show that the control points and the whole curve stay within the box of the ends.
- NodeGraph.ApplyDefaults: returns the merged style instead of adding the defaults into the caller's dict in place. The caller's dict is therefore not shown to be aliased and changed.
- Demo.DemoNode: the concrete positions take a port's box to be exactly the rectangle it was created with. With Qt's default one-unit pen the box is half a unit wider on each side, which shifts every port by half a unit up and left.
- NodeGraph.NodeItem.CreatePlug: a plug replaced under an existing name stays a child item of the node in Qt. The model only drops it from the dict and from the ports it lays out.
- NodeGraph.ConnectionItem.SetPath: Qt expects `prepareGeometryChange` before the path changes, but the code calls it after. Only the count of announcements is modelled, not their order against the update.
- The layout measures heights from 0 in the node's coordinates and ignores the rectangle's top (`rect.y()`). It is modelled as written.
- The keyword defaults of the node constructor, `editable=True` and `style={}`, are not modelled as defaults. Both are explicit parameters of `NodeItem` and `GraphModel.CreateNode`, and passing `true` and `map[]` gives the default behaviour.
- Style values are modelled as reals (`map<string, real>`). The source's style dict can hold any Python value, but the core only reads `header_size`, a number.
- The host moving a node (`NodeItem.SetPos`) stands for a user's drag in Qt. It is a plain assignment.
