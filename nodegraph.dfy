/** The scene model of the node graph: nodes that lay out named ports on their edges,
    ports that push their centres into the connections attached to them, connections that
    cache their two end positions and rebuild their curve when one of them moves, and the
    graph that numbers and registers the nodes. */
module NodeGraph {
  import opened Geometry
  import opened OrderedDict
  import opened Layout

  const HeaderSizeKey: string := "header_size"

  /** Style entries a node gets when its caller does not supply them. */
  const DefaultStyle: map<string, real> := map[HeaderSizeKey := 20.0]

  /** Adds every default entry the style lacks, one key at a time; entries the caller
      supplied are kept as they are. */
  method ApplyDefaults(style: map<string, real>, defaults: map<string, real>) returns (merged: map<string, real>)
    ensures forall k :: k in merged <==> k in style || k in defaults
    ensures forall k :: k in style ==> merged[k] == style[k]
    ensures forall k :: k in defaults && k !in style ==> merged[k] == defaults[k]
  {
    merged := style;
    var todo := defaults.Keys;
    while todo != {}
      invariant todo <= defaults.Keys
      invariant forall k :: k in merged <==> k in style || (k in defaults && k !in todo)
      invariant forall k :: k in style ==> merged[k] == style[k]
      invariant forall k :: k in defaults && k !in style && k !in todo ==> merged[k] == defaults[k]
      decreases todo
    {
      var key :| key in todo;
      if key !in merged {
        merged := merged[key := defaults[key]];
      }
      todo := todo - {key};
    }
  }

  /** Both dicts are well formed, no port is listed twice or in both roles, and every
      listed port is a child of `owner`. */
  ghost predicate PortDicts(plugs: Dict<PortItem>, sockets: Dict<PortItem>, owner: NodeItem)
  {
    WellFormed(plugs) && WellFormed(sockets) &&
    Injective(plugs) && Injective(sockets) &&
    (forall p :: p in plugs.values ==> p !in sockets.values) &&
    (forall p :: p in plugs.values ==> p.node == owner) &&
    (forall p :: p in sockets.values ==> p.node == owner)
  }

  /** Storing a new child port among the plugs keeps the dicts consistent. */
  lemma AddPlugKeepsPortDicts(plugs: Dict<PortItem>, sockets: Dict<PortItem>, owner: NodeItem,
                              name: string, port: PortItem)
    requires PortDicts(plugs, sockets, owner) && port.node == owner
    requires port !in plugs.values && port !in sockets.values
    ensures PortDicts(Put(plugs, name, port), sockets, owner)
  {
    PutFreshKeepsInjective(plugs, name, port);
    PutValues(plugs, name, port);
  }

  /** Storing a new child port among the sockets keeps the dicts consistent. */
  lemma AddSocketKeepsPortDicts(plugs: Dict<PortItem>, sockets: Dict<PortItem>, owner: NodeItem,
                                name: string, port: PortItem)
    requires PortDicts(plugs, sockets, owner) && port.node == owner
    requires port !in plugs.values && port !in sockets.values
    ensures PortDicts(plugs, Put(sockets, name, port), owner)
  {
    PutFreshKeepsInjective(sockets, name, port);
    PutValues(sockets, name, port);
  }

  /** A node: a rectangle with a header band, an ordered dict of output ports (plugs) and
      one of input ports (sockets). */
  class NodeItem {
    const id: int
    const editable: bool
    /** The movable and selectable item flags. */
    const movable: bool
    const selectable: bool
    /** The node's rectangle, in its own coordinates. */
    const rect: Rect
    const style: map<string, real>
    /** Where the node sits in the scene; the host moves it. */
    var pos: Point
    var plugs: Dict<PortItem>
    var sockets: Dict<PortItem>

    /** Both dicts are well formed, no port is listed twice or in both roles, and every
        listed port is a child of this node. */
    ghost predicate Valid()
      reads this
    {
      HeaderSizeKey in style && PortDicts(plugs, sockets, this)
    }

    function Ports(): set<PortItem>
      reads this
    {
      (set p | p in plugs.values) + (set p | p in sockets.values)
    }

    function HeaderSize(): real
      reads this
      requires HeaderSizeKey in style
    {
      style[HeaderSizeKey]
    }

    /** Every listed port has its centre where the layout puts the port of its role and
        position in insertion order. */
    ghost predicate LaidOut()
      reads this, Ports()
      requires Valid()
    {
      PlacedDownEdge(sockets.values, rect.x, HeaderSize(), rect.h) &&
      PlacedDownEdge(plugs.values, rect.x + rect.w, HeaderSize(), rect.h)
    }

    constructor (id: int, rect: Rect, editable: bool, style: map<string, real>)
      ensures Valid()
      ensures this.id == id && this.rect == rect && this.editable == editable
      ensures movable == editable && selectable == editable
      ensures this.style.Keys == style.Keys + {HeaderSizeKey}
      ensures forall k :: k in style ==> this.style[k] == style[k]
      ensures HeaderSize() == if HeaderSizeKey in style then style[HeaderSizeKey] else 20.0
      ensures pos == Origin && plugs == EmptyDict() && sockets == EmptyDict()
    {
      var merged := ApplyDefaults(style, DefaultStyle);
      this.id := id;
      this.editable := editable;
      this.movable := editable;
      this.selectable := editable;
      this.rect := rect;
      this.style := merged;
      pos := Origin;
      plugs := EmptyDict();
      sockets := EmptyDict();
    }

    /** The host drags the node to `p`. */
    method SetPos(p: Point)
      modifies this`pos
      ensures pos == p
    {
      pos := p;
    }

    /** Adds an output port named `name` (replacing any plug of that name) and lays out
        the ports again. */
    method CreatePlug(name: string, bound: Rect)
      requires Valid()
      modifies this`plugs, Ports()
      ensures Valid() && LaidOut()
      ensures name in plugs.keys && fresh(Get(plugs, name))
      ensures plugs == Put(old(plugs), name, Get(plugs, name))
      ensures sockets == old(sockets)
      ensures Get(plugs, name).name == name && Get(plugs, name).bound == bound
      ensures Get(plugs, name).connections == []
      ensures Ports() <= old(Ports()) + {Get(plugs, name)}
      ensures forall p :: p in old(Ports()) ==> p.connections == old(p.connections)
      ensures forall p :: p in old(Ports()) && p !in Ports() ==> p.pos == old(p.pos)
    {
      var port := AddPort(name, bound);
      StorePlug(name, port);
      LayoutPorts();
    }

    /** `plugs[name] = port` for a new child port. */
    method StorePlug(name: string, port: PortItem)
      requires Valid() && port.node == this && port !in Ports()
      modifies this`plugs
      ensures Valid()
      ensures plugs == Put(old(plugs), name, port) && sockets == old(sockets)
      ensures Ports() <= old(Ports()) + {port}
    {
      AddPlugKeepsPortDicts(plugs, sockets, this, name, port);
      PutValues(plugs, name, port);
      plugs := Put(plugs, name, port);
    }

    /** Adds an input port named `name` (replacing any socket of that name) and lays out
        the ports again. */
    method CreateSocket(name: string, bound: Rect)
      requires Valid()
      modifies this`sockets, Ports()
      ensures Valid() && LaidOut()
      ensures name in sockets.keys && fresh(Get(sockets, name))
      ensures sockets == Put(old(sockets), name, Get(sockets, name))
      ensures plugs == old(plugs)
      ensures Get(sockets, name).name == name && Get(sockets, name).bound == bound
      ensures Get(sockets, name).connections == []
      ensures Ports() <= old(Ports()) + {Get(sockets, name)}
      ensures forall p :: p in old(Ports()) ==> p.connections == old(p.connections)
      ensures forall p :: p in old(Ports()) && p !in Ports() ==> p.pos == old(p.pos)
    {
      var port := AddPort(name, bound);
      StoreSocket(name, port);
      LayoutPorts();
    }

    /** `sockets[name] = port` for a new child port. */
    method StoreSocket(name: string, port: PortItem)
      requires Valid() && port.node == this && port !in Ports()
      modifies this`sockets
      ensures Valid()
      ensures sockets == Put(old(sockets), name, port) && plugs == old(plugs)
      ensures Ports() <= old(Ports()) + {port}
    {
      AddSocketKeepsPortDicts(plugs, sockets, this, name, port);
      PutValues(sockets, name, port);
      sockets := Put(sockets, name, port);
    }

    /** A new port, a child of this node, with the given bounding rectangle. */
    method AddPort(name: string, bound: Rect) returns (port: PortItem)
      ensures fresh(port)
      ensures port.name == name && port.bound == bound && port.node == this
      ensures port.pos == Origin && port.connections == []
    {
      port := new PortItem(name, bound, this);
    }

    /** Places the sockets down the left edge and the plugs down the right edge, each role
        evenly spaced below the header in insertion order. */
    method LayoutPorts()
      requires Valid()
      modifies Ports()
      ensures LaidOut()
      ensures forall p :: p in Ports() ==> p.connections == old(p.connections)
    {
      PlaceOnEdges(sockets.values, plugs.values, rect, HeaderSize());
    }
  }

  /** The body of the layout pass: the sockets go down the left edge of `rect` and the plugs
      down its right edge; a role without ports is skipped. */
  method PlaceOnEdges(sockets: seq<PortItem>, plugs: seq<PortItem>, rect: Rect, header: real)
    requires forall i, j :: 0 <= i < j < |sockets| ==> sockets[i] != sockets[j]
    requires forall i, j :: 0 <= i < j < |plugs| ==> plugs[i] != plugs[j]
    requires forall p :: p in sockets ==> p !in plugs
    modifies (set p | p in sockets), (set p | p in plugs)
    ensures PlacedDownEdge(sockets, rect.x, header, rect.h)
    ensures PlacedDownEdge(plugs, rect.x + rect.w, header, rect.h)
    ensures forall p :: p in sockets || p in plugs ==> p.connections == old(p.connections)
  {
    if sockets != [] {
      PlaceDownEdge(sockets, rect.x, header, rect.h);
    }
    if plugs != [] {
      PlaceDownEdge(plugs, rect.x + rect.w, header, rect.h);
    }
  }

  /** The `i`-th of `ports` has its centre on the vertical line `x`, at the height the layout
      gives the `i`-th of that many ports. */
  ghost predicate PlacedDownEdge(ports: seq<PortItem>, x: real, header: real, height: real)
    reads set p | p in ports
  {
    forall i :: 0 <= i < |ports| ==>
      ports[i].pos == CentredAt(Point(x, SlotY(header, height, i, |ports|)), ports[i].bound)
  }

  /** Places the `i`-th of `ports` with its centre on the vertical line `x`, at the height the
      layout gives the `i`-th of that many ports. */
  method PlaceDownEdge(ports: seq<PortItem>, x: real, header: real, height: real)
    requires forall i, j :: 0 <= i < j < |ports| ==> ports[i] != ports[j]
    modifies set p | p in ports
    ensures PlacedDownEdge(ports, x, header, height)
    ensures forall p :: p in ports ==> p.connections == old(p.connections)
    ensures old(PlacedDownEdge(ports, x, header, height)) ==>
      forall i :: 0 <= i < |ports| ==> ports[i].pos == old(ports[i].pos)
  {
    var spacing := (height - header) / (|ports| + 1) as real;
    var i := 0;
    while i < |ports|
      invariant 0 <= i <= |ports|
      invariant forall j :: 0 <= j < i ==>
        ports[j].pos == CentredAt(Point(x, SlotY(header, height, j, |ports|)), ports[j].bound)
      invariant forall p :: p in ports ==> p.connections == old(p.connections)
    {
      ports[i].SetPos(Point(x, header + (i + 1) as real * spacing));
      i := i + 1;
    }
  }

  /** A port: a small shape that is a child item of a node, with the connections attached
      to it. */
  class PortItem {
    const name: string
    /** The bounding rectangle, in the port's own coordinates. */
    const bound: Rect
    /** The node this port is a child item of. */
    const node: NodeItem
    /** Where the port's own origin sits, in the node's coordinates. */
    var pos: Point
    var connections: seq<ConnectionItem>

    constructor (name: string, bound: Rect, node: NodeItem)
      ensures this.name == name && this.bound == bound && this.node == node
      ensures pos == Origin && connections == []
    {
      this.name := name;
      this.bound := bound;
      this.node := node;
      pos := Origin;
      connections := [];
    }

    /** The centre of the bounding rectangle, in scene coordinates. */
    function CenterPos(): (c: Point)
      reads this, node
      ensures c.x - (node.pos.x + pos.x + bound.x) == (node.pos.x + pos.x + bound.Right()) - c.x
      ensures c.y - (node.pos.y + pos.y + bound.y) == (node.pos.y + pos.y + bound.Bottom()) - c.y
    {
      ToScene(node.pos, pos, bound.Center())
    }

    /** Places the port so that its centre lands on `p`, in the node's coordinates. */
    method SetPos(p: Point)
      modifies this`pos
      ensures pos == CentredAt(p, bound)
    {
      pos := Sub(p, Point(bound.w / 2.0, bound.h / 2.0));
    }

    method AddConnection(c: ConnectionItem)
      modifies this`connections
      ensures connections == old(connections) + [c]
    {
      connections := connections + [c];
    }

    /** The refresh done on every paint: pushes this port's centre into each attached
        connection, as its plug end when the connection's plug is this port, otherwise as its
        socket end when its socket is. */
    method Paint()
      requires forall c :: c in connections ==> c.Valid()
      modifies set c | c in connections
      ensures forall c :: c in connections ==>
        c.Valid() &&
        c.Pushed(this, CenterPos(), old(c.plugPos), old(c.socketPos), old(c.path), old(c.geometryChanges))
    {
      var i := 0;
      while i < |connections|
        invariant 0 <= i <= |connections|
        invariant forall c :: c in connections ==> c.Valid()
        invariant forall c :: c in connections[..i] ==>
          c.Pushed(this, CenterPos(), old(c.plugPos), old(c.socketPos), old(c.path), old(c.geometryChanges))
        invariant forall c :: c in connections && c !in connections[..i] ==>
          c.plugPos == old(c.plugPos) && c.socketPos == old(c.socketPos) &&
          c.path == old(c.path) && c.geometryChanges == old(c.geometryChanges)
      {
        var c := connections[i];
        if c.plug == this {
          c.SetPlugPos(CenterPos());
        } else if c.socket == this {
          c.SetSocketPos(CenterPos());
        }
        assert connections[..i + 1] == connections[..i] + [c];
        i := i + 1;
      }
      assert connections[..i] == connections;
    }
  }

  /** A connection from a plug (an output port) to a socket (an input port); either end may
      be missing. */
  class ConnectionItem {
    const socket: PortItem?
    const plug: PortItem?
    /** The last positions pushed for the two ends. */
    var plugPos: Point
    var socketPos: Point
    var path: Path
    /** How many times the host was told that the item's geometry is about to change. */
    var geometryChanges: nat

    /** The path is the curve between the cached end positions, or still the initial empty
        path when neither end has moved from the origin. */
    ghost predicate Valid()
      reads this
    {
      path == Curve(plugPos, socketPos) || (path == Empty && plugPos == Origin && socketPos == Origin)
    }

    /** The state as a fresh connection leaves it once its ends were seeded with the given
        positions: each end that left the origin rebuilt the path once. */
    ghost predicate SeededWith(socketStart: Point, plugStart: Point)
      reads this
    {
      socketPos == socketStart && plugPos == plugStart &&
      path == (if plugStart == Origin && socketStart == Origin then Empty else Curve(plugStart, socketStart)) &&
      geometryChanges == (if socketStart != Origin then 1 else 0) + (if plugStart != Origin then 1 else 0)
    }

    /** The state after `port`, whose centre is `centre`, pushed its position from the earlier
        state given: only the end `port` is pushed as changes, plug first, and the path is
        rebuilt exactly when that end moved. */
    ghost predicate Pushed(port: PortItem, centre: Point, plug0: Point, socket0: Point, path0: Path, changes0: nat)
      reads this
    {
      var asPlug := plug == port;
      var asSocket := !asPlug && socket == port;
      var moved := (asPlug && plug0 != centre) || (asSocket && socket0 != centre);
      plugPos == (if asPlug then centre else plug0) &&
      socketPos == (if asSocket then centre else socket0) &&
      path == (if moved then Curve(plugPos, socketPos) else path0) &&
      geometryChanges == changes0 + (if moved then 1 else 0)
    }

    /** Attaches to both given ports and seeds each end from its port's position. */
    constructor (socket: PortItem?, plug: PortItem?)
      modifies socket, plug
      ensures this.socket == socket && this.plug == plug && Valid()
      ensures SeededWith(if socket != null then old(socket.pos) else Origin,
                         if plug != null then old(plug.pos) else Origin)
      ensures socket != null && socket != plug ==> socket.connections == old(socket.connections) + [this]
      ensures plug != null && plug != socket ==> plug.connections == old(plug.connections) + [this]
      ensures socket != null && socket == plug ==> socket.connections == old(socket.connections) + [this, this]
      ensures socket != null ==> socket.pos == old(socket.pos)
      ensures plug != null ==> plug.pos == old(plug.pos)
    {
      this.socket := socket;
      this.plug := plug;
      plugPos := Origin;
      socketPos := Origin;
      path := Empty;
      geometryChanges := 0;
      new;
      if socket != null {
        socket.AddConnection(this);
        SetSocketPos(socket.pos);
      }
      if plug != null {
        plug.AddConnection(this);
        SetPlugPos(plug.pos);
      }
    }

    /** Caches a new plug position; only a position different from the cached one rebuilds
        the path, which then always differs from the old one. */
    method SetPlugPos(p: Point)
      requires Valid()
      modifies this`plugPos, this`path, this`geometryChanges
      ensures Valid() && plugPos == p && socketPos == old(socketPos)
      ensures p == old(plugPos) ==> path == old(path) && geometryChanges == old(geometryChanges)
      ensures p != old(plugPos) ==> path == Curve(p, socketPos) && geometryChanges == old(geometryChanges) + 1
    {
      if p != plugPos {
        plugPos := p;
        RebuildPoints();
      }
    }

    /** Caches a new socket position; only a position different from the cached one rebuilds
        the path, which then always differs from the old one. */
    method SetSocketPos(p: Point)
      requires Valid()
      modifies this`socketPos, this`path, this`geometryChanges
      ensures Valid() && socketPos == p && plugPos == old(plugPos)
      ensures p == old(socketPos) ==> path == old(path) && geometryChanges == old(geometryChanges)
      ensures p != old(socketPos) ==> path == Curve(plugPos, p) && geometryChanges == old(geometryChanges) + 1
    {
      if p != socketPos {
        socketPos := p;
        RebuildPoints();
      }
    }

    /** Rebuilds the curve from the cached plug position to the cached socket position. */
    method RebuildPoints()
      modifies this`path, this`geometryChanges
      ensures path == Curve(plugPos, socketPos)
      ensures geometryChanges == old(geometryChanges) + (if old(path) != path then 1 else 0)
    {
      var p := Curve(plugPos, socketPos);
      SetPath(p);
    }

    /** Replaces the path, and announces a geometry change, only when the new one differs. */
    method SetPath(p: Path)
      modifies this`path, this`geometryChanges
      ensures path == p
      ensures geometryChanges == old(geometryChanges) + (if old(path) != p then 1 else 0)
    {
      if path != p {
        path := p;
        geometryChanges := geometryChanges + 1;
      }
    }

    /** The region the connection covers: the box of its two ends grown by 10 on every side,
        or the null box at the origin grown by 10 while the path is still empty. */
    function BoundingRect(): (r: Rect)
      reads this
      requires Valid()
      ensures path == Empty ==> r == Rect(-10.0, -10.0, 20.0, 20.0)
      ensures path != Empty ==>
        r.x == Min(plugPos.x, socketPos.x) - 10.0 && r.y == Min(plugPos.y, socketPos.y) - 10.0 &&
        r.Right() == Max(plugPos.x, socketPos.x) + 10.0 && r.Bottom() == Max(plugPos.y, socketPos.y) + 10.0
    {
      CurveBounds(plugPos, socketPos);
      Bounds(path).Adjusted(-10.0, -10.0, 10.0, 10.0)
    }
  }

  /** The scene: registers nodes under ids counted up from 0, and holds the items added. */
  class GraphModel {
    /** The last id handed out; -1 before the first. */
    var currentId: int
    var nodes: map<int, NodeItem>
    /** The items added to the scene, in the order they were added. */
    var items: seq<object>

    /** Every registered node sits under its own id, and no id above the counter is used. */
    ghost predicate Valid()
      reads this
    {
      -1 <= currentId &&
      forall id :: id in nodes ==> 0 <= id <= currentId && nodes[id].id == id
    }

    constructor ()
      ensures Valid() && currentId == -1 && nodes == map[] && items == []
    {
      currentId := -1;
      nodes := map[];
      items := [];
    }

    /** The next id: one more than the last handed out. */
    method GetNodeId() returns (id: int)
      modifies this`currentId
      ensures id == old(currentId) + 1 && currentId == id
    {
      currentId := currentId + 1;
      id := currentId;
    }

    /** Creates a node under a fresh id, adds it to the scene and registers it, leaving every
        other registered node in place. */
    method CreateNode(rect: Rect, editable: bool, style: map<string, real>) returns (node: NodeItem)
      requires Valid()
      modifies this
      ensures Valid() && fresh(node) && node.Valid()
      ensures node.id == old(currentId) + 1 && currentId == node.id && node.id !in old(nodes)
      ensures nodes == old(nodes)[node.id := node]
      ensures items == old(items) + [node]
      ensures node.rect == rect && node.editable == editable && node.pos == Origin
      ensures node.movable == editable && node.selectable == editable
      ensures node.style.Keys == style.Keys + {HeaderSizeKey}
      ensures forall k :: k in style ==> node.style[k] == style[k]
      ensures node.plugs == EmptyDict() && node.sockets == EmptyDict()
      ensures node.HeaderSize() == if HeaderSizeKey in style then style[HeaderSizeKey] else 20.0
    {
      var id := GetNodeId();
      node := new NodeItem(id, rect, editable, style);
      items := items + [node];
      nodes := nodes[id := node];
    }

    /** Creates a connection between the given socket and plug (either may be missing) and
        adds it to the scene. */
    method Connect(socket: PortItem?, plug: PortItem?) returns (c: ConnectionItem)
      modifies this`items, socket, plug
      ensures fresh(c) && c.socket == socket && c.plug == plug && c.Valid()
      ensures c.SeededWith(if socket != null then old(socket.pos) else Origin,
                           if plug != null then old(plug.pos) else Origin)
      ensures socket != null && socket != plug ==> socket.connections == old(socket.connections) + [c]
      ensures plug != null && plug != socket ==> plug.connections == old(plug.connections) + [c]
      ensures socket != null && socket == plug ==> socket.connections == old(socket.connections) + [c, c]
      ensures socket != null ==> socket.pos == old(socket.pos)
      ensures plug != null ==> plug.pos == old(plug.pos)
      ensures items == old(items) + [c]
    {
      c := new ConnectionItem(socket, plug);
      items := items + [c];
    }
  }
}
