/** The demo application's graph, built through the model: two 50 by 50 nodes, each with
    an output port "out" and an input port "in" of size 10 by 10, and the first node's input
    connected to the second node's output. */
module Demo {
  import opened Geometry
  import opened OrderedDict
  import opened NodeGraph

  /** Three nodes created in a fresh graph get the ids 0, 1 and 2. */
  method NodeIds() returns (a: int, b: int, c: int)
    ensures a == 0 && b == 1 && c == 2
  {
    var graph := new GraphModel();
    var n0 := graph.CreateNode(Rect(0.0, 0.0, 50.0, 50.0), true, map[]);
    var n1 := graph.CreateNode(Rect(0.0, 0.0, 50.0, 50.0), true, map[]);
    var n2 := graph.CreateNode(Rect(0.0, 0.0, 50.0, 50.0), true, map[]);
    a, b, c := n0.id, n1.id, n2.id;
  }

  /** A demo node: its only plug sits on the right edge and its only socket on the left
      edge, both centred half-way down the body below the 20-unit default header. */
  method DemoNode(graph: GraphModel) returns (node: NodeItem)
    requires graph.Valid()
    modifies graph
    ensures graph.Valid() && fresh(node) && node.Valid()
    ensures node.plugs.keys == ["out"] && node.sockets.keys == ["in"]
    ensures fresh(Get(node.plugs, "out")) && fresh(Get(node.sockets, "in"))
    ensures Get(node.plugs, "out") != Get(node.sockets, "in")
    ensures Get(node.plugs, "out").pos == Point(45.0, 30.0) && Get(node.plugs, "out").connections == []
    ensures Get(node.sockets, "in").pos == Point(-5.0, 30.0) && Get(node.sockets, "in").connections == []
    ensures Get(node.plugs, "out").node == node && Get(node.sockets, "in").node == node
    ensures Get(node.plugs, "out").bound == Rect(0.0, 0.0, 10.0, 10.0)
  {
    node := graph.CreateNode(Rect(0.0, 0.0, 50.0, 50.0), true, map[]);
    node.CreatePlug("out", Rect(0.0, 0.0, 10.0, 10.0));
    node.CreateSocket("in", Rect(0.0, 0.0, 10.0, 10.0));
  }

  /** The connection from the second node's plug to the first node's socket is seeded with
      the two ports' positions (their corners, not their centres). After the second node is
      dragged 100 to the right and its plug repaints, the cached plug end is the plug's centre
      in the scene and the curve runs from there to the socket. */
  method DemoConnection() returns (seeded: Path, refreshed: Path)
    ensures seeded == Curve(Point(45.0, 30.0), Point(-5.0, 30.0))
    ensures refreshed == Curve(Point(150.0, 35.0), Point(-5.0, 30.0))
  {
    var graph := new GraphModel();
    var first := DemoNode(graph);
    var second := DemoNode(graph);
    var socket, plug := Get(first.sockets, "in"), Get(second.plugs, "out");
    var c := graph.Connect(socket, plug);
    seeded := c.path;
    MoveAndRepaint(plug, c);
    refreshed := c.path;
  }

  /** The host drags the plug's node to (100, 0), then the plug repaints: the connection's
      plug end becomes the plug's scene centre. */
  method MoveAndRepaint(plug: PortItem, c: ConnectionItem)
    requires plug.connections == [c] && c.plug == plug && c.Valid()
    requires plug.pos == Point(45.0, 30.0) && plug.bound == Rect(0.0, 0.0, 10.0, 10.0)
    requires c.socketPos == Point(-5.0, 30.0)
    modifies plug.node, c
    ensures c.plugPos == Point(150.0, 35.0) && c.socketPos == Point(-5.0, 30.0)
    ensures c.path == Curve(Point(150.0, 35.0), Point(-5.0, 30.0))
  {
    plug.node.SetPos(Point(100.0, 0.0));
    assert plug.CenterPos() == Point(150.0, 35.0);
    plug.Paint();
  }
}
