/**
 * The diagram's element graph.  Shapes and connections are held in an arena
 * keyed by identifier; the parent, children, incoming/outgoing and label
 * links are identifiers into that arena.  A connection is told apart from a
 * shape by its waypoints, which here is the `Connection` constructor.
 */
module Elements {
  import opened Wrappers

  type Id = nat

  datatype Point = Point(x: int, y: int)

  /** A translation vector `{ x, y }`. */
  datatype Delta = Delta(x: int, y: int)

  datatype Bounds = Bounds(x: int, y: int, width: int, height: int)

  /** The space tool's compass direction; `Unknown` stands for any other string. */
  datatype Direction = N | S | E | W | Unknown

  datatype Element =
    | Shape(parent: Option<Id>, x: int, y: int, width: int, height: int,
            children: seq<Id>, incoming: seq<Id>, outgoing: seq<Id>,
            labelTarget: Option<Id>)
    | Connection(parent: Option<Id>, source: Id, target: Id, waypoints: seq<Point>)

  type Graph = map<Id, Element>

  /** `isConnection`: the element has waypoints. */
  predicate IsConnection(e: Element) {
    e.Connection?
  }

  /** `isLabel`: the element has a label target. */
  predicate IsLabel(e: Element) {
    e.Shape? && e.labelTarget.Some?
  }

  function BoundsOf(e: Element): Bounds
    requires e.Shape?
  {
    Bounds(e.x, e.y, e.width, e.height)
  }

  /** The connections attached to a shape, incoming first: `incoming.concat(outgoing)`. */
  function Incident(g: Graph, s: Id): seq<Id>
    requires s in g && g[s].Shape?
  {
    g[s].incoming + g[s].outgoing
  }

  /**
   * The number of parent links from `id` to a root, if that walk ends within
   * `fuel` links and stays inside the graph.
   */
  function DepthWithin(g: Graph, id: Id, fuel: nat): Option<nat>
    decreases fuel
  {
    if id !in g then None
    else match g[id].parent
      case None => Some(0)
      case Some(p) =>
        if fuel == 0 then None
        else match DepthWithin(g, p, fuel - 1)
          case None => None
          case Some(d) => Some(d + 1)
  }

  /** Every element reaches a root through parents inside the graph: no parent cycle. */
  ghost predicate Acyclic(g: Graph) {
    forall id {:trigger DepthWithin(g, id, |g|)} :: id in g ==> DepthWithin(g, id, |g|).Some?
  }

  /** The number of parent links from an element to its root. */
  function Depth(g: Graph, id: Id): nat
    requires Acyclic(g) && id in g
  {
    DepthWithin(g, id, |g|).value
  }

  lemma {:induction false} DepthWithinMonotonic(g: Graph, id: Id, fuel: nat, more: nat)
    requires fuel <= more
    requires DepthWithin(g, id, fuel).Some?
    ensures DepthWithin(g, id, more) == DepthWithin(g, id, fuel)
    decreases fuel
  {
    match g[id].parent
    case None =>
    case Some(p) =>
      DepthWithinMonotonic(g, p, fuel - 1, more - 1);
  }

  /** A parent is one link closer to the root than its child; in particular no element is its own parent. */
  lemma ParentDepth(g: Graph, id: Id)
    requires Acyclic(g) && id in g && g[id].parent.Some?
    ensures g[id].parent.value in g
    ensures Depth(g, g[id].parent.value) + 1 == Depth(g, id)
  {
    var p := g[id].parent.value;
    assert DepthWithin(g, id, |g|).Some?;
    DepthWithinMonotonic(g, p, |g| - 1, |g|);
  }

  /** Every id in `xs` is an element of the graph. */
  predicate InGraph(g: Graph, xs: seq<Id>) {
    forall x :: x in xs ==> x in g
  }

  /** Every id in `xs` is a shape of the graph. */
  predicate ShapesIn(g: Graph, xs: seq<Id>) {
    forall x :: x in xs ==> x in g && g[x].Shape?
  }

  /** Every id in `xs` is a connection of the graph. */
  predicate ConnectionsIn(g: Graph, xs: seq<Id>) {
    forall x :: x in xs ==> x in g && g[x].Connection?
  }

  /** Every id in `xs` is an element of the graph that has a parent, i.e. is not a root. */
  predicate Placed(g: Graph, xs: seq<Id>) {
    forall x :: x in xs ==> x in g && g[x].parent.Some?
  }

  /**
   * The links of the element graph resolve: parents are shapes, a shape's
   * incoming and outgoing entries are connections, and a connection's ends are
   * shapes; and there is no parent cycle.
   */
  ghost predicate WellFormed(g: Graph) {
    && Acyclic(g)
    && (forall id :: id in g && g[id].parent.Some? ==> g[id].parent.value in g && g[g[id].parent.value].Shape?)
    && (forall id :: id in g && g[id].Shape? ==> ConnectionsIn(g, Incident(g, id)))
    && (forall id :: id in g && g[id].Connection? ==>
          g[id].source in g && g[g[id].source].Shape? && g[id].target in g && g[g[id].target].Shape?)
  }

  /** The live element graph that commands read and change. */
  class Diagram {
    var elements: Graph

    constructor (elements: Graph)
      ensures this.elements == elements
    {
      this.elements := elements;
    }
  }
}
