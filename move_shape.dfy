/**
 * The reversible move-shape command (MoveShapeHandler.js): `execute` moves a
 * shape by a delta and re-parents it, writing what `revert` needs into the
 * command context; `postExecute` asks the facade to re-lay-out the attached
 * connections and to move the children along.
 */
module MoveShape {
  import opened Wrappers
  import opened Elements
  import opened Modeling
  import opened Collections

  // ---------------------------------------------------------------------------
  // Execute and revert on the element graph

  /** `context.newParent || shape.parent`: the parent the shape is moved into. */
  function NewParent(g: Graph, shape: Id, newParent: Option<Id>): (p: Id)
    requires shape in g && (newParent.Some? || g[shape].parent.Some?)
    ensures newParent.Some? ==> p == newParent.value
    ensures newParent.None? ==> Some(p) == g[shape].parent
  {
    match newParent
    case Some(p) => p
    case None => g[shape].parent.value
  }

  /** `newParentIndex`, with an absent index written as -1 as util/Collections reads it. */
  function InsertionIndex(newParentIndex: Option<nat>): (i: int)
    ensures i >= -1
    ensures newParentIndex.Some? <==> i >= 0
    ensures newParentIndex.Some? ==> i == newParentIndex.value
  {
    match newParentIndex
    case Some(i) => i
    case None => -1
  }

  /** The shape and its parent are shapes of the graph. */
  predicate Parented(g: Graph, shape: Id) {
    && shape in g && g[shape].Shape?
    && g[shape].parent.Some? && g[shape].parent.value in g && g[g[shape].parent.value].Shape?
  }

  /** What `execute` dereferences: the shape, its current parent and the new parent are shapes of the graph. */
  predicate CanMove(g: Graph, shape: Id, newParent: Id) {
    Parented(g, shape) && newParent in g && g[newParent].Shape?
  }

  /** The position `remove` reports for the shape in its old parent's children: `oldParentIndex`. */
  function OldParentIndex(g: Graph, shape: Id): (i: int)
    requires Parented(g, shape)
    ensures i >= -1
    ensures i >= 0 <==> shape in g[g[shape].parent.value].children
  {
    Remove(g[g[shape].parent.value].children, shape).1
  }

  /** The graph with a shape's children replaced. */
  function WithChildren(g: Graph, id: Id, children: seq<Id>): (r: Graph)
    requires id in g && g[id].Shape?
    ensures r.Keys == g.Keys && r[id].Shape?
  {
    g[id := g[id].(children := children)]
  }

  /** The graph with a shape placed under `parent` and shifted by (dx, dy). */
  function Relocated(g: Graph, shape: Id, parent: Id, dx: int, dy: int): (r: Graph)
    requires shape in g && g[shape].Shape?
    ensures r.Keys == g.Keys && r[shape].Shape?
  {
    g[shape := g[shape].(parent := Some(parent), x := g[shape].x + dx, y := g[shape].y + dy)]
  }

  /** Replacing a shape's children changes nothing else about any element. */
  lemma WithChildrenKeeps(g: Graph, id: Id, children: seq<Id>, other: Id)
    requires id in g && g[id].Shape? && other in g
    ensures var r := WithChildren(g, id, children);
            && other in r
            && (other != id ==> r[other] == g[other])
            && (other == id ==> r[other] == g[other].(children := children))
  {
  }

  /**
   * The three assignments of `execute`, given the lists they store: the old
   * parent's children become `detached`, then the new parent's children
   * `attached`, then the shape moves under the new parent by (dx, dy).
   */
  function Rewired(g: Graph, shape: Id, newParent: Id, detached: seq<Id>, attached: seq<Id>, dx: int, dy: int): (r: Graph)
    requires CanMove(g, shape, newParent)
    ensures r.Keys == g.Keys
  {
    var g1 := WithChildren(g, g[shape].parent.value, detached);
    var g2 := WithChildren(g1, newParent, attached);
    Relocated(g2, shape, newParent, dx, dy)
  }

  /** The two assignments of `revert`, given the list it stores: the old parent's children become `restored`, then the shape moves back under it by (dx, dy). */
  function Restored(g: Graph, shape: Id, oldParent: Id, restored: seq<Id>, dx: int, dy: int): (r: Graph)
    requires shape in g && g[shape].Shape? && oldParent in g && g[oldParent].Shape?
    ensures r.Keys == g.Keys
  {
    Relocated(WithChildren(g, oldParent, restored), shape, oldParent, -dx, -dy)
  }

  /** Element by element: the old parent, the new parent and the shape are changed as the assignments say, and nothing else is. */
  lemma RewiredElements(g: Graph, shape: Id, newParent: Id, detached: seq<Id>, attached: seq<Id>, dx: int, dy: int, id: Id)
    requires CanMove(g, shape, newParent) && g[shape].parent.value != shape && id in g
    ensures var r, oldParent := Rewired(g, shape, newParent, detached, attached, dx, dy), g[shape].parent.value;
            && id in r
            && (id == oldParent && id != newParent ==> r[id] == g[id].(children := detached))
            && (id == newParent && id != shape ==> r[id] == g[id].(children := attached))
            && (id == shape && id != newParent ==> r[id] == g[id].(parent := Some(newParent), x := g[id].x + dx, y := g[id].y + dy))
            && (id == shape && id == newParent ==>
                  r[id] == g[id].(children := attached, parent := Some(newParent), x := g[id].x + dx, y := g[id].y + dy))
            && (id != oldParent && id != newParent && id != shape ==> r[id] == g[id])
  {
  }

  /**
   * Undoing the assignments with the old parent's original children restores
   * every element except the new parent's children when the new parent is
   * not the old one.
   */
  lemma RestoredRewired(g: Graph, shape: Id, newParent: Id, detached: seq<Id>, attached: seq<Id>, dx: int, dy: int)
    requires CanMove(g, shape, newParent) && g[shape].parent.value != shape
    ensures var oldParent := g[shape].parent.value;
            var r := Restored(Rewired(g, shape, newParent, detached, attached, dx, dy), shape, oldParent, g[oldParent].children, dx, dy);
            r == if newParent == oldParent then g else g[newParent := g[newParent].(children := attached)]
  {
  }

  /** The old parent's children after `remove`. */
  function Detached(g: Graph, shape: Id): seq<Id>
    requires Parented(g, shape)
  {
    Remove(g[g[shape].parent.value].children, shape).0
  }

  /** The new parent's children after `add`: its own list, or the detached one when it is the old parent. */
  function Attached(g: Graph, shape: Id, newParent: Id, newParentIndex: int): seq<Id>
    requires CanMove(g, shape, newParent) && newParentIndex >= -1
  {
    Add(if newParent == g[shape].parent.value then Detached(g, shape) else g[newParent].children, shape, newParentIndex)
  }

  /**
   * `execute` on the element graph: remove the shape from its old parent's
   * children, add it to the new parent's children at `newParentIndex` (the two
   * may be the same list), then set its parent and shift it by delta.
   */
  function Executed(g: Graph, shape: Id, delta: Delta, newParent: Id, newParentIndex: int): (r: Graph)
    requires CanMove(g, shape, newParent) && newParentIndex >= -1
    ensures r.Keys == g.Keys
  {
    Rewired(g, shape, newParent, Detached(g, shape), Attached(g, shape, newParent, newParentIndex), delta.x, delta.y)
  }

  /**
   * `revert` on the element graph: add the shape back to the old parent's
   * children at `oldParentIndex`, then set the old parent and shift it back.
   * The shape is not taken out of the new parent's children.
   */
  function Reverted(g: Graph, shape: Id, delta: Delta, oldParent: Id, oldParentIndex: int): (r: Graph)
    requires shape in g && g[shape].Shape? && oldParent in g && g[oldParent].Shape? && oldParentIndex >= -1
    ensures r.Keys == g.Keys
  {
    Restored(g, shape, oldParent, Add(g[oldParent].children, shape, oldParentIndex), delta.x, delta.y)
  }

  /** After `execute` the shape sits under the new parent, shifted by delta, with its size kept. */
  lemma ExecutedMovesShape(g: Graph, shape: Id, delta: Delta, newParent: Id, newParentIndex: int)
    requires CanMove(g, shape, newParent) && newParentIndex >= -1
    ensures var r := Executed(g, shape, delta, newParent, newParentIndex);
            && r[shape].Shape?
            && r[shape].parent == Some(newParent)
            && r[shape].x == g[shape].x + delta.x && r[shape].y == g[shape].y + delta.y
            && r[shape].width == g[shape].width && r[shape].height == g[shape].height
            && r[shape].incoming == g[shape].incoming && r[shape].outgoing == g[shape].outgoing
            && r[shape].labelTarget == g[shape].labelTarget
  {
    var oldParent := g[shape].parent.value;
    var detached, attached := Detached(g, shape), Attached(g, shape, newParent, newParentIndex);
    WithChildrenKeeps(g, oldParent, detached, shape);
    WithChildrenKeeps(WithChildren(g, oldParent, detached), newParent, attached, shape);
  }

  /** The shape is a child of its parent exactly once, and not its own parent. */
  predicate Linked(g: Graph, shape: Id)
    requires Parented(g, shape)
  {
    && g[shape].parent.value != shape
    && multiset(g[g[shape].parent.value].children)[shape] == 1
  }

  /**
   * `execute` takes the shape out of its old parent's children, the index it
   * had being `oldParentIndex`, so that inserting it there gives the old list back.
   */
  lemma ExecutedDetaches(g: Graph, shape: Id, delta: Delta, newParent: Id, newParentIndex: int)
    requires CanMove(g, shape, newParent) && newParentIndex >= -1
    requires Linked(g, shape)
    requires newParent != g[shape].parent.value
    ensures var r, oldParent := Executed(g, shape, delta, newParent, newParentIndex), g[shape].parent.value;
            && OldParentIndex(g, shape) >= 0
            && g[oldParent].children[OldParentIndex(g, shape)] == shape
            && shape !in r[oldParent].children
            && InsertAt(r[oldParent].children, shape, OldParentIndex(g, shape)) == g[oldParent].children
  {
  }

  /**
   * `execute` puts the shape into the new parent's children; a shape that was
   * not there yet goes in at `newParentIndex`, or at the end without one, and
   * the other children keep their order.
   */
  lemma ExecutedAttaches(g: Graph, shape: Id, delta: Delta, newParent: Id, newParentIndex: int)
    requires CanMove(g, shape, newParent) && newParentIndex >= -1
    requires g[shape].parent.value != shape
    ensures var r := Executed(g, shape, delta, newParent, newParentIndex);
            && shape in r[newParent].children
            && (newParent != g[shape].parent.value && newParent != shape && shape !in g[newParent].children ==>
                  r[newParent].children ==
                    InsertAt(g[newParent].children, shape, if newParentIndex == -1 then |g[newParent].children| else newParentIndex))
  {
  }

  /** With the shape held once, the list `add` receives on a move within the same parent no longer holds it. */
  lemma DetachedWithout(g: Graph, shape: Id)
    requires Parented(g, shape) && Linked(g, shape)
    ensures shape !in Detached(g, shape)
  {
    var (rest, _) := Remove(g[g[shape].parent.value].children, shape);
    assert multiset(rest)[shape] == 0;
  }

  /**
   * A move within the same parent reorders: `remove` takes the shape out, so
   * `add` inserts it into the remaining children at `newParentIndex` (the end
   * when undefined).
   */
  lemma ExecutedReorders(g: Graph, shape: Id, delta: Delta, newParentIndex: int)
    requires Parented(g, shape) && newParentIndex >= -1
    requires Linked(g, shape)
    ensures var parent, rest := g[shape].parent.value, Detached(g, shape);
            Executed(g, shape, delta, parent, newParentIndex)[parent].children ==
              InsertAt(rest, shape, if newParentIndex == -1 then |rest| else newParentIndex)
  {
    var parent, rest := g[shape].parent.value, Detached(g, shape);
    var attached := Attached(g, shape, parent, newParentIndex);
    DetachedWithout(g, shape);
    AddAbsent(rest, shape, newParentIndex);
    assert attached == InsertAt(rest, shape, if newParentIndex == -1 then |rest| else newParentIndex);
    RewiredElements(g, shape, parent, rest, attached, delta.x, delta.y, parent);
  }

  /** `execute` changes no element other than the shape, its old parent and its new parent. */
  lemma ExecutedKeepsOthers(g: Graph, shape: Id, delta: Delta, newParent: Id, newParentIndex: int)
    requires CanMove(g, shape, newParent) && newParentIndex >= -1
    requires g[shape].parent.value != shape
    ensures var r := Executed(g, shape, delta, newParent, newParentIndex);
            forall id :: id in g && id != shape && id != g[shape].parent.value && id != newParent ==> r[id] == g[id]
  {
    var detached, attached := Detached(g, shape), Attached(g, shape, newParent, newParentIndex);
    forall id | id in g && id != shape && id != g[shape].parent.value && id != newParent
      ensures Executed(g, shape, delta, newParent, newParentIndex)[id] == g[id]
    {
      RewiredElements(g, shape, newParent, detached, attached, delta.x, delta.y, id);
    }
  }

  /** Adding the shape back at `oldParentIndex` to what `execute` left in the old parent's children gives the original list. */
  lemma ReaddRestores(g: Graph, shape: Id, newParent: Id, newParentIndex: int)
    requires CanMove(g, shape, newParent) && newParentIndex >= -1
    requires Linked(g, shape)
    ensures var left := if newParent == g[shape].parent.value then Attached(g, shape, newParent, newParentIndex) else Detached(g, shape);
            Add(left, shape, OldParentIndex(g, shape)) == g[g[shape].parent.value].children
  {
    var children := g[g[shape].parent.value].children;
    if newParent == g[shape].parent.value {
      AddUndoesRemoveThenAdd(children, shape, newParentIndex);
    } else {
      AddUndoesRemove(children, shape);
    }
  }

  /**
   * `execute` followed by `revert` with the recorded old parent and index
   * restores the graph, except that the new parent keeps the shape among its
   * children when it differs from the old one (`revert` does not detach it).
   * A move within one parent is undone completely.
   */
  lemma ExecuteThenRevert(g: Graph, shape: Id, delta: Delta, newParent: Id, newParentIndex: int)
    requires CanMove(g, shape, newParent) && newParentIndex >= -1
    requires Linked(g, shape)
    ensures var oldParent := g[shape].parent.value;
            var r := Reverted(Executed(g, shape, delta, newParent, newParentIndex), shape, delta, oldParent, OldParentIndex(g, shape));
            && (newParent == oldParent ==> r == g)
            && (newParent != oldParent ==>
                  r == g[newParent := g[newParent].(children := Add(g[newParent].children, shape, newParentIndex))])
  {
    var oldParent := g[shape].parent.value;
    var detached, attached := Detached(g, shape), Attached(g, shape, newParent, newParentIndex);
    var e := Executed(g, shape, delta, newParent, newParentIndex);
    RewiredElements(g, shape, newParent, detached, attached, delta.x, delta.y, oldParent);
    ReaddRestores(g, shape, newParent, newParentIndex);
    assert Add(e[oldParent].children, shape, OldParentIndex(g, shape)) == g[oldParent].children;
    RestoredRewired(g, shape, newParent, detached, attached, delta.x, delta.y);
  }

  /** `execute` then `revert` restores the shape's position, size and parent, and its old parent's children. */
  lemma ExecuteThenRevertRestoresShape(g: Graph, shape: Id, delta: Delta, newParent: Id, newParentIndex: int)
    requires CanMove(g, shape, newParent) && newParentIndex >= -1
    requires Linked(g, shape)
    ensures var oldParent := g[shape].parent.value;
            var r := Reverted(Executed(g, shape, delta, newParent, newParentIndex), shape, delta, oldParent, OldParentIndex(g, shape));
            && r[shape].Shape?
            && r[shape].x == g[shape].x && r[shape].y == g[shape].y
            && r[shape].width == g[shape].width && r[shape].height == g[shape].height
            && r[shape].parent == g[shape].parent
            && r[oldParent].children == g[oldParent].children
  {
    ExecuteThenRevert(g, shape, delta, newParent, newParentIndex);
  }

  // ---------------------------------------------------------------------------
  // Post-execute requests

  /** `filter(connections, c => includes(layout, c))`: the connections listed in `layout`, in order. */
  function Including(connections: seq<Id>, layout: seq<Id>): (kept: seq<Id>)
    ensures forall c :: c in kept <==> c in connections && c in layout
    ensures |kept| <= |connections|
    decreases |connections|
  {
    if connections == [] then []
    else
      var init, last := connections[..|connections| - 1], connections[|connections| - 1];
      assert connections == init + [last];
      Including(init, layout) + (if last in layout then [last] else [])
  }

  /** Whether `layout` lets a connection be re-laid-out: never for `false`, when listed for an array, always otherwise. */
  predicate Relaid(layout: LayoutHint, c: Id) {
    match layout
    case LayoutNone => false
    case LayoutOnly(connections) => c in connections
    case LayoutAll => true
  }

  /** The attached connections `postExecute` re-lays-out: all of them, or those the array lists. */
  function Selected(layout: LayoutHint, connections: seq<Id>): (selected: seq<Id>)
    requires !layout.LayoutNone?
    ensures forall c :: c in selected <==> c in connections && Relaid(layout, c)
  {
    match layout
    case LayoutOnly(listed) => Including(connections, listed)
    case LayoutAll => connections
  }

  /** The re-layout of an incoming connection: its end follows the moved target. */
  function LayoutEnd(shape: Id, delta: Delta, c: Id): Op {
    LayoutConnectionOp(c, ConnectionEnd(MovedTargetAnchor(c, shape, delta)))
  }

  /** The re-layout of an outgoing connection: its start follows the moved source. */
  function LayoutStart(shape: Id, delta: Delta, c: Id): Op {
    LayoutConnectionOp(c, ConnectionStart(MovedSourceAnchor(c, shape, delta)))
  }

  /** One end re-layout per incoming connection, in order. */
  function EndRequests(shape: Id, delta: Delta, incoming: seq<Id>): (ops: seq<Op>)
    ensures |ops| == |incoming|
    decreases |incoming|
  {
    if incoming == [] then []
    else EndRequests(shape, delta, incoming[..|incoming| - 1]) + [LayoutEnd(shape, delta, incoming[|incoming| - 1])]
  }

  /** One start re-layout per outgoing connection, in order. */
  function StartRequests(shape: Id, delta: Delta, outgoing: seq<Id>): (ops: seq<Op>)
    ensures |ops| == |outgoing|
    decreases |outgoing|
  {
    if outgoing == [] then []
    else StartRequests(shape, delta, outgoing[..|outgoing| - 1]) + [LayoutStart(shape, delta, outgoing[|outgoing| - 1])]
  }

  /** The re-layout calls of `postExecute` for a layout hint. */
  function LayoutRequests(g: Graph, shape: Id, delta: Delta, layout: LayoutHint): seq<Op>
    requires shape in g && g[shape].Shape?
  {
    if layout.LayoutNone? then []
    else
      EndRequests(shape, delta, Selected(layout, g[shape].incoming)) +
      StartRequests(shape, delta, Selected(layout, g[shape].outgoing))
  }

  /** The calls of `postExecute`: the re-layouts, then the recursive move of the children unless `recurse` is false. */
  function PostExecuteRequests(g: Graph, shape: Id, delta: Delta, hints: Option<Hints>): seq<Op>
    requires shape in g && g[shape].Shape?
  {
    var h := hints.GetOr(NoHints);
    LayoutRequests(g, shape, delta, h.layout) +
    (if h.recurse != Some(false) then [MoveRecursiveOp(g[shape].children, delta, None)] else [])
  }

  /** A re-layout call: the end of a selected incoming connection, or the start of a selected outgoing one. */
  ghost predicate SelectedRelayout(g: Graph, shape: Id, delta: Delta, layout: LayoutHint, op: Op)
    requires shape in g && g[shape].Shape?
  {
    || (exists c :: c in g[shape].incoming && Relaid(layout, c) && op == LayoutEnd(shape, delta, c))
    || (exists c :: c in g[shape].outgoing && Relaid(layout, c) && op == LayoutStart(shape, delta, c))
  }

  /** The end re-layouts are those of the incoming connections. */
  lemma {:induction false} EndRequestsMembers(shape: Id, delta: Delta, incoming: seq<Id>)
    ensures forall op :: op in EndRequests(shape, delta, incoming) <==> exists c :: c in incoming && op == LayoutEnd(shape, delta, c)
    decreases |incoming|
  {
    if incoming != [] {
      var init, last := incoming[..|incoming| - 1], incoming[|incoming| - 1];
      assert incoming == init + [last];
      EndRequestsMembers(shape, delta, init);
      var ops := EndRequests(shape, delta, incoming);
      assert ops == EndRequests(shape, delta, init) + [LayoutEnd(shape, delta, last)];
      forall op | op in ops
        ensures exists c :: c in incoming && op == LayoutEnd(shape, delta, c)
      {
        if op != LayoutEnd(shape, delta, last) {
          var c :| c in init && op == LayoutEnd(shape, delta, c);
          assert c in incoming;
        }
      }
      forall c | c in incoming
        ensures LayoutEnd(shape, delta, c) in ops
      {
        if c != last {
          assert c in init;
        }
      }
    }
  }

  /** The start re-layouts are those of the outgoing connections. */
  lemma {:induction false} StartRequestsMembers(shape: Id, delta: Delta, outgoing: seq<Id>)
    ensures forall op :: op in StartRequests(shape, delta, outgoing) <==> exists c :: c in outgoing && op == LayoutStart(shape, delta, c)
    decreases |outgoing|
  {
    if outgoing != [] {
      var init, last := outgoing[..|outgoing| - 1], outgoing[|outgoing| - 1];
      assert outgoing == init + [last];
      StartRequestsMembers(shape, delta, init);
      var ops := StartRequests(shape, delta, outgoing);
      assert ops == StartRequests(shape, delta, init) + [LayoutStart(shape, delta, last)];
      forall op | op in ops
        ensures exists c :: c in outgoing && op == LayoutStart(shape, delta, c)
      {
        if op != LayoutStart(shape, delta, last) {
          var c :| c in init && op == LayoutStart(shape, delta, c);
          assert c in outgoing;
        }
      }
      forall c | c in outgoing
        ensures LayoutStart(shape, delta, c) in ops
      {
        if c != last {
          assert c in init;
        }
      }
    }
  }

  /** The re-layout calls are exactly those of the selected incoming and outgoing connections. */
  lemma LayoutRequestsMembers(g: Graph, shape: Id, delta: Delta, layout: LayoutHint)
    requires shape in g && g[shape].Shape?
    ensures forall op :: op in LayoutRequests(g, shape, delta, layout) <==> SelectedRelayout(g, shape, delta, layout, op)
  {
    if !layout.LayoutNone? {
      var ins, outs := Selected(layout, g[shape].incoming), Selected(layout, g[shape].outgoing);
      EndRequestsMembers(shape, delta, ins);
      StartRequestsMembers(shape, delta, outs);
    }
  }

  /**
   * `postExecute` re-lays-out an incoming connection's end and an outgoing
   * connection's start exactly when the layout hint lets it (none for
   * `false`, the listed ones for an array, all otherwise, and all when there
   * are no hints), and moves the children by delta exactly when `recurse` is
   * not false; it calls nothing else.
   */
  lemma PostExecuteRequestsMembers(g: Graph, shape: Id, delta: Delta, hints: Option<Hints>)
    requires shape in g && g[shape].Shape?
    ensures var ops, layout := PostExecuteRequests(g, shape, delta, hints), hints.GetOr(NoHints).layout;
            && (forall c :: LayoutEnd(shape, delta, c) in ops <==> c in g[shape].incoming && Relaid(layout, c))
            && (forall c :: LayoutStart(shape, delta, c) in ops <==> c in g[shape].outgoing && Relaid(layout, c))
            && (MoveRecursiveOp(g[shape].children, delta, None) in ops <==> hints.None? || hints.value.recurse != Some(false))
            && (forall op :: op in ops ==>
                  SelectedRelayout(g, shape, delta, layout, op) || op == MoveRecursiveOp(g[shape].children, delta, None))
  {
    var layout := hints.GetOr(NoHints).layout;
    LayoutRequestsMembers(g, shape, delta, layout);
    forall c ensures LayoutEnd(shape, delta, c) in LayoutRequests(g, shape, delta, layout) ==>
                       c in g[shape].incoming && Relaid(layout, c)
    {
      if LayoutEnd(shape, delta, c) in LayoutRequests(g, shape, delta, layout) {
        assert SelectedRelayout(g, shape, delta, layout, LayoutEnd(shape, delta, c));
      }
    }
    forall c ensures LayoutStart(shape, delta, c) in LayoutRequests(g, shape, delta, layout) ==>
                       c in g[shape].outgoing && Relaid(layout, c)
    {
      if LayoutStart(shape, delta, c) in LayoutRequests(g, shape, delta, layout) {
        assert SelectedRelayout(g, shape, delta, layout, LayoutStart(shape, delta, c));
      }
    }
  }

  /** Without hints every attached connection is re-laid-out and the children are moved along. */
  lemma PostExecuteWithoutHints(g: Graph, shape: Id, delta: Delta)
    requires shape in g && g[shape].Shape?
    ensures forall c :: c in g[shape].incoming ==> LayoutEnd(shape, delta, c) in PostExecuteRequests(g, shape, delta, None)
    ensures forall c :: c in g[shape].outgoing ==> LayoutStart(shape, delta, c) in PostExecuteRequests(g, shape, delta, None)
    ensures MoveRecursiveOp(g[shape].children, delta, None) in PostExecuteRequests(g, shape, delta, None)
  {
    PostExecuteRequestsMembers(g, shape, delta, None);
  }

  /** With `layout: false` nothing is re-laid-out. */
  lemma PostExecuteLayoutFalse(g: Graph, shape: Id, delta: Delta, hints: Hints)
    requires shape in g && g[shape].Shape?
    requires hints.layout == LayoutNone
    ensures forall op :: op in PostExecuteRequests(g, shape, delta, Some(hints)) ==> op.MoveRecursiveOp?
  {
  }

  // ---------------------------------------------------------------------------
  // The command

  /**
   * The command context: the caller's `shape`, `delta`, `newParent`,
   * `newParentIndex` and `hints`, and the `oldBounds`, `oldParent` and
   * `oldParentIndex` that `execute` writes for `revert`.
   */
  class MoveShapeContext {
    const shape: Id
    const delta: Delta
    const newParent: Option<Id>
    const newParentIndex: Option<nat>
    const hints: Option<Hints>
    var oldBounds: Option<Bounds>
    var oldParent: Option<Id>
    var oldParentIndex: Option<int>

    constructor (shape: Id, delta: Delta, newParent: Option<Id>, newParentIndex: Option<nat>, hints: Option<Hints>)
      ensures this.shape == shape && this.delta == delta && this.newParent == newParent
      ensures this.newParentIndex == newParentIndex && this.hints == hints
      ensures oldBounds == None && oldParent == None && oldParentIndex == None
    {
      this.shape := shape;
      this.delta := delta;
      this.newParent := newParent;
      this.newParentIndex := newParentIndex;
      this.hints := hints;
      oldBounds := None;
      oldParent := None;
      oldParentIndex := None;
    }
  }

  /** The move-shape command over the live diagram, issuing its calls through the modeling facade. */
  class MoveShapeHandler {
    const modeling: Modeling
    const helper: MoveHelper
    const diagram: Diagram

    /** The move helper works through the handler's own facade. */
    predicate Valid() {
      helper.modeling == modeling
    }

    constructor (modeling: Modeling, diagram: Diagram)
      ensures this.modeling == modeling && this.diagram == diagram
      ensures Valid()
    {
      this.modeling := modeling;
      this.diagram := diagram;
      helper := new MoveHelper(modeling);
    }

    /** `getNewParent`: the context's new parent when given, the shape's current parent otherwise. */
    function GetNewParent(context: MoveShapeContext): (p: Id)
      reads diagram, context
      requires context.shape in diagram.elements
      requires context.newParent.Some? || diagram.elements[context.shape].parent.Some?
      ensures p == NewParent(diagram.elements, context.shape, context.newParent)
    {
      if context.newParent.Some? then context.newParent.value else diagram.elements[context.shape].parent.value
    }

    /**
     * `execute`: record the old bounds, parent and index in the context first,
     * then move the shape out of its old parent's children, into the new
     * parent's children, and by delta.
     */
    method Execute(context: MoveShapeContext) returns (shape: Id)
      requires Parented(diagram.elements, context.shape)
      requires CanMove(diagram.elements, context.shape, NewParent(diagram.elements, context.shape, context.newParent))
      modifies diagram, context
      ensures shape == context.shape
      ensures context.oldBounds == Some(BoundsOf(old(diagram.elements[context.shape])))
      ensures context.oldParent == old(diagram.elements[context.shape].parent)
      ensures context.oldParentIndex == Some(OldParentIndex(old(diagram.elements), context.shape))
      ensures diagram.elements ==
                Executed(old(diagram.elements), shape, context.delta,
                         old(GetNewParent(context)), InsertionIndex(context.newParentIndex))
      ensures diagram.elements[shape].parent == Some(old(GetNewParent(context)))
    {
      shape := context.shape;
      var delta := context.delta;
      var newParent := GetNewParent(context);
      var newParentIndex := InsertionIndex(context.newParentIndex);
      var oldParent := diagram.elements[shape].parent.value;

      context.oldBounds := Some(BoundsOf(diagram.elements[shape]));
      context.oldParent := Some(oldParent);
      var removed := Remove(diagram.elements[oldParent].children, shape);
      context.oldParentIndex := Some(removed.1);
      ghost var g := diagram.elements;
      diagram.elements := WithChildren(diagram.elements, oldParent, removed.0);
      WithChildrenKeeps(g, oldParent, removed.0, newParent);
      diagram.elements := WithChildren(diagram.elements, newParent, Add(diagram.elements[newParent].children, shape, newParentIndex));
      diagram.elements := Relocated(diagram.elements, shape, newParent, delta.x, delta.y);
      ExecutedMovesShape(g, shape, delta, newParent, newParentIndex);
    }

    /** `revert`: add the shape back at the recorded index of its old parent's children, and restore its parent and position. */
    method Revert(context: MoveShapeContext) returns (shape: Id)
      requires context.shape in diagram.elements && diagram.elements[context.shape].Shape?
      requires context.oldParent.Some? && context.oldParent.value in diagram.elements
      requires diagram.elements[context.oldParent.value].Shape?
      requires context.oldParentIndex.Some? && context.oldParentIndex.value >= -1
      modifies diagram
      ensures shape == context.shape
      ensures diagram.elements ==
                Reverted(old(diagram.elements), shape, context.delta, context.oldParent.value, context.oldParentIndex.value)
    {
      shape := context.shape;
      var oldParent := context.oldParent.value;
      var delta := context.delta;
      diagram.elements := WithChildren(diagram.elements, oldParent, Add(diagram.elements[oldParent].children, shape, context.oldParentIndex.value));
      diagram.elements := Relocated(diagram.elements, shape, oldParent, -delta.x, -delta.y);
    }

    /** `postExecute`: re-lay-out the attached connections the layout hint selects, then move the children unless `recurse` is false. */
    method PostExecute(context: MoveShapeContext)
      requires context.shape in diagram.elements && diagram.elements[context.shape].Shape?
      requires Valid()
      modifies modeling
      ensures modeling.requests ==
                old(modeling.requests) + PostExecuteRequests(diagram.elements, context.shape, context.delta, context.hints)
    {
      var shape, delta := context.shape, context.delta;
      var hints := context.hints.GetOr(NoHints);
      var layout, recurse := hints.layout, hints.recurse;
      var incoming, outgoing := diagram.elements[shape].incoming, diagram.elements[shape].outgoing;
      ghost var start := modeling.requests;

      if !layout.LayoutNone? {
        if layout.LayoutOnly? {
          incoming := Including(incoming, layout.connections);
          outgoing := Including(outgoing, layout.connections);
        }
        RelayoutIncoming(shape, delta, incoming);
        RelayoutOutgoing(shape, delta, outgoing);
        AppendAssociates(start, EndRequests(shape, delta, incoming), StartRequests(shape, delta, outgoing));
      } else {
        assert start + [] == start;
      }
      assert modeling.requests == start + LayoutRequests(diagram.elements, shape, delta, layout);

      if recurse != Some(false) {
        MoveChildren(context);
        AppendAssociates(start, LayoutRequests(diagram.elements, shape, delta, layout),
                         [MoveRecursiveOp(diagram.elements[shape].children, delta, None)]);
      } else {
        assert LayoutRequests(diagram.elements, shape, delta, layout) + [] == LayoutRequests(diagram.elements, shape, delta, layout);
      }
    }

    /** The `forEach` over the incoming connections: each one's end follows the moved target. */
    method RelayoutIncoming(shape: Id, delta: Delta, incoming: seq<Id>)
      modifies modeling
      ensures modeling.requests == old(modeling.requests) + EndRequests(shape, delta, incoming)
    {
      for i := 0 to |incoming|
        invariant modeling.requests == old(modeling.requests) + EndRequests(shape, delta, incoming[..i])
      {
        assert incoming[..i + 1][..i] == incoming[..i];
        modeling.LayoutConnection(incoming[i], ConnectionEnd(MovedTargetAnchor(incoming[i], shape, delta)));
      }
      assert incoming[..|incoming|] == incoming;
    }

    /** The `forEach` over the outgoing connections: each one's start follows the moved source. */
    method RelayoutOutgoing(shape: Id, delta: Delta, outgoing: seq<Id>)
      modifies modeling
      ensures modeling.requests == old(modeling.requests) + StartRequests(shape, delta, outgoing)
    {
      for i := 0 to |outgoing|
        invariant modeling.requests == old(modeling.requests) + StartRequests(shape, delta, outgoing[..i])
      {
        assert outgoing[..i + 1][..i] == outgoing[..i];
        modeling.LayoutConnection(outgoing[i], ConnectionStart(MovedSourceAnchor(outgoing[i], shape, delta)));
      }
      assert outgoing[..|outgoing|] == outgoing;
    }

    /** `moveChildren`: move the shape's children recursively by delta, with no direction. */
    method MoveChildren(context: MoveShapeContext)
      requires context.shape in diagram.elements && diagram.elements[context.shape].Shape?
      requires Valid()
      modifies modeling
      ensures modeling.requests ==
                old(modeling.requests) + [MoveRecursiveOp(diagram.elements[context.shape].children, context.delta, None)]
    {
      helper.MoveRecursive(diagram.elements[context.shape].children, context.delta, None);
    }
  }
}
