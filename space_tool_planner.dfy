/**
 * The space tool's step planner (the helpers of SpaceToolHandler.js): which
 * connections move with the shapes and which are re-laid-out, which labels
 * are left behind, the depth index of every element, and the ordered list of
 * move and resize steps.
 */
module SpaceToolPlanner {
  import opened Wrappers
  import opened Elements

  /** `{ type: 'move', elements }` or `{ type: 'resize', shapes }`. */
  datatype Step = Move(elements: seq<Id>) | Resize(shapes: seq<Id>)

  /** The elements a step acts on. */
  function Members(s: Step): seq<Id> {
    match s
    case Move(es) => es
    case Resize(ss) => ss
  }

  predicate NoDuplicates(s: seq<Id>) {
    forall i, j :: 0 <= i < j < |s| ==> s[i] != s[j]
  }

  // ---------------------------------------------------------------------------
  // Direction sign

  /**
   * `isAddingSpace`: towards north or west a negative drag adds space, towards
   * south or east a non-negative one does; `None` (JavaScript's `undefined`)
   * for any other direction.
   */
  function IsAddingSpace(delta: Delta, direction: Direction): (r: Option<bool>)
    ensures r.None? <==> direction == Unknown
  {
    match direction
    case N => Some(delta.y < 0)
    case W => Some(delta.x < 0)
    case S => Some(delta.y >= 0)
    case E => Some(delta.x >= 0)
    case Unknown => None
  }

  /** The drag points the way the space tool faces. */
  predicate DragsToward(delta: Delta, direction: Direction) {
    match direction
    case N => delta.y < 0
    case S => delta.y > 0
    case W => delta.x < 0
    case E => delta.x > 0
    case Unknown => false
  }

  function Opposite(direction: Direction): Direction {
    match direction
    case N => S
    case S => N
    case W => E
    case E => W
    case Unknown => Unknown
  }

  /**
   * Space is added exactly when the drag points the way the tool faces, except
   * that a drag of zero along the axis counts as adding towards south and east
   * and as removing towards north and west.
   */
  lemma AddingSpaceFollowsDrag(delta: Delta, direction: Direction)
    requires direction != Unknown
    ensures DragsToward(delta, direction) ==> IsAddingSpace(delta, direction) == Some(true)
    ensures DragsToward(delta, Opposite(direction)) ==> IsAddingSpace(delta, direction) == Some(false)
    ensures direction in {N, S} && delta.y == 0 ==> IsAddingSpace(delta, direction) == Some(direction == S)
    ensures direction in {W, E} && delta.x == 0 ==> IsAddingSpace(delta, direction) == Some(direction == E)
  {
  }

  /** Opposite directions always disagree, so every drag adds space on one side and removes it on the other. */
  lemma OppositeDirectionsDisagree(delta: Delta, direction: Direction)
    requires direction != Unknown
    ensures IsAddingSpace(delta, Opposite(direction)).value == !IsAddingSpace(delta, direction).value
  {
  }

  // ---------------------------------------------------------------------------
  // Connection classification

  /** How many of a connection's two ends are moving shapes (a loop counts its shape twice). */
  function EndsInside(g: Graph, moving: seq<Id>, c: Id): (n: nat)
    requires c in g && g[c].Connection?
    ensures n <= 2
    ensures n == 0 <==> g[c].source !in moving && g[c].target !in moving
  {
    (if g[c].source in moving then 1 else 0) + (if g[c].target in moving then 1 else 0)
  }

  /** c is an incoming or outgoing connection of one of `shapes`. */
  ghost predicate IncidentTo(g: Graph, shapes: seq<Id>, c: Id)
    requires ShapesIn(g, shapes)
  {
    exists s :: s in shapes && c in Incident(g, s)
  }

  /** c is attached to one of `shapes` and has exactly `ends` ends among `moving`. */
  ghost predicate Classified(g: Graph, moving: seq<Id>, shapes: seq<Id>, c: Id, ends: nat)
    requires ShapesIn(g, shapes)
  {
    IncidentTo(g, shapes, c) && c in g && g[c].Connection? && EndsInside(g, moving, c) == ends
  }

  /** A layouting connection: exactly one end is a moving shape. */
  ghost predicate LayoutingConnection(g: Graph, moving: seq<Id>, c: Id)
    requires ShapesIn(g, moving)
  {
    Classified(g, moving, moving, c, 1)
  }

  /** A moving connection: both ends are moving shapes. */
  ghost predicate MovingConnection(g: Graph, moving: seq<Id>, c: Id)
    requires ShapesIn(g, moving)
  {
    Classified(g, moving, moving, c, 2)
  }

  /** The inner loop: append each of `cs` with `ends` moving ends that is not collected yet. */
  function AddClassified(g: Graph, moving: seq<Id>, ends: nat, acc: seq<Id>, cs: seq<Id>): seq<Id>
    requires ConnectionsIn(g, cs)
    decreases |cs|
  {
    if cs == [] then acc
    else
      var before := AddClassified(g, moving, ends, acc, cs[..|cs| - 1]);
      var c := cs[|cs| - 1];
      if EndsInside(g, moving, c) == ends && c !in before then before + [c] else before
  }

  /** The outer loop over `shapes`, a prefix of the moving shapes. */
  function Collected(g: Graph, moving: seq<Id>, shapes: seq<Id>, ends: nat): seq<Id>
    requires WellFormed(g) && ShapesIn(g, shapes)
    decreases |shapes|
  {
    if shapes == [] then []
    else
      var last := shapes[|shapes| - 1];
      AddClassified(g, moving, ends, Collected(g, moving, shapes[..|shapes| - 1], ends), Incident(g, last))
  }

  /** One more turn of the inner loop. */
  lemma AddClassifiedNext(g: Graph, moving: seq<Id>, ends: nat, acc: seq<Id>, cs: seq<Id>, j: nat)
    requires ConnectionsIn(g, cs) && j < |cs|
    ensures ConnectionsIn(g, cs[..j]) && ConnectionsIn(g, cs[..j + 1])
    ensures var before := AddClassified(g, moving, ends, acc, cs[..j]);
            AddClassified(g, moving, ends, acc, cs[..j + 1]) ==
              if EndsInside(g, moving, cs[j]) == ends && cs[j] !in before then before + [cs[j]] else before
  {
    assert cs[..j + 1][..j] == cs[..j];
  }

  /** One more turn of the outer loop. */
  lemma CollectedNext(g: Graph, moving: seq<Id>, ends: nat, shapes: seq<Id>, i: nat)
    requires WellFormed(g) && ShapesIn(g, shapes) && i < |shapes|
    ensures ShapesIn(g, shapes[..i]) && ShapesIn(g, shapes[..i + 1])
    ensures ConnectionsIn(g, Incident(g, shapes[i]))
    ensures Collected(g, moving, shapes[..i + 1], ends) ==
              AddClassified(g, moving, ends, Collected(g, moving, shapes[..i], ends), Incident(g, shapes[i]))
  {
    assert shapes[..i + 1][..i] == shapes[..i];
  }

  lemma {:induction false} AddClassifiedMembers(g: Graph, moving: seq<Id>, ends: nat, acc: seq<Id>, cs: seq<Id>)
    requires ConnectionsIn(g, cs)
    ensures forall c :: c in AddClassified(g, moving, ends, acc, cs) <==>
                        c in acc || (c in cs && EndsInside(g, moving, c) == ends)
    ensures NoDuplicates(acc) ==> NoDuplicates(AddClassified(g, moving, ends, acc, cs))
    decreases |cs|
  {
    if cs != [] {
      var init := cs[..|cs| - 1];
      AddClassifiedMembers(g, moving, ends, acc, init);
      assert cs == init + [cs[|cs| - 1]];
    }
  }

  /** The collected list holds exactly the classified connections, each once. */
  lemma {:induction false} CollectedMembers(g: Graph, moving: seq<Id>, shapes: seq<Id>, ends: nat)
    requires WellFormed(g) && ShapesIn(g, shapes)
    ensures forall c :: c in Collected(g, moving, shapes, ends) <==> Classified(g, moving, shapes, c, ends)
    ensures NoDuplicates(Collected(g, moving, shapes, ends))
    decreases |shapes|
  {
    if shapes != [] {
      var init, last := shapes[..|shapes| - 1], shapes[|shapes| - 1];
      assert shapes == init + [last];
      CollectedMembers(g, moving, init, ends);
      AddClassifiedMembers(g, moving, ends, Collected(g, moving, init, ends), Incident(g, last));
      forall c ensures Classified(g, moving, shapes, c, ends) <==>
                       Classified(g, moving, init, c, ends) || (c in Incident(g, last) && EndsInside(g, moving, c) == ends)
      {
        if IncidentTo(g, shapes, c) {
          var s :| s in shapes && c in Incident(g, s);
          if s != last {
            assert s in init;
          }
        }
        if c in Incident(g, last) {
          assert last in shapes;
        }
        if IncidentTo(g, init, c) {
          var s :| s in init && c in Incident(g, s);
          assert s in shapes;
        }
      }
    }
  }

  /**
   * `getLayoutingConnections`: the connections of the moving shapes with
   * exactly one end among them, each listed once.
   */
  method GetLayoutingConnections(g: Graph, movingShapes: seq<Id>) returns (layoutingConnections: seq<Id>)
    requires WellFormed(g) && ShapesIn(g, movingShapes)
    ensures layoutingConnections == Collected(g, movingShapes, movingShapes, 1)
    ensures forall c :: c in layoutingConnections <==> LayoutingConnection(g, movingShapes, c)
    ensures NoDuplicates(layoutingConnections)
  {
    layoutingConnections := [];
    for i := 0 to |movingShapes|
      invariant layoutingConnections == Collected(g, movingShapes, movingShapes[..i], 1)
    {
      CollectedNext(g, movingShapes, 1, movingShapes, i);
      var shape := movingShapes[i];
      var connections := g[shape].incoming + g[shape].outgoing;
      ghost var before := layoutingConnections;
      for j := 0 to |connections|
        invariant layoutingConnections == AddClassified(g, movingShapes, 1, before, connections[..j])
      {
        AddClassifiedNext(g, movingShapes, 1, before, connections, j);
        var connection := connections[j];
        var source, target := g[connection].source, g[connection].target;
        if (source in movingShapes && target !in movingShapes) ||
           (source !in movingShapes && target in movingShapes)
        {
          if connection !in layoutingConnections {
            layoutingConnections := layoutingConnections + [connection];
          }
        }
      }
      assert connections[..|connections|] == connections;
    }
    assert movingShapes[..|movingShapes|] == movingShapes;
    CollectedMembers(g, movingShapes, movingShapes, 1);
  }

  /**
   * `getMovingConnections`: the connections of the moving shapes with both
   * ends among them, each listed once.
   */
  method GetMovingConnections(g: Graph, movingShapes: seq<Id>) returns (movingConnections: seq<Id>)
    requires WellFormed(g) && ShapesIn(g, movingShapes)
    ensures movingConnections == Collected(g, movingShapes, movingShapes, 2)
    ensures forall c :: c in movingConnections <==> MovingConnection(g, movingShapes, c)
    ensures NoDuplicates(movingConnections)
  {
    movingConnections := [];
    for i := 0 to |movingShapes|
      invariant movingConnections == Collected(g, movingShapes, movingShapes[..i], 2)
    {
      CollectedNext(g, movingShapes, 2, movingShapes, i);
      var shape := movingShapes[i];
      var connections := g[shape].incoming + g[shape].outgoing;
      ghost var before := movingConnections;
      for j := 0 to |connections|
        invariant movingConnections == AddClassified(g, movingShapes, 2, before, connections[..j])
      {
        AddClassifiedNext(g, movingShapes, 2, before, connections, j);
        var connection := connections[j];
        var source, target := g[connection].source, g[connection].target;
        if source in movingShapes && target in movingShapes {
          if connection !in movingConnections {
            movingConnections := movingConnections + [connection];
          }
        }
      }
      assert connections[..|connections|] == connections;
    }
    assert movingShapes[..|movingShapes|] == movingShapes;
    CollectedMembers(g, movingShapes, movingShapes, 2);
  }

  /** No connection is both moved as a unit and re-laid-out. */
  lemma LayoutingAndMovingDisjoint(g: Graph, movingShapes: seq<Id>)
    requires WellFormed(g) && ShapesIn(g, movingShapes)
    ensures forall c :: c in Collected(g, movingShapes, movingShapes, 1) ==> c !in Collected(g, movingShapes, movingShapes, 2)
  {
    CollectedMembers(g, movingShapes, movingShapes, 1);
    CollectedMembers(g, movingShapes, movingShapes, 2);
  }

  // ---------------------------------------------------------------------------
  // Labels

  /** The label test of `preExecute`: keep a shape unless it labels a layouting connection. */
  predicate KeepsLabel(g: Graph, layoutingConnections: seq<Id>, s: Id)
    requires s in g
  {
    !IsLabel(g[s]) || g[s].labelTarget.value !in layoutingConnections
  }

  /**
   * The label filter of `preExecute`: every non-label shape stays, and a label
   * is dropped exactly when its target is a layouting connection; order is kept.
   */
  function FilterLabels(g: Graph, movingShapes: seq<Id>, layoutingConnections: seq<Id>): (kept: seq<Id>)
    requires InGraph(g, movingShapes)
    ensures forall s :: s in kept <==> s in movingShapes && KeepsLabel(g, layoutingConnections, s)
    ensures |kept| <= |movingShapes|
  {
    if movingShapes == [] then []
    else
      var s := movingShapes[0];
      (if KeepsLabel(g, layoutingConnections, s) then [s] else []) + FilterLabels(g, movingShapes[1..], layoutingConnections)
  }

  // ---------------------------------------------------------------------------
  // Depth index

  /**
   * `getStepIndex`: the element's depth, except that an element whose parent
   * is moving takes its parent's index.
   */
  function StepIndex(g: Graph, moving: seq<Id>, id: Id): nat
    requires Acyclic(g) && id in g
    decreases Depth(g, id)
  {
    match g[id].parent
    case Some(p) =>
      if p in moving then ParentDepth(g, id); StepIndex(g, moving, p)
      else Depth(g, id)
    case None => Depth(g, id)
  }

  /** Without moving shapes the index is the number of parent links to the root. */
  lemma StepIndexWithoutMovingIsDepth(g: Graph, id: Id)
    requires Acyclic(g) && id in g
    ensures StepIndex(g, [], id) == Depth(g, id)
  {
  }

  /**
   * An element's index is the depth of its topmost ancestor reached through
   * moving parents only; it is never deeper than the element itself, and a
   * placed element whose moving ancestors are all placed is at index 1 or more.
   */
  lemma {:induction false} StepIndexBounds(g: Graph, moving: seq<Id>, id: Id)
    requires Acyclic(g) && id in g
    ensures StepIndex(g, moving, id) <= Depth(g, id)
    ensures Placed(g, moving) && g[id].parent.Some? ==> StepIndex(g, moving, id) >= 1
    decreases Depth(g, id)
  {
    match g[id].parent
    case None =>
    case Some(p) =>
      ParentDepth(g, id);
      if p in moving {
        StepIndexBounds(g, moving, p);
      } else {
        assert Depth(g, id) >= 1;
      }
  }

  /** A moving shape nested in a moving shape shares its index: the pair forms one bucket. */
  lemma NestedMovingSharesIndex(g: Graph, moving: seq<Id>, id: Id)
    requires Acyclic(g) && id in g && g[id].parent.Some? && g[id].parent.value in moving
    ensures g[id].parent.value in g
    ensures StepIndex(g, moving, id) == StepIndex(g, moving, g[id].parent.value)
  {
    ParentDepth(g, id);
  }

  /** The k-th ancestor of `id` (`id` itself for k = 0), when the parent links reach that far inside the graph. */
  function Ancestor(g: Graph, id: Id, k: nat): Option<Id>
    decreases k
  {
    if k == 0 then Some(id)
    else if id in g && g[id].parent.Some? then Ancestor(g, g[id].parent.value, k - 1)
    else None
  }

  /** The first k parent links from `id` all lead to moving elements. */
  predicate MovingLinks(g: Graph, moving: seq<Id>, id: Id, k: nat) {
    forall j :: 1 <= j <= k ==> Ancestor(g, id, j).Some? && Ancestor(g, id, j).value in moving
  }

  /**
   * The topmost element reached from `id` by climbing parents while the parent
   * moves: `id` itself when its parent is absent or not moving.
   */
  function TopMoving(g: Graph, moving: seq<Id>, id: Id): (top: Id)
    requires Acyclic(g) && id in g
    ensures top in g
    ensures g[top].parent.None? || g[top].parent.value !in moving
    ensures Depth(g, top) <= Depth(g, id)
    ensures top != id ==> g[id].parent.Some? && g[id].parent.value in moving
    decreases Depth(g, id)
  {
    match g[id].parent
    case Some(p) =>
      if p in moving then ParentDepth(g, id); TopMoving(g, moving, p)
      else id
    case None => id
  }

  /** `TopMoving` is an ancestor-or-self of `id`, reached through moving parents only. */
  lemma {:induction false} TopMovingReached(g: Graph, moving: seq<Id>, id: Id)
    requires Acyclic(g) && id in g
    ensures exists k: nat :: Ancestor(g, id, k) == Some(TopMoving(g, moving, id)) && MovingLinks(g, moving, id, k)
    decreases Depth(g, id)
  {
    match g[id].parent
    case None =>
      assert Ancestor(g, id, 0) == Some(id) && MovingLinks(g, moving, id, 0);
    case Some(p) =>
      if p in moving {
        ParentDepth(g, id);
        TopMovingReached(g, moving, p);
        var k: nat :| Ancestor(g, p, k) == Some(TopMoving(g, moving, p)) && MovingLinks(g, moving, p, k);
        assert Ancestor(g, id, k + 1) == Ancestor(g, p, k);
        forall j | 1 <= j <= k + 1
          ensures Ancestor(g, id, j).Some? && Ancestor(g, id, j).value in moving
        {
          assert Ancestor(g, id, j) == Ancestor(g, p, j - 1);
        }
        assert MovingLinks(g, moving, id, k + 1);
      } else {
        assert Ancestor(g, id, 0) == Some(id) && MovingLinks(g, moving, id, 0);
      }
  }

  /**
   * Nested moving elements share the index of their topmost consecutively
   * moving ancestor, which is that ancestor's depth.
   */
  lemma {:induction false} StepIndexIsTopDepth(g: Graph, moving: seq<Id>, id: Id)
    requires Acyclic(g) && id in g
    ensures StepIndex(g, moving, id) == Depth(g, TopMoving(g, moving, id))
    decreases Depth(g, id)
  {
    match g[id].parent
    case None =>
    case Some(p) =>
      if p in moving {
        ParentDepth(g, id);
        StepIndexIsTopDepth(g, moving, p);
      }
  }

  /** `getStepIndex` as the source runs it: the recursion for a moving parent, then the walk to the root. */
  method GetStepIndex(g: Graph, movingShapes: seq<Id>, shape: Id) returns (index: nat)
    requires Acyclic(g) && shape in g
    ensures index == StepIndex(g, movingShapes, shape)
    decreases Depth(g, shape)
  {
    var parent := g[shape].parent;
    if parent.Some? && parent.value in movingShapes {
      ParentDepth(g, shape);
      index := GetStepIndex(g, movingShapes, parent.value);
      return;
    }
    index := 0;
    var current := shape;
    while g[current].parent.Some?
      invariant current in g
      invariant index + Depth(g, current) == Depth(g, shape)
      decreases Depth(g, current)
    {
      ParentDepth(g, current);
      index := index + 1;
      current := g[current].parent.value;
    }
  }

  // ---------------------------------------------------------------------------
  // Steps

  /** `groupBy(xs, getStepIndex)`: for each index, the elements of `xs` at that index, in input order. */
  function Grouping(g: Graph, scope: seq<Id>, xs: seq<Id>): map<nat, seq<Id>>
    requires Acyclic(g) && InGraph(g, xs)
    decreases |xs|
  {
    if xs == [] then map[]
    else
      var init, last := xs[..|xs| - 1], xs[|xs| - 1];
      assert InGraph(g, init) by { assert forall x :: x in init ==> x in xs; }
      var groups := Grouping(g, scope, init);
      var k := StepIndex(g, scope, last);
      groups[k := (if k in groups then groups[k] else []) + [last]]
  }

  /** Every group is non-empty. */
  predicate NonEmptyGroups(groups: map<nat, seq<Id>>) {
    forall k :: k in groups ==> groups[k] != []
  }

  /** Each element of `xs` is in the group of its own index. */
  lemma {:induction false} GroupingHolds(g: Graph, scope: seq<Id>, xs: seq<Id>)
    requires Acyclic(g) && InGraph(g, xs)
    ensures var groups := Grouping(g, scope, xs);
            forall x :: x in xs ==> StepIndex(g, scope, x) in groups && x in groups[StepIndex(g, scope, x)]
    decreases |xs|
  {
    if xs != [] {
      var init, last := xs[..|xs| - 1], xs[|xs| - 1];
      assert xs == init + [last];
      GroupingHolds(g, scope, init);
    }
  }

  /** Each group holds only elements of `xs` whose index is the group's key. */
  ghost predicate GroupsIndexed(g: Graph, scope: seq<Id>, xs: seq<Id>, groups: map<nat, seq<Id>>)
    requires Acyclic(g) && InGraph(g, xs)
  {
    forall k, x :: k in groups && x in groups[k] ==> x in xs && StepIndex(g, scope, x) == k
  }

  /** A group is never empty and holds only elements of `xs` whose index is the group's. */
  lemma {:induction false} GroupingOnly(g: Graph, scope: seq<Id>, xs: seq<Id>)
    requires Acyclic(g) && InGraph(g, xs)
    ensures NonEmptyGroups(Grouping(g, scope, xs))
    ensures GroupsIndexed(g, scope, xs, Grouping(g, scope, xs))
    decreases |xs|
  {
    if xs != [] {
      var init, last := xs[..|xs| - 1], xs[|xs| - 1];
      assert xs == init + [last];
      GroupingOnly(g, scope, init);
      var before, k0 := Grouping(g, scope, init), StepIndex(g, scope, last);
      var groups := Grouping(g, scope, xs);
      assert groups == before[k0 := (if k0 in before then before[k0] else []) + [last]];
      forall k, x | k in groups && x in groups[k] ensures x in xs && StepIndex(g, scope, x) == k {
        if k != k0 {
          assert k in before && x in before[k];
          assert x in init && StepIndex(g, scope, x) == k;
        } else if x != last {
          assert k0 in before && x in before[k0];
          assert x in init && StepIndex(g, scope, x) == k;
        }
      }
    }
  }

  predicate GroupsWithoutDuplicates(groups: map<nat, seq<Id>>) {
    forall k :: k in groups ==> NoDuplicates(groups[k])
  }

  /** An input without repetitions gives groups without repetitions. */
  lemma {:induction false} GroupingNoDuplicates(g: Graph, scope: seq<Id>, xs: seq<Id>)
    requires Acyclic(g) && InGraph(g, xs) && NoDuplicates(xs)
    ensures GroupsWithoutDuplicates(Grouping(g, scope, xs))
    decreases |xs|
  {
    if xs != [] {
      var init, last := xs[..|xs| - 1], xs[|xs| - 1];
      assert xs == init + [last];
      assert NoDuplicates(init) by {
        forall i, j | 0 <= i < j < |init| ensures init[i] != init[j] {
          assert init[i] == xs[i] && init[j] == xs[j];
        }
      }
      assert last !in init by {
        forall i | 0 <= i < |init| ensures init[i] != last {
          assert init[i] == xs[i];
        }
      }
      GroupingNoDuplicates(g, scope, init);
      GroupingOnly(g, scope, init);
      var before, k0 := Grouping(g, scope, init), StepIndex(g, scope, last);
      var prev := if k0 in before then before[k0] else [];
      assert Grouping(g, scope, xs) == before[k0 := prev + [last]];
      assert NoDuplicates(prev) && last !in prev;
      assert NoDuplicates(prev + [last]) by {
        var grown := prev + [last];
        forall i, j | 0 <= i < j < |grown| ensures grown[i] != grown[j] {
          assert grown[i] == prev[i];
          if j < |prev| {
            assert grown[j] == prev[j];
          }
        }
      }
    }
  }

  /** No element is in two groups of one grouping. */
  lemma GroupingDisjoint(g: Graph, scope: seq<Id>, xs: seq<Id>)
    requires Acyclic(g) && InGraph(g, xs)
    ensures DisjointGroups(Grouping(g, scope, xs))
  {
    var groups := Grouping(g, scope, xs);
    GroupingOnly(g, scope, xs);
    forall k, l, x | k in groups && l in groups && x in groups[k] && x in groups[l] ensures k == l {
      assert StepIndex(g, scope, x) == k;
      assert StepIndex(g, scope, x) == l;
    }
  }

  /** The largest index of the elements of `xs`, or 0. */
  function MaxIndex(g: Graph, scope: seq<Id>, xs: seq<Id>): nat
    requires Acyclic(g) && InGraph(g, xs)
    decreases |xs|
  {
    if xs == [] then 0
    else
      var init, last := xs[..|xs| - 1], xs[|xs| - 1];
      assert InGraph(g, init) by { assert forall x :: x in init ==> x in xs; }
      var m := MaxIndex(g, scope, init);
      var k := StepIndex(g, scope, last);
      if k > m then k else m
  }

  /** No element's index exceeds the maximum. */
  lemma {:induction false} MaxIndexBounds(g: Graph, scope: seq<Id>, xs: seq<Id>)
    requires Acyclic(g) && InGraph(g, xs)
    ensures forall x :: x in xs ==> StepIndex(g, scope, x) <= MaxIndex(g, scope, xs)
    decreases |xs|
  {
    if xs != [] {
      var init, last := xs[..|xs| - 1], xs[|xs| - 1];
      assert xs == init + [last];
      MaxIndexBounds(g, scope, init);
    }
  }

  /** One more element grouped. */
  lemma GroupingNext(g: Graph, scope: seq<Id>, xs: seq<Id>, i: nat)
    requires Acyclic(g) && InGraph(g, xs) && i < |xs|
    ensures InGraph(g, xs[..i]) && InGraph(g, xs[..i + 1])
    ensures var groups, k := Grouping(g, scope, xs[..i]), StepIndex(g, scope, xs[i]);
            Grouping(g, scope, xs[..i + 1]) == groups[k := (if k in groups then groups[k] else []) + [xs[i]]]
    ensures MaxIndex(g, scope, xs[..i + 1]) ==
              if StepIndex(g, scope, xs[i]) > MaxIndex(g, scope, xs[..i]) then StepIndex(g, scope, xs[i])
              else MaxIndex(g, scope, xs[..i])
  {
    assert xs[..i + 1][..i] == xs[..i];
  }

  /** `groupBy` with `getStepIndex` as the key, and the largest key (or 0). */
  method GroupByStepIndex(g: Graph, scope: seq<Id>, xs: seq<Id>) returns (groups: map<nat, seq<Id>>, maxIndex: nat)
    requires Acyclic(g) && InGraph(g, xs)
    ensures groups == Grouping(g, scope, xs)
    ensures maxIndex == MaxIndex(g, scope, xs)
  {
    groups := map[];
    maxIndex := 0;
    for i := 0 to |xs|
      invariant InGraph(g, xs[..i])
      invariant groups == Grouping(g, scope, xs[..i])
      invariant maxIndex == MaxIndex(g, scope, xs[..i])
    {
      GroupingNext(g, scope, xs, i);
      var index := GetStepIndex(g, scope, xs[i]);
      var group := if index in groups then groups[index] else [];
      groups := groups[index := group + [xs[i]]];
      maxIndex := if index > maxIndex then index else maxIndex;
    }
    assert xs[..|xs|] == xs;
  }

  /** The steps for one index: its move group, then its resize group, each when present. */
  function StepsAt(movingGroups: map<nat, seq<Id>>, resizingGroups: map<nat, seq<Id>>, k: nat): seq<Step>
  {
    (if k in movingGroups then [Move(movingGroups[k])] else []) +
    (if k in resizingGroups then [Resize(resizingGroups[k])] else [])
  }

  /** The steps for indices 1 to k. */
  function StepsFromGroups(movingGroups: map<nat, seq<Id>>, resizingGroups: map<nat, seq<Id>>, k: nat): seq<Step>
  {
    if k == 0 then []
    else StepsFromGroups(movingGroups, resizingGroups, k - 1) + StepsAt(movingGroups, resizingGroups, k)
  }

  /** The index each step of `StepsFromGroups(.., k)` was emitted for. */
  function LevelsFromGroups(movingGroups: map<nat, seq<Id>>, resizingGroups: map<nat, seq<Id>>, k: nat): seq<nat>
  {
    if k == 0 then []
    else
      LevelsFromGroups(movingGroups, resizingGroups, k - 1) +
      seq(|StepsAt(movingGroups, resizingGroups, k)|, _ => k)
  }

  /** A step holds the group of its level. */
  predicate StepIsGroup(movingGroups: map<nat, seq<Id>>, resizingGroups: map<nat, seq<Id>>, step: Step, level: nat) {
    match step
    case Move(es) => level in movingGroups && es == movingGroups[level]
    case Resize(ss) => level in resizingGroups && ss == resizingGroups[level]
  }

  /** Every step holds the group of its level. */
  predicate StepsAreGroups(movingGroups: map<nat, seq<Id>>, resizingGroups: map<nat, seq<Id>>, steps: seq<Step>, levels: seq<nat>)
    requires |levels| == |steps|
  {
    forall i :: 0 <= i < |steps| ==> StepIsGroup(movingGroups, resizingGroups, steps[i], levels[i])
  }

  /** Levels never decrease, and the steps of one level are a move followed by a resize. */
  predicate LevelOrdered(steps: seq<Step>, levels: seq<nat>)
    requires |levels| == |steps|
  {
    forall i, j :: 0 <= i < j < |steps| ==>
      levels[i] < levels[j] || (levels[i] == levels[j] && steps[i].Move? && steps[j].Resize?)
  }

  predicate LevelsWithin(levels: seq<nat>, lo: nat, hi: nat) {
    forall i :: 0 <= i < |levels| ==> lo <= levels[i] <= hi
  }

  /** Steps of lower levels followed by steps of one higher level stay ordered. */
  lemma AppendLevel(steps: seq<Step>, levels: seq<nat>, now: seq<Step>, nowLevels: seq<nat>, k: nat)
    requires |levels| == |steps| && |nowLevels| == |now| && k >= 1
    requires LevelOrdered(steps, levels) && LevelsWithin(levels, 1, k - 1)
    requires LevelOrdered(now, nowLevels) && LevelsWithin(nowLevels, k, k)
    ensures |levels + nowLevels| == |steps + now|
    ensures LevelOrdered(steps + now, levels + nowLevels) && LevelsWithin(levels + nowLevels, 1, k)
  {
  }

  /** Steps that are their levels' groups stay so when appended. */
  lemma AppendGroups(movingGroups: map<nat, seq<Id>>, resizingGroups: map<nat, seq<Id>>,
                     steps: seq<Step>, levels: seq<nat>, now: seq<Step>, nowLevels: seq<nat>)
    requires |levels| == |steps| && |nowLevels| == |now|
    requires StepsAreGroups(movingGroups, resizingGroups, steps, levels)
    requires StepsAreGroups(movingGroups, resizingGroups, now, nowLevels)
    ensures |levels + nowLevels| == |steps + now|
    ensures StepsAreGroups(movingGroups, resizingGroups, steps + now, levels + nowLevels)
  {
  }

  /** The steps of one index are that index's groups, a move before a resize. */
  lemma StepsAtLevel(movingGroups: map<nat, seq<Id>>, resizingGroups: map<nat, seq<Id>>, k: nat)
    ensures var now := StepsAt(movingGroups, resizingGroups, k);
            && LevelOrdered(now, seq(|now|, _ => k))
            && LevelsWithin(seq(|now|, _ => k), k, k)
            && StepsAreGroups(movingGroups, resizingGroups, now, seq(|now|, _ => k))
  {
  }

  /**
   * The steps through index k, with their levels: each level lies in 1..k, each
   * step is its level's group, and levels never decrease, with the move step
   * before the resize step of the same level.
   */
  lemma {:induction false} StepsFromGroupsLevels(movingGroups: map<nat, seq<Id>>, resizingGroups: map<nat, seq<Id>>, k: nat)
    ensures |LevelsFromGroups(movingGroups, resizingGroups, k)| == |StepsFromGroups(movingGroups, resizingGroups, k)|
    ensures LevelsWithin(LevelsFromGroups(movingGroups, resizingGroups, k), 1, k)
    ensures StepsAreGroups(movingGroups, resizingGroups, StepsFromGroups(movingGroups, resizingGroups, k),
                           LevelsFromGroups(movingGroups, resizingGroups, k))
    ensures LevelOrdered(StepsFromGroups(movingGroups, resizingGroups, k), LevelsFromGroups(movingGroups, resizingGroups, k))
  {
    if k > 0 {
      StepsFromGroupsLevels(movingGroups, resizingGroups, k - 1);
      var now := StepsAt(movingGroups, resizingGroups, k);
      StepsAtLevel(movingGroups, resizingGroups, k);
      AppendLevel(StepsFromGroups(movingGroups, resizingGroups, k - 1), LevelsFromGroups(movingGroups, resizingGroups, k - 1),
                  now, seq(|now|, _ => k), k);
      AppendGroups(movingGroups, resizingGroups,
                   StepsFromGroups(movingGroups, resizingGroups, k - 1), LevelsFromGroups(movingGroups, resizingGroups, k - 1),
                   now, seq(|now|, _ => k));
    }
  }

  /** Each group at an index from 1 to k is one of the steps. */
  lemma {:induction false} StepsFromGroupsHold(movingGroups: map<nat, seq<Id>>, resizingGroups: map<nat, seq<Id>>, k: nat, level: nat)
    requires 1 <= level <= k
    ensures level in movingGroups ==> Move(movingGroups[level]) in StepsFromGroups(movingGroups, resizingGroups, k)
    ensures level in resizingGroups ==> Resize(resizingGroups[level]) in StepsFromGroups(movingGroups, resizingGroups, k)
  {
    var before, now := StepsFromGroups(movingGroups, resizingGroups, k - 1), StepsAt(movingGroups, resizingGroups, k);
    assert StepsFromGroups(movingGroups, resizingGroups, k) == before + now;
    if level < k {
      StepsFromGroupsHold(movingGroups, resizingGroups, k - 1, level);
    } else {
      assert level in movingGroups ==> now[0] == Move(movingGroups[level]);
      assert level in resizingGroups ==> now[|now| - 1] == Resize(resizingGroups[level]);
    }
  }

  /** No element is in two groups. */
  predicate DisjointGroups(groups: map<nat, seq<Id>>) {
    forall k, l, x :: k in groups && l in groups && x in groups[k] && x in groups[l] ==> k == l
  }

  /** No element is in two move steps, nor in two resize steps. */
  predicate OncePerKind(steps: seq<Step>) {
    forall i, j, x ::
      0 <= i < |steps| && 0 <= j < |steps| && steps[i].Move? == steps[j].Move? &&
      x in Members(steps[i]) && x in Members(steps[j])
      ==> i == j
  }

  /** With disjoint groups, an element is in at most one move step and at most one resize step. */
  lemma StepsFromGroupsUnique(movingGroups: map<nat, seq<Id>>, resizingGroups: map<nat, seq<Id>>, k: nat)
    requires DisjointGroups(movingGroups) && DisjointGroups(resizingGroups)
    ensures OncePerKind(StepsFromGroups(movingGroups, resizingGroups, k))
  {
    var steps, levels := StepsFromGroups(movingGroups, resizingGroups, k), LevelsFromGroups(movingGroups, resizingGroups, k);
    StepsFromGroupsLevels(movingGroups, resizingGroups, k);
    forall i, j, x | 0 <= i < |steps| && 0 <= j < |steps| && steps[i].Move? == steps[j].Move? &&
                     x in Members(steps[i]) && x in Members(steps[j])
      ensures i == j
    {
      assert StepIsGroup(movingGroups, resizingGroups, steps[i], levels[i]);
      assert StepIsGroup(movingGroups, resizingGroups, steps[j], levels[j]);
      assert levels[i] == levels[j];
    }
  }

  /** The largest index over moving and resizing elements (and 0). */
  function PlanMaxIndex(g: Graph, moving: seq<Id>, resizing: seq<Id>): nat
    requires Acyclic(g) && InGraph(g, moving) && InGraph(g, resizing)
  {
    var m, r := MaxIndex(g, moving, moving), MaxIndex(g, [], resizing);
    if m > r then m else r
  }

  /**
   * What `getSteps(movingElements, resizingShapes)` returns: the moving
   * elements grouped by their index among themselves, the resizing shapes by
   * their plain depth, emitted from index 1 to the largest index.
   */
  function PlanSteps(g: Graph, moving: seq<Id>, resizing: seq<Id>): seq<Step>
    requires Acyclic(g) && InGraph(g, moving) && InGraph(g, resizing)
  {
    StepsFromGroups(Grouping(g, moving, moving), Grouping(g, [], resizing), PlanMaxIndex(g, moving, resizing))
  }

  /** The index each planned step was emitted for. */
  function PlanLevels(g: Graph, moving: seq<Id>, resizing: seq<Id>): seq<nat>
    requires Acyclic(g) && InGraph(g, moving) && InGraph(g, resizing)
  {
    LevelsFromGroups(Grouping(g, moving, moving), Grouping(g, [], resizing), PlanMaxIndex(g, moving, resizing))
  }

  /**
   * The planned steps go by non-decreasing index from 1 up to the largest
   * index, with a move step before the resize step of the same index, and no
   * step is empty.
   */
  lemma PlanStepsOrdered(g: Graph, moving: seq<Id>, resizing: seq<Id>)
    requires Acyclic(g) && InGraph(g, moving) && InGraph(g, resizing)
    ensures var steps, levels := PlanSteps(g, moving, resizing), PlanLevels(g, moving, resizing);
            && |levels| == |steps|
            && LevelsWithin(levels, 1, PlanMaxIndex(g, moving, resizing))
            && LevelOrdered(steps, levels)
            && (forall i :: 0 <= i < |steps| ==> Members(steps[i]) != [])
  {
    var movingGroups, resizingGroups := Grouping(g, moving, moving), Grouping(g, [], resizing);
    var steps, levels := PlanSteps(g, moving, resizing), PlanLevels(g, moving, resizing);
    GroupingOnly(g, moving, moving);
    GroupingOnly(g, [], resizing);
    StepsFromGroupsLevels(movingGroups, resizingGroups, PlanMaxIndex(g, moving, resizing));
    forall i | 0 <= i < |steps| ensures Members(steps[i]) != [] {
      assert StepIsGroup(movingGroups, resizingGroups, steps[i], levels[i]);
    }
  }

  /**
   * Every element of a planned step is an input of the step's kind and has the
   * step's index: among the moving elements for a move, as plain depth for a resize.
   */
  lemma PlanStepsIndexed(g: Graph, moving: seq<Id>, resizing: seq<Id>)
    requires Acyclic(g) && InGraph(g, moving) && InGraph(g, resizing)
    ensures var steps, levels := PlanSteps(g, moving, resizing), PlanLevels(g, moving, resizing);
            && |levels| == |steps|
            && (forall i, x :: 0 <= i < |steps| && steps[i].Move? && x in steps[i].elements ==>
                  x in moving && StepIndex(g, moving, x) == levels[i])
            && (forall i, x :: 0 <= i < |steps| && steps[i].Resize? && x in steps[i].shapes ==>
                  x in resizing && StepIndex(g, [], x) == levels[i])
  {
    var movingGroups, resizingGroups := Grouping(g, moving, moving), Grouping(g, [], resizing);
    var steps, levels := PlanSteps(g, moving, resizing), PlanLevels(g, moving, resizing);
    GroupingOnly(g, moving, moving);
    GroupingOnly(g, [], resizing);
    StepsFromGroupsLevels(movingGroups, resizingGroups, PlanMaxIndex(g, moving, resizing));
    forall i | 0 <= i < |steps| ensures StepIsGroup(movingGroups, resizingGroups, steps[i], levels[i]) {
    }
  }

  /** Every placed moving element is in a move step, and every placed resizing shape in a resize step. */
  lemma PlanStepsCover(g: Graph, moving: seq<Id>, resizing: seq<Id>)
    requires Acyclic(g) && Placed(g, moving) && Placed(g, resizing)
    ensures InGraph(g, moving) && InGraph(g, resizing)
    ensures forall x :: x in moving ==> exists step :: step in PlanSteps(g, moving, resizing) && step.Move? && x in step.elements
    ensures forall x :: x in resizing ==> exists step :: step in PlanSteps(g, moving, resizing) && step.Resize? && x in step.shapes
  {
    assert InGraph(g, moving) && InGraph(g, resizing);
    var movingGroups, resizingGroups := Grouping(g, moving, moving), Grouping(g, [], resizing);
    var maxIndex := PlanMaxIndex(g, moving, resizing);
    GroupingHolds(g, moving, moving);
    GroupingHolds(g, [], resizing);
    MaxIndexBounds(g, moving, moving);
    MaxIndexBounds(g, [], resizing);
    forall x | x in moving
      ensures Move(movingGroups[StepIndex(g, moving, x)]) in PlanSteps(g, moving, resizing)
    {
      StepIndexBounds(g, moving, x);
      StepsFromGroupsHold(movingGroups, resizingGroups, maxIndex, StepIndex(g, moving, x));
    }
    forall x | x in resizing
      ensures Resize(resizingGroups[StepIndex(g, [], x)]) in PlanSteps(g, moving, resizing)
    {
      StepIndexBounds(g, [], x);
      StepsFromGroupsHold(movingGroups, resizingGroups, maxIndex, StepIndex(g, [], x));
    }
  }

  /** No element is in two move steps or in two resize steps. */
  lemma PlanStepsUnique(g: Graph, moving: seq<Id>, resizing: seq<Id>)
    requires Acyclic(g) && InGraph(g, moving) && InGraph(g, resizing)
    ensures OncePerKind(PlanSteps(g, moving, resizing))
  {
    GroupingDisjoint(g, moving, moving);
    GroupingDisjoint(g, [], resizing);
    StepsFromGroupsUnique(Grouping(g, moving, moving), Grouping(g, [], resizing), PlanMaxIndex(g, moving, resizing));
  }

  /** Every step's elements are in the graph. */
  predicate StepsInGraph(g: Graph, steps: seq<Step>) {
    forall i :: 0 <= i < |steps| ==> InGraph(g, Members(steps[i]))
  }

  /** The planned steps act on elements of the graph only. */
  lemma PlanStepsInGraph(g: Graph, moving: seq<Id>, resizing: seq<Id>)
    requires Acyclic(g) && InGraph(g, moving) && InGraph(g, resizing)
    ensures StepsInGraph(g, PlanSteps(g, moving, resizing))
  {
    var steps := PlanSteps(g, moving, resizing);
    PlanStepsIndexed(g, moving, resizing);
    forall i | 0 <= i < |steps| ensures InGraph(g, Members(steps[i])) {
      forall x | x in Members(steps[i]) ensures x in g {
        if steps[i].Move? {
          assert x in steps[i].elements;
        } else {
          assert x in steps[i].shapes;
        }
      }
    }
  }

  /** A move step moves some of `moving`, a resize step resizes some of `resizing`. */
  predicate StepFrom(step: Step, moving: seq<Id>, resizing: seq<Id>) {
    match step
    case Move(elements) => forall x :: x in elements ==> x in moving
    case Resize(shapes) => forall x :: x in shapes ==> x in resizing
  }

  /** The planned steps take their elements from the inputs of their kind. */
  lemma PlanStepsFrom(g: Graph, moving: seq<Id>, resizing: seq<Id>)
    requires Acyclic(g) && InGraph(g, moving) && InGraph(g, resizing)
    ensures forall step :: step in PlanSteps(g, moving, resizing) ==> StepFrom(step, moving, resizing)
  {
    var steps := PlanSteps(g, moving, resizing);
    PlanStepsIndexed(g, moving, resizing);
    forall step | step in steps ensures StepFrom(step, moving, resizing) {
      var i :| 0 <= i < |steps| && steps[i] == step;
      match step
      case Move(elements) =>
        forall x | x in elements ensures x in moving {
          assert x in steps[i].elements;
        }
      case Resize(shapes) =>
        forall x | x in shapes ensures x in resizing {
          assert x in steps[i].shapes;
        }
    }
  }

  /** Inputs without repetitions give steps without repetitions. */
  lemma PlanStepsNoDuplicates(g: Graph, moving: seq<Id>, resizing: seq<Id>)
    requires Acyclic(g) && InGraph(g, moving) && InGraph(g, resizing)
    requires NoDuplicates(moving) && NoDuplicates(resizing)
    ensures forall step :: step in PlanSteps(g, moving, resizing) ==> NoDuplicates(Members(step))
  {
    var movingGroups, resizingGroups := Grouping(g, moving, moving), Grouping(g, [], resizing);
    var steps, levels := PlanSteps(g, moving, resizing), PlanLevels(g, moving, resizing);
    GroupingNoDuplicates(g, moving, moving);
    GroupingNoDuplicates(g, [], resizing);
    StepsFromGroupsLevels(movingGroups, resizingGroups, PlanMaxIndex(g, moving, resizing));
    forall step | step in steps ensures NoDuplicates(Members(step)) {
      var i :| 0 <= i < |steps| && steps[i] == step;
      assert StepIsGroup(movingGroups, resizingGroups, steps[i], levels[i]);
    }
  }

  /** The loop of `getSteps`: walk the indices 1 to `maxIndex`, reading each index's groups. */
  method EmitSteps(movingGroups: map<nat, seq<Id>>, resizingGroups: map<nat, seq<Id>>, maxIndex: nat)
    returns (steps: seq<Step>)
    ensures steps == StepsFromGroups(movingGroups, resizingGroups, maxIndex)
  {
    steps := [];
    var index := 1;
    while index <= maxIndex
      invariant 1 <= index <= maxIndex + 1
      invariant steps == StepsFromGroups(movingGroups, resizingGroups, index - 1)
    {
      if index in movingGroups {
        steps := steps + [Move(movingGroups[index])];
      }
      if index in resizingGroups {
        steps := steps + [Resize(resizingGroups[index])];
      }
      index := index + 1;
    }
  }

  /**
   * `getSteps`: for index 1 up to the largest index, a move step with the
   * moving elements at that index, then a resize step with the resizing shapes
   * at that index, each only when there is such an element.
   */
  method GetSteps(g: Graph, movingElements: seq<Id>, resizingShapes: seq<Id>) returns (steps: seq<Step>)
    requires Acyclic(g) && Placed(g, movingElements) && Placed(g, resizingShapes)
    ensures InGraph(g, movingElements) && InGraph(g, resizingShapes)
    ensures steps == PlanSteps(g, movingElements, resizingShapes)
  {
    assert InGraph(g, movingElements) && InGraph(g, resizingShapes);
    var groupedMovingElements, maxMoving := GroupByStepIndex(g, movingElements, movingElements);
    var groupedResizingShapes, maxResizing := GroupByStepIndex(g, [], resizingShapes);
    var maxIndex := if maxMoving > maxResizing then maxMoving else maxResizing;
    steps := EmitSteps(groupedMovingElements, groupedResizingShapes, maxIndex);
  }
}
