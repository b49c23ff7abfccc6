/**
 * The space tool command (SpaceToolHandler.js): before executing, it plans
 * the move and resize steps and dispatches each to the modeling facade; its
 * own execute and revert do nothing.  The facade calls it makes are recorded
 * in the facade's operation trace.
 */
module SpaceTool {
  import opened Wrappers
  import opened Elements
  import opened Modeling
  import opened SpaceToolPlanner
  import Collections

  /** The command context: `{ movingShapes, resizingShapes, delta, direction }`. */
  datatype SpaceToolContext = SpaceToolContext(movingShapes: seq<Id>, resizingShapes: seq<Id>,
                                               delta: Delta, direction: Direction)

  /** The hints `moveElements` gives `moveShape`: no auto-resize, only the layouting connections re-laid-out, no move behaviour, no recursion. */
  function ShapeMoveHints(layoutingConnections: seq<Id>): Hints {
    Hints(Some(false), LayoutOnly(layoutingConnections), Some(false), Some(false))
  }

  /** The hints `moveElements` gives `moveConnection`: `{ moveElementsBehavior: false }`. */
  const ConnectionMoveHints := Hints(None, LayoutAll, Some(false), None)

  /** The facade call `moveElements` makes for one element (an identifier outside the graph cannot occur; it is read as a shape). */
  function MoveRequest(g: Graph, element: Id, delta: Delta, layoutingConnections: seq<Id>): Op {
    if element in g && IsConnection(g[element]) then MoveConnectionOp(element, delta, None, ConnectionMoveHints)
    else MoveShapeOp(element, delta, None, ShapeMoveHints(layoutingConnections))
  }

  /**
   * The facade calls of `moveElements(elements, delta, layoutingConnections)`:
   * one per element, in order, a connection moved as a connection and any
   * other element as a shape.
   */
  function MoveRequests(g: Graph, elements: seq<Id>, delta: Delta, layoutingConnections: seq<Id>): (ops: seq<Op>)
    ensures |ops| == |elements|
    decreases |elements|
  {
    if elements == [] then []
    else
      var init := elements[..|elements| - 1];
      MoveRequests(g, init, delta, layoutingConnections) + [MoveRequest(g, elements[|elements| - 1], delta, layoutingConnections)]
  }

  /** The facade calls of `resizeShapes(shapes, delta, direction)`: one resize per shape, in order, to `resizeBounds(shape, direction, delta)`. */
  function ResizeRequests(shapes: seq<Id>, delta: Delta, direction: Direction): (ops: seq<Op>)
    ensures |ops| == |shapes|
    decreases |shapes|
  {
    if shapes == [] then []
    else
      var last := shapes[|shapes| - 1];
      ResizeRequests(shapes[..|shapes| - 1], delta, direction) + [ResizeShapeOp(last, ResizedBounds(last, direction, delta))]
  }

  /** The facade calls for one step: a resize step resizes its shapes, a move step moves its elements. */
  function StepRequests(g: Graph, step: Step, delta: Delta, direction: Direction, layoutingConnections: seq<Id>): seq<Op>
  {
    match step
    case Resize(shapes) => ResizeRequests(shapes, delta, direction)
    case Move(elements) => MoveRequests(g, elements, delta, layoutingConnections)
  }

  /** The facade calls for the first n steps, in order. */
  function DispatchPrefix(g: Graph, steps: seq<Step>, n: nat, delta: Delta, direction: Direction, layoutingConnections: seq<Id>): seq<Op>
    requires n <= |steps|
  {
    if n == 0 then []
    else
      DispatchPrefix(g, steps, n - 1, delta, direction, layoutingConnections) +
      StepRequests(g, steps[n - 1], delta, direction, layoutingConnections)
  }

  /** A trace extended by the facade calls of the first n steps. */
  function DispatchOnto(trace: seq<Op>, g: Graph, steps: seq<Step>, n: nat, delta: Delta, direction: Direction, layoutingConnections: seq<Id>): seq<Op>
    requires n <= |steps|
  {
    if n == 0 then trace
    else
      DispatchOnto(trace, g, steps, n - 1, delta, direction, layoutingConnections) +
      StepRequests(g, steps[n - 1], delta, direction, layoutingConnections)
  }

  lemma {:induction false} DispatchOntoAppends(trace: seq<Op>, g: Graph, steps: seq<Step>, n: nat, delta: Delta, direction: Direction, layoutingConnections: seq<Id>)
    requires n <= |steps|
    ensures DispatchOnto(trace, g, steps, n, delta, direction, layoutingConnections) ==
              trace + DispatchPrefix(g, steps, n, delta, direction, layoutingConnections)
  {
    if n > 0 {
      var previous := DispatchOnto(trace, g, steps, n - 1, delta, direction, layoutingConnections);
      var a := DispatchPrefix(g, steps, n - 1, delta, direction, layoutingConnections);
      var b := StepRequests(g, steps[n - 1], delta, direction, layoutingConnections);
      DispatchOntoAppends(trace, g, steps, n - 1, delta, direction, layoutingConnections);
      assert previous == trace + a;
      assert DispatchOnto(trace, g, steps, n, delta, direction, layoutingConnections) == previous + b;
      assert DispatchPrefix(g, steps, n, delta, direction, layoutingConnections) == a + b;
      Collections.AppendAssociates(trace, a, b);
    }
  }

  /** The facade calls for a list of steps, in order. */
  function DispatchRequests(g: Graph, steps: seq<Step>, delta: Delta, direction: Direction, layoutingConnections: seq<Id>): seq<Op> {
    DispatchPrefix(g, steps, |steps|, delta, direction, layoutingConnections)
  }

  /** `Array.prototype.reverse`: the same entries, last first. */
  function Reversed<T>(s: seq<T>): seq<T> {
    seq(|s|, i requires 0 <= i < |s| => s[|s| - 1 - i])
  }

  /** The steps in the order they run: as planned when adding space, reversed otherwise (also for an unknown direction). */
  function ExecutedSteps<T>(steps: seq<T>, delta: Delta, direction: Direction): seq<T> {
    if IsAddingSpace(delta, direction) == Some(true) then steps else Reversed(steps)
  }

  /**
   * The command context the handler relies on: a well-formed graph, moving
   * shapes that are shapes, and moving shapes, resizing shapes and the moving
   * connections (both ends moving) all below a root (so their index is 1 or more).
   */
  ghost predicate ValidContext(g: Graph, context: SpaceToolContext) {
    && WellFormed(g)
    && ShapesIn(g, context.movingShapes)
    && Placed(g, context.movingShapes)
    && Placed(g, context.resizingShapes)
    && (forall s, c :: s in context.movingShapes && c in Incident(g, s) && EndsInside(g, context.movingShapes, c) == 2 ==>
          g[c].parent.Some?)
  }

  /** The layouting connections of the context. */
  function Layouting(g: Graph, context: SpaceToolContext): seq<Id>
    requires ValidContext(g, context)
  {
    Collected(g, context.movingShapes, context.movingShapes, 1)
  }

  /** The elements handed to `getSteps`: the moving shapes minus dropped labels, then the moving connections. */
  function PlannedElements(g: Graph, context: SpaceToolContext): (elements: seq<Id>)
    requires ValidContext(g, context)
    ensures Placed(g, elements)
  {
    var moving := context.movingShapes;
    var layouting := Collected(g, moving, moving, 1);
    var connections := Collected(g, moving, moving, 2);
    CollectedMembers(g, moving, moving, 2);
    assert Placed(g, connections) by {
      forall c | c in connections ensures c in g && g[c].parent.Some? {
        var s :| s in moving && c in Incident(g, s);
      }
    }
    FilterLabels(g, moving, layouting) + connections
  }

  /** The steps `preExecute` plans. */
  function PlannedSteps(g: Graph, context: SpaceToolContext): (steps: seq<Step>)
    requires ValidContext(g, context)
    ensures StepsInGraph(g, steps)
  {
    var elements := PlannedElements(g, context);
    PlanStepsInGraph(g, elements, context.resizingShapes);
    PlanSteps(g, elements, context.resizingShapes)
  }

  /** The facade calls of `preExecute`, in order. */
  function SpaceToolRequests(g: Graph, context: SpaceToolContext): seq<Op>
    requires ValidContext(g, context)
  {
    var steps := ExecutedSteps(PlannedSteps(g, context), context.delta, context.direction);
    DispatchRequests(g, steps, context.delta, context.direction, Layouting(g, context))
  }

  lemma ReversedInGraph(g: Graph, steps: seq<Step>)
    requires StepsInGraph(g, steps)
    ensures StepsInGraph(g, Reversed(steps))
  {
  }

  // ---------------------------------------------------------------------------
  // Order of execution

  /** Levels never increase, and the steps of one level are a resize followed by a move. */
  predicate DeepestFirst(steps: seq<Step>, levels: seq<nat>)
    requires |levels| == |steps|
  {
    forall i, j :: 0 <= i < j < |steps| ==>
      levels[i] > levels[j] || (levels[i] == levels[j] && steps[i].Resize? && steps[j].Move?)
  }

  /** Reversing a plan ordered by rising level runs it deepest level first, resizing before moving. */
  lemma ReversedRunsDeepestFirst(steps: seq<Step>, levels: seq<nat>)
    requires |levels| == |steps| && LevelOrdered(steps, levels)
    ensures |Reversed(levels)| == |Reversed(steps)|
    ensures DeepestFirst(Reversed(steps), Reversed(levels))
  {
  }

  /**
   * `preExecute` runs the planned steps from the shallowest index up when
   * adding space, and from the deepest index down (resize before move at one
   * index) when removing space or the direction is unknown; either way it runs
   * exactly the planned steps.
   */
  lemma ExecutionOrder(g: Graph, context: SpaceToolContext)
    requires ValidContext(g, context)
    ensures var planned := PlannedSteps(g, context);
            var levels := PlanLevels(g, PlannedElements(g, context), context.resizingShapes);
            var executed := ExecutedSteps(planned, context.delta, context.direction);
            && |levels| == |planned|
            && (IsAddingSpace(context.delta, context.direction) == Some(true) ==>
                  executed == planned && LevelOrdered(executed, levels))
            && (IsAddingSpace(context.delta, context.direction) != Some(true) ==>
                  Reversed(executed) == planned && DeepestFirst(executed, Reversed(levels)))
  {
    var elements := PlannedElements(g, context);
    var planned := PlannedSteps(g, context);
    var levels := PlanLevels(g, elements, context.resizingShapes);
    PlanStepsOrdered(g, elements, context.resizingShapes);
    if IsAddingSpace(context.delta, context.direction) != Some(true) {
      ReversedRunsDeepestFirst(planned, levels);
      ReversedTwice(planned);
    }
  }

  /** Reversing twice gives the list back. */
  lemma ReversedTwice<T>(s: seq<T>)
    ensures Reversed(Reversed(s)) == s
  {
  }

  // ---------------------------------------------------------------------------
  // The facade calls

  /** The call belongs to one of the steps. */
  ghost predicate InSomeStep(g: Graph, steps: seq<Step>, op: Op, delta: Delta, direction: Direction, layoutingConnections: seq<Id>) {
    exists step :: step in steps && op in StepRequests(g, step, delta, direction, layoutingConnections)
  }

  /** The call belongs to one of the first n steps. */
  ghost predicate InFirstSteps(g: Graph, steps: seq<Step>, n: nat, op: Op, delta: Delta, direction: Direction, layoutingConnections: seq<Id>)
    requires n <= |steps|
  {
    exists k :: 0 <= k < n && op in StepRequests(g, steps[k], delta, direction, layoutingConnections)
  }

  /** A call is among those of the first n steps exactly when one of those steps makes it. */
  lemma {:induction false} DispatchPrefixMembers(g: Graph, steps: seq<Step>, n: nat, delta: Delta, direction: Direction, layoutingConnections: seq<Id>)
    requires n <= |steps|
    ensures forall op :: op in DispatchPrefix(g, steps, n, delta, direction, layoutingConnections) <==>
                         InFirstSteps(g, steps, n, op, delta, direction, layoutingConnections)
  {
    if n > 0 {
      DispatchPrefixMembers(g, steps, n - 1, delta, direction, layoutingConnections);
      forall op ensures InFirstSteps(g, steps, n, op, delta, direction, layoutingConnections) <==>
                        InFirstSteps(g, steps, n - 1, op, delta, direction, layoutingConnections) ||
                        op in StepRequests(g, steps[n - 1], delta, direction, layoutingConnections)
      {
        if InFirstSteps(g, steps, n, op, delta, direction, layoutingConnections) {
          var k :| 0 <= k < n && op in StepRequests(g, steps[k], delta, direction, layoutingConnections);
          if k < n - 1 {
            assert InFirstSteps(g, steps, n - 1, op, delta, direction, layoutingConnections);
          }
        }
      }
    }
  }

  /** A call is in the dispatched trace exactly when it belongs to one of the steps. */
  lemma DispatchMembers(g: Graph, steps: seq<Step>, delta: Delta, direction: Direction, layoutingConnections: seq<Id>)
    ensures forall op :: op in DispatchRequests(g, steps, delta, direction, layoutingConnections) <==>
                         InSomeStep(g, steps, op, delta, direction, layoutingConnections)
  {
    DispatchPrefixMembers(g, steps, |steps|, delta, direction, layoutingConnections);
    forall op ensures InFirstSteps(g, steps, |steps|, op, delta, direction, layoutingConnections) <==>
                      InSomeStep(g, steps, op, delta, direction, layoutingConnections)
    {
      if InSomeStep(g, steps, op, delta, direction, layoutingConnections) {
        var step :| step in steps && op in StepRequests(g, step, delta, direction, layoutingConnections);
        var k :| 0 <= k < |steps| && steps[k] == step;
      }
    }
  }

  /** Reversing keeps the same steps. */
  lemma ExecutedStepsSameSteps<T>(planned: seq<T>, delta: Delta, direction: Direction)
    ensures forall step :: step in ExecutedSteps(planned, delta, direction) <==> step in planned
  {
    var executed := ExecutedSteps(planned, delta, direction);
    forall step | step in planned ensures step in executed {
      var i :| 0 <= i < |planned| && planned[i] == step;
      assert executed[|planned| - 1 - i] == step || executed[i] == step;
    }
  }

  /** `moveElements` makes its i-th call for its i-th element. */
  lemma {:induction false} MoveRequestsAt(g: Graph, elements: seq<Id>, delta: Delta, layoutingConnections: seq<Id>)
    ensures forall i :: 0 <= i < |elements| ==>
              MoveRequests(g, elements, delta, layoutingConnections)[i] == MoveRequest(g, elements[i], delta, layoutingConnections)
    decreases |elements|
  {
    if elements != [] {
      var init := elements[..|elements| - 1];
      MoveRequestsAt(g, init, delta, layoutingConnections);
      assert forall i :: 0 <= i < |init| ==> init[i] == elements[i];
    }
  }

  /** `resizeShapes` makes its i-th call for its i-th shape. */
  lemma {:induction false} ResizeRequestsAt(shapes: seq<Id>, delta: Delta, direction: Direction)
    ensures forall i :: 0 <= i < |shapes| ==>
              ResizeRequests(shapes, delta, direction)[i] == ResizeShapeOp(shapes[i], ResizedBounds(shapes[i], direction, delta))
    decreases |shapes|
  {
    if shapes != [] {
      var init := shapes[..|shapes| - 1];
      ResizeRequestsAt(init, delta, direction);
      assert forall i :: 0 <= i < |init| ==> init[i] == shapes[i];
    }
  }

  /** A call of `resizeShapes` is the resize of one of its shapes to `resizeBounds(shape, direction, delta)`, and each shape gets one. */
  lemma ResizeRequestsMembers(shapes: seq<Id>, delta: Delta, direction: Direction)
    ensures forall op :: op in ResizeRequests(shapes, delta, direction) <==>
                         exists s :: s in shapes && op == ResizeShapeOp(s, ResizedBounds(s, direction, delta))
  {
  }

  /** A call of `moveElements` is the move of one of its elements, and each element gets one. */
  lemma MoveRequestsMembers(g: Graph, elements: seq<Id>, delta: Delta, layoutingConnections: seq<Id>)
    ensures forall op :: op in MoveRequests(g, elements, delta, layoutingConnections) <==>
                         exists e :: e in elements && op == MoveRequest(g, e, delta, layoutingConnections)
  {
  }

  /** A call of `preExecute` is a call of one of the planned steps, whatever order they run in. */
  lemma SpaceToolRequestsMembers(g: Graph, context: SpaceToolContext)
    requires ValidContext(g, context)
    ensures forall op :: op in SpaceToolRequests(g, context) <==>
                         InSomeStep(g, PlannedSteps(g, context), op, context.delta, context.direction, Layouting(g, context))
  {
    var planned := PlannedSteps(g, context);
    var executed := ExecutedSteps(planned, context.delta, context.direction);
    DispatchMembers(g, executed, context.delta, context.direction, Layouting(g, context));
    ExecutedStepsSameSteps(planned, context.delta, context.direction);
  }

  /** Every resizing shape is resized, once per resize step it is in, to `resizeBounds(shape, direction, delta)`. */
  lemma SpaceToolResizesEveryResizingShape(g: Graph, context: SpaceToolContext)
    requires ValidContext(g, context)
    ensures forall s :: s in context.resizingShapes ==>
              ResizeShapeOp(s, ResizedBounds(s, context.direction, context.delta)) in SpaceToolRequests(g, context)
  {
    var delta, direction, layouting := context.delta, context.direction, Layouting(g, context);
    var elements, planned := PlannedElements(g, context), PlannedSteps(g, context);
    SpaceToolRequestsMembers(g, context);
    PlanStepsCover(g, elements, context.resizingShapes);
    forall s | s in context.resizingShapes
      ensures ResizeShapeOp(s, ResizedBounds(s, direction, delta)) in SpaceToolRequests(g, context)
    {
      var step :| step in planned && step.Resize? && s in step.shapes;
      ResizeRequestsMembers(step.shapes, delta, direction);
      assert InSomeStep(g, planned, ResizeShapeOp(s, ResizedBounds(s, direction, delta)), delta, direction, layouting);
    }
  }

  /** The planned elements are the moving shapes that are not labels of layouting connections, and the moving connections. */
  lemma PlannedElementsMembers(g: Graph, context: SpaceToolContext)
    requires ValidContext(g, context)
    ensures forall x :: x in PlannedElements(g, context) <==>
              || (x in context.movingShapes && KeepsLabel(g, Layouting(g, context), x))
              || MovingConnection(g, context.movingShapes, x)
  {
    CollectedMembers(g, context.movingShapes, context.movingShapes, 2);
  }

  /** Every planned element is moved by its move step. */
  lemma SpaceToolMovesPlanned(g: Graph, context: SpaceToolContext)
    requires ValidContext(g, context)
    ensures forall x :: x in PlannedElements(g, context) ==>
              MoveRequest(g, x, context.delta, Layouting(g, context)) in SpaceToolRequests(g, context)
  {
    var delta, direction, layouting := context.delta, context.direction, Layouting(g, context);
    var elements, planned := PlannedElements(g, context), PlannedSteps(g, context);
    SpaceToolRequestsMembers(g, context);
    PlanStepsCover(g, elements, context.resizingShapes);
    forall x | x in elements
      ensures MoveRequest(g, x, delta, layouting) in SpaceToolRequests(g, context)
    {
      var step :| step in planned && step.Move? && x in step.elements;
      MoveRequestsMembers(g, step.elements, delta, layouting);
      assert InSomeStep(g, planned, MoveRequest(g, x, delta, layouting), delta, direction, layouting);
    }
  }

  /**
   * Every moving shape that is not the label of a layouting connection is
   * moved by delta with the space tool's shape hints, and every connection
   * with both ends moving is moved by delta.
   */
  lemma SpaceToolMovesEveryPlannedElement(g: Graph, context: SpaceToolContext)
    requires ValidContext(g, context)
    ensures forall s :: s in context.movingShapes && KeepsLabel(g, Layouting(g, context), s) ==>
              MoveShapeOp(s, context.delta, None, ShapeMoveHints(Layouting(g, context))) in SpaceToolRequests(g, context)
    ensures forall c :: MovingConnection(g, context.movingShapes, c) ==>
              MoveConnectionOp(c, context.delta, None, ConnectionMoveHints) in SpaceToolRequests(g, context)
  {
    PlannedElementsMembers(g, context);
    SpaceToolMovesPlanned(g, context);
  }

  /** The call is the move of a planned element. */
  ghost predicate MovesPlanned(g: Graph, context: SpaceToolContext, op: Op)
    requires ValidContext(g, context)
  {
    || (op.MoveShapeOp? && op.shape in PlannedElements(g, context) &&
        op == MoveRequest(g, op.shape, context.delta, Layouting(g, context)))
    || (op.MoveConnectionOp? && op.connection in PlannedElements(g, context) &&
        op == MoveRequest(g, op.connection, context.delta, Layouting(g, context)))
  }

  /** A call of one planned step resizes a resizing shape or moves a planned element. */
  lemma StepRequestFromPlan(g: Graph, context: SpaceToolContext, step: Step, op: Op)
    requires ValidContext(g, context)
    requires StepFrom(step, PlannedElements(g, context), context.resizingShapes)
    requires op in StepRequests(g, step, context.delta, context.direction, Layouting(g, context))
    ensures || (op.ResizeShapeOp? && op.shape in context.resizingShapes &&
                op.newBounds == ResizedBounds(op.shape, context.direction, context.delta))
            || MovesPlanned(g, context, op)
  {
    var delta, direction, layouting := context.delta, context.direction, Layouting(g, context);
    match step
    case Resize(shapes) =>
      ResizeRequestsMembers(shapes, delta, direction);
      var s :| s in shapes && op == ResizeShapeOp(s, ResizedBounds(s, direction, delta));
    case Move(es) =>
      MoveRequestsMembers(g, es, delta, layouting);
      var e :| e in es && op == MoveRequest(g, e, delta, layouting);
  }

  /** Every call resizes a resizing shape or moves a planned element. */
  lemma SpaceToolRequestsFromPlan(g: Graph, context: SpaceToolContext)
    requires ValidContext(g, context)
    ensures forall op :: op in SpaceToolRequests(g, context) ==>
              || (op.ResizeShapeOp? && op.shape in context.resizingShapes &&
                  op.newBounds == ResizedBounds(op.shape, context.direction, context.delta))
              || MovesPlanned(g, context, op)
  {
    var delta, direction, layouting := context.delta, context.direction, Layouting(g, context);
    var elements, planned := PlannedElements(g, context), PlannedSteps(g, context);
    SpaceToolRequestsMembers(g, context);
    PlanStepsFrom(g, elements, context.resizingShapes);
    forall op | op in SpaceToolRequests(g, context)
      ensures || (op.ResizeShapeOp? && op.shape in context.resizingShapes &&
                  op.newBounds == ResizedBounds(op.shape, direction, delta))
              || MovesPlanned(g, context, op)
    {
      var step :| step in planned && op in StepRequests(g, step, delta, direction, layouting);
      StepRequestFromPlan(g, context, step, op);
    }
  }

  /**
   * Nothing else is requested: every call of `preExecute` resizes a resizing
   * shape, moves a moving shape that is not the label of a layouting
   * connection, or moves a connection with both ends moving.  In particular no
   * such label and no layouting connection is moved, and nothing is re-laid-out directly.
   */
  lemma SpaceToolRequestsOnlyPlanned(g: Graph, context: SpaceToolContext)
    requires ValidContext(g, context)
    ensures forall op :: op in SpaceToolRequests(g, context) ==>
              || (op.ResizeShapeOp? && op.shape in context.resizingShapes &&
                  op.newBounds == ResizedBounds(op.shape, context.direction, context.delta))
              || (op.MoveShapeOp? && op.shape in context.movingShapes && KeepsLabel(g, Layouting(g, context), op.shape) &&
                  op == MoveShapeOp(op.shape, context.delta, None, ShapeMoveHints(Layouting(g, context))))
              || (op.MoveConnectionOp? && MovingConnection(g, context.movingShapes, op.connection) &&
                  op == MoveConnectionOp(op.connection, context.delta, None, ConnectionMoveHints))
  {
    SpaceToolRequestsFromPlan(g, context);
    forall op | op in SpaceToolRequests(g, context) && MovesPlanned(g, context, op)
      ensures || (op.MoveShapeOp? && op.shape in context.movingShapes && KeepsLabel(g, Layouting(g, context), op.shape) &&
                  op == MoveShapeOp(op.shape, context.delta, None, ShapeMoveHints(Layouting(g, context))))
              || (op.MoveConnectionOp? && MovingConnection(g, context.movingShapes, op.connection) &&
                  op == MoveConnectionOp(op.connection, context.delta, None, ConnectionMoveHints))
    {
      PlannedMoveListed(g, context, op);
    }
  }

  /** The move of a planned element moves a kept moving shape as a shape, or a moving connection as a connection. */
  lemma PlannedMoveListed(g: Graph, context: SpaceToolContext, op: Op)
    requires ValidContext(g, context) && MovesPlanned(g, context, op)
    ensures || (op.MoveShapeOp? && op.shape in context.movingShapes && KeepsLabel(g, Layouting(g, context), op.shape) &&
                op == MoveShapeOp(op.shape, context.delta, None, ShapeMoveHints(Layouting(g, context))))
            || (op.MoveConnectionOp? && MovingConnection(g, context.movingShapes, op.connection) &&
                op == MoveConnectionOp(op.connection, context.delta, None, ConnectionMoveHints))
  {
    PlannedElementsMembers(g, context);
    if op.MoveShapeOp? {
      assert !MovingConnection(g, context.movingShapes, op.shape);
    }
  }

  /** The space tool command, issuing its calls through the modeling facade. */
  class SpaceToolHandler {
    const modeling: Modeling
    const diagram: Diagram

    constructor (modeling: Modeling, diagram: Diagram)
      ensures this.modeling == modeling && this.diagram == diagram
    {
      this.modeling := modeling;
      this.diagram := diagram;
    }

    /**
     * `preExecute`: classify the connections, drop the labels of layouting
     * connections, plan the steps, reverse them unless space is added, and
     * dispatch each step.
     */
    method PreExecute(context: SpaceToolContext)
      requires ValidContext(diagram.elements, context)
      modifies modeling
      ensures modeling.requests == old(modeling.requests) + SpaceToolRequests(diagram.elements, context)
    {
      var g := diagram.elements;
      var layoutingConnections := GetLayoutingConnections(g, context.movingShapes);
      var movingConnections := GetMovingConnections(g, context.movingShapes);
      var movingShapes := FilterLabels(g, context.movingShapes, layoutingConnections);
      assert movingShapes + movingConnections == PlannedElements(g, context);
      var steps := GetSteps(g, movingShapes + movingConnections, context.resizingShapes);
      ghost var planned := steps;
      if IsAddingSpace(context.delta, context.direction) != Some(true) {
        steps := Reversed(steps);
      }
      assert steps == ExecutedSteps(PlannedSteps(g, context), context.delta, context.direction);
      ReversedInGraph(g, planned);
      DispatchSteps(steps, context.delta, context.direction, layoutingConnections);
    }

    /** The `steps.forEach` of `preExecute`: a resize step goes to `resizeShapes`, a move step to `moveElements`. */
    method DispatchSteps(steps: seq<Step>, delta: Delta, direction: Direction, layoutingConnections: seq<Id>)
      requires StepsInGraph(diagram.elements, steps)
      modifies modeling
      ensures modeling.requests ==
                old(modeling.requests) + DispatchRequests(diagram.elements, steps, delta, direction, layoutingConnections)
    {
      for i := 0 to |steps|
        invariant modeling.requests ==
                    DispatchOnto(old(modeling.requests), diagram.elements, steps, i, delta, direction, layoutingConnections)
      {
        DispatchStep(steps[i], delta, direction, layoutingConnections);
      }
      DispatchOntoAppends(old(modeling.requests), diagram.elements, steps, |steps|, delta, direction, layoutingConnections);
    }

    /** One step of the `forEach`: a resize step goes to `resizeShapes`, a move step to `moveElements`. */
    method DispatchStep(step: Step, delta: Delta, direction: Direction, layoutingConnections: seq<Id>)
      requires InGraph(diagram.elements, Members(step))
      modifies modeling
      ensures modeling.requests ==
                old(modeling.requests) + StepRequests(diagram.elements, step, delta, direction, layoutingConnections)
    {
      match step
      case Resize(shapes) =>
        ResizeShapes(shapes, delta, direction);
      case Move(elements) =>
        MoveElements(elements, delta, layoutingConnections);
    }

    /** `moveElements`: move each connection as a connection and each other element as a shape, with the space tool's hints. */
    method MoveElements(elements: seq<Id>, delta: Delta, layoutingConnections: seq<Id>)
      requires InGraph(diagram.elements, elements)
      modifies modeling
      ensures modeling.requests == old(modeling.requests) + MoveRequests(diagram.elements, elements, delta, layoutingConnections)
    {
      for i := 0 to |elements|
        invariant modeling.requests ==
                    old(modeling.requests) + MoveRequests(diagram.elements, elements[..i], delta, layoutingConnections)
      {
        assert elements[..i + 1][..i] == elements[..i];
        var element := elements[i];
        if IsConnection(diagram.elements[element]) {
          modeling.MoveConnection(element, delta, None, ConnectionMoveHints);
        } else {
          modeling.MoveShape(element, delta, None, ShapeMoveHints(layoutingConnections));
        }
      }
      assert elements[..|elements|] == elements;
    }

    /** `resizeShapes`: resize each shape to `resizeBounds(shape, direction, delta)`. */
    method ResizeShapes(shapes: seq<Id>, delta: Delta, direction: Direction)
      modifies modeling
      ensures modeling.requests == old(modeling.requests) + ResizeRequests(shapes, delta, direction)
    {
      for i := 0 to |shapes|
        invariant modeling.requests == old(modeling.requests) + ResizeRequests(shapes[..i], delta, direction)
      {
        assert shapes[..i + 1][..i] == shapes[..i];
        var newBounds := ResizedBounds(shapes[i], direction, delta);
        modeling.ResizeShape(shapes[i], newBounds);
      }
      assert shapes[..|shapes|] == shapes;
    }
  }
}
