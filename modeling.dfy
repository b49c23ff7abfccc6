/**
 * The modeling facade and the move helper, seen from the two command
 * handlers.  Their effects belong to other commands; here each call is
 * recorded, with its arguments, as one entry of an operation trace.
 * Results of the geometry helpers that are not part of this model
 * (`resizeBounds`, `getMovedSourceAnchor`, `getMovedTargetAnchor`) are
 * recorded as the symbolic term of the call that computes them.
 */
module Modeling {
  import opened Wrappers
  import opened Elements

  /** `hints.layout`: `false`, an array of connections, or anything else (the default). */
  datatype LayoutHint = LayoutAll | LayoutNone | LayoutOnly(connections: seq<Id>)

  /** The hints bag of `moveShape` / `moveConnection`; `None` is an absent key. */
  datatype Hints = Hints(autoResize: Option<bool>, layout: LayoutHint,
                         moveElementsBehavior: Option<bool>, recurse: Option<bool>)

  /** `{}`: no hint given. */
  const NoHints := Hints(None, LayoutAll, None, None)

  /** `getMovedSourceAnchor(connection, shape, delta)` / `getMovedTargetAnchor(...)`. */
  datatype Anchor =
    | MovedSourceAnchor(connection: Id, shape: Id, delta: Delta)
    | MovedTargetAnchor(connection: Id, shape: Id, delta: Delta)

  /** The hints of `layoutConnection`: `{ connectionStart }` or `{ connectionEnd }`. */
  datatype LayoutConnectionHints = ConnectionStart(start: Anchor) | ConnectionEnd(end: Anchor)

  /** `resizeBounds(shape, direction, delta)`. */
  datatype NewBounds = ResizedBounds(shape: Id, direction: Direction, delta: Delta)

  /** One requested operation. */
  datatype Op =
    | MoveShapeOp(shape: Id, delta: Delta, newParent: Option<Id>, hints: Hints)
    | MoveConnectionOp(connection: Id, delta: Delta, newParent: Option<Id>, hints: Hints)
    | ResizeShapeOp(shape: Id, newBounds: NewBounds)
    | LayoutConnectionOp(connection: Id, layoutHints: LayoutConnectionHints)
    | MoveRecursiveOp(shapes: seq<Id>, delta: Delta, direction: Option<Direction>)

  /** The modeling facade: every call is appended to `requests`. */
  class Modeling {
    var requests: seq<Op>

    constructor ()
      ensures requests == []
    {
      requests := [];
    }

    method MoveShape(shape: Id, delta: Delta, newParent: Option<Id>, hints: Hints)
      modifies this
      ensures requests == old(requests) + [MoveShapeOp(shape, delta, newParent, hints)]
    {
      requests := requests + [MoveShapeOp(shape, delta, newParent, hints)];
    }

    method MoveConnection(connection: Id, delta: Delta, newParent: Option<Id>, hints: Hints)
      modifies this
      ensures requests == old(requests) + [MoveConnectionOp(connection, delta, newParent, hints)]
    {
      requests := requests + [MoveConnectionOp(connection, delta, newParent, hints)];
    }

    method ResizeShape(shape: Id, newBounds: NewBounds)
      modifies this
      ensures requests == old(requests) + [ResizeShapeOp(shape, newBounds)]
    {
      requests := requests + [ResizeShapeOp(shape, newBounds)];
    }

    method LayoutConnection(connection: Id, hints: LayoutConnectionHints)
      modifies this
      ensures requests == old(requests) + [LayoutConnectionOp(connection, hints)]
    {
      requests := requests + [LayoutConnectionOp(connection, hints)];
    }
  }

  /** `MoveHelper`: its recursive move is recorded in the facade's trace it works through. */
  class MoveHelper {
    const modeling: Modeling

    constructor (modeling: Modeling)
      ensures this.modeling == modeling
    {
      this.modeling := modeling;
    }

    method MoveRecursive(shapes: seq<Id>, delta: Delta, direction: Option<Direction>)
      modifies modeling
      ensures modeling.requests == old(modeling.requests) + [MoveRecursiveOp(shapes, delta, direction)]
    {
      modeling.requests := modeling.requests + [MoveRecursiveOp(shapes, delta, direction)];
    }
  }
}
