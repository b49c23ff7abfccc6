# Space tool and move-shape commands of a diagram editor

This project models two command handlers of diagram-js's modeling layer:

- **The space tool** (`SpaceToolHandler`). The user inserts or removes space. Before executing, the handler works in stages:
  - It classifies the connections attached to the moving shapes as *moving* (both ends move) or *layouting* (one end moves).
  - It drops labels whose target is a layouting connection.
  - It gives every element a depth index. An element whose parent also moves takes the parent's index.
  - It groups the elements by index and plans move and resize steps by increasing index, with the move before the resize at one index.
  - It reverses the plan when space is removed.
  - It dispatches each step to the modeling facade.
- **The reversible move-shape command** (`MoveShapeHandler`). It works in three parts:
  - `execute` records the old bounds, parent and sibling index in the command context. It takes the shape out of its old parent's children, puts it into the new parent's children, re-parents it and shifts it by the delta.
  - `revert` puts the shape back at the recorded index and shifts it back.
  - `postExecute` asks the facade to re-lay-out the attached connections selected by `hints.layout`. It then moves the children along unless `hints.recurse` is `false`.

The element graph is an arena, `map<Id, Element>`, in the class `Elements.Diagram`. Parent, children, incoming/outgoing and label links are identifiers into the arena. A connection is the element with waypoints. Acyclicity of the parent links is stated with a fuel-bounded depth: `Elements.DepthWithin`, `Elements.Acyclic`.

The facade (`moveShape`, `moveConnection`, `resizeShape`, `layoutConnection`) and `MoveHelper.moveRecursive` belong to other commands. Each call is recorded, with its arguments, as an entry of the trace `Modeling.Modeling.requests`. Geometry computed by code outside this model (`resizeBounds`, `getMovedSourceAnchor`, `getMovedTargetAnchor`) is recorded as the symbolic term of that call.

The imperative parts are classes and loops, proved against specification functions:
- the connection collectors, the parent walk of `getStepIndex`, `groupBy` and the `while` loop of `getSteps` are methods with loop invariants;
- the handlers are classes whose methods append to the trace or reassign the graph.

The properties are lemmas about those specification functions. The parts are:
- `wrappers.dfy`: the `Option` type used for absent values.
- `elements.dfy`: the element graph, parent depth, acyclicity and well-formedness, and the `Diagram` class.
- `modeling.dfy`: the facade trace (`Modeling`) and the move helper (`MoveHelper`).
- `collections.dfy`: util/Collections `add`/`remove` as sequence operations.
- `space_tool_planner.dfy`: the planner helpers.
- `space_tool.dfy`: the space tool handler.
- `move_shape.dfy`: the move-shape handler.

`util/Collections` is not part of this model. Its `remove` is stated as "delete the first occurrence and report its index, or -1". Its `add` inserts at the index, and appends when no index is given; an index past the end appends, as `splice` does. As an explicit assumption, when the element is already present `add` leaves the list alone if no index is given or the element already sits at that index, and otherwise moves it there.

The code differs from an idealised "exact inverse" description of `revert` in one place. `revert` re-adds the shape to the old parent's children and resets `parent`, but never takes the shape out of the new parent's children. In the library that detachment comes from the parent/children binding of the element model, which is not part of this model. The model follows the code: `MoveShape.ExecuteThenRevert` states that after a move to a different parent, the new parent's children still hold the shape.

## Model

| member | source | states |
|---|---|---|
| SpaceToolPlanner.IsAddingSpace | lib/features/modeling/cmd/SpaceToolHandler.js:221-231 | the result is undefined (`None`) exactly for a direction other than n, s, e, w |
| SpaceToolPlanner.AddingSpaceFollowsDrag | lib/features/modeling/cmd/SpaceToolHandler.js:221-231 | a drag toward the tool's direction adds space and a drag away removes it; a zero drag adds space for s and e and removes it for n and w |
| SpaceToolPlanner.OppositeDirectionsDisagree | lib/features/modeling/cmd/SpaceToolHandler.js:221-231 | for one drag, opposite directions give opposite answers |
| SpaceToolPlanner.EndsInside | lib/features/modeling/cmd/SpaceToolHandler.js:102-106 | the count of a connection's moving ends is at most 2, and 0 exactly when neither source nor target moves |
| SpaceToolPlanner.AddClassifiedMembers | lib/features/modeling/cmd/SpaceToolHandler.js:101-111 | the inner loop adds exactly the connections with the wanted number of moving ends, and adds none twice |
| SpaceToolPlanner.CollectedMembers | lib/features/modeling/cmd/SpaceToolHandler.js:94-139 | the nested loops collect exactly the connections attached to a given shape with the wanted number of moving ends, without duplicates |
| SpaceToolPlanner.GetLayoutingConnections | lib/features/modeling/cmd/SpaceToolHandler.js:94-116 | a connection is in the result iff it is attached to a moving shape and exactly one of its ends moves; no duplicates |
| SpaceToolPlanner.GetMovingConnections | lib/features/modeling/cmd/SpaceToolHandler.js:118-139 | a connection is in the result iff it is attached to a moving shape and both its ends move; no duplicates |
| SpaceToolPlanner.LayoutingAndMovingDisjoint | lib/features/modeling/cmd/SpaceToolHandler.js:94-139 | no connection is both layouting and moving |
| SpaceToolPlanner.FilterLabels | lib/features/modeling/cmd/SpaceToolHandler.js:34-36 | a moving shape is kept iff it is not a label or its label target is not a layouting connection; nothing else is kept |
| SpaceToolPlanner.StepIndexWithoutMovingIsDepth | lib/features/modeling/cmd/SpaceToolHandler.js:196-204 | with no moving set the index is the number of parent links to the root |
| SpaceToolPlanner.StepIndexBounds | lib/features/modeling/cmd/SpaceToolHandler.js:191-205 | the index never exceeds the depth, and is at least 1 for an element with a parent when every moving element has one |
| SpaceToolPlanner.NestedMovingSharesIndex | lib/features/modeling/cmd/SpaceToolHandler.js:192-194 | an element whose parent moves has its parent's index |
| SpaceToolPlanner.TopMoving | lib/features/modeling/cmd/SpaceToolHandler.js:192-194 | the element the recursion stops at has no moving parent, is no deeper than the start, and differs from it only when the start's parent moves |
| SpaceToolPlanner.TopMovingReached | lib/features/modeling/cmd/SpaceToolHandler.js:192-194 | that element is an ancestor-or-self of the start, reached through moving parents only |
| SpaceToolPlanner.StepIndexIsTopDepth | lib/features/modeling/cmd/SpaceToolHandler.js:191-205 | the index is the depth of the topmost consecutively moving ancestor-or-self |
| SpaceToolPlanner.GetStepIndex | lib/features/modeling/cmd/SpaceToolHandler.js:191-205 | the recursion and the parent-walking loop compute the step index |
| SpaceToolPlanner.GroupingHolds | lib/features/modeling/cmd/SpaceToolHandler.js:152-153 | every grouped element is in the group of its own index |
| SpaceToolPlanner.GroupingOnly | lib/features/modeling/cmd/SpaceToolHandler.js:152-153 | groups are non-empty and hold only input elements of that index |
| SpaceToolPlanner.GroupingNoDuplicates | lib/features/modeling/cmd/SpaceToolHandler.js:152-153 | an input without repetitions gives groups without repetitions |
| SpaceToolPlanner.GroupingDisjoint | lib/features/modeling/cmd/SpaceToolHandler.js:152-153 | no element is in two groups |
| SpaceToolPlanner.MaxIndexBounds | lib/features/modeling/cmd/SpaceToolHandler.js:155 | the maximum index bounds the index of every input element |
| SpaceToolPlanner.GroupByStepIndex | lib/features/modeling/cmd/SpaceToolHandler.js:152-155 | the grouping loop computes the groups by index and their largest index |
| SpaceToolPlanner.StepsFromGroupsLevels | lib/features/modeling/cmd/SpaceToolHandler.js:157-178 | the emitted steps hold the group of their index, with indices from 1 up, rising, and move before resize at one index |
| SpaceToolPlanner.StepsFromGroupsHold | lib/features/modeling/cmd/SpaceToolHandler.js:159-175 | every group with index from 1 to the bound is emitted as a step of its kind |
| SpaceToolPlanner.StepsFromGroupsUnique | lib/features/modeling/cmd/SpaceToolHandler.js:157-178 | from disjoint groups no element is in two steps of one kind |
| SpaceToolPlanner.EmitSteps | lib/features/modeling/cmd/SpaceToolHandler.js:157-178 | the `while` loop emits the steps of the groups from index 1 to the maximum |
| SpaceToolPlanner.PlanStepsOrdered | lib/features/modeling/cmd/SpaceToolHandler.js:149-181 | the steps of `getSteps` run from index 1 to the maximum, never decreasing, move before resize at one index, and no step is empty |
| SpaceToolPlanner.PlanStepsIndexed | lib/features/modeling/cmd/SpaceToolHandler.js:149-181 | each element of a step is an input of the step's kind with the step's index |
| SpaceToolPlanner.PlanStepsCover | lib/features/modeling/cmd/SpaceToolHandler.js:149-181 | every moving element is in a move step and every resizing shape in a resize step |
| SpaceToolPlanner.PlanStepsUnique | lib/features/modeling/cmd/SpaceToolHandler.js:149-181 | no element is in two steps of one kind |
| SpaceToolPlanner.PlanStepsInGraph | lib/features/modeling/cmd/SpaceToolHandler.js:149-181 | the steps act only on elements of the graph |
| SpaceToolPlanner.PlanStepsFrom | lib/features/modeling/cmd/SpaceToolHandler.js:149-181 | move steps take moving elements only, resize steps resizing shapes only |
| SpaceToolPlanner.PlanStepsNoDuplicates | lib/features/modeling/cmd/SpaceToolHandler.js:149-181 | inputs without repetitions give steps without repetitions |
| SpaceToolPlanner.GetSteps | lib/features/modeling/cmd/SpaceToolHandler.js:149-181 | `getSteps` computes the planned steps |
| SpaceTool.MoveRequestsAt | lib/features/modeling/cmd/SpaceToolHandler.js:60-79 | `moveElements` makes one call per element, in order: `moveConnection` for a connection, `moveShape` with the four hints otherwise |
| SpaceTool.MoveRequestsMembers | lib/features/modeling/cmd/SpaceToolHandler.js:60-79 | the calls of `moveElements` are exactly the move calls of its elements |
| SpaceTool.ResizeRequestsAt | lib/features/modeling/cmd/SpaceToolHandler.js:81-89 | `resizeShapes` makes one `resizeShape` call per shape, in order, with `resizeBounds(shape, direction, delta)` |
| SpaceTool.ResizeRequestsMembers | lib/features/modeling/cmd/SpaceToolHandler.js:81-89 | the calls of `resizeShapes` are exactly the resizes of its shapes |
| SpaceTool.DispatchOntoAppends | lib/features/modeling/cmd/SpaceToolHandler.js:44-54 | dispatching steps one by one onto a trace appends the calls of those steps |
| SpaceTool.DispatchPrefixMembers | lib/features/modeling/cmd/SpaceToolHandler.js:44-54 | a call is made by the first n steps iff one of them makes it |
| SpaceTool.DispatchMembers | lib/features/modeling/cmd/SpaceToolHandler.js:44-54 | a call is dispatched iff some step makes it |
| SpaceTool.ExecutedStepsSameSteps | lib/features/modeling/cmd/SpaceToolHandler.js:40-42 | reversing or not, the executed steps are the planned ones |
| SpaceTool.ReversedRunsDeepestFirst | lib/features/modeling/cmd/SpaceToolHandler.js:40-42 | a reversed plan runs the deepest index first, resize before move at one index |
| SpaceTool.ExecutionOrder | lib/features/modeling/cmd/SpaceToolHandler.js:38-54 | when adding space the executed steps are the plan in rising order; otherwise, including an unknown direction, they are exactly its reverse |
| SpaceTool.PlannedElementsMembers | lib/features/modeling/cmd/SpaceToolHandler.js:31-38 | the elements planned are the moving shapes the label filter keeps and the moving connections |
| SpaceTool.SpaceToolRequestsMembers | lib/features/modeling/cmd/SpaceToolHandler.js:24-55 | `preExecute` makes exactly the calls of the executed steps |
| SpaceTool.SpaceToolResizesEveryResizingShape | lib/features/modeling/cmd/SpaceToolHandler.js:24-55 | every resizing shape is resized with `resizeBounds(shape, direction, delta)` |
| SpaceTool.SpaceToolMovesPlanned | lib/features/modeling/cmd/SpaceToolHandler.js:24-55 | every planned element gets its move call |
| SpaceTool.SpaceToolMovesEveryPlannedElement | lib/features/modeling/cmd/SpaceToolHandler.js:24-79 | every kept moving shape is moved as a shape with the four hints, and every moving connection is moved as a connection |
| SpaceTool.StepRequestFromPlan | lib/features/modeling/cmd/SpaceToolHandler.js:44-54 | a call of a planned step resizes a resizing shape or moves a planned element |
| SpaceTool.SpaceToolRequestsFromPlan | lib/features/modeling/cmd/SpaceToolHandler.js:24-55 | every call of `preExecute` resizes a resizing shape or moves a planned element |
| SpaceTool.PlannedMoveListed | lib/features/modeling/cmd/SpaceToolHandler.js:31-38 | a move of a planned element moves a kept moving shape or a moving connection |
| SpaceTool.SpaceToolRequestsOnlyPlanned | lib/features/modeling/cmd/SpaceToolHandler.js:24-89 | every call of `preExecute` is a resize of a resizing shape, a shape move of a kept moving shape or a connection move of a moving connection |
| SpaceTool.SpaceToolHandler.PreExecute | lib/features/modeling/cmd/SpaceToolHandler.js:24-55 | appends to the trace exactly the calls of the planned steps in execution order |
| SpaceTool.SpaceToolHandler.DispatchSteps | lib/features/modeling/cmd/SpaceToolHandler.js:44-54 | the `forEach` over the steps appends each step's calls in order |
| SpaceTool.SpaceToolHandler.DispatchStep | lib/features/modeling/cmd/SpaceToolHandler.js:45-53 | a resize step goes to `resizeShapes`, a move step to `moveElements` |
| SpaceTool.SpaceToolHandler.MoveElements | lib/features/modeling/cmd/SpaceToolHandler.js:60-79 | appends one move call per element |
| SpaceTool.SpaceToolHandler.ResizeShapes | lib/features/modeling/cmd/SpaceToolHandler.js:81-89 | appends one resize call per shape |
| Collections.AddUndoesRemove | lib/features/modeling/cmd/MoveShapeHandler.js:116 | re-adding a child at the index `remove` reported restores the sibling list |
| Collections.AddUndoesRemoveThenAdd | lib/features/modeling/cmd/MoveShapeHandler.js:46-49 | removing a child, adding it anywhere in the same list, then re-adding it at the reported index restores the list |
| MoveShape.NewParent | lib/features/modeling/cmd/MoveShapeHandler.js:38 | the new parent is the given one, or the current parent when none is given |
| MoveShape.InsertionIndex | lib/features/modeling/cmd/MoveShapeHandler.js:39 | an undefined `newParentIndex` becomes -1 (append) and a given one is kept |
| MoveShape.OldParentIndex | lib/features/modeling/cmd/MoveShapeHandler.js:46 | the recorded index is at least 0 exactly when the shape is among its old parent's children |
| MoveShape.ExecutedMovesShape | lib/features/modeling/cmd/MoveShapeHandler.js:52-56 | after `execute` the parent is the new parent, x and y grow by the delta, and size, connections and label target are unchanged |
| MoveShape.ExecutedDetaches | lib/features/modeling/cmd/MoveShapeHandler.js:46 | when the parent changes, the shape leaves the old parent's children, and re-inserting it at the recorded index gives the old list back |
| MoveShape.ExecutedAttaches | lib/features/modeling/cmd/MoveShapeHandler.js:49 | the shape is among the new parent's children, inserted at `newParentIndex` (the end when undefined) when it moves in from elsewhere |
| MoveShape.ExecutedReorders | lib/features/modeling/cmd/MoveShapeHandler.js:46-49 | a move within the same parent takes the shape out and re-inserts it among the remaining children at `newParentIndex`, at the end when undefined |
| MoveShape.ExecutedKeepsOthers | lib/features/modeling/cmd/MoveShapeHandler.js:46-56 | `execute` changes no element but the shape and its old and new parents |
| MoveShape.ReaddRestores | lib/features/modeling/cmd/MoveShapeHandler.js:116 | re-adding the shape at the recorded index restores the old parent's children |
| MoveShape.ExecuteThenRevert | lib/features/modeling/cmd/MoveShapeHandler.js:34-126 | `revert` after `execute` restores the whole graph when the parent is unchanged; otherwise it restores everything except that the new parent's children keep the shape |
| MoveShape.ExecuteThenRevertRestoresShape | lib/features/modeling/cmd/MoveShapeHandler.js:108-126 | `revert` after `execute` restores the shape's x, y, size and parent, and the old parent's children |
| MoveShape.MoveShapeHandler.GetNewParent | lib/features/modeling/cmd/MoveShapeHandler.js:136-138 | `getNewParent` applies the same rule as `execute` |
| MoveShape.MoveShapeHandler.Execute | lib/features/modeling/cmd/MoveShapeHandler.js:34-59 | records the old bounds, parent and sibling index from the state before the move, and leaves the graph as the executed move |
| MoveShape.MoveShapeHandler.Revert | lib/features/modeling/cmd/MoveShapeHandler.js:108-126 | re-adds the shape to the recorded parent at the recorded index, resets its parent and shifts it back |
| MoveShape.Including | lib/features/modeling/cmd/MoveShapeHandler.js:77-83 | the filter keeps exactly the connections that the layout array lists |
| MoveShape.Selected | lib/features/modeling/cmd/MoveShapeHandler.js:76-84 | the re-laid-out connections are all attached ones by default and the listed ones for an array |
| MoveShape.EndRequestsMembers | lib/features/modeling/cmd/MoveShapeHandler.js:86-92 | each selected incoming connection gets one `connectionEnd` re-layout and nothing else is requested |
| MoveShape.StartRequestsMembers | lib/features/modeling/cmd/MoveShapeHandler.js:94-100 | each selected outgoing connection gets one `connectionStart` re-layout and nothing else is requested |
| MoveShape.LayoutRequestsMembers | lib/features/modeling/cmd/MoveShapeHandler.js:74-101 | the re-layouts are exactly those of the selected incoming and outgoing connections, none for `layout: false` |
| MoveShape.PostExecuteRequestsMembers | lib/features/modeling/cmd/MoveShapeHandler.js:61-106 | an attached connection is re-laid-out iff the layout hint selects it; the children are moved iff `recurse` is not `false`; nothing else is requested |
| MoveShape.PostExecuteWithoutHints | lib/features/modeling/cmd/MoveShapeHandler.js:65-67 | missing hints re-lay-out every attached connection and move the children |
| MoveShape.PostExecuteLayoutFalse | lib/features/modeling/cmd/MoveShapeHandler.js:74 | with `layout: false` no connection is re-laid-out |
| MoveShape.MoveShapeHandler.PostExecute | lib/features/modeling/cmd/MoveShapeHandler.js:61-106 | appends exactly the post-execute calls to the trace |
| MoveShape.MoveShapeHandler.RelayoutIncoming | lib/features/modeling/cmd/MoveShapeHandler.js:86-92 | the loop appends one end re-layout per incoming connection, in order |
| MoveShape.MoveShapeHandler.RelayoutOutgoing | lib/features/modeling/cmd/MoveShapeHandler.js:94-100 | the loop appends one start re-layout per outgoing connection, in order |
| MoveShape.MoveShapeHandler.MoveChildren | lib/features/modeling/cmd/MoveShapeHandler.js:128-134 | asks the move helper to move the shape's children by the same delta |
| Modeling.MoveHelper.MoveRecursive | lib/features/modeling/cmd/MoveShapeHandler.js:133 | the recursive move is recorded in the facade's trace |

## Left out

- The `console.log` traces of `postExecute` are not modelled; they are debug output.
- The effects of the facade calls are not modelled: `moveShape`, `moveConnection`, `resizeShape`, `layoutConnection` and `MoveHelper.moveRecursive` run other commands, so each call is recorded in a trace instead.
- `resizeBounds`, `getMovedSourceAnchor` and `getMovedTargetAnchor` are not part of this model; their results are symbolic terms.
- Dependency injection (`$inject`) is not modelled.
- The space tool's own `execute` and `revert` are empty functions and have nothing to model.
- Coordinates are integers, not JavaScript floating-point numbers.
- `groupBy`'s string keys and `Math.max` over them are not modelled. Groups are keyed by natural numbers.
- SpaceTool.SpaceToolHandler.PreExecute: requires every moving shape, resizing shape and moving connection to have a parent; layouting connections need none (index 1 or more). How `groupBy` files an index-0 element under the key `'_'` is not modelled.
- SpaceToolPlanner.GetSteps: requires every input element to have a parent, for the same reason.
- SpaceTool.SpaceToolHandler.PreExecute: requires a well-formed graph: acyclic parents, and connection ends that are shapes.
- SpaceTool.MoveRequestsAt: an identifier outside the graph is treated as a shape. It cannot occur, because the steps hold elements of the graph only.
- The `groupBy` extractor for resizing shapes receives one argument, so resizing shapes are indexed without a moving set. The model passes the empty set.
- `util/Collections` is not part of this model. `add` on an element that is already present follows the assumption stated above.
- MoveShape.MoveShapeHandler.Execute: `newParentIndex` is a natural number or undefined; negative indices are not modelled.
- MoveShape.MoveShapeHandler.Execute: requires the shape, its old parent and its new parent to be shapes of the graph, since the code dereferences all three.
- MoveShape.MoveShapeHandler.Revert: requires the context fields that `execute` writes, so `revert` is modelled only after `execute`.
- MoveShape.ExecuteThenRevert: requires the tree invariant that the shape is among its parent's children exactly once and is not its own parent. Without it, `remove` and `add` may act on another occurrence.
- MoveShape.ExecuteThenRevertRestoresShape: requires the same tree invariant.
- MoveShape.ExecutedDetaches: requires the same tree invariant and a change of parent.
- MoveShape.ExecutedAttaches: states the exact insertion position only when the shape moves in from another parent and was not already a child there; a move within the same parent is covered by MoveShape.ExecutedReorders. When the shape already is a child of a different new parent, it states only that the shape is a child afterwards, since the result then rests on the assumed `add` behaviour.
- MoveShape.ExecutedReorders: requires the same tree invariant.
- The child-to-parent binding of the element model is not part of this model. `revert` therefore leaves the shape in the new parent's children, as the handler's code does.
