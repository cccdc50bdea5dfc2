# Multi-narrative editor core, modelled in Dafny

The multinarrative library describes a branching game story as a graph of
nodes joined by routes. A template graph is copied into a playable instance
(`Node.copyToGraph`), and each copied node counts the routes that enter it
under the reserved key `Impl.Node.Entries`. A `ChoiceNode` is a branch point:
when the game reaches it, the game is asked for a major decision among the
routes that leave it.

The editor's `OperationsManager` turns every edit into an `Operation` with
`execute` and `undo`. It runs the operation and keeps it for undo and redo.
A dirty flag is set when `doOp` succeeds and cleared by `loadNarrative`,
`saveNarrative` and `newFile`; `undo` and `redo` leave it as it is, so after
an undo or redo it need not say whether the narrative differs from the file.
Its `Generator` builds these operations:

- single operations, such as setting a route's start or end, adding or
  removing a route, renaming, and editing property values;
- composites, a list of generators run one after the other: `removeNode`,
  `addChoiceNode`, `setPropertyType` and `renameValue`.

The project is split into modules:

- `Common` (`common.dfy`): the `Option` and `Result` wrappers and the errors
  the operations throw.
- `NodeCopy` (`node_copy.dfy`): template graphs as arenas (a map from node id
  to node), and the recursive copy as methods over that arena. `Template`
  and `Instance` are classes for the template's `copied` flags and the
  instance being filled. A ghost `rank` that strictly decreases along every
  route shows that the part of the graph reachable from the start has no
  cycle, and serves as the termination measure.
- `ChoiceNodes` (`choice_node.dfy`): `create`, `startRoute` and `onEntry`.
- `EditorState` (`editor_state.dfy`): one `State` stands for both the
  narrative and its view. It holds nodes, routes, properties with their
  value lists and colours, and the set of properties that are route types.
  It also holds the primitive updates the operations ask of
  NarrativeOperations and ControllerOperations.
- `Generator` (`generator.dfy`): each single operation is a `Step` value.
  Its generator checks the state and captures what undo needs; `Execute`
  and `Undo` give the new state.
- `Composites` (`composites.dfy`): the composites as lists of generator
  calls (`Gen`). `Run` builds each step on the current state, executes it,
  and stops at the first failure; `UndoAll` undoes the steps run, in
  reverse order.
- `Manager` (`manager.dfy`): the `OperationsManager` class. It has the
  state, the history with its cursor, and the dirty flag, plus a ghost
  chain of the states the history passes through.

## Model

Paths are relative to the repository root.

| member | source | states |
|---|---|---|
| NodeCopy.CreateProperties | src/main/java/uk/ac/cam/echo2016/multinarrative/Node.java:103-106 | the node then always has a bag: its own if it had one, otherwise a new empty one; id, kind and routes are unchanged |
| NodeCopy.CopyNode | src/main/java/uk/ac/cam/echo2016/multinarrative/Node.java:34-79 | copying node x registers a copy with x's id, kind and a by-value copy of its bag; flags x as copied; adds one narrative per route of x, in order, each mirroring the template route; copies every node reachable from x that was not copied yet; keeps each copy's entry counter equal to the routes processed so far that end at it |
| NodeCopy.CopyOption | src/main/java/uk/ac/cam/echo2016/multinarrative/Node.java:45-76 | one turn of the loop over x's routes keeps the loop invariant: the routes before i are mirrored in the copy and in the instance, and each end node's counter includes them |
| NodeCopy.EnterEnd | src/main/java/uk/ac/cam/echo2016/multinarrative/Node.java:47-67 | the end of route i has a registered copy afterwards and the copied nodes only grow; the new bag holds a counter of at least 1, equal to the template bag with the number of processed routes entering that end, this one included |
| NodeCopy.EnterFresh | src/main/java/uk/ac/cam/echo2016/multinarrative/Node.java:47-56 | an end node not copied yet is copied recursively; no processed route has entered it before, and its copy is given a bag whose counter is 1 |
| NodeCopy.CopyGraph | src/main/java/uk/ac/cam/echo2016/multinarrative/Node.java:34-79 | from a start node with all flags clear: the copied nodes are closed under routes and each but the start is entered by a route from a copied node; the instance holds one copy of each and, as narratives, exactly the mirrors of the routes leaving them; each copy's counter equals the number of routes entering it (absent when none enters); the result is the start node's copy, with its bag as in the template |
| NodeCopy.ReachableCopied | src/main/java/uk/ac/cam/echo2016/multinarrative/Node.java:45-61 | after a complete copy, every node a walk along routes from the start reaches has a copy |
| NodeCopy.CopiedReachable | src/main/java/uk/ac/cam/echo2016/multinarrative/Node.java:45-61 | after a complete copy, every copied node is reached by a walk along routes from the start, so the instance has no node that is not reachable |
| NodeCopy.Complete | src/main/java/uk/ac/cam/echo2016/multinarrative/Node.java:45-77 | once no call is left on the stack, the counts of processed routes are the counts of all entering routes, so the copy is complete |
| NodeCopy.Template.ResetCopied | src/main/java/uk/ac/cam/echo2016/multinarrative/Node.java:81-84 | clears the flag of that node only |
| NodeCopy.Template.CopyToGraph | src/main/java/uk/ac/cam/echo2016/multinarrative/Node.java:34-79 | the copy into an empty instance, with the template's flags and the instance's maps updated in place, meets the same complete-copy condition as CopyGraph |
| NodeCopy.CopyFixture | src/test/java/uk/ac/cam/echo2016/multinarrative/SaveTest.java:21-41 | on the test graph (start, choice1, left, right, end) all five nodes are copied; "end" counts 2 entries, "left" counts 1, and "start" keeps no bag |
| ChoiceNodes.Create | src/main/java/uk/ac/cam/echo2016/multinarrative/ChoiceNode.java:21-27 | a new choice node has the given id, no bag and no routes |
| ChoiceNodes.StartRoute | src/main/java/uk/ac/cam/echo2016/multinarrative/ChoiceNode.java:29-31 | the bag handed to the game is the route's own |
| ChoiceNodes.OnEntry | src/main/java/uk/ac/cam/echo2016/multinarrative/ChoiceNode.java:33-40 | fails with GraphElementNotFound(route id) exactly when the route does not enter the node; otherwise a major decision at this node among its exiting routes, in order |
| ChoiceNodes.OnEntryOffersExits | src/main/java/uk/ac/cam/echo2016/multinarrative/ChoiceNode.java:33-40 | on a node whose routes are attached, an admitted route ends at the node and every option starts where that route ended |
| ChoiceNodes.CreatedAdmitsNothing | src/main/java/uk/ac/cam/echo2016/multinarrative/ChoiceNode.java:21-40 | a freshly created node refuses every route |
| Generator.SetStart | src/main/java/uk/ac/cam/echo2016/multinarrative/gui/OperationsManager.java:645-682 | null arguments, a missing route and a missing node each give ItemDoesNotExist with that name, in that order; success exactly when all are present; the step captures the old start, so it is undoable |
| Generator.SetEnd | src/main/java/uk/ac/cam/echo2016/multinarrative/gui/OperationsManager.java:684-721 | the same as SetStart, for the end of the route |
| Generator.AddRoute | src/main/java/uk/ac/cam/echo2016/multinarrative/gui/OperationsManager.java:487-519 | fails on a missing start, then on a missing end; succeeds exactly when both nodes exist, with the route as given |
| Generator.RemoveRoute | src/main/java/uk/ac/cam/echo2016/multinarrative/gui/OperationsManager.java:521-556 | fails with ItemDoesNotExist exactly when the route is missing; otherwise it captures the endpoints and bag, so it is undoable |
| Generator.AssignPropertyToNode | src/main/java/uk/ac/cam/echo2016/multinarrative/gui/OperationsManager.java:773-797 | NullReference exactly when the node is missing or has no bag; otherwise it captures the old value (or none), so it is undoable |
| Generator.AssignPropertyToRoute | src/main/java/uk/ac/cam/echo2016/multinarrative/gui/OperationsManager.java:799-823 | the same as AssignPropertyToNode, for a route |
| Generator.RemoveValue | src/main/java/uk/ac/cam/echo2016/multinarrative/gui/OperationsManager.java:252-276 | captures the value's position and colour, so it is undoable |
| Generator.SetColor | src/main/java/uk/ac/cam/echo2016/multinarrative/gui/OperationsManager.java:316-340 | captures the colour it replaces, so it is undoable |
| Generator.RemoveNodeSolo | src/main/java/uk/ac/cam/echo2016/multinarrative/gui/OperationsManager.java:429-469 | fails with ItemDoesNotExist exactly when the node is missing; otherwise it captures kind and bag, so it is undoable |
| Generator.TranslateRoute | src/main/java/uk/ac/cam/echo2016/multinarrative/gui/OperationsManager.java:614-643 | fails with ItemDoesNotExist exactly when the route is missing |
| Generator.UndoEndpoint | src/main/java/uk/ac/cam/echo2016/multinarrative/gui/OperationsManager.java:645-721 | undoing setStart or setEnd right after it ran gives the state back |
| Generator.UndoRemoveRoute | src/main/java/uk/ac/cam/echo2016/multinarrative/gui/OperationsManager.java:521-556 | undoing removeRoute restores the route with its endpoints and bag |
| Generator.UndoRenameNode | src/main/java/uk/ac/cam/echo2016/multinarrative/gui/OperationsManager.java:723-746 | renaming a node back gives the state back, including every route endpoint that named it |
| Generator.UndoRenameRoute | src/main/java/uk/ac/cam/echo2016/multinarrative/gui/OperationsManager.java:748-771 | renaming a route back gives the state back |
| Generator.UndoAssignToNode | src/main/java/uk/ac/cam/echo2016/multinarrative/gui/OperationsManager.java:773-797 | putting back the captured value (or clearing it when there was none) restores the node's bag |
| Generator.UndoAssignToRoute | src/main/java/uk/ac/cam/echo2016/multinarrative/gui/OperationsManager.java:799-823 | the same as UndoAssignToNode, for a route's bag |
| Generator.UndoRemoveValue | src/main/java/uk/ac/cam/echo2016/multinarrative/gui/OperationsManager.java:252-276 | re-adding the value at its old position with its old colour restores the property |
| Generator.UndoAddValue | src/main/java/uk/ac/cam/echo2016/multinarrative/gui/OperationsManager.java:278-293 | removing the value just added restores the property |
| Generator.UndoSetColor | src/main/java/uk/ac/cam/echo2016/multinarrative/gui/OperationsManager.java:316-340 | setting the captured colour back restores the property |
| Generator.UndoSetType | src/main/java/uk/ac/cam/echo2016/multinarrative/gui/OperationsManager.java:185-208 | setting the old type back restores the property when the old type given was the property's |
| Generator.UndoRouteType | src/main/java/uk/ac/cam/echo2016/multinarrative/gui/OperationsManager.java:342-367 | writing the negation back restores the route-type set when the check box really changed |
| Generator.SetRouteTypeUndo | src/main/java/uk/ac/cam/echo2016/multinarrative/gui/OperationsManager.java:342-367 | undo restores the state if and only if the requested flag differs from whether the property was already a route type |
| Generator.UndoRemoveNode | src/main/java/uk/ac/cam/echo2016/multinarrative/gui/OperationsManager.java:429-469 | re-adding the node with its captured kind and bag gives the state back |
| Generator.UndoExecute | src/main/java/uk/ac/cam/echo2016/multinarrative/gui/OperationsManager.java:185-823 | for every single operation: on a tidy state, undo after a successful execute gives the state back |
| Generator.ExecuteTidy | src/main/java/uk/ac/cam/echo2016/multinarrative/gui/OperationsManager.java:252-340 | execute keeps the state tidy (routes join existing nodes; values listed once; only listed values coloured), unless it removes a node that routes still use |
| Composites.Build | src/main/java/uk/ac/cam/echo2016/multinarrative/gui/OperationsManager.java:480-483 | a step built by a generator on a state is undoable on that state (for setPropertyTypeSolo, when given the property's current type) |
| Composites.UndoRun | src/main/java/uk/ac/cam/echo2016/multinarrative/gui/OperationsManager.java:232 | undoing the steps a composite ran, in reverse order, gives the state it started from |
| Composites.RunAppend | src/main/java/uk/ac/cam/echo2016/multinarrative/gui/OperationsManager.java:480-484 | running two generator lists one after the other is running their concatenation |
| Composites.ListRoutes | src/main/java/uk/ac/cam/echo2016/multinarrative/gui/OperationsManager.java:475-476 | a set of routes listed in some order, each exactly once |
| Composites.RemovalItems | src/main/java/uk/ac/cam/echo2016/multinarrative/gui/OperationsManager.java:480-483 | one removeRoute per listed route, in order, then removeNodeSolo |
| Composites.RemoveNodeAsWritten | src/main/java/uk/ac/cam/echo2016/multinarrative/gui/OperationsManager.java:471-485 | ItemDoesNotExist exactly when the node is missing; otherwise the entering routes, then the exiting routes, then the node |
| Composites.SelfLoopBlocksRemoveNode | src/main/java/uk/ac/cam/echo2016/multinarrative/gui/OperationsManager.java:471-485 | with a route from the node to itself, the removal as written always fails when run |
| Composites.RemoveNode | src/main/java/uk/ac/cam/echo2016/multinarrative/gui/OperationsManager.java:471-485 | the same check; otherwise every route entering or leaving the node exactly once, then the node |
| Composites.AsWrittenWithoutLoop | src/main/java/uk/ac/cam/echo2016/multinarrative/gui/OperationsManager.java:471-485 | on a node with no route to itself, the as-written list names every route of the node exactly once, so on a tidy state the as-written removal succeeds with the same result as the corrected one |
| Composites.RemoveNodeRuns | src/main/java/uk/ac/cam/echo2016/multinarrative/gui/OperationsManager.java:471-485 | on a tidy state the corrected removal succeeds, leaves the state without the node and its routes, keeps it tidy, and is undoable |
| Composites.RemoveRoutesRun | src/main/java/uk/ac/cam/echo2016/multinarrative/gui/OperationsManager.java:480-482 | removing distinct existing routes one by one removes exactly those routes |
| Composites.RemovalsFail | src/main/java/uk/ac/cam/echo2016/multinarrative/gui/OperationsManager.java:480-482 | a list naming a missing route, or one route twice, fails when run |
| Composites.AddChoiceNode | src/main/java/uk/ac/cam/echo2016/multinarrative/gui/OperationsManager.java:417-427 | the composite has four generators (add the node, add route2, move split's end, translate split, in the order of the body); what running them does is stated by AddChoiceNodeRuns |
| Composites.AddChoiceNodeRuns | src/main/java/uk/ac/cam/echo2016/multinarrative/gui/OperationsManager.java:417-427 | with a fresh node and route name on a tidy state, the node lands on the route: split now ends at it and route2 runs from it to split's old end; the state stays tidy and the run is undoable |
| Composites.KeepOut | src/main/java/uk/ac/cam/echo2016/multinarrative/gui/OperationsManager.java:264 | the values left after removals are those not removed, still each listed once |
| Composites.Misfits | src/main/java/uk/ac/cam/echo2016/multinarrative/gui/OperationsManager.java:218-222 | exactly the listed values that do not format for the new type, each once |
| Composites.SetPropertyType | src/main/java/uk/ac/cam/echo2016/multinarrative/gui/OperationsManager.java:210-233 | ItemDoesNotExist exactly when the property is missing; otherwise the removal of each misfit, then the type change (capturing the old type), then for a boolean type "true" at 0 and "false" at 1 when not already listed |
| Composites.SetPropertyTypeRuns | src/main/java/uk/ac/cam/echo2016/multinarrative/gui/OperationsManager.java:210-233 | on a tidy state the composite succeeds, reaches the typed state, and is undoable |
| Composites.TypedStateFits | src/main/java/uk/ac/cam/echo2016/multinarrative/gui/OperationsManager.java:210-233 | in the typed state the property has the new type; a value is listed if and only if it was listed and formats, or the type is boolean and the value is "true" or "false"; every listed value formats; the state is tidy |
| Composites.RemoveValuesRun | src/main/java/uk/ac/cam/echo2016/multinarrative/gui/OperationsManager.java:218-222 | removing distinct listed values one by one removes exactly those values and their colours and keeps the state tidy |
| Composites.Filled | src/main/java/uk/ac/cam/echo2016/multinarrative/gui/OperationsManager.java:224-231 | after the fill a value is listed if and only if it was, or the type is boolean and it is "true" or "false"; each once |
| Composites.FillRun | src/main/java/uk/ac/cam/echo2016/multinarrative/gui/OperationsManager.java:224-231 | the boolean fill succeeds, reaches the filled list, and is undoable |
| Composites.MisfitSet | src/main/java/uk/ac/cam/echo2016/multinarrative/gui/OperationsManager.java:218-222 | the set of listed values that do not format for the type |
| Composites.RenameValueAsWritten | src/main/java/uk/ac/cam/echo2016/multinarrative/gui/OperationsManager.java:295-314 | succeeds if and only if the old value formats, the property exists, and the new value is not listed |
| Composites.RenameValueAdmitsMisfit | src/main/java/uk/ac/cam/echo2016/multinarrative/gui/OperationsManager.java:300-302 | when the old value formats but the new one does not, the operation as written is accepted and the property ends up listing the misfit |
| Composites.RenameValue | src/main/java/uk/ac/cam/echo2016/multinarrative/gui/OperationsManager.java:295-314 | succeeds if and only if the new value formats, the property exists, and the new value is not listed |
| Composites.RenameValueRuns | src/main/java/uk/ac/cam/echo2016/multinarrative/gui/OperationsManager.java:310-312 | on a tidy state with the value listed and the new one not, the run replaces the value in place, moves its colour, keeps the state tidy, and is undoable |
| Composites.RenameMissingValueFails | src/main/java/uk/ac/cam/echo2016/multinarrative/gui/OperationsManager.java:310 | renaming an unlisted value fails at the removal with ItemDoesNotExist(value) |
| Composites.RenameValueKeepsFit | src/main/java/uk/ac/cam/echo2016/multinarrative/gui/OperationsManager.java:295-314 | the corrected rename keeps a property whose values all format in that condition |
| Manager.OperationRoundTrip | src/main/java/uk/ac/cam/echo2016/multinarrative/gui/OperationsManager.java:40-66 | undoing an operation just executed gives back the state it started from, and executing it again does the same as the first time |
| Manager.ChainExtend | src/main/java/uk/ac/cam/echo2016/multinarrative/gui/OperationsManager.java:40-48 | cutting the history at the cursor and adding a reversible operation keeps the chain of states exact |
| Manager.OperationsManager.constructor | src/main/java/uk/ac/cam/echo2016/multinarrative/gui/OperationsManager.java:31-38 | an empty narrative, an empty history, a clean flag |
| Manager.OperationsManager.DoOp | src/main/java/uk/ac/cam/echo2016/multinarrative/gui/OperationsManager.java:40-48 | a failing operation changes nothing and is reported; otherwise the state is the executed one, the undone operations are dropped, the operation is appended, the cursor advances and the narrative is dirty |
| Manager.OperationsManager.Undo | src/main/java/uk/ac/cam/echo2016/multinarrative/gui/OperationsManager.java:50-57 | NothingToUndo at the start of the history; a failing undo changes nothing; otherwise one step back; the dirty flag is untouched; on an exact history it always succeeds and reaches the previous state |
| Manager.OperationsManager.Redo | src/main/java/uk/ac/cam/echo2016/multinarrative/gui/OperationsManager.java:59-66 | NothingToRedo at the end; a failing redo changes nothing; otherwise one step forward; on an exact history it always succeeds and reaches the next state |
| Manager.OperationsManager.LoadNarrative | src/main/java/uk/ac/cam/echo2016/multinarrative/gui/OperationsManager.java:68-80 | nothing read gives an IOError and changes nothing; otherwise the loaded narrative, an empty history, a clean flag |
| Manager.OperationsManager.SaveNarrative | src/main/java/uk/ac/cam/echo2016/multinarrative/gui/OperationsManager.java:82-86 | only a written file clears the dirty flag; nothing else changes |
| Manager.OperationsManager.NewFile | src/main/java/uk/ac/cam/echo2016/multinarrative/gui/OperationsManager.java:104-109 | an empty narrative, an empty history, a clean flag |
| Manager.DoThenUndo | src/main/java/uk/ac/cam/echo2016/multinarrative/gui/OperationsManager.java:40-57 | doOp then undo on an exact history gives the narrative and cursor back, and leaves the narrative dirty |

## Left out

- The view (GraphNode, GraphEdge, FXMLPropertyController, the route-type
  check boxes) is taken to mirror the narrative. One `State` stands for
  both, and NarrativeOperations and ControllerOperations become map
  updates on it.
- Property values are kept as strings. `isCorrectForType` is the parameter
  `correct`, and colours are opaque numbers.
- Node positions and route offsets are floating point and are not
  modelled, so translateRoute changes no state. Only its check that the
  route exists is modelled.
- CompositeOperation and UndoableOperationSequence are not part of this
  model. A composite is taken to build each operation just before running
  it and to undo the operations it ran in reverse order. The history is
  taken to be a list with a cursor.
- The state after a composite that fails midway is not modelled: the
  failed run is taken to leave the state as it was.
- The order of `getEntering` / `getExiting` is an arbitrary order of the
  set; `getUniqueRouteName` is the parameter `route2`.
- Composites.SetPropertyType: the order of the bag's `keySet` is taken to
  be the order of the property's value list in the controller. Nothing is
  lost by this choice: Composites.RemoveValuesRun holds for any list of
  distinct listed values.
- swapChoiceOrSynch, addSynchNode, translateNode, addProperty,
  removeProperty, renameProperty, deletePropertyFromNode,
  deletePropertyFromRoute and exportNarrative are not part of the named
  core and are not modelled.
- SaveReader and SaveWriter do file I/O. Their outcome is a parameter of
  LoadNarrative and SaveNarrative. Debug logging is left out.
- SynchronizationNode is not part of this model. Node kinds are a tag.
- NodeCopy.CopyGraph, NodeCopy.Template.CopyToGraph: copying is modelled
  only for templates with no cycle reachable from the start node (the
  `Ranked` precondition). On such a cycle the source fails. The back-edge
  finds its end node already flagged as copied and takes the lookup branch.
  There `instance.getNode` (Node.java:60) asks for a node that is
  registered only once all its routes are done (Node.java:77), so it gets
  null and the copy throws a null dereference at Node.java:64. `Ranked`
  excludes exactly these inputs, and the failure itself is not modelled.
  Node identity and sharing are modelled by id.
- Generator.UndoAssignToNode, Generator.UndoAssignToRoute: when nothing was
  assigned before, undo passes null to `assignPropertyToNode` /
  `assignPropertyToRoute` (OperationsManager.java:791 and 817).
  NarrativeOperations is not part of this model, and a null value is taken
  to remove the key (`EditorState.Put`). The round trip depends on that
  choice.
- Composites.SetPropertyTypeRuns, Composites.TypedStateFits: for a
  boolean type they assume that "true" and "false" format as booleans
  (`correct(Boolean, "true")` and `correct(Boolean, "false")`).
  Otherwise the source would remove a listed "true" that does not format
  and never add it back, because `b.containsKey` is decided when the list
  is built, on the bag before the removals (OperationsManager.java:218-231).
  The model does not state what happens in that case.
- ChoiceNodes.OnEntry: the `instance` argument is unused by the source and
  is left out. Routes are compared by value, not by object identity.
- ChoiceNodes.Create: `ChoiceNode.java` is a later revision that names
  routes `Route` and `getEntering` / `getExiting`. The node here carries
  those route sets directly, not `Node.java`'s `options` list.
- Manager.OperationsManager.Undo, Manager.OperationsManager.Redo: they
  return to the recorded state only on an exact history, one where every
  operation stored was reversible where it ran. Otherwise only the step
  taken is stated.

## Findings

| source | as written | input that shows it | evidently intended | confidence | as-written member | corrected member |
|---|---|---|---|---|---|---|
| src/main/java/uk/ac/cam/echo2016/multinarrative/gui/OperationsManager.java:475-483 | the routes to remove are the entering routes followed by the exiting routes, so a route from the node to itself is listed twice | a node "a" with a route "loop" from "a" to "a": the second removeRoute("loop") finds no route, so removeNode("a") always fails | each route removed once, so the node and all its routes go | not executed | Composites.SelfLoopBlocksRemoveNode | Composites.RemoveNodeRuns |
| src/main/java/uk/ac/cam/echo2016/multinarrative/gui/OperationsManager.java:300-302 | the type check is made on the old value, so the new value is never checked | a boolean property listing "true" and "false"; renameValue of "true" to "maybe" passes the check and "maybe" is listed | check that the new value formats for the type | not executed | Composites.RenameValueAdmitsMisfit | Composites.RenameValueKeepsFit |
