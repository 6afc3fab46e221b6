# Verified models of a diagram editor

Dafny 4.11 models of the parts of a diagram-as-text editor whose behaviour is hardest to get right, each with
machine-checked proofs of what it promises. `dafny verify dfyconfig.toml` checks everything.

- **The collaboration relay** (`Relay*.dfy`, `RateLimit.dfy`). Rooms of connections share a document. Every critical
  section of every goroutine is one atomic step of a transition system, and goroutines interleave freely between
  sections. The document is a grow-only set of updates. Proved for every interleaving: a document never forks, a joiner
  misses nothing and is sent what is stored, early frames are replayed in order, seeding is exclusive, rooms are
  isolated, and neither connections nor rooms are left behind. Exact conditions say when the registered room holds all
  that is stored and when it can be seeded. `RelayCore.dfy` holds the objects as they are updated in place: each method
  of a room carries out the room change of its section, and the registry's methods take a registry that mirrors a state
  to one that mirrors the next.
- **The orthogonal connector router** (`Maze*.dfy`). A* over the lines through obstacle borders, with its binary heap,
  stale entries and turn penalty: terminates, complete, and its routes clear the obstacles. They are optimal not only
  on the grid: no axis-aligned way through the plane that clears the obstacles by the margin costs less.
- **Mindmap re-parenting** (`Mindmap*.dfy`). A text edit on indented lines, proved to be one edit of the tree read from
  them, with the exact condition on the indentation.
- **Element groups and the sidecar overlay** (`Group*.dfy`, `Ancestors.dfy`, `Overlay*.dfy`, `SharedOverlay.dfy`,
  `SharedEdits.dfy`, `Session.dfy`, `SessionRuns.dfy`, `LocalDocument.dfy`). Dissolving and pruning a forest of groups
  and walking it, its wire codec, one replica of the collaborative document kept equal to its cache by targeted edits
  through any run, and the local document with its bounded history.
- **Nested box layouts** (`Block*.dfy`, `ParentForest.dfy`, `Nesting.dfy`, `Arrangement.dfy`, `Reach.dfy`,
  `C4Layout.dfy`, `VariableGrid.dfy`, `NetworkLayout.dfy`, `CloudCollapse.dfy`, `CloudLayout.dfy`). Every element that is
  reached has a box, boxes enclose what is under them and keep apart otherwise, rows and columns fill as they should and
  stand close, and collapsing groups hides and re-attaches consistently, with the exact condition where an id is
  declared twice.
- **Gantt charts** (`Gantt.dfy`), **the reconnecting socket** (`Transport.dfy`) and **block renaming** (`Rename.dfy`).

Where the code does something other than its comments say, the model follows the code:

- `core.go` says that a seeder's departure must not leave a room permanently unseedable. It can be left so in two ways. A
  socket that closes and is dropped between the open check and the seed decision is granted the seed after it has left
  (`RelaySeedRuns.SeedCanBeLost`). And neither the grant nor the re-grant looks at the role, so a viewer, whose updates
  are dropped, can hold the seed while a writer waits (`RelaySeedRuns.ViewerCanHoldSeed`). A run keeps every still-empty
  room with a registered writer as its holder exactly when it makes no such grant (`RelaySeeding.SeedableExactly`).
- `core.go` looks into the registry twice so that two loaders never install divergent documents for one name. If the
  room is loaded, edited, saved and forgotten between one loader's two looks, that loader registers its old snapshot
  (`RelayReloads.StaleSnapshotIsServed`); exactly when, in `RelayReloads.CaughtUpExactly`.
- `core.go` flushes a room before it is forgotten. A save encodes under the document's lock and stores after releasing it,
  so an older snapshot can be written last and an accepted update be lost from the store (`RelayOverwrites.OverwrittenIsLost`).
  Without failing and overwriting saves nothing is lost (`RelayDurability.NoUpdateLost`).
- `maze.ts` says the router returns null when no obstacle-free path exists. It also does when all of them lead through
  gaps in which no grid line lies (`MazeGaps.NarrowGapIsMissed`); a path that keeps the margin is always found
  (`MazeGaps.ReachableBetween`).
- `gantt.ts` says durations are spent on working days only. Durations may be given in hours, and a task that starts
  inside a day works through whatever day off it meets: a holiday, which is not recognised there
  (`Gantt.HalfDayHidesHoliday`), or the first half of a weekend (`Gantt.HalfDayRunsIntoWeekend`). The exact condition is
  `Gantt.ScheduleWorksExactly`.
- `patch.ts` shifts a re-parented mindmap subtree by two columns a level. For other indentation the child can land
  elsewhere (`MindmapConnect.FourSpacesMisplaceText`, `MindmapConnect.ConnectIsTreeEdit`).
- `groups.ts` says an empty group can only arise from a dead node member. A leafless group that was there to begin with
  survives pruning while no node is dead (`GroupPrune.EmptyGroupStands`, `GroupPrune.PruneExactlyWhen`).
- `session.ts` keeps its cache equal to what peers decode only under conditions, one for each operation
  (`Session.FollowsExactly`). Its interface takes any number as a connector's label position, but peers cannot decode one
  outside [0, 1] (`SessionRuns.LabelPastTheEnd`). When a peer has replaced a shared member list by a plain value it logs
  and goes on, so neither a dissolve nor a pruning reaches that list (`SessionRuns.DissolveParts`,
  `SessionRuns.PlainListKeepsDead`).
- `groups.ts` walks groups up and down without a guard, and the overlay decoder lets in groups that list each other. The
  walks then need not end (`GroupWalks.EachOtherGoesRound`); each ends exactly under its own condition
  (`Ancestors.WalkEndsExactly`, `GroupWalks.LockWalkEndsExactly`, `GroupWalks.DescentEndsExactly`).
- `cloud.ts` caps the depth of its placement to stay total on cyclic parents, but the walk up in `anchorOf` comes first
  and has no cap: it does not end for an element in its own twin or on or under any other cycle
  (`CloudCollapse.TwinInTwin`), and only for those (`Ancestors.WalkEndsExactly`).
- `cloud-parse.ts` lets a leaf be declared more than once, and `cloud.ts` looks ids up by the last declaration but places
  each of them. Such a leaf can be hidden although it is placed (`CloudCollapse.TwinHiddenYetPlaced`; exactly when, in
  `CloudCollapse.CollapseIsConsistent`), and is drawn outside its group (`CloudLayout.TwinDrawnOutside`).

## Model

| member | source | states |
|---|---|---|
| `RelayCore.RoomObject.constructor` | modules/relay/relay/core.go:239-260 | A room loaded on first touch holds the stored snapshot, and starts with its loader's admission pending and no sockets. |
| `RelayCore.RoomObject.ReserveSlot` | modules/relay/relay/core.go:228-232 | A lookup of a registered room adds one pending admission and changes nothing else. |
| `RelayCore.RoomObject.Register` | modules/relay/relay/core.go:457-460 | Registration trades the pending slot for the socket in one section. |
| `RelayCore.RoomObject.EncodeAndDecide` | modules/relay/relay/core.go:474-485 | The joiner's state is the document at the moment of the seed decision, and it wins the grant exactly when nobody holds it and the document is empty. |
| `RelayCore.RoomObject.Drop` | modules/relay/relay/core.go:511-535 | A departure is a `Leave` with some surviving heir: the grant moves only if the leaver held it in an empty document, and the caller learns whether nobody is left. |
| `RelayCore.RoomObject.ApplyAndArm` | modules/relay/relay/core.go:588-612 | A writer's update joins the document and a save is scheduled. |
| `RelayCore.RoomObject.PeersOf` | modules/relay/relay/core.go:615-622 | The fan-out list is every registered socket but the sender, each exactly once. |
| `RelayCore.RoomObject.Disarm` | modules/relay/relay/core.go:273-279 | A flush cancels the scheduled save. |
| `RelayCore.Core.constructor` | modules/relay/relay/core.go:131-150 | A new core mirrors the initial state: nothing is registered. |
| `RelayCore.Core.Find` | modules/relay/relay/core.go:228-235 | Under the registry lock a registered room is reserved, in place and in no other room; otherwise the server is full or the room is missing. |
| `RelayCore.Core.LookUp` | modules/relay/relay/core.go:226-237 | The first look takes a registry and rooms that mirror a state to ones that mirror its successor, and the admission goes on with what was found. |
| `RelayCore.Core.Install` | modules/relay/relay/core.go:250-261 | So does the second look: a concurrent loader's room wins, a full server refuses, and otherwise one fresh room with the loaded document is registered. |
| `RelayCore.Core.Forget` | modules/relay/relay/core.go:541-545 | So does the removal, which happens only if the room at that moment has no sockets and no pending admissions and is still the registered one. |
| `RelayMembership.WellFormedStep` | modules/relay/relay/core.go:226-629 | Every section of every goroutine keeps connections, tasks, rooms and registry entries consistent with each other. |
| `RelayMembership.CountsKeepPending` | modules/relay/relay/core.go:100-105 | A section that changes `pending` by as much as it changes the admissions between lookup and registration keeps the two equal. |
| `RelayMembership.StepCounts` | modules/relay/relay/core.go:226-260 | Every section changes the two by the same amount. |
| `RelayMembership.StepForkFree` | modules/relay/relay/core.go:226-546 | No section leaves a room with members outside the registry, or brings an abandoned one back. |
| `RelayMembership.MembershipRun` | modules/relay/relay/core.go:226-546 | These facts, and that a forgotten room stays forgotten, hold after every interleaving of sections. |
| `RelayMembership.NeverForks` | modules/relay/relay/core.go:100-105 | In every reachable state a room with a pending admission or a socket is the registry's room for its name, and `pending` is the exact number of admissions between lookup and registration. |
| `RelayMembership.SameNameSameRoom` | modules/relay/relay/core.go:218-225 | Two sockets registered under one room name share one room object, so one document. |
| `RelayMembership.ForgottenForGood` | modules/relay/relay/core.go:537-545 | However a run goes on, a forgotten room object never has members again. |
| `RelayMembership.OpenHasRoom` | modules/relay/relay/core.go:451-455 | A connection whose frames are dispatched or replayed always has a room. |
| `RelaySeeding.SeedExclusiveAndOut` | modules/relay/relay/core.go:469-485 | While a room's document is empty at most one registered socket has been granted the seed, and if some registered connection is past its decision the grant is out. |
| `RelaySeeding.SeederStaysIffNoLateGrant` | modules/relay/relay/core.go:462-485 | A section keeps every seeder among the registered sockets exactly when it is not a decision for a connection already dropped. |
| `RelaySeeding.SeedersStay` | modules/relay/relay/core.go:462-485 | So in every run without such a decision the seeder is always a registered socket. |
| `RelaySeeding.RolesAreSettled` | modules/relay/relay/core.go:451-460 | Once registered, a connection keeps its role. |
| `RelaySeeding.HoldersWriteIffNoViewerGrant` | modules/relay/relay/core.go:479-526 | A section keeps every grant of a still-empty room with connections that can write exactly when it does not grant or re-grant one to a viewer. |
| `RelaySeeding.SeedableIffNoBadGrant` | modules/relay/relay/core.go:474-526 | So the holder stays a registered writer exactly when the section is neither a late grant nor a grant or re-grant to a viewer. |
| `RelaySeeding.SeedableExactly` | modules/relay/relay/core.go:462-532 | A run keeps every still-empty room with a registered writer as its holder all along if and only if it makes no such grant. |
| `RelaySeeding.SomeoneCanSeed` | modules/relay/relay/core.go:507-510 | Then a still-empty room with a decided member has a registered writer that holds the grant: it is not left unseedable. |
| `RelaySeeding.ViewerKeepsSeed` | modules/relay/relay/core.go:479-532 | A viewer that holds the grant of an empty room keeps it through every section but its own departure or somebody else's edit. |
| `RelaySeedRuns.LosingRunLeads` | modules/relay/relay/core.go:462-485 | A concrete run in which a socket closes and is dropped between the open check and the decision. |
| `RelaySeedRuns.SeedCanBeLost` | modules/relay/relay/core.go:507-510 | That run leaves an empty room with a live member whose grant is held by a departed socket: the promise that the room does not become unseedable does not hold there. |
| `RelaySeeding.LostSeedStaysLost` | modules/relay/relay/core.go:507-532 | No section but a writer's own edit gets such a room out of that state. |
| `RelayLateGrants.LeaveOnceStep` | modules/relay/relay/core.go:457-545 | Every section keeps that an undecided connection departs at most once, only after its close, and is in its room from registration until then. |
| `RelayLateGrants.LateGrantIsForGood` | modules/relay/relay/core.go:462-532 | In every run a late grant loses the room's seed, and it stays lost, however the run goes on, until somebody writes without the grant. |
| `RelayDepartures.NoneStayStep` | modules/relay/relay/core.go:457-545 | Every section keeps that a closed connection still in a room has its departure on its way or has not yet looked whether it is open. |
| `RelayDepartures.NoZombies` | modules/relay/relay/core.go:462-546 | So in every reachable state no closed connection stays in a room for good. |
| `RelayDepartures.NoneLeakStep` | modules/relay/relay/core.go:511-546 | Every section keeps that a registered room with nobody in it and nobody about to join will be looked at again to forget it. |
| `RelayDepartures.NoLeakedRooms` | modules/relay/relay/core.go:511-546 | So in every reachable state no abandoned room stays registered for good. |
| `RelaySeedRuns.ViewerRunLeads` | modules/relay/relay/core.go:479-526 | A concrete run without a late grant: a writer is granted the seed, a viewer and a writer join, and the first writer leaves with the viewer as its heir. |
| `RelaySeedRuns.ViewerCanHoldSeed` | modules/relay/relay/core.go:507-526 | It leaves the seed of the empty room with a viewer while a writer is registered, open and past its decision. |
| `RelayDelivery.NothingMissedStep` | modules/relay/relay/core.go:457-489 | Every section keeps that a member past its state encode has, or is still owed by a running handler, each update it did not author. |
| `RelayDelivery.NoUpdateMissed` | modules/relay/relay/core.go:457-489 | In every reachable interleaving each update of a room's document is in the state encoded for a registered open socket, has been sent to it, was authored by it, or is held by a handler that has not finished fanning out. |
| `RelayDelivery.StepSends` | modules/relay/relay/core.go:474-489 | Every section keeps that the state encoded for a connection has been sent to it or is the next thing its admission sends. |
| `RelayDelivery.QuiescentPeersAgree` | modules/relay/relay/core.go:588-629 | When no handler is in flight, every such socket has been sent the whole document but for what it wrote itself, unless its initial state is about to be sent. |
| `RelayIsolation.PureRun` | modules/relay/relay/core.go:567-629 | After every interleaving, what a room's document, its connections and its tasks carry was stored under or written to that room's name. |
| `RelayIsolation.NoCrossRoomUpdates` | modules/relay/relay/core.go:567-629 | Whatever a room's document or the store holds under a name was stored there at first or applied by a connection that could write to that very room. |
| `RelayStore.StoredIsKept` | modules/relay/relay/core.go:239-271 | In every reachable state every room, every snapshot being loaded or saved, and the store hold what was stored under their name at first; where that was something, nobody has been told to seed the room. |
| `RelayStore.StoredIsServed` | modules/relay/relay/core.go:239-489 | In every reachable state an open connection has been sent what was stored under its room's name at first. |
| `RelayStore.OpenMissesNothing` | modules/relay/relay/core.go:457-495 | In every reachable state an open connection whose socket is open has each update of its room's document, sent or its own, unless a handler still has to send it. |
| `RelayReplay.FramesAreReplayed` | modules/relay/relay/core.go:490-505 | From a connection's arrival on, the frames it takes in before it is open are those it has replayed, once each and in order, and then those still waiting, unless its admission has ended. |
| `RelayReplay.FrameIsApplied` | modules/relay/relay/core.go:590-603 | A writer's document frame is added to its own room's document and to no other; any other frame leaves every document as it is. |
| `RelayDurability.NothingLostStep` | modules/relay/relay/core.go:264-281 | Every section but a save that fails or overwrites more than it holds keeps each accepted update stored or on its way to the store. |
| `RelayDurability.NoUpdateLost` | modules/relay/relay/core.go:264-281 | In every run without such saves each update ever accepted is stored, or in a room whose save is armed or under way. |
| `RelayDurability.SettledIsStored` | modules/relay/relay/core.go:604-614 | In such a run, with no save armed or under way for a name, the store holds every update ever accepted for it. |
| `RelayOverwrites.OverwritingRunLeads` | modules/relay/relay/core.go:264-281 | A concrete run in which a timer's save is overtaken by the flush of a departure, and its older snapshot is written last. |
| `RelayOverwrites.OverwrittenIsLost` | modules/relay/relay/core.go:264-271 | It leaves an accepted update neither stored nor on its way: the room is forgotten, no timer is armed and nothing runs. |
| `RelayReloads.CaughtUpIff` | modules/relay/relay/core.go:237-262 | A section keeps every registered room holding what is stored under its name if and only if it neither registers a snapshot that has been overtaken nor stores what a forgotten room alone has. |
| `RelayReloads.CaughtUpExactly` | modules/relay/relay/core.go:220-225 | A run keeps it all along if and only if it has no such section. |
| `RelayReloads.StaleRunLeads` | modules/relay/relay/core.go:226-262 | A concrete run in which a room is loaded, edited, saved and forgotten between the two looks of another loader. |
| `RelayReloads.StaleSnapshotIsServed` | modules/relay/relay/core.go:220-225 | It leaves an empty room registered under a name for which the store holds an update. |
| `RateLimit.RateBucket.constructor` | modules/relay/relay/ratelimit.go:30-38 | A new bucket is full on both dimensions. |
| `RateLimit.RateBucket.Allow` | modules/relay/relay/ratelimit.go:41-58 | A call tops both buckets up by the time seen to pass, capped, and debits both or neither. |
| `RateLimit.StaysInBounds` | modules/relay/relay/ratelimit.go:41-58 | Token counts stay between zero and their limits. |
| `RateLimit.FramesWereEarned` | modules/relay/relay/ratelimit.go:41-58 | Accepted frames plus the tokens left never exceed the tokens at the start plus what the elapsed time earned. |
| `RateLimit.BytesWereEarned` | modules/relay/relay/ratelimit.go:41-58 | The same for bytes. |
| `RateLimit.RateIsBounded` | modules/relay/relay/ratelimit.go:8-13 | From any point of any run, at most `limit * (1 + T)` frames and bytes are accepted in `T` seconds of forward clock steps. |
| `RateLimit.PacedIsAccepted` | modules/relay/relay/ratelimit.go:40-58 | A sender whose frames each wait long enough to be earned is never cut off, from any state of the bucket. |
| `MazeGrid.MergedSegmentClear` | modules/layout/src/core/maze.ts:25-36 | Two clear collinear segments joined end to end clear every obstacle that has an inside. |
| `MazeGrid.SegmentHitsExactly` | modules/layout/src/core/maze.ts:22-31 | The overlap of bounding boxes is exact: an axis-aligned segment fails the test if and only if some point of it is inside the box. |
| `MazeGrid.PathCost` | modules/layout/src/core/maze.ts:153-156 | The cost A* adds up along a path is its length plus 14 for each bend. |
| `MazeGrid.HeuristicAdmissible` | modules/layout/src/core/maze.ts:121-122 | The straight-line estimate never exceeds the cost of a path to the goal. |
| `MazeGrid.SortedUnique` | modules/layout/src/core/maze.ts:37-38 | Grid lines come out strictly ascending and are exactly the given values. |
| `MazeHeap.RootIsLeastOfAll` | modules/layout/src/core/maze.ts:58-60 | In heap order the first item is the least. |
| `MazeHeap.Heap.Push` | modules/layout/src/core/maze.ts:45-57 | Sifting up keeps the multiset and restores heap order. |
| `MazeHeap.Heap.Pop` | modules/layout/src/core/maze.ts:58-86 | Removes a least item, keeps the rest as a multiset and restores heap order; it fails only when empty. |
| `MazeSearch.PackUnpacks` | modules/layout/src/core/maze.ts:118-133 | Unpacking a packed state gives the state back. |
| `MazeSearch.UnpackPacks` | modules/layout/src/core/maze.ts:118-133 | Every number is the packing of just one state. |
| `MazeSearch.DropStale` | modules/layout/src/core/maze.ts:141 | Skipping a superseded heap entry keeps the search invariant. |
| `MazeSearch.ClosedIsFinal` | modules/layout/src/core/maze.ts:149-161 | An expanded state is never improved again. |
| `MazeSearch.Close` | modules/layout/src/core/maze.ts:136-142 | Expanding a least entry keeps the invariant, and its state becomes final. |
| `MazeSearch.Improve` | modules/layout/src/core/maze.ts:157-161 | Lowering a score, re-pointing its predecessor and queueing it keeps the invariant. |
| `MazeSearch.NoPathBelow` | modules/layout/src/core/maze.ts:135-163 | When no open state is estimated below a bound, no path from a known state to the goal costs less. |
| `MazeRouter.Relax` | modules/layout/src/core/maze.ts:149-162 | One neighbour: the score drops to the cheaper way when the new way is cheaper, and the edge is relaxed either way. |
| `MazeRouter.Expand` | modules/layout/src/core/maze.ts:143-162 | All four neighbours: afterwards every legal move out of the state is relaxed. |
| `MazeRouter.Run` | modules/layout/src/core/maze.ts:135-163 | The loop always ends: with the goal popped and nothing open below it, or with every known state expanded. |
| `MazeRouter.CheapestAt` | modules/layout/src/core/maze.ts:166-175 | Picks a cheapest goal state over the incoming directions. |
| `MazeRouter.WalkBack` | modules/layout/src/core/maze.ts:177-184 | Following predecessors from the best goal state gives a legal path from the start that costs no more than its score. |
| `MazeRouter.Simplify` | modules/layout/src/core/maze.ts:185-198 | Dropping collinear vertices keeps the ends, keeps every segment axis-aligned and clear, does not raise the cost, and leaves no collinear triple on a path that goes nowhere twice. |
| `MazeLoops.CutLoop` | modules/layout/src/core/maze.ts:153-161 | Cutting a loop out of a grid path joins the same ends for less, whatever turns it changes. |
| `MazeLoops.CheapestGoesNowhereTwice` | modules/layout/src/core/maze.ts:135-184 | So a cheapest path goes nowhere twice. |
| `MazeHanan.GridOf` | modules/layout/src/core/maze.ts:96-105 | Exactly the coordinates of the two ends and of the obstacle borders, a margin off, are grid lines. |
| `MazeHanan.SlideWay` | modules/layout/src/core/maze.ts:3-8 | Any axis-aligned way that clears the obstacles by the margin can be slid onto the grid's lines without getting longer, gaining a vertex or losing that clearance. |
| `MazeHanan.GridIsEnough` | modules/layout/src/core/maze.ts:3-8 | So for every such way there is a path on the grid that costs the search no more. |
| `MazeGaps.ReachableBetween` | modules/layout/src/core/maze.ts:3-8 | The grid joins the ends if some way clears the obstacles by the margin, and only if some way clears them; with no margin that is an equivalence. |
| `MazeGaps.RoundTheBox` | modules/layout/src/core/maze.ts:96-105 | A concrete box between the ends: there is a way round it that costs 188, so the router finds one. |
| `MazeGaps.NarrowGapIsMissed` | modules/layout/src/core/maze.ts:7-8 | Concrete walls with a gap that a clear way leads through and no grid line does: the router returns null. |
| `MazeRouter.SearchIsOptimal` | modules/layout/src/core/maze.ts:135-163 | No path on the grid beats the score at which the search stopped. |
| `MazeRouter.SearchIsComplete` | modules/layout/src/core/maze.ts:135-137 | A search that runs dry proves that the goal cannot be reached on the grid. |
| `MazeRouter.MazeRoute` | modules/layout/src/core/maze.ts:90-200 | Always terminates; returns null exactly when the ends coincide or no clear path exists on the grid; otherwise an axis-aligned route between the ends, clear of every positive-size obstacle and without a vertex on a straight run, whose cost is at most that of every grid path and of every axis-aligned way whatever that clears the obstacles by the margin. |
| `MindmapTree.ReadTree` | modules/parser/src/shell/mindmap-parse.ts:72-127 | The stack pass gives each node the nearest earlier, strictly shallower line as parent, and its depth as level. |
| `MindmapTree.ParentIsUnique` | modules/parser/src/shell/mindmap-parse.ts:101-106 | The nearest strictly shallower line is the only one with nothing shallower in between. |
| `MindmapMove.PlaceIsOnto` | modules/builder/src/core/patch.ts:380-384 | Moving a block permutes the lines: every position is taken. |
| `MindmapMove.PlaceKeepsOrder` | modules/builder/src/core/patch.ts:380-384 | The moved subtree comes first under its new parent, and order is kept inside it and outside it. |
| `MindmapMove.MoveChangesOneEdge` | modules/builder/src/core/patch.ts:343-348 | Moving a subtree's block behind a line and shifting it changes exactly the one parent edge if and only if the shifted root is deeper than the new parent and no shallower than its other children. |
| `MindmapMove.DepthsFollow` | modules/builder/src/core/patch.ts:343-348 | Then the subtree comes to stand one level below its new parent, and every other node keeps its level. |
| `MindmapConnect.LevelRunIsSubtree` | modules/builder/src/core/patch.ts:364-367 | The run of greater levels after a node is its set of descendants, by ancestry as well as by indentation. |
| `MindmapPatch.SplicedNodes` | modules/builder/src/core/patch.ts:376-384 | Splicing lines splices the sequence of nodes read from them in the same way, with directives and blank lines in between. |
| `MindmapPatch.ReindentShifts` | modules/builder/src/core/patch.ts:338-342 | Re-indenting keeps a line's text and shifts its indentation, stopping at zero. |
| `MindmapConnect.Request` | modules/builder/src/core/patch.ts:356-374 | A request goes through exactly when both nodes exist, the child has another parent, the new parent is not under the child, and the three lines are known. |
| `MindmapConnect.ConnectMindmap` | modules/builder/src/core/patch.ts:349-386 | Any other request returns the text unchanged; this one moves and shifts exactly the subtree's lines, and a text with two columns a level stays one. |
| `MindmapConnect.ConnectIsTreeEdit` | modules/builder/src/core/patch.ts:343-348 | Read again, the new text is the old tree with just the child's subtree hung under the new parent if and only if the shifted root fits, whatever the indentation. |
| `MindmapConnect.ConnectKeepsTexts` | modules/builder/src/core/patch.ts:338-342 | Whatever the indentation, every node keeps its text. |
| `MindmapConnect.TwoSpacedConnects` | modules/builder/src/core/patch.ts:336-348 | With two-space indents the edit is always that tree edit. |
| `MindmapConnect.StaysTwoSpaced` | modules/builder/src/core/patch.ts:336-348 | The edited text has its nodes two columns a level again, from the same first column. |
| `MindmapConnect.AlwaysTwoSpaced` | modules/builder/src/core/patch.ts:336-348 | So it stays through any sequence of gestures. |
| `MindmapConnect.FourSpacesMisplace` | modules/builder/src/core/patch.ts:336-348 | With four-space indents it need not be: a concrete tree where the child becomes a sibling of its intended parent. |
| `MindmapConnect.FourSpacesMisplaceText` | modules/builder/src/core/patch.ts:349-387 | The same on a text: the lines before, the request, the lines the gesture makes of them, and that they are not the tree edit. |
| `Groups.ParentLists` | modules/builder/src/core/groups.ts:19-24 | The parent found lists the member; none is found only if no group lists it. |
| `Groups.ParentIsFirst` | modules/builder/src/core/groups.ts:19-24 | Of several groups that list a member the first in insertion order is found. |
| `GroupWalks.LeafNodes` | modules/builder/src/core/groups.ts:59-70 | Wherever the descent ends, the loop collects the leaves in member order. |
| `GroupWalks.LeavesAreReached` | modules/builder/src/core/groups.ts:59-70 | The leaves are the nodes listed by the groups that are reached. |
| `GroupWalks.DescentEndsExactly` | modules/builder/src/core/groups.ts:59-70 | The descent from a group ends if and only if it reaches no group that is under itself. |
| `GroupWalks.RankedDescends` | modules/builder/src/core/groups.ts:59-70 | On acyclic nesting it always ends, with the leaves the other results speak of. |
| `GroupEdits.DissolveKeepsLeaves` | modules/builder/src/core/groups.ts:26-44 | On an acyclic forest, dissolving a group listed by no other group than its parent leaves the leaf sequence of every other group unchanged. |
| `GroupWalks.TopGroupOfNode` | modules/builder/src/core/groups.ts:72-81 | Wherever the walk up ends, it yields the last group it passes. |
| `Ancestors.WalkEndsExactly` | modules/builder/src/core/groups.ts:72-91 | A walk up links that lead to at most one other ends if and only if it does not meet one that is its own ancestor. |
| `GroupWalks.RankedNodeWalks` | modules/builder/src/core/groups.ts:72-81 | On acyclic nesting it always ends, and passes the groups around the node. |
| `GroupWalks.PathLocked` | modules/builder/src/core/groups.ts:83-91 | Wherever the walk ends, true exactly when it passes a locked group. |
| `GroupWalks.LockWalkEndsExactly` | modules/builder/src/core/groups.ts:83-91 | The walk that looks for a locked group ends if and only if it meets one, or no group that is its own ancestor. |
| `GroupWalks.EachOtherGoesRound` | modules/builder/src/core/groups.ts:59-91 | Two groups that list each other: no walk ends, up or down, but the one that finds one of them locked. |
| `GroupEdits.AroundAreHolders` | modules/builder/src/core/groups.ts:59-91 | With single parents, the groups found walking up from a node are exactly those whose leaves contain it. |
| `GroupPrune.SteadyIsFixed` | modules/builder/src/core/groups.ts:119 | Equal group and member counts after a sweep mean that the sweep changed nothing. |
| `GroupPrune.SweepOnce` | modules/builder/src/core/groups.ts:110-118 | One sweep drops dead nodes, missing subgroups and groups left empty. |
| `GroupPrune.PruneGroups` | modules/builder/src/core/groups.ts:97-123 | The fixpoint loop ends on every input, cyclic ones included, and the input is returned as it is exactly when no node member is dead. |
| `GroupPrune.PrunedExactly` | modules/builder/src/core/groups.ts:93-123 | Sweeping to the fixpoint keeps a group exactly when it had a live leaf, with its live leaves in order. |
| `GroupPrune.PruneKeepsLiveLeaves` | modules/builder/src/core/groups.ts:93-123 | Every survivor keeps its live leaves in order, and no group with a live leaf is lost. |
| `GroupPrune.PruneExactlyWhen` | modules/builder/src/core/groups.ts:98-103 | The groups kept are exactly those with a live leaf if and only if some node member is dead or no group was leafless to begin with. |
| `GroupPrune.TidyPrune` | modules/builder/src/core/groups.ts:93-103 | Without empty groups or dangling references that is always so. |
| `GroupPrune.EmptyGroupStands` | modules/builder/src/core/groups.ts:98-103 | A concrete empty group that outlives a pruning that finds no dead node, and goes with one that does. |
| `OverlayCodec.OverrideRoundTrip` | modules/builder/src/shell/overlay.ts:89-94 | A position entry survives encoding exactly when its size is not negative. |
| `OverlayCodec.GroupRoundTrip` | modules/builder/src/shell/overlay.ts:96-102 | A group entry always survives. |
| `OverlayCodec.EdgeStyleRoundTrip` | modules/builder/src/shell/overlay.ts:104-111 | A connector style survives exactly when its label position is on the edge. |
| `OverlayCodec.NodeStyleRoundTrip` | modules/builder/src/shell/overlay.ts:112-113 | A node style always survives. |
| `OverlayCodec.MapRoundTrip` | modules/builder/src/shell/overlay.ts:116-176 | A map of entries survives, in whatever order it is listed, exactly when each value does. |
| `OverlayCodec.OverlayRoundTrip` | modules/builder/src/shell/overlay.ts:116-176 | Decoding a saved overlay gives it back exactly when every entry is valid; otherwise the whole payload is refused. |
| `OverlayCodec.DecodedIsValid` | modules/builder/src/shell/overlay.ts:132-176 | Nothing the decoder lets in would fail to survive being saved again. |
| `OverlayWire.OverrideWireExactly` | modules/builder/src/shell/overlay.ts:32 | A position entry is read as a value exactly when it has these fields with these contents; only the size may be null. |
| `OverlayWire.GroupWireExactly` | modules/builder/src/shell/overlay.ts:33-39 | The same for a group and, in order, its members. |
| `OverlayWire.EdgeStyleWireExactly` | modules/builder/src/shell/overlay.ts:53-73 | The same for a connector's style, with absent and null fields, and the older boolean in place of a route. |
| `OverlayWire.NodeStyleWireExactly` | modules/builder/src/shell/overlay.ts:74 | The same for a node's style. |
| `OverlayWire.MapWireExactly` | modules/builder/src/shell/overlay.ts:132-176 | A list of entries is read as a map exactly when every entry decodes and the last one for each key is its value. |
| `OverlayWire.OverlayWireExactly` | modules/builder/src/shell/overlay.ts:75-82 | A payload is taken as an overlay exactly when it is laid out so; older ones may lack the styles and the identity. |
| `SharedOverlay.SpliceIsFlatten` | modules/collab/src/shell/session.ts:407-412 | Splicing at the first reference equals replacing every reference if and only if there is at most one, or the replacement is the reference itself. |
| `SharedOverlay.SpliceMembers` | modules/collab/src/shell/session.ts:407-412 | Finding the first stored reference and splicing there is the recursive splice of the stored list. |
| `SharedOverlay.SplicedDecodes` | modules/collab/src/shell/session.ts:407-412 | That splice of the stored list decodes to the splice on the members. |
| `SharedOverlay.DropMembers` | modules/collab/src/shell/session.ts:452-457 | Deleting from the back by member key leaves exactly the stored members whose key is kept, in order. |
| `SharedOverlay.KeptItemsDecode` | modules/collab/src/shell/session.ts:444-457 | What is left decodes to exactly the kept members, in order. |
| `SharedOverlay.KeysDiffer` | modules/collab/src/shell/session.ts:128-129 | Different members have different keys. |
| `SharedOverlay.PrunedIsOnly` | modules/collab/src/shell/session.ts:438-442 | A surviving group is its old self without the members that went: nothing is reordered or added. |
| `SharedOverlay.PayloadDecodes` | modules/collab/src/shell/session.ts:205-227 | Decoding a shared map's entries, in any order, gives a cached map if and only if they agree entry by entry. |
| `SharedEdits.WriteThenDrop` | modules/collab/src/shell/session.ts:229-238 | Writing the entries that differ and deleting the missing ones leaves exactly the encoded new entries. |
| `SharedEdits.EncodedAgrees` | modules/collab/src/shell/session.ts:229-238 | Those decode to the new values if and only if each value survives encoding. |
| `SharedEdits.DissolvedAgrees` | modules/collab/src/shell/session.ts:394-415 | The shared groups follow a dissolve exactly when the parent's list is a shared list naming the group at most once (or there is no parent to edit). |
| `SharedEdits.PruneShared` | modules/collab/src/shell/session.ts:437-460 | Visiting every shared group, in any order, deletes those that went and, from the lists of the others, the members that went; a list that is a plain value is skipped. |
| `SharedEdits.PrunedAgrees` | modules/collab/src/shell/session.ts:437-460 | The shared groups follow a pruning exactly when every survivor whose list is a plain value keeps all its members. |
| `Session.MaterializeIsSynced` | modules/collab/src/shell/session.ts:205-227 | Decoding the four shared containers gives the cache if and only if each of them agrees with it. |
| `Session.SeededSyncs` | modules/collab/src/shell/session.ts:250-259 | A document filled from a starting state is in agreement with its cache if and only if every size and label position can be stored. |
| `Session.FollowsExactly` | modules/collab/src/shell/session.ts:322-487 | From an agreeing state, each local operation keeps the shared containers decoding to the cache if and only if its own condition holds: storable values, a parent list that one splice can follow, no plain list that would lose a member. |
| `Session.DragEffect` | modules/collab/src/shell/session.ts:355-359 | A drag changes one entry, which keeps its size, and from an agreeing state peers decode exactly that change. |
| `Session.ResizeEffect` | modules/collab/src/shell/session.ts:360-364 | The same for a resize to a size that can be stored. |
| `Session.Session.constructor` | modules/collab/src/shell/session.ts:250-259 | Fills the shared containers from the starting state. |
| `Session.Session.SetEdgeStyle` | modules/collab/src/shell/session.ts:327-340 | In every state, cache and container take the style or lose it, as the operation on values says. |
| `Session.Session.SetNodeStyle` | modules/collab/src/shell/session.ts:341-354 | The same for a node's style. |
| `Session.Session.ReplaceOverrides` | modules/collab/src/shell/session.ts:370-373 | The cache and the stored entries become those given, with nothing else changed. |
| `Session.Session.MoveNode` | modules/collab/src/shell/session.ts:355-359 | The node goes to the given point, is pinned, and keeps its size if it has one; every other entry of the cache, and what it decodes to, stays. |
| `Session.Session.ResizeNode` | modules/collab/src/shell/session.ts:360-364 | The node takes the given box and is pinned; every other entry of the cache, and, for a size that can be stored, what it decodes to, stays. |
| `Session.Session.ClearOverrides` | modules/collab/src/shell/session.ts:365-369 | Both sides lose every position. |
| `Session.Session.GroupNodes` | modules/collab/src/shell/session.ts:374-388 | The cache and the containers gain the group under the next minted id, and the counter advances. |
| `Session.Session.UngroupAt` | modules/collab/src/shell/session.ts:389-417 | The cache dissolves the group as the pure operation does; the containers lose it and the parent's list is spliced, unless it is not a list. |
| `Session.Session.SetGroupLocked` | modules/collab/src/shell/session.ts:418-425 | The pure operation on the cache and one field of the container, or nothing when nothing changes. |
| `Session.Session.SetGroupLabel` | modules/collab/src/shell/session.ts:426-433 | The same for a caption. |
| `Session.Session.PruneGroupsTo` | modules/collab/src/shell/session.ts:434-465 | The cache is pruned as the pure operation prunes, the containers by deletions only, and it reports whether anything was dead. |
| `Session.Session.Replace` | modules/collab/src/shell/session.ts:466-487 | All four parts are replaced, in the cache and, encoded, in the containers. |
| `Session.ChangeSyncsExactly` | modules/collab/src/shell/session.ts:283-296 | Whatever the replica, a peer's change leaves cache and containers in agreement if and only if it can be decoded; otherwise the cache stays as it was. |
| `Session.Session.ApplyRemote` | modules/collab/src/shell/session.ts:283-296 | A peer's change is adopted if it decodes; otherwise the last good cache stays and the rejection is recorded. |
| `SessionRuns.UngroupWellListed` | modules/builder/src/core/groups.ts:28-44 | Dissolving keeps groups in which each member is listed once and by one group so. |
| `SessionRuns.PruneWellListed` | modules/builder/src/core/groups.ts:97-123 | So does pruning. |
| `SessionRuns.AddWellListed` | modules/builder/src/core/groups.ts:7-16 | So does grouping different members that are in no group yet. |
| `SessionRuns.WellListedDissolves` | modules/collab/src/shell/session.ts:400-412 | On such groups one splice always is enough. |
| `SessionRuns.GoodStep` | modules/collab/src/shell/session.ts:322-487 | Every local operation made with values that can be stored and members that are in no group keeps a replica in agreement, with shared lists, well-listed groups and unused ids to mint. |
| `SessionRuns.RunStaysDecoded` | modules/collab/src/shell/session.ts:205-487 | After any sequence of such local operations, and of peers' changes that decode, keep lists as lists and keep groups in good order, a peer decodes exactly what this replica caches, and the next id it mints is in no use. |
| `SessionRuns.SeededIsGood` | modules/collab/src/shell/session.ts:250-259 | A document filled from a starting state in good order is such a replica. |
| `SessionRuns.SyncedExactly` | modules/collab/src/shell/session.ts:283-487 | Any run whatever of local operations and peers' changes stays in agreement all along if and only if each operation meets its condition and each change decodes. |
| `SessionRuns.DecodableChangeHeals` | modules/collab/src/shell/session.ts:283-296 | However far cache and containers have parted, the next change that decodes brings them together. |
| `SessionRuns.LabelPastTheEnd` | modules/collab/src/shell/session.ts:327-340 | A label position of 1.5, which the session's interface takes, parts the cache from what peers decode, set or replaced. |
| `SessionRuns.PlainListKeepsDead` | modules/collab/src/shell/session.ts:449-452 | With a member list stored as a plain value, a concrete pruning leaves a dead node in the shared group and drops it from the cache. |
| `SessionRuns.DissolveParts` | modules/collab/src/shell/session.ts:400-412 | A concrete dissolve that a plain list does not follow, and one that a list naming the group twice does not. |
| `LocalDocument.NextGroupSeqFrom` | app/playground/src/document-model.ts:32-39 | One past the largest number among ids of the form g and digits. |
| `LocalDocument.MintedNumber` | app/playground/src/document-model.ts:97-99 | A minted id reads back as its number. |
| `LocalDocument.MintedText` | app/playground/src/document-model.ts:97-99 | It is the letter g and the decimal digits of the number, without a leading zero. |
| `LocalDocument.MintedIsFresh` | app/playground/src/document-model.ts:29-39 | In every run the next id is in use neither now nor in anything undo or redo could bring back, and the stacks together never exceed 100. |
| `LocalDocument.UndoRestores` | app/playground/src/document-model.ts:122-136 | Undo after a recorded point restores it, whatever edits came in between. |
| `LocalDocument.RedoInvertsUndo` | app/playground/src/document-model.ts:127-146 | Redoing as often as one has undone gives back the very same document. |
| `LocalDocument.LocalDocument.GroupNodes` | app/playground/src/document-model.ts:97-99 | Groups under the minted id and advances the counter. |
| `LocalDocument.LocalDocument.PruneGroupsTo` | app/playground/src/document-model.ts:109-114 | Prunes as the pure operation does and reports whether anything was dead. |
| `LocalDocument.LocalDocument.Replace` | app/playground/src/document-model.ts:115-121 | Takes over another overlay and moves the counter past its ids. |
| `LocalDocument.LocalDocument.Record` | app/playground/src/document-model.ts:122-126 | Pushes a snapshot, drops the oldest beyond the limit, and clears redo. |
| `LocalDocument.LocalDocument.Undo` | app/playground/src/document-model.ts:127-136 | Swaps the current state for the last recorded one. |
| `LocalDocument.LocalDocument.Redo` | app/playground/src/document-model.ts:137-146 | Swaps it back. |
| `BlockGrid.AutoPlace` | modules/layout/src/core/block.ts:91-123 | The three passes compute the slots, row tops, cells and extent of the row-major placement. |
| `BlockGrid.SiblingsApart` | modules/layout/src/core/block.ts:91-123 | Two items of a container are at least the gap apart on one axis, for every span and column count. |
| `BlockGrid.CellInside` | modules/layout/src/core/block.ts:115-122 | Every item lies inside the measured content. |
| `BlockRows.RowsFill` | modules/layout/src/core/block.ts:88-103 | The next item goes on in the row, right behind, if and only if it fits the columns that are left; otherwise it starts the next row. |
| `BlockRows.UnitLeavesInGrid` | modules/layout/src/core/block.ts:39-42 | In a container of n columns the k-th of single-column leaves stands at column k mod n and row k / n, in pitches of the cell and the gap. |
| `BlockRows.RowsTouch` | modules/layout/src/core/block.ts:104-113 | Every row begins exactly the gap below the tallest item of the row before it. |
| `BlockRows.ContentIsSnug` | modules/layout/src/core/block.ts:114-123 | The measured content is no larger than its items: one reaches its right border, and one its bottom. |
| `BlockRows.LeafSize` | modules/layout/src/core/block.ts:62-69 | A leaf spans what it declares, cut to the container's columns, and is exactly as wide as those. |
| `BlockRows.GroupIsSnug` | modules/layout/src/core/block.ts:69-86 | A composite spans as few columns as its declaration and content allow, and is exactly as wide as they are, or as its content where that needs more columns than there are. |
| `BlockLayout.ItemFitted` | modules/layout/src/core/block.ts:62-86 | An item is no wider than the columns it spans unless it takes a whole row, also when its content needs more columns than there are. |
| `BlockLayout.GroupHoldsContent` | modules/layout/src/core/block.ts:69-86 | A composite is sized to hold its content, its padding and its header. |
| `BlockLayout.Place` | modules/layout/src/core/block.ts:135-190 | The recursive placement is total, computes exactly the specified boxes, and reports running over the depth cap. |
| `BlockLayout.LayoutBlock` | modules/layout/src/core/block.ts:191-194 | The layout fails exactly when composites nest over the cap. |
| `BlockSoundness.LayoutIsSound` | modules/layout/src/core/block.ts:39-191 | Every composite's box encloses everything under it below its header, and boxes of which neither is under the other are at least the gap apart, however deep, for every diagram. |
| `BlockSoundness.EveryChildPlaced` | modules/layout/src/core/block.ts:148-188 | Within the cap every child of a placed composite is placed too. |
| `ParentForest.PathIsUnique` | modules/layout/src/core/c4.ts:46-56 | With unique ids, an element has one path from a root. |
| `ParentForest.PathIsShort` | modules/layout/src/core/c4.ts:46-48 | A path from a root never meets an element twice, so the recursion ends without a depth cap. |
| `Nesting.AddKidSound` | modules/layout/src/core/c4.ts:81-94 | Placing one more child beside its siblings keeps enclosure and separation. |
| `C4Layout.PlaceKids` | modules/layout/src/core/c4.ts:76-94 | Children stand in rows of the given number, a gap apart and each row a gap below the tallest of the one before; each lies in the container's region and every element under the container is placed once. |
| `C4Layout.Place` | modules/layout/src/core/c4.ts:70-99 | Total for unique ids; a boundary's box encloses everything placed under it. |
| `C4Layout.LayoutC4` | modules/layout/src/core/c4.ts:45-134 | Ends on every diagram; fails exactly on a duplicate id or an element that does not hang on a root; otherwise every element has its box, nested and kept apart as the elements are: a leaf as wide as its label, a boundary drawn close around its children in rows of the smallest square that holds them, and the roots in one row. |
| `C4Layout.OneBoxEach` | modules/layout/src/core/c4.ts:46-56 | No element has two boxes. |
| `VariableGrid.ComputeGrid` | modules/layout/src/core/grid.ts:21-56 | Column and row maxima, prefix sums and totals give the specified grid. |
| `VariableGrid.ItemsApart` | modules/layout/src/core/grid.ts:16-20 | Two items are the gap apart, in different columns or different rows. |
| `VariableGrid.ItemInside` | modules/layout/src/core/grid.ts:49-55 | Every item lies inside the reported extent. |
| `VariableGrid.ItemsAlign` | modules/layout/src/core/grid.ts:45-48 | Item i stands in column i mod n and row i / n. |
| `VariableGrid.ColumnsTouch` | modules/layout/src/core/grid.ts:33-38 | A column begins exactly the gap behind the widest item of the one before it. |
| `VariableGrid.RowsTouch` | modules/layout/src/core/grid.ts:39-44 | A row begins exactly the gap below the tallest item of the one before it. |
| `VariableGrid.GridIsSnug` | modules/layout/src/core/grid.ts:49-53 | Some item ends at the grid's right border, and some at its bottom. |
| `NetworkLayout.GroupHolds` | modules/layout/src/core/network.ts:122-138 | A group's box holds its members' grid, its padding and its title band. |
| `NetworkLayout.Place` | modules/layout/src/core/network.ts:140-201 | Every box lies in its container's region, boxes enclose and keep apart as the members nest, running over the cap is reported, and otherwise exactly the members reached through groups are placed. |
| `NetworkLayout.LayoutNetwork` | modules/layout/src/core/network.ts:203-206 | The layout fails exactly when groups nest over the cap. Otherwise exactly the elements all of whose ancestors are groups get one box each, nested and kept apart as the elements are: a node its cell, a group as large as its title or its members' grid needs, with its members in a squarish grid, and the ungrouped in one row. |
| `Reach.KidsAreAll` | modules/layout/src/core/network.ts:140-201 | What is placed for a container's children is exactly what is reached under it. |
| `CloudCollapse.ParentMapIs` | modules/layout/src/core/cloud.ts:106-106 | Looked up by id, the last declaration counts. |
| `Ancestors.AllWalksEndExactly` | modules/layout/src/core/cloud.ts:110-121 | The uncapped walks up end for all elements if and only if none is its own ancestor. |
| `Ancestors.TwoGoRound` | modules/layout/src/core/cloud.ts:110-118 | Two that lead to each other: the walk from either never ends. |
| `CloudCollapse.TwinInTwin` | modules/layout/src/core/cloud.ts:136-138 | An element nested in its twin: the walk up from it never ends. |
| `CloudCollapse.EachInTheOther` | modules/layout/src/core/cloud.ts:110-118 | Two elements that are each other's parents: neither does. |
| `CloudCollapse.AnchorOf` | modules/layout/src/core/cloud.ts:110-118 | Wherever the walk up ends, it yields the outermost collapsed ancestor, or the element itself. |
| `CloudCollapse.OwnAnchorExactly` | modules/layout/src/core/cloud.ts:110-121 | An element is unhidden exactly when none of the ancestors of its last declaration is collapsed. |
| `CloudCollapse.AgreeExactly` | modules/layout/src/core/cloud.ts:105-162 | Placement and hiding agree on an id, whatever is collapsed, if and only if every way from a root to a declaration of it goes through all ancestors of the last one, and some way through no other. |
| `CloudCollapse.CollapseIsConsistent` | modules/layout/src/core/cloud.ts:105-162 | For an id whose last declarations hang on a root: its anchor is placed and is its own anchor, and placement and hiding agree, whatever is collapsed, if and only if every way to a declaration goes through all ancestors of the last one. |
| `CloudCollapse.UniqueAgrees` | modules/layout/src/core/cloud.ts:105-162 | With unique ids they always agree. |
| `CloudCollapse.TwinHiddenYetPlaced` | modules/layout/src/core/cloud.ts:105-162 | A leaf declared in two groups, the second of them collapsed: hidden, although it is placed in the first. |
| `CloudLayout.Place` | modules/layout/src/core/cloud.ts:139-162 | For every list of elements, repeated ids included: places exactly the declarations reached through open elements, unless it runs over the cap; a group's box encloses its children's below its label, children keep apart, and what shows no children is as wide as its label. |
| `CloudLayout.PlaceRoots` | modules/layout/src/core/cloud.ts:164-177 | Each top-level box goes on in the row if it ends within the width there and otherwise starts the next one, below the tallest; all keep apart and nest as the elements do, and groups are drawn close around their children in one row. |
| `CloudLayout.SameSize` | modules/layout/src/core/cloud.ts:139-174 | An element is as large wherever it is placed, so placing it again in the next row changes no size. |
| `CloudLayout.BoxesOf` | modules/layout/src/core/cloud.ts:133-133 | The box of an id is the one placed last for any declaration of it. |
| `CloudLayout.DrawElements` | modules/layout/src/core/cloud.ts:186-208 | Draws exactly the unhidden declarations, once each and in order, in the boxes of their ids, and fails exactly when one of them has none. |
| `CloudLayout.DrawLinks` | modules/layout/src/core/cloud.ts:211-221 | Kept links are drawn between anchors, once each and in order, those whose different ends fall together are dropped, and it fails exactly when a kept one has an end without a box. |
| `CloudLayout.LinksTouchNothingHidden` | modules/layout/src/core/cloud.ts:211-221 | No drawn link touches a hidden element. |
| `CloudLayout.LayoutCloud` | modules/layout/src/core/cloud.ts:82-250 | Succeeds exactly when nothing nests over the cap, every unhidden element has a box and every kept link has boxes at its anchors; then what is placed, drawn and linked is as above. |
| `CloudLayout.HangingIsShown` | modules/layout/src/core/cloud.ts:186-225 | When every id hangs on a root by its last declarations, nothing but too deep nesting can fail. |
| `CloudLayout.UniqueIsWellDrawn` | modules/layout/src/core/cloud.ts:186-208 | With unique ids every drawn element has the box of its own place, so what is drawn nests and keeps apart as the elements do. |
| `CloudLayout.TwinDrawnOutside` | modules/layout/src/core/cloud.ts:186-208 | A leaf declared in two groups is drawn twice in the box of the second, apart from the first group. |
| `Gantt.NextWorking` | modules/layout/src/core/gantt.ts:77-81 | Ends for every finite holiday set, on the first day, counting on by whole days, that is not seen to be off. |
| `Gantt.WeekendsAre` | modules/layout/src/core/gantt.ts:59-62 | Of every seven days from 1 January 1970 on, exactly the third and the fourth are a weekend. |
| `Gantt.WorkingEnd` | modules/layout/src/core/gantt.ts:84-97 | Ends for every start and duration, where the remaining duration runs out day by day. |
| `Gantt.WorkedAddsUp` | modules/layout/src/core/gantt.ts:84-97 | The stretches it is spent in follow one another up to that end, begin on no instant seen to be off, and add up to the duration but for a rest of at most 1e-9. |
| `Gantt.WholeStartFills` | modules/layout/src/core/gantt.ts:82-97 | From the beginning of a day any duration, in hours too, is honoured: the span to the end holds exactly that working time and ends as soon as it does. |
| `Gantt.SpentOnWorkingDaysExactly` | modules/layout/src/core/gantt.ts:74-97 | A duration is spent on working days only if and only if it starts with a day or would meet no day off if nothing were skipped. |
| `Gantt.SpansIsUnique` | modules/layout/src/core/gantt.ts:82-97 | There is only one such end. |
| `Gantt.Schedule` | modules/layout/src/core/gantt.ts:111-152 | Fails exactly when a task waits for one not declared before it; otherwise each task starts on the first working day from its date or its latest predecessor's end, and ends where its duration runs out. |
| `Gantt.WholeDaySchedule` | modules/layout/src/core/gantt.ts:61-71 | With whole-day durations every task starts on a working day and spans exactly its duration in working days. |
| `Gantt.WholeStartHonoured` | modules/layout/src/core/gantt.ts:111-152 | In any schedule a dated task, and any other that starts with a day, starts on a working day and has its duration honoured, in hours too. |
| `Gantt.ScheduleWorksExactly` | modules/layout/src/core/gantt.ts:66-97 | In any schedule a task is worked on working days only if and only if it starts with a day or would meet no day off if nothing were skipped. |
| `Gantt.HalfDayHidesHoliday` | modules/layout/src/core/gantt.ts:74-97 | A concrete chart where, after a half-day task, the next one is spent on a holiday, in every schedule the program can make. |
| `Gantt.HalfDayRunsIntoWeekend` | modules/layout/src/core/gantt.ts:84-97 | Another where it is spent on a Saturday morning, although each instant of a weekend is seen to be off. |
| `Transport.DelayIsCapped` | modules/collab/src/shell/transport.ts:198-207 | Base delays do not shrink with the attempts and never exceed the cap; with jitter the delay is at most the cap plus its jitter share. |
| `Transport.BackoffDoubles` | modules/collab/src/shell/transport.ts:196-207 | Each base delay is twice the one before until the cap is reached. |
| `Transport.JitterIsDrawn` | modules/collab/src/shell/transport.ts:206 | A draw of 0 adds nothing to the delay and one of 1 the whole jitter. |
| `Transport.RoundsToNearest` | modules/collab/src/shell/transport.ts:206 | Delays are rounded to the nearest millisecond, halves up. |
| `Transport.ReconnectingTransport.OnOpen` | modules/collab/src/shell/transport.ts:253-260 | An open resets the attempts and reports a recovery once. |
| `Transport.ReconnectingTransport.OnClose` | modules/collab/src/shell/transport.ts:264-274 | A close is ignored once stopped, passed on if it is a policy close, and otherwise retried. |
| `Transport.ReconnectingTransport.Retry` | modules/collab/src/shell/transport.ts:277-293 | A retry is scheduled within the budget; beyond it the close is surfaced. |
| `Transport.ReconnectingTransport.OnTimer` | modules/collab/src/shell/transport.ts:289-293 | A due retry mints a socket unless stopped. |
| `Transport.StepKeeps` | modules/collab/src/shell/transport.ts:217-314 | Every event keeps the machine's invariant. |
| `Transport.StoppedIsFinal` | modules/collab/src/shell/transport.ts:236-239 | Once stopped, nothing more is minted, scheduled or surfaced. |
| `Transport.ClosesOnce` | modules/collab/src/shell/transport.ts:209-216 | In every run the consumer hears of at most one close, of none after its own close, and of one exactly when the transport stopped by itself. |
| `Transport.PolicyIsFinal` | modules/collab/src/shell/transport.ts:17-20 | A policy close is surfaced as it is and no socket is ever minted after it. |
| `Transport.RetriesAreBounded` | modules/collab/src/shell/transport.ts:180-196 | In any stretch of any run without an open at most the budget of sockets is minted. |
| `Transport.WholeBudgetIsUsed` | modules/collab/src/shell/transport.ts:209-216 | Once a connection has opened, each of up to `maxRetries` failures in a row is healed by one more socket, with the delays of the schedule, and only the next one is surfaced. |
| `Transport.OpenRestoresBudget` | modules/collab/src/shell/transport.ts:253-260 | An open gives the whole budget back, and is reported as a recovery exactly after a retry. |
| `Transport.NeverStranded` | modules/collab/src/shell/transport.ts:209-216 | Until it stops, either the newest socket is alive or exactly one retry is due, and no older socket is alive. |
| `Rename.IdentCharsAre` | modules/builder/src/core/patch.ts:856-858 | Identifiers are made of the ASCII letters and digits and the underscore, by code point, and of nothing else. |
| `Rename.TokensAreMaximal` | modules/builder/src/core/patch.ts:856-858 | Cutting a text into maximal identifier runs and single other characters loses nothing. |
| `Rename.CutIsUnique` | modules/builder/src/core/patch.ts:856-858 | There is only one such cut. |
| `Rename.RenameBlockId` | modules/builder/src/core/patch.ts:859-877 | The character scan replaces exactly the maximal identifier runs equal to the old id. |
| `Rename.RenamedTokens` | modules/builder/src/core/patch.ts:851-855 | The renamed text has the same runs and separators in the same order, but for those renamed. |
| `Rename.RenameBack` | modules/builder/src/core/patch.ts:851-877 | Renaming back restores the text if and only if the new id was not already in it. |

## Left out

- Floating-point rounding: lengths, times, rates and scores are exact reals; ids and counters are unbounded integers.
- The CRDT libraries and the merging of several replicas: the relay's document is a set of updates, and a session is one replica with plain maps and lists.
- Authorisation, room-name parsing, AUTH frames and the handshake reaper: a connection may be rejected at any moment, which covers them, the flood limit and the rate limit.
- Sending of role and seed control frames, log throttling, and the order in which one socket's frames are sent.
- Relay replay: the model does not make a replayed frame's handler finish before the next one starts, so it allows more interleavings than the code.
- RelayDurability.NoUpdateLost: one direction only; a run with a failed or overwriting save loses nothing where a later save stores it all again.
- RelayMembership.NeverForks: a panic inside the CRDT library is not modelled; a malformed update leaves the document unchanged.
- Maze input with obstacles of no width or height: routes are then still axis-aligned, but clearing is claimed only when every obstacle has an inside, as merged segments can pass through a degenerate one.
- MindmapConnect.ConnectMindmap: node ids are positions, as the parser mints them; the text is its lines, and whether a line is a node depends on its text only, so a node that is spelt like the header is not modelled.
- The other text edits (flow, state, class, entity and git graph edits, timelines, deletions and style directives).
- GroupEdits.DissolveKeepsLeaves, GroupEdits.AroundAreHolders, Groups.ParentLists and GroupWalks.RankedNodeWalks: groups stored under a key other than their own id, which the decoder accepts, are not covered.
- OverlayCodec.OverlayRoundTrip: the insertion order of decoded maps is not modelled, and JSON is taken as a value, not as text.
- Session: sizes are numbers of any sign, where the program builds none below zero; undo and redo belong to the shared-document library and appear as remote changes; the text of minted ids is a parameter; listeners and persistence are left out.
- Session.Session.ApplyRemote: a group value that is not a shared map at all is refused by the decoder and is not represented.
- Session.Session.UngroupAt and Session.Session.PruneGroupsTo: while a peer's change is rejected, stored members may be anything; the model compares the kind and id of those that have both as text and takes the others to match nothing, where the program would throw on a null.
- LocalDocument: ids longer than a double can count exactly, and the injected save.
- Edges and port spreading of the box layouts; relations and links that name unknown elements fail there, except in the cloud model.
- BlockLayout.LayoutBlock: label widths are parameters, and the edges that make a layout fail are not modelled.
- CloudLayout.LayoutCloud: requires that no element is its own ancestor, without which the program does not come to an end; link routes are not modelled.
- Gantt geometry (bars, bands, connectors) and date parsing: days are numbers since the epoch.
- Transport: sockets, timers and jitter are events and parameters; a consumer that calls back into the transport from a callback is not modelled.
- Mindmap and git graph drawing, edge energy, PDF output and the user interface.
