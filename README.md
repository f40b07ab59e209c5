# Dynamic Fog: a Dafny model of its reconciliation engine and door tool

Dynamic Fog is an Owlbear Rodeo extension. For every shared scene item
that carries a light or door data, it keeps local items (lights,
visibility polygons, walls, door overlays) and native CanvasKit paths.
This project models the part that keeps those in step with the shared
scene:

- **Patcher** (`patcher.dfy`, module `Patching`). It buffers additions,
  deletions and per-id updater lists. `submitChanges` sends them in three
  ordered host calls, or none at all while the scene is not ready.
  `updates.dfy` (module `Updates`) gives the updater closures as data and
  states what each one does to a local item.
- **Reactor** (`reactor.dfy`, `reactor_filters.dfy`). It is one class
  tagged by kind: door, wall, light, self-light, light overlay or door
  overlay. Each reactor owns a map from item ids to actors.
  `process(added, deleted, updated)` creates, deletes and updates actors.
  Each kind has its own filter and diff. The door reactor caches the doors
  of its actors. The light reactor holds the player, the role and the wall
  cache.
- **Reconciler** (`reconciler.dfy`, `diff.dfy`). `processReactor` splits a
  host snapshot into added, deleted and updated items for each reactor.
  `reconcile`, `register`, `unregister`, `delete` and `handleSceneReady`
  drive the reactors and the patcher. So do the light reactor's player
  and wall handlers.
- **Actors** (`door_actor.dfy`, `door_overlay_actor.dfy`,
  `light_actor.dfy`, `light_edits.dfy`, `light_overlay_actor.dfy`,
  `self_light_actor.dfy`, `wall_actor.dfy`, `actors.dfy`). These are the
  per-item state and the local items each actor stages. Door actors own
  native paths, which live in an explicit heap of handles (`Natives` in
  `canvas_kit.dfy`). The proofs show that every path a door actor holds
  is released exactly once. They do not cover every native object: the
  door overlay can leak a sub-path it builds (`LeakShown`), and the path
  helpers' contour iterators are not tracked.
- **Path and wall helpers** (`path_helpers.dfy`, `wall_helpers.dfy`):
  - regrouping a native path's flat command stream into commands;
  - the nearest-point search on an outline;
  - the sub-path between two contour markers;
  - curve sampling;
  - splitting a door-cut outline into wall contours.
- **Door tool** (`door_mode.dfy`). It places a door by dragging along a
  fog drawing's outline, and toggles or deletes a door by clicking its
  overlay.

CanvasKit, the visibility-polygon library and the SDK's matrix helpers are
foreign code. They appear as function-valued fields of one `Kit` value
(`canvas_kit.dfy`). Their results are used but never computed.

## Model

| member | source | states |
|---|---|---|
| Patching.For | src/background/reconcile/Patcher.ts:35-44 | the updaters staged for one id, in staging order (never more than were staged) |
| Patching.StageAllFor | src/background/reconcile/Patcher.ts:35-44 | after updateItems, an id's list is its old list followed by exactly the updaters staged for it, in order |
| Patching.StageAllKeys | src/background/reconcile/Patcher.ts:35-44 | the updates map has exactly the old ids and the newly staged ids as keys |
| Patching.OrderKeys | src/background/reconcile/Patcher.ts:35-44 | the map's key order stays duplicate-free and lists exactly the old and the staged ids |
| Patching.StageAllAppend | src/background/reconcile/Patcher.ts:35-44 | staging in two calls equals staging the concatenation in one call |
| Patching.OrderAppend | src/background/reconcile/Patcher.ts:35-44 | the key order after two calls equals the key order after one call on the concatenation |
| Patching.Staging.DeleteNone | src/background/reconcile/Patcher.ts:28-30 | deleteItems with no ids changes nothing |
| Patching.Staging.DeleteTwice | src/background/reconcile/Patcher.ts:28-30 | two deleteItems calls stage the same as one call with both id lists |
| Patching.Staging.UpdateTwice | src/background/reconcile/Patcher.ts:35-44 | two updateItems calls stage the same as one call with both lists |
| Patching.OrderNonEmpty | src/background/reconcile/Patcher.ts:62 | a non-empty key order means a non-empty updates map, so `updates.size > 0` sees every staged id |
| Patching.FlushNotReady | src/background/reconcile/Patcher.ts:49-77 | while not ready, submitChanges makes no host call |
| Patching.FlushReady | src/background/reconcile/Patcher.ts:49-77 | while ready: deletions, then additions, then updates; each non-empty buffer is sent once with its contents, and an empty one makes no call |
| Patching.RunCallback | src/background/reconcile/Patcher.ts:64-73 | the callback's loop runs every updater staged for each item's id on that item, in staging order |
| Patching.UpdatedRunsStaged | src/background/reconcile/Patcher.ts:35-73 | staged into an empty buffer and run by the callback, each item goes through exactly the updaters staged for its id |
| Patching.Patcher.constructor | src/background/reconcile/Patcher.ts:8-12 | empty buffers, not ready, nothing sent |
| Patching.Patcher.SetReady | src/background/reconcile/Patcher.ts:14-16 | only the ready flag changes |
| Patching.Patcher.AddItems | src/background/reconcile/Patcher.ts:21-23 | the items are appended to the additions; nothing else changes |
| Patching.Patcher.DeleteItems | src/background/reconcile/Patcher.ts:28-30 | the ids are appended to the deletions; nothing else changes |
| Patching.Patcher.UpdateItems | src/background/reconcile/Patcher.ts:35-44 | each updater is pushed onto its id's list, or starts a new list whose id goes last in the key order |
| Patching.Patcher.SubmitChanges | src/background/reconcile/Patcher.ts:49-77 | every buffer is emptied, and the host calls of Flush (none when not ready) are appended to what was sent |
| Updates.Apply | src/background/reconcile/actors/LightActor.ts:72-97 | each updater changes only an item of its own type; ids, attachments and item types never change; the wall, billboard and door-path updaters set exactly the fields the closures write |
| Updates.ApplyAll | src/background/reconcile/Patcher.ts:68-70 | running a list of updaters keeps the item's id and type |
| Updates.ApplyAllAppend | src/background/reconcile/Patcher.ts:68-70 | running two lists in turn equals running their concatenation |
| ReactorFilters.DrawingReactorsAgree | src/background/reconcile/reactors/DoorReactor.ts:20-22 | the door, wall and door-overlay filters accept the same items: exactly the drawings on the fog layer |
| ReactorFilters.LightFilterCases | src/background/reconcile/reactors/LightReactor.ts:39-47 | only items with a light config pass; a GM sees every light; a player sees a light that is not owner-only, or one they created; nothing else passes |
| ReactorFilters.SelfLightCases | src/background/reconcile/reactors/SelfLightReactor.ts:14-31 | the filter rejects items with no light, with no angle or a full 360 degree angle, and secondary lights, and accepts every other light |
| ReactorFilters.OverlayIgnoresOwner | src/background/reconcile/reactors/LightOverlayReactor.ts:12-14 | the light overlay shows every light the light reactor would show, owner-only or not |
| ReactorFilters.DefaultDiffCases | src/background/reconcile/Reactor.ts:72-80 | two parsed dates differ exactly when their milliseconds differ; a NaN date always counts as changed, even compared with itself |
| ReactorFilters.WallFollowsDoors | src/background/reconcile/reactors/WallReactor.ts:23-28 | once its door reactor has changed, a wall reactor counts every wall as changed |
| Reactors.Without | src/background/reconcile/Reactor.ts:55 | `actors.delete(id)` on the key order keeps exactly the other keys and keeps them distinct |
| Reactors.Appended | src/background/reconcile/Reactor.ts:47-50 | the key order after the added phase lists exactly the old keys and the added ids, with no repeats |
| Reactors.Removed | src/background/reconcile/Reactor.ts:51-57 | the key order after the deleted phase lists exactly the old keys that were not deleted |
| Reactors.Spawn | src/background/reconcile/Reactor.ts:48-49 | the new actor is fresh and of the reactor's kind; the map stays consistent; native paths outside the map are kept; the staged additions grow by what its constructor creates |
| Reactors.SpawnAll | src/background/reconcile/Reactor.ts:47-50 | the added phase: a fresh actor under every added id; other entries are untouched; the key order is Appended; the phase only adds to the staging (`made`), never deletes or updates |
| Reactors.SpawnEach | src/background/reconcile/Reactor.ts:47-50 | the added loop: every added item in order gets a fresh actor, the map stays consistent, and the staging grows only by additions |
| Reactors.Release | src/background/reconcile/Reactor.ts:52-56 | the actor under the id releases exactly its native paths, stages its local items' deletion and leaves the map |
| Reactors.ReleaseAll | src/background/reconcile/Reactor.ts:51-57 | the deleted phase: the map loses exactly the deleted ids; exactly their paths are released and their local ids staged for deletion |
| Reactors.HeldInAll | src/background/reconcile/Reactor.ts:37-39 | walking the key order reaches every path the map holds |
| Reactors.DropEvery | src/background/reconcile/Reactor.ts:36-41 | delete: every actor, in map order, releases what it holds, so exactly the map's paths leave the heap |
| Reactors.CacheHeld | src/background/reconcile/reactors/DoorReactor.ts:27-32 | the door cache holds exactly the paths the door actors hold |
| Reactors.Reactor.constructor | src/background/reconcile/Reactor.ts:23-29 | an empty map, an empty door cache, and a light state of player "unset" with role PLAYER and no walls (LightReactor.ts:21-26) |
| Reactors.Reactor.Delete | src/background/reconcile/Reactor.ts:36-41 | every held path is released; each actor's deletions are staged in map order; the map is cleared |
| Reactors.Reactor.DeletePhase | src/background/reconcile/Reactor.ts:51-57 | the map loses exactly the deleted ids, and exactly their paths and local items go |
| Reactors.Reactor.UpdateOne | src/background/reconcile/Reactor.ts:58-64 | an id with no actor changes nothing; otherwise the actor updates, its staging is `UpdateStaging`, and the rest of the heap is kept; self-light and light-overlay actors stage nothing |
| Reactors.UpdateAt | src/background/reconcile/Reactor.ts:58-64 | the actor under the id updates in place: the map stays consistent, other actors and the heap outside its paths are kept, and the staging is `UpdateStaging` |
| Reactors.Reactor.UpdatePhase | src/background/reconcile/Reactor.ts:58-64 | every updated item's actor, if any, updates; the map stays consistent |
| Reactors.Reactor.RebuildDoors | src/background/reconcile/reactors/DoorReactor.ts:26-34 | the cache is the door actors' doors concatenated in map order, and didUpdate is the given flag |
| Reactors.Reactor.SetDoors | src/background/reconcile/reactors/DoorReactor.ts:27-34 | only the cache and the flag change |
| Reactors.Reactor.Phases | src/background/reconcile/Reactor.ts:46-65 | process: the keys become (old + added) - deleted, in Removed(Appended(order)) order; kept actors are the same objects; new ones are fresh |
| Reactors.Reactor.Process | src/background/reconcile/reactors/DoorReactor.ts:24-35 | the same, and a door reactor's cache is its actors' doors in map order, with didUpdate true exactly when a list was non-empty |
| Reactors.Reactor.AddPhase | src/background/reconcile/Reactor.ts:47-50 | the map gains exactly the added ids, each with a fresh actor; the staging only gains additions (`made`), and the id source advances by their number |
| Reactors.Reactor.Store | src/background/reconcile/Reactor.ts:19 | the map and its order are replaced; no actor changes |
| Reactors.Reactor.SetLight | src/background/reconcile/reactors/LightReactor.ts:12-17 | only the light reactor's own fields change |
| Actors.NewActor | src/background/reconcile/Reactor.ts:48 | `new ActorClass(reconciler, parent)`: a fresh, consistent actor of the reactor's kind, holding only new native paths; the staged additions grow by exactly the items that kind's constructor creates (`Created`), numbered from the next id |
| Actors.DeleteActor | src/background/reconcile/Actor.ts:18 | actor.delete releases exactly the actor's paths and stages exactly its local ids for deletion |
| Actors.UpdateActor | src/background/reconcile/Actor.ts:19 | actor.update keeps the actor consistent and touches only its own paths; the staging becomes `UpdateStaging` of the actor: the wall and door-overlay resizes and updaters, the light updaters, or nothing |
| Actors.UpdateWall | src/background/reconcile/actors/WallActor.ts:30-67 | a wall actor's update keeps its ids owned, releases no path, and its staging is `WallStaging` |
| Actors.UpdateOverlay | src/background/reconcile/actors/DoorOverlayActor.ts:76-145 | a door-overlay actor's update keeps its ids owned, only adds paths, and its staging is `OverlayStaging` |
| Actors.HeldLive | src/background/reconcile/actors/DoorActor.ts:26-30 | every path a consistent actor holds is live, so its delete may release it |
| Diffs.SnapshotMap | src/background/reconcile/Reconciler.ts:75-78 | prevItems after clear and set: its keys are the items' ids, each stored under its own id |
| Diffs.KeyOrder | src/background/reconcile/Reconciler.ts:75-78 | prevItems' key order: each id once, exactly the items' ids |
| Diffs.Values | src/background/reconcile/Reconciler.ts:92 | prevItems.values() in key order |
| Diffs.ValuesMap | src/background/reconcile/Reconciler.ts:92 | a snapshot of prevItems.values() gives back prevItems |
| Diffs.ValuesOrder | src/background/reconcile/Reconciler.ts:92 | ... with the same key order |
| Diffs.RefreshKeeps | src/background/reconcile/Reconciler.ts:68-79 | reconciling against prevItems.values() keeps the snapshot and its order, and the values have unique ids |
| Diffs.SnapshotHolds | src/background/reconcile/Reconciler.ts:76-78 | with unique ids, the snapshot holds every item under its id |
| Diffs.MatchedIds | src/background/reconcile/Reconciler.ts:128-142 | the ids that `deletedIds.delete` takes out are ids of the items |
| Diffs.MatchedIff | src/background/reconcile/Reconciler.ts:129-141 | an id is matched exactly when some item with it passes the filter |
| Diffs.AddedIff | src/background/reconcile/Reconciler.ts:130-139 | an item is added exactly when it passes the filter and lacks a previous version or an actor |
| Diffs.UpdatedIff | src/background/reconcile/Reconciler.ts:131-136 | an item is updated exactly when it passes, has a previous version and an actor, and the diff fires |
| Diffs.DeletedIff | src/background/reconcile/Reconciler.ts:144-149 | a previous item is deleted exactly when its id was not matched and the filter accepts its previous version |
| Diffs.DeletedIgnoresActors | src/background/reconcile/Reconciler.ts:144-149 | the deleted list does not depend on which actors exist |
| Diffs.Disjoint | src/background/reconcile/Reconciler.ts:121-152 | added, updated and deleted are pairwise disjoint by id |
| Diffs.AddedIsNew | src/background/reconcile/Reconciler.ts:132-139 | while actors exist only for previous ids, an added id never has an actor yet |
| Diffs.PassTracks | src/background/reconcile/Reconciler.ts:121-152 | if the actors were previous items the filter accepts, after process they are exactly the new items it accepts |
| Diffs.SnapshotTracked | src/background/reconcile/Reconciler.ts:75-78 | with unique ids, the accepted ids of the snapshot are the accepted ids of the items |
| Diffs.HydrationIds | src/background/reconcile/Reconciler.ts:90-97 | the hydration list holds exactly the previous items the filter accepts |
| Diffs.HydrationTracks | src/background/reconcile/Reconciler.ts:90-97 | register gives a new reactor an actor key for every previous item it accepts |
| Diffs.Idempotent | src/background/reconcile/Reconciler.ts:121-152 | a second pass on the same snapshot, with parsable dates and no door or wall change, yields no added, deleted or updated item |
| Diffs.NaNUpdatesAgain | src/background/reconcile/Reactor.ts:72-80 | an unparsable date makes the same snapshot update again on every pass |
| Diffs.FilterChangeLeaks | src/background/reconcile/Reconciler.ts:144-149 | when a filter narrows (GM to player), an actor for an item that stays in the scene is never deleted |
| Diffs.WallsFollowDoors | src/background/reconcile/reactors/WallReactor.ts:23-28 | once doors changed, a wall reactor updates every accepted wall it already has |
| Diffs.DirtyLightsRebuild | src/background/reconcile/reactors/LightReactor.ts:49-51 | while the walls are dirty, a light reactor updates every accepted light it already has |
| Diffs.GmTracksMore | src/background/reconcile/reactors/LightReactor.ts:42 | a light view that turns GM accepts at least what it accepted before |
| Diffs.GmIgnoresId | src/background/reconcile/reactors/LightReactor.ts:42-45 | a GM's light view does not depend on the player id |
| Diffs.FilterOnly | src/background/reconcile/Reconciler.ts:129-149 | only kind, role and player id decide which actors a pass keeps |
| Reconcilers.FindKind | src/background/reconcile/Reconciler.ts:117-119 | the first reactor of the kind, or null exactly when none is registered |
| Reconcilers.IndexOf | src/background/reconcile/Reconciler.ts:108 | indexOf: -1 exactly when absent, otherwise the first position |
| Reconcilers.UnregisteredKeeps | src/background/reconcile/Reconciler.ts:106-115 | over distinct reactors, unregister keeps exactly those not named, still distinct |
| Reconcilers.SpliceKeeps | src/background/reconcile/Reconciler.ts:110 | splice(index, 1) drops exactly the reactor at that index |
| Reconcilers.MaxStamp | src/background/reconcile/reactors/LightReactor.ts:80-82 | Math.max over the walls' dates: -Infinity for no walls, NaN if any date is NaN, otherwise the largest date |
| Reconcilers.WallsOf | src/background/reconcile/reactors/LightReactor.ts:79 | exactly the local items that are walls |
| Reconcilers.WallLines | src/background/reconcile/reactors/LightReactor.ts:90-96 | one line string per wall |
| Reconcilers.GuardNeverSkipsDatedWalls | src/background/reconcile/reactors/LightReactor.ts:83-88 | because wallsLastModified stays 0, any wall dated after the epoch always passes the early return |
| Reconcilers.GuardSkipsNoWalls | src/background/reconcile/reactors/LightReactor.ts:83-88 | with no walls now and none stored, the handler returns early |
| Reconcilers.MatchAllTracks | src/background/reconcile/Reconciler.ts:68-79 | reactors that match a snapshot with unique ids track its map |
| Reconcilers.Reconciler.constructor | src/background/reconcile/Reconciler.ts:20-39 | no reactors, an empty snapshot, and a fresh patcher that is not ready |
| Reconcilers.Reconciler.Find | src/background/reconcile/Reconciler.ts:117-119 | a registered reactor of the kind, or null exactly when there is none |
| Reconcilers.Reconciler.NewReactor | src/background/reconcile/reactors/WallReactor.ts:10-17 | creating a wall reactor fails unless a door reactor is registered; otherwise a fresh reactor with no actors |
| Reconcilers.Reconciler.ProcessReactor | src/background/reconcile/Reconciler.ts:121-152 | reactor i's keys become KeysAfter of its diff; every other reactor is unchanged |
| Reconcilers.Reconciler.RunAt | src/background/reconcile/Reconciler.ts:151 | reactor.process on the reactor at i: its keys become (old + added) - deleted; the others are unchanged |
| Reconcilers.Reconciler.DeleteAt | src/background/reconcile/Reconciler.ts:46 | reactor.delete on the reactor at i empties it and releases exactly the paths it held; the others are unchanged |
| Reconcilers.Reconciler.ClearAll | src/background/reconcile/Reconciler.ts:57-59 | every reactor ends with no actor, every path the reactors held is released, and the light states are kept |
| Reconcilers.Reconciler.Submit | src/background/reconcile/Reconciler.ts:73 | the patcher is emptied and sends what Flush gives |
| Reconcilers.Reconciler.SetPrev | src/background/reconcile/Reconciler.ts:75-78 | the snapshot becomes SnapshotMap(items) with key order KeyOrder(items); the reactors are untouched |
| Reconcilers.Reconciler.Finish | src/background/reconcile/Reconciler.ts:73-78 | submit, then take the snapshot; reactors that matched the items now track it |
| Reconcilers.Reconciler.RunReactors | src/background/reconcile/Reconciler.ts:69-71 | each reactor's keys become its KeysAfter; from a state within the snapshot, every reactor's actors are exactly the new items it accepts |
| Reconcilers.Reconciler.Reconcile | src/background/reconcile/Reconciler.ts:68-79 | the new snapshot is taken; all staged changes are sent once; a reconciler within its previous snapshot ends up tracking the new one |
| Reconcilers.Reconciler.Delete | src/background/reconcile/Reconciler.ts:41-49 | every reactor ends with no actor and every path they held is released; one submit |
| Reconcilers.Reconciler.SetReady | src/background/reconcile/Reconciler.ts:52 | only the patcher's ready flag changes |
| Reconcilers.Reconciler.ClearScene | src/background/reconcile/Reconciler.ts:55-61 | with the scene not ready, the reactors are cleared, their paths released, and nothing is sent |
| Reconcilers.Reconciler.HandleSceneReady | src/background/reconcile/Reconciler.ts:51-62 | ready: the patcher becomes ready, the scene is reconciled and one flush is sent; not ready: every reactor is cleared and its paths released, nothing is sent and the snapshot stays |
| Reconcilers.Reconciler.SceneReady | src/background/reconcile/Reconciler.ts:52-54 | the patcher is ready, one flush is sent, and the reconciler tracks the new snapshot |
| Reconcilers.Reconciler.SceneNotReady | src/background/reconcile/Reconciler.ts:52-61 | not ready; every reactor is empty and every path it held released; the snapshot and what was sent are kept |
| Reconcilers.Reconciler.Hydrate | src/background/reconcile/Reconciler.ts:90-97 | the new reactor's keys are exactly the previous items its filter accepts |
| Reconcilers.Reconciler.Register | src/background/reconcile/Reconciler.ts:86-101 | the reactors are appended; each new one tracks the snapshot; the old ones are unchanged; one submit; tracking is preserved |
| Reconcilers.Reconciler.DropAt | src/background/reconcile/Reconciler.ts:109-111 | the reactor at i is spliced out, emptied and its paths released; the others hold the same paths |
| Reconcilers.Reconciler.Unregister | src/background/reconcile/Reconciler.ts:106-115 | the list becomes Unregistered(old, gone); every dropped reactor is emptied and its paths released, the others are unchanged; one submit |
| Reconcilers.Reconciler.SetLightAt | src/background/reconcile/reactors/LightReactor.ts:53-72 | only light reactor i's own fields change; a filter that accepts more keeps the reconciler within its snapshot |
| Reconcilers.Reconciler.Refresh | src/background/reconcile/reactors/LightReactor.ts:74-76 | refresh reconciles against the previous snapshot: the snapshot is kept and the reconciler ends up tracking it |
| Reconcilers.Reconciler.HandlePlayerRole | src/background/reconcile/reactors/LightReactor.ts:53-58 | the same role changes nothing; a new role is stored and a refresh runs; turning GM keeps tracking |
| Reconcilers.Reconciler.HandlePlayerId | src/background/reconcile/reactors/LightReactor.ts:67-72 | the same id changes nothing; a new id is stored and a refresh runs; a GM's view keeps tracking |
| Reconcilers.Reconciler.HandleLocalItems | src/background/reconcile/reactors/LightReactor.ts:78-102 | the early return changes nothing; otherwise the wall cache becomes the walls in world space, a refresh runs with the walls dirty, and the flag ends cleared |
| Reconcilers.Reconciler.StoreAndRefresh | src/background/reconcile/reactors/LightReactor.ts:98-101 | store the light state and refresh; the reconciler ends up tracking the snapshot |
| Reconcilers.Reconciler.RebuildWalls | src/background/reconcile/reactors/LightReactor.ts:90-101 | the walls are stored, the refresh runs dirty, and the dirty flag ends false |
| DoorActors.DoorGeom | src/background/reconcile/actors/DoorActor.ts:100-128 | no door path when the two markers lie on different contours |
| DoorActors.Buildable | src/background/reconcile/actors/DoorActor.ts:69-84 | the doors whose sub-path builds, in list order |
| DoorActors.BuildableAll | src/background/reconcile/actors/DoorActor.ts:76-82 | when every door builds, none is skipped |
| DoorActors.HeldReplace | src/background/reconcile/actors/DoorActor.ts:63-64 | replacing one component's path swaps exactly one handle |
| DoorActors.GetDoorSkPath | src/background/reconcile/actors/DoorActor.ts:100-128 | a path exactly when the door builds; the outline is released; the stroked segment is a new live path |
| DoorActors.DoorToDoorComponent | src/background/reconcile/actors/DoorActor.ts:86-98 | a component exactly when the door builds, holding a new live path |
| DoorActors.BuildAll | src/background/reconcile/actors/DoorActor.ts:69-84 | the components of the buildable doors, in order, each with a distinct new live path |
| DoorActors.ReleaseAll | src/background/reconcile/actors/DoorActor.ts:26-30 | releases the paths of a list, each exactly once |
| DoorActors.Resize | src/background/reconcile/actors/DoorActor.ts:38-55 | grow with the new doors that build, or cut the tail and release its paths |
| DoorActors.Rebuild | src/background/reconcile/actors/DoorActor.ts:57-66 | door i becomes the base of component i; a door that builds replaces the path and releases the old one; one that does not keeps its old path |
| DoorActors.RealignedByPhases | src/background/reconcile/actors/DoorActor.ts:32-67 | resizing then rebuilding yields the update's promised list |
| DoorActors.DoorActor.constructor | src/background/reconcile/actors/DoorActor.ts:19-24 | one component per buildable door, in metadata order, none for a non-drawing, each with a new live path |
| CanvasKit.Natives.Release | src/background/reconcile/actors/DoorActor.ts:28 | skPath.delete() frees exactly that path |
| DoorActors.DoorActor.Delete | src/background/reconcile/actors/DoorActor.ts:26-30 | releases every held path once |
| DoorActors.DoorActor.Update | src/background/reconcile/actors/DoorActor.ts:32-67 | a non-drawing changes nothing; otherwise the list is Realigned to the metadata; the heap loses exactly the dropped paths and gains only new ones |
| DoorOverlayActors.OverlaySegment | src/background/reconcile/actors/DoorOverlayActor.ts:217-234 | no segment across contours |
| DoorOverlayActors.CenterAndCommands | src/background/reconcile/actors/DoorOverlayActor.ts:194-215 | a centre and commands only when the segment exists |
| DoorOverlayActors.GetDoorCenterAndCommands | src/background/reconcile/actors/DoorOverlayActor.ts:194-215 | the segment is released except on the early return at line 208, where it stays live |
| DoorOverlayActors.LeakShown | src/background/reconcile/actors/DoorOverlayActor.ts:206-210 | a built segment leaks exactly when the computation gives nothing |
| DoorOverlayActors.DoorItems | src/background/reconcile/actors/DoorOverlayActor.ts:173-192 | items exactly when the geometry exists: a billboard at the centre and a path with the commands, both tagged with the door index |
| DoorOverlayActors.Built | src/background/reconcile/actors/DoorOverlayActor.ts:147-171 | two items per component, at most one component per door |
| DoorOverlayActors.OverlayIdsAt | src/background/reconcile/actors/DoorOverlayActor.ts:72 | the flatMap lists each component's billboard, then its path |
| DoorOverlayActors.EditsAt | src/background/reconcile/actors/DoorOverlayActor.ts:109-143 | two updaters or none for each door |
| DoorOverlayActors.OverlayEditsFor | src/background/reconcile/actors/DoorOverlayActor.ts:105-144 | with distinct ids, component i's billboard and path each get exactly the updaters of door i |
| DoorOverlayActors.OverlayEditsIds | src/background/reconcile/actors/DoorOverlayActor.ts:105-144 | the loop stages nothing for ids outside the components |
| DoorOverlayActors.Rebased | src/background/reconcile/actors/DoorOverlayActor.ts:108 | component i gets door i as its base |
| DoorOverlayActors.BuiltIds | src/background/reconcile/actors/DoorOverlayActor.ts:147-171 | the built components use consecutive fresh ids |
| DoorOverlayActors.DoorToDoorItems | src/background/reconcile/actors/DoorOverlayActor.ts:173-192 | DoorItems from the next two fresh ids |
| DoorOverlayActors.BuildOverlays | src/background/reconcile/actors/DoorOverlayActor.ts:162-169 | the walk yields Built; no door that avoids the early return leaks |
| DoorOverlayActors.StageOne | src/background/reconcile/actors/DoorOverlayActor.ts:106-143 | door i's overlay: exactly EditsAt is staged; only the early-return case can leave a path live |
| DoorOverlayActors.StageOverlayEdits | src/background/reconcile/actors/DoorOverlayActor.ts:105-144 | rebases every component and stages OverlayEdits |
| DoorOverlayActors.ResizeOverlays | src/background/reconcile/actors/DoorOverlayActor.ts:82-103 | grow with new overlays, or cut the tail and stage its ids for deletion |
| DoorOverlayActors.DoorOverlayActor.constructor | src/background/reconcile/actors/DoorOverlayActor.ts:53-68 | the built components and their items, staged in one call |
| DoorOverlayActors.DoorOverlayActor.Delete | src/background/reconcile/actors/DoorOverlayActor.ts:70-74 | stages deletion of every billboard and path |
| DoorOverlayActors.DoorOverlayActor.Update | src/background/reconcile/actors/DoorOverlayActor.ts:76-145 | a non-drawing changes nothing; otherwise resize, then rebase and stage the updaters |
| LightActors.LightItems | src/background/reconcile/actors/LightActor.ts:100-198 | the light, polygon and effect items from consecutive ids; the effect is attached to the polygon |
| LightActors.CreatedEffect | src/background/reconcile/actors/LightActor.ts:137-150 | the effect's uniforms are the radius and the colour |
| LightActors.LightEditsFor | src/background/reconcile/actors/LightActor.ts:72-97 | one updater per item |
| LightActors.LightActor.constructor | src/background/reconcile/actors/LightActor.ts:53-60 | three new ids, staged as one addition |
| LightActors.LightActor.Delete | src/background/reconcile/actors/LightActor.ts:62-64 | stages deletion of exactly its three ids |
| LightActors.LightActor.Update | src/background/reconcile/actors/LightActor.ts:66-98 | stages exactly one updater for each of its three ids |
| LightEdits.ColorDigits | src/background/reconcile/actors/LightActor.ts:29-31 | the digits the pattern captures: six hex digits |
| LightEdits.HexToRgb | src/background/reconcile/actors/LightActor.ts:29-42 | a colour exactly when the pattern matches, each channel in [0, 1] |
| LightEdits.HexToRgbAccepts | src/background/reconcile/actors/LightActor.ts:29-31 | accepted exactly when the string is '#' and six hex digits, or six hex digits alone |
| LightEdits.HexRoundTrip | src/background/reconcile/actors/LightActor.ts:33-42 | parsing "#rrggbb" gives back the three bytes divided by 255 |
| LightEdits.ConfigColor | src/background/reconcile/actors/LightActor.ts:144 | a colour exactly when one is set and parses |
| LightEdits.ApplyLightConfig | src/background/reconcile/actors/LightActor.ts:200-239 | every defined field is copied; a defined rotation is added to the parent's; nothing else changes |
| LightEdits.ApplyLightConfigIdempotent | src/background/reconcile/actors/LightActor.ts:200-239 | applying the same config twice is applying it once |
| LightEdits.ApplyWalls | src/background/reconcile/actors/LightActor.ts:241-256 | the polygon's points are the visibility polygon, relative to the parent |
| LightEdits.FindUniform | src/background/reconcile/actors/LightActor.ts:262-264 | the first uniform with the name, or none when absent |
| LightEdits.ApplyEffect | src/background/reconcile/actors/LightActor.ts:258-278 | the colour uniform changes only when the colour parses; the radius uniform always |
| LightOverlayActors.LightBillboard | src/background/reconcile/actors/LightOverlayActor.ts:33-46 | a light billboard attached to the parent at its position |
| LightOverlayActors.LightOverlayActor.constructor | src/background/reconcile/actors/LightOverlayActor.ts:21-25 | stages exactly one billboard |
| LightOverlayActors.LightOverlayActor.Delete | src/background/reconcile/actors/LightOverlayActor.ts:27-29 | stages deletion of the billboard |
| SelfLightActors.SelfLight | src/background/reconcile/actors/SelfLightActor.ts:21-34 | a light attached to the parent, at its position and rotation with unit scale, visible as the parent is |
| SelfLightActors.SelfLightIgnoresConfig | src/background/reconcile/actors/SelfLightActor.ts:28-30 | radius 75, falloff 2, source radius 0, whatever the parent's config |
| SelfLightActors.SelfLightActor.constructor | src/background/reconcile/actors/SelfLightActor.ts:8-13 | stages exactly one light |
| SelfLightActors.SelfLightActor.Delete | src/background/reconcile/actors/SelfLightActor.ts:15-17 | stages deletion of the light |
| WallActors.WallItem | src/background/reconcile/actors/WallActor.ts:83-93 | the contour as a wall attached to the drawing |
| WallActors.WallItems | src/background/reconcile/actors/WallActor.ts:69-81 | one wall per contour, with consecutive ids |
| WallActors.WallEdits | src/background/reconcile/actors/WallActor.ts:55-66 | wall i gets contour i |
| WallActors.WallEditsOnce | src/background/reconcile/actors/WallActor.ts:55-66 | with distinct ids, every wall gets exactly one updater, which sets its contour |
| WallActors.WallActor.constructor | src/background/reconcile/actors/WallActor.ts:12-24 | one wall per contour of a drawing (none otherwise), staged once; no native path is left live |
| WallActors.WallActor.Delete | src/background/reconcile/actors/WallActor.ts:26-28 | stages deletion of every wall |
| WallActors.WallActor.Update | src/background/reconcile/actors/WallActor.ts:30-67 | a non-drawing changes nothing; otherwise grow or cut to the contours, then one points updater per wall |
| WallActors.GrowWalls | src/background/reconcile/actors/WallActor.ts:40-47 | one new wall per new contour, appended and staged |
| WallActors.StageWallEdits | src/background/reconcile/actors/WallActor.ts:54-66 | stages WallEdits |
| WallActors.NewWalls | src/background/reconcile/actors/WallActor.ts:69-81 | builds WallItems from fresh ids |
| PathHelpers.CommandPoint | src/background/util/PathHelpers.ts:82-96 | the end anchor of each verb; the origin for an unknown verb |
| PathHelpers.SkPathToPathCommands | src/background/util/PathHelpers.ts:39-59 | the loop computes PathCommands |
| PathHelpers.GroupPreservesStream | src/background/util/PathHelpers.ts:39-59 | the groups and the open group concatenate back to the stream |
| PathHelpers.GroupSizes | src/background/util/PathHelpers.ts:51-55 | every emitted group is a well-formed command; the open group is short |
| PathHelpers.RunAppend | src/background/util/PathHelpers.ts:44-56 | regrouping is a left fold |
| PathHelpers.GroupOfCommands | src/background/util/PathHelpers.ts:39-59 | regrouping a flattened list of well-formed commands gives them back |
| PathHelpers.SampleSpacing | src/background/util/PathHelpers.ts:116-121 | the samples cover the contour at spacing `distance` |
| PathHelpers.SamplePathCommands | src/background/util/PathHelpers.ts:102-127 | Samples; the temporary path is released |
| PathHelpers.SkPathIntersection | src/background/util/PathHelpers.ts:129-217 | no contour gives Infinity at the origin; otherwise the result is a point of its contour at that distance, no coarse sample is nearer, and no earlier contour has a sample as near |
| PathHelpers.CoarseScan | src/background/util/PathHelpers.ts:149-164 | the best is at most every coarse sample's distance |
| PathHelpers.Refine | src/background/util/PathHelpers.ts:166-201 | refinement never moves away from the point |
| PathHelpers.Between | src/background/util/PathHelpers.ts:219-248 | a segment exactly when the markers share an existing contour |
| PathHelpers.BetweenSymmetric | src/background/util/PathHelpers.ts:238-242 | the order of the markers does not matter |
| PathHelpers.SkPathBetween | src/background/util/PathHelpers.ts:219-248 | a new live path exactly when Between has one |
| PathHelpers.CommandsBetween | src/background/util/PathHelpers.ts:250-263 | CommandsOfBetween; the segment is released |
| PathHelpers.DrawingGeom | src/background/util/PathHelpers.ts:337-352 | none for a non-drawing; only a path item's commands can fail |
| PathHelpers.DrawingToSkPath | src/background/util/PathHelpers.ts:337-352 | a new live path exactly when DrawingGeom has one |
| WallHelpers.OpenDoors | src/background/util/WallHelpers.ts:43-47 | only open doors |
| WallHelpers.OnlyOpenDoorsCut | src/background/util/WallHelpers.ts:43-47 | closed doors do not change the outline |
| WallHelpers.PathCommandsWellFormed | src/background/util/WallHelpers.ts:50 | the regrouped commands are well formed |
| WallHelpers.ContourStart | src/background/util/WallHelpers.ts:66-68 | the contour start is at or before the command |
| WallHelpers.Emissions | src/background/util/WallHelpers.ts:62-104 | what each command contributes, read from its contour's start |
| WallHelpers.DrawingToContours | src/background/util/WallHelpers.ts:21-112 | Contours; none for no outline; every temporary path is released |
| WallHelpers.SampleCurve | src/background/util/WallHelpers.ts:79-92 | a curve is sampled from the previous anchor |
| WallHelpers.SplitCommands | src/background/util/WallHelpers.ts:62-111 | the loop computes SplitContours |
| WallHelpers.SplitStep | src/background/util/WallHelpers.ts:63-103 | one pass of the loop advances the split state by exactly one command and keeps the contour start |
| WallHelpers.SplitCount | src/background/util/WallHelpers.ts:94-102 | one contour per CLOSE |
| WallHelpers.SplitKeepsPoints | src/background/util/WallHelpers.ts:62-104 | no point is dropped or reordered |
| WallHelpers.ContourCount | src/background/util/WallHelpers.ts:94-109 | the CLOSE count, plus one when points trail |
| WallHelpers.ContoursKeepPoints | src/background/util/WallHelpers.ts:62-111 | the contours concatenate to the emitted points |
| LightEdits.HexDigit | src/background/reconcile/actors/LightActor.ts:30 | a hex digit's value is below 16 |
| DoorMode.Toggled | src/background/createDoorMode.ts:197-212 | only door `index`, if any, flips `open`; its markers stay |
| DoorMode.Removed | src/background/createDoorMode.ts:214-228 | door `index` is spliced out when in range; otherwise the list stays |
| DoorMode.ToggledTwice | src/background/createDoorMode.ts:197-212 | toggling twice restores the list |
| DoorMode.RemovedCount | src/background/createDoorMode.ts:223-225 | exactly one occurrence of the deleted door goes |
| DoorMode.RemoveAppended | src/background/createDoorMode.ts:214-228 | deleting the last door undoes an appended door |
| DoorMode.ToggledItem | src/background/createDoorMode.ts:197-212 | only a stored door array is written |
| DoorMode.RemovedItem | src/background/createDoorMode.ts:214-228 | only a stored door array is written |
| DoorMode.WithDoor | src/background/createDoorMode.ts:342-356 | pushed onto the stored array, or a new one-door array |
| DoorMode.ToggledItemTwice | src/background/createDoorMode.ts:197-212 | toggling an item's door twice gives the item back |
| DoorMode.RemoveWithDoor | src/background/createDoorMode.ts:214-228 | deleting the appended door restores the list |
| DoorMode.DoorTool.constructor | src/background/createDoorMode.ts:25-30 | all tool state starts null |
| DoorMode.DoorTool.GetIntersection | src/background/createDoorMode.ts:33-48 | no target, no hit; otherwise the nearest outline point in drawing space, also in world space |
| DoorMode.DoorTool.Retarget | src/background/createDoorMode.ts:85-96 | a new drawing replaces the target, releasing the old path and allocating the new one; the same drawing changes nothing |
| DoorMode.DoorTool.PlaceStart | src/background/createDoorMode.ts:103-128 | a far hit removes the start circle; a near one moves or creates it and records startHit |
| DoorMode.DoorTool.DropStart | src/background/createDoorMode.ts:129-135 | a shown start circle goes, with the target and its path; otherwise nothing changes |
| DoorMode.DoorTool.CreateOrUpdateStart | src/background/createDoorMode.ts:79-136 | the target is Retargeted and the replaced or dropped path released; a near hit places the start circle; a far hit or another item removes it; otherwise startHit is kept |
| DoorMode.DoorTool.OnToolMove | src/background/createDoorMode.ts:285-289 | before a drag it is createOrUpdateStart (target, paths, start circle, hit); during a drag nothing changes |
| DoorMode.DoorTool.DragStart | src/background/createDoorMode.ts:290-308 | createOrUpdateStart, then the end circle and the preview when there is a start; a far hit removes the start circle; no other local item changes |
| DoorMode.DoorTool.BeginDrag | src/background/createDoorMode.ts:302-307 | the end circle at the hit and an empty preview, from two fresh ids |
| DoorMode.DoorTool.DragMove | src/background/createDoorMode.ts:309-337 | only a hit on the start's contour moves the end circle and sets the preview's commands |
| DoorMode.DoorTool.AppendDoor | src/background/createDoorMode.ts:339-357 | with target and both hits, a closed door between the markers is appended |
| DoorMode.DoorTool.ClearControlsAsWritten | src/background/createDoorMode.ts:230-247 | all three local items and the target go; the hits stay |
| DoorMode.DoorTool.ClearControls | src/background/createDoorMode.ts:230-247 | the same, and both hits are also cleared |
| DoorMode.DoorTool.DragEndAsWritten | src/background/createDoorMode.ts:338-359 | appends a door whenever target and both hits are set; the three local items go and the target path is released; the hits survive |
| DoorMode.DoorTool.DragEnd | src/background/createDoorMode.ts:338-359 | the same, but a door is written only in a drag that made an end circle, and the hits are cleared |
| DoorMode.DoorTool.Cancel | src/background/createDoorMode.ts:360-365 | clears all controls: the three local items go and the target path is released |
| DoorMode.DoorTool.ToggleDoorOpen | src/background/createDoorMode.ts:197-212 | a parent in the scene gets ToggledItem |
| DoorMode.DoorTool.DeleteDoor | src/background/createDoorMode.ts:214-228 | a parent in the scene gets RemovedItem |
| DoorMode.DoorTool.OnToolClick | src/background/createDoorMode.ts:260-276 | a door overlay toggles its door, or deletes it with alt; otherwise a light overlay selects its light |
| DoorMode.DoorTool.OnToolDoubleClick | src/background/createDoorMode.ts:277-284 | a door overlay deletes its door |
| DoorMode.StaleHitsPlaceDoor | src/background/createDoorMode.ts:230-247 | as written, a drag on an outline-less drawing after an earlier drag writes a door |
| DoorMode.ClearedHitsPlaceNoDoor | src/background/createDoorMode.ts:338-359 | with the hits cleared, the same drags write no door |

## Left out

- Foreign code is an uninterpreted `Kit`: CanvasKit's path operations,
  contour measures, stroking, boolean path ops and matrix transforms,
  plus the visibility-polygon library and `Math2.distance`. Their results
  are used but never computed.
- Host I/O is modelled as state or left out:
  - The shared scene arrives as a parameter: the items each reconcile
    receives.
  - Local scene calls are recorded as the patcher's list of sent host
    calls.
  - Subscriptions, their clean-up and the `isReady`/`getItems` fetches
    are left out: the `Reconciler` constructor, the `LightReactor`
    constructor and `LightReactor.handleSceneReady`.
  - Every `await` is treated as atomic.
- `LightReactor.refresh` calls `reconciler.refresh()`, which
  `Reconciler.ts` does not define. `Reconcilers.Reconciler.Refresh`
  models it as reconciling again against the previous snapshot's values,
  in key order.
- `getMetadata` and `getPluginId` are not part of this model. Metadata
  reads are modelled as returning the stored value of the right shape,
  or the call's fallback.
- Floating point is modelled as exact reals. `Date.parse` is modelled as
  an integer or NaN. `Math.ceil` follows the source.
- Item builders are modelled as fresh ids from an `IdSource`. Builder
  fields that no part of the model reads (DPI, offsets, layers, locks,
  disabled attachment behaviours) are left out. The effect's SkSL shader
  text is left out.
- The legacy pipeline (`reconcile.ts`, `processDoors.ts`,
  `processWalls.ts`, `processLights.ts`, `reconcileWalls.ts`), the menus
  and the line tool are not part of this model.
- Reconcilers.Reconciler.Reconcile: does not repeat each reactor's
  resulting key set. That is stated on
  `Reconcilers.Reconciler.RunReactors`, which Reconcile runs before
  submitting and taking the snapshot. It also does not state what the
  one flush contains: only that exactly one `Flush` of some staging is
  sent, not that this staging is what the reactors' processes built.
- Reconcilers.Reconciler.Delete: states that every reactor is emptied,
  the patcher's buffers are empty afterwards and one `Flush` is sent. It
  does not state that the flush deletes the concatenation of each
  reactor's local ids (`LidsAlong`, as `Reactors.Reactor.Delete` states
  per reactor).
- Reconcilers.Reconciler.RunReactors: states that the actors exactly
  track the new snapshot only from a state where every actor is a
  previous item its filter accepts. `Diffs.FilterChangeLeaks` shows that
  a narrowing filter (for example a GM becoming a player) leaves actors
  outside that state.
- Reactors.Reactor.UpdatePhase: states consistency and that the heap
  outside the actors is kept. What each actor's update stages is stated
  per item on `Reactors.Reactor.UpdateOne` and `Actors.UpdateActor`; the
  phase does not fold those into one staging.
- WallActors.WallActor.constructor: does not look up the door reactor.
  `WallActor.ts:14-17` finds it for every new wall actor and throws when
  none is registered. The model looks it up once, when the wall reactor
  is made (`Reconcilers.Reconciler.NewReactor`), and keeps it. So after
  `Reconcilers.Reconciler.Unregister` drops the door reactor while the
  wall reactor stays, a reconcile that adds a drawing throws in the
  source, with no submit and no snapshot. The model instead builds walls
  from the dropped reactor's stale cache.
- Reactors.Reactor.Delete: keeps a door reactor's `doors` cache, as
  `Reactor.ts:36-41` does, so afterwards the cache names released paths.
  The model states nothing about a later reader of that cache.
- Reactors.SpawnAll: the staging only gains the additions `made`; `made`
  is not stated to be the added items' `Created`, in order. That is
  stated per item on `Actors.NewActor` and `Reactors.Spawn`.
- Reactors.SpawnEach: the same as SpawnAll, for the loop it runs.
- Reactors.Reactor.AddPhase: the same as SpawnAll; the staged additions
  are not named item by item.
- Reactors.Reactor.Phases: does not state the staging the three phases
  build together; each phase's part is stated as above.
- Reactors.Reactor.Process: the same as Phases.
- Reconcilers.Reconciler.RunAt: states the reactor's keys, not what its
  process stages.
- Reconcilers.Reconciler.Register: states the host calls sent and the
  reactors kept, not the content of the staged changes it submits.
- Reconcilers.Reconciler.Unregister: the same as Register.
- Reconcilers.Reconciler.Refresh: the same as Register.
- `getSkPathPoint` is called on PathHelpers by the door overlay
  (`DoorOverlayActor.ts:202`), but `PathHelpers.ts` does not define it.
  It is the uninterpreted `Kit.pathPoint`, which may give no point.
- Native objects outside the door actors' paths: the sub-path the door
  overlay leaks when no centre is found (`DoorOverlayActor.ts:206-210`,
  shown by `DoorOverlayActors.LeakShown`) stays live in the model. The
  `ContourMeasureIter` objects of `PathHelpers.ts:112` and `:229` are
  never deleted by the source and are not part of the native heap here.
- DoorMode.DoorTool.GetIntersection: the nearest-point search is assumed
  to return the same hit for the same target and pointer. Its result is
  stated as a property (`Nearest`), not as a function of the inputs.
- DoorMode.DoorTool.OnToolClick: `OBR.player.select` is modelled as
  replacing the tool's `selection` field. Not finding the parent in the
  scene is modelled as the parent's id missing from the scene map.
- DoorMode.DoorTool.DragMove: the preview path's commands are modelled as
  `CommandsOfBetween` of the target's outline. The host-side
  `isPath`/`item.id` dispatch of the callback is not modelled.
- The `hit` and `start` out-parameters of the door tool's handlers exist
  so their contracts can name the intersection. The source returns
  nothing.

## Findings

| source | as written | input that shows it | evidently intended | confidence | as-written member | corrected member |
|---|---|---|---|---|---|---|
| src/background/createDoorMode.ts:230-247 | `clearControls` resets `startId`, `endId`, `subpathId` and `target` but not `startHit` and `endHit`. `onToolDragEnd` (338-359) writes a door whenever `target`, `startHit` and `endHit` are all set. | First, a complete drag along fog drawing "a". Then a drag on fog drawing "b", whose outline has no contour, so no start circle appears and no end circle is made. The second drag end still appends a closed door to "b", built from the first drag's markers. | `clearControls` also resets `startHit` and `endHit`, so that only a drag that placed both circles writes a door. | not executed | DoorMode.StaleHitsPlaceDoor | DoorMode.ClearedHitsPlaceNoDoor |
