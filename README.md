# Drone repair controller, logic evaluator and cache-layer registry

A Dafny model of three parts of a Mindustry fork.

1. **`AIController`'s drone repair automaton and tick driver.**
   - The four states are S1 Idle, S2 Moving, S3 Repairing and S4 Waiting. Every transition goes through the debounced `logStateChange`.
   - Each tick runs `updateDroneStateMachine`. A tick may instead be delegated to a memoized fallback controller.
   - The repair-target search `findDamagedBuilding` scans a 50 x 50 tile window for the closest building of the unit's own team within 200.
   - While the unit is Repairing, the fire gate (`shouldFire`/`shouldShoot`) is closed and targeting does not run. The mount loop is skipped, so the `shoot`, `rotate` and `isShooting` flags set before Repairing stay as they were.
   - The mount loop of `updateWeapons` sets each weapon mount's `target`, `shoot` and `rotate` flags and the unit's `isShooting`.
2. **`LogicHandler.eval`.** It handles a `$name` lookup, an `a+b` sum and a bare int literal. Java's `String.split`, `Integer.parseInt` and 32-bit `int` addition are written out.
3. **The `CacheLayer.all` registry**, as its tests describe it. Inserting a layer shifts the layers after it and renumbers every id to its index.

## Layout

- `wrappers.dfy` defines `Option` (a Java null) and `Result` (a Java exception).
- `building_search.dfy` is the pure specification of the building search.
  - `ScanTo` is the state of the two nested loops after `i` columns and `j` tiles.
  - `Closest` is the scan's result. `ClosestSpec` proves it is the nearest qualifying building, and the first of the nearest in scan order.
- `drone.dfy` is the automaton as a pure step function `Step` over a `Machine` value. It returns the next machine and the state codes sent to the logger. The file holds the lemmas about single ticks and about runs of ticks.
- `weapons.dfy` is the boolean skeleton of one pass of the mount loop, `UpdateMount`, with its lemmas.
- `units.dfy` holds the classes `Mount`, `Unit` and `AIController`.
  - The methods update the fields in place, as the Java does.
  - Each method's `ensures` ties the new fields to `Drone.Step`, `BuildingSearch.Closest` or `Weapons.UpdateMount`.
  - `findDamagedBuilding` is the nested loop `ScanWindow`. It is proved equal to `Closest`.
- `logic_handler.dfy` is `eval` as a pure function over the variable map.
- `cache_layer.dfy` is the registry as a class with a `seq` field of layer objects. It has a renumbering loop.

The world enters as inputs to each tick (`Units.Tick`, `Units.Aim`):
- the tile grid and the distance from the unit to each building;
- the elapsed time `delta`;
- whether the 2% roll succeeded;
- the distance to the repair target;
- whether that target is still valid;
- whether `retarget()` fired;
- for each mount, what a search, an invalidity check, a range check and a rest-angle check would report.

Notes on what the code does:
- Binding a controller to another unit (`unit(Unit)`) only clears `hasLoggedState` and re-logs the current state. It does not reset the target, the secondary-target cache or the timers.
- `logStateChange` itself never touches the dwell timer. The four state handlers and `forceStateChange` zero `stateTimer` right after calling it, whether or not it logged. The constructor, `init` and `afterRead` call it without zeroing the timer.
- Entering Repairing does not clear the weapon flags. `isShooting` is reset only inside `updateWeapons`, which does not run while Repairing, and nothing calls `stopShooting`. A mount that was shooting on the arrival tick still has `shoot` set on every Repairing tick.
- DroneLogger's `lastState` is static, so one drop-if-repeated filter is shared by every controller. The log modelled here is the sequence of codes one controller sends. Whether a code reaches the file also depends on what other controllers sent in between.
- The building search does not look at damage. It returns the closest building of the unit's team.
- The test `LogicHandlerTest` calls `setVariable`, which `LogicHandler.java` does not declare. It is modelled as a map update, `LogicHandler.SetVariable`.

## Model

| member | source | states |
|---|---|---|
| Drone.StateCodeInjective | core/src/mindustry/entities/units/AIController.java:32-47 | The four states have four distinct codes, S1 to S4, so a code names its state. |
| Drone.NotifyIdempotent | core/src/mindustry/entities/units/AIController.java:67-83 | A notification emits at most one code. Repeating it with the same state emits nothing and changes nothing. |
| Drone.NotifyExactlyOnChange | core/src/mindustry/entities/units/AIController.java:67-83 | Once a change has been logged, the guard emits exactly when the state differs, and the code is the new state's. It sets the state and the flag and leaves timer, target and progress alone. |
| Units.AIController.LogStateChange | core/src/mindustry/entities/units/AIController.java:67-83 | Updates `currentState` and `hasLoggedState` and appends to the log exactly as `Drone.Notify` says, and nothing else. |
| Units.AIController.constructor | core/src/mindustry/entities/units/AIController.java:49-65 | A new controller is Idle with zero timers, no target and no unit. It logs "S1" exactly once. |
| Drone.RelogCurrentState | core/src/mindustry/entities/units/AIController.java:507-510 | Clearing the flag and notifying the current state emits that state's code once and leaves the machine as it was. |
| Units.AIController.Init | core/src/mindustry/entities/units/AIController.java:507-510 | init keeps the automaton's fields and appends the current state's code once. |
| Units.AIController.SetUnit | core/src/mindustry/entities/units/AIController.java:627-633 | Binding the same unit changes nothing. Binding another unit stores it and re-logs the current state once. |
| Units.AIController.ForceStateChange | core/src/mindustry/entities/units/AIController.java:646-649 | Goes through the same guard, so forcing the current state logs nothing. It always zeroes `stateTimer`. |
| Drone.StepNotifiesOncePerChange | core/src/mindustry/entities/units/AIController.java:108-130 | A tick emits at most one code. It emits one exactly when the state changes, and that code names the new state. |
| Units.AIController.UpdateDroneStateMachine | core/src/mindustry/entities/units/AIController.java:108-130 | Without a unit nothing changes. Otherwise the timer is advanced by `delta` and the current state's handler runs. The new fields and log are those of `Drone.Step`. |
| Units.AIController.Dispatch | core/src/mindustry/entities/units/AIController.java:113-129 | Once the timer has been advanced, the switch runs the current state's handler. Fields and log become those of `Drone.Step` from the machine before the advance. |
| Units.AIController.HandleIdleState | core/src/mindustry/entities/units/AIController.java:132-151 | The fields and log after the Idle handler equal `Drone.IdleStep`, with the building search as both scans. |
| Drone.IdleDeparture | core/src/mindustry/entities/units/AIController.java:111-151 | Idle moves to Moving exactly when the advanced timer is past 60 and a search finds a building. That building becomes the target and the timer restarts. Otherwise the state stays Idle and the timer keeps running. |
| Drone.RollIsRedundant | core/src/mindustry/entities/units/AIController.java:142-148 | When the second search sees the same world, the outcome of the 2% roll makes no difference to the tick. |
| Drone.IdleDepartsForNearest | core/src/mindustry/entities/units/AIController.java:134-139 | With the tile scan as the search and the advanced timer past 60, Idle leaves exactly when the window holds a same-team building within 200. It heads for one no farther than any other. |
| Units.AIController.HandleMovingState | core/src/mindustry/entities/units/AIController.java:153-175 | The fields and log after the Moving handler equal `Drone.MovingStep`. |
| Drone.MovingOutcomes | core/src/mindustry/entities/units/AIController.java:153-175 | There are four outcomes. No target gives Idle. Distance below 40 gives Repairing with timer and progress zeroed. Otherwise a timer past 600 gives Idle with the target cleared. Otherwise nothing but the timer changes. |
| Drone.ArrivalBeatsTimeout | core/src/mindustry/entities/units/AIController.java:163-174 | Arrival zeroes the timer before the timeout is checked. A tick that arrives late still ends in Repairing, having logged only S3. |
| Units.AIController.HandleRepairingState | core/src/mindustry/entities/units/AIController.java:177-198 | The fields and log after the Repairing handler equal `Drone.RepairingStep`. |
| Drone.RepairingOutcomes | core/src/mindustry/entities/units/AIController.java:177-198 | A missing or invalid target gives Idle with the target cleared. A distance of 50 or more gives Moving with progress untouched. Otherwise progress grows by `delta`, and the machine moves to Waiting exactly when progress reaches 300. |
| Drone.NoFlapping | core/src/mindustry/entities/units/AIController.java:163-189 | At a constant distance, two ticks never go Moving, Repairing, Moving, nor Repairing, Moving, Repairing. |
| Units.AIController.HandleWaitingState | core/src/mindustry/entities/units/AIController.java:200-208 | The fields and log after the Waiting handler equal `Drone.WaitingStep`. |
| Drone.WaitingOutcomes | core/src/mindustry/entities/units/AIController.java:200-208 | Waiting ends exactly when the advanced timer reaches 120. The exit clears target and progress and zeroes the timer. |
| Drone.RunCodesNameChanges | core/src/mindustry/entities/units/AIController.java:67-83 | Over any run of ticks, each code differs from the one before it, and the first differs from the starting state's code. The last code is the final state's. No codes means the state is unchanged. |
| Drone.LoggerKeepsNoRepeats | core/src/mindustry/entities/units/DroneLogger.java:57-63 | The logger's drop-if-equal-to-last filter leaves a sequence without repeats untouched. |
| Drone.LoggerRecordsEveryTransition | core/src/mindustry/entities/units/DroneLogger.java:62-63 | When the logger's last code is the controller's current state, as it is with a single controller, its deduplication drops no code the automaton sends during a run. |
| BuildingSearch.TruncToInt | core/src/mindustry/entities/units/AIController.java:218-219 | The `(int)` cast truncates toward zero, so a negative coordinate rounds up. |
| BuildingSearch.ScanToSpec | core/src/mindustry/entities/units/AIController.java:214-229 | After any number of columns and tiles, the loop state holds one of two things. Either nothing, exactly when no scanned tile holds a same-team building within 200. Or such a building at its distance, no farther than any scanned one and strictly nearer than every one scanned before it. |
| BuildingSearch.VisitKeepsScan | core/src/mindustry/entities/units/AIController.java:220-227 | One pass of the inner loop body extends that meaning by one tile. |
| BuildingSearch.NextColumn | core/src/mindustry/entities/units/AIController.java:218-219 | Finishing a column is the same as standing at the start of the next one. |
| BuildingSearch.ClosestSpec | core/src/mindustry/entities/units/AIController.java:210-232 | The search finds nothing exactly when no window tile holds a same-team building within 200. Otherwise it returns such a building, nearest of all, and the first of the nearest in scan order. |
| Units.ScanWindow | core/src/mindustry/entities/units/AIController.java:214-231 | The two nested loops over x and y return `BuildingSearch.Closest`. |
| Units.AIController.FindDamagedBuilding | core/src/mindustry/entities/units/AIController.java:210-232 | Without a unit the result is none. Otherwise it is the scan around the unit's tile for its team. |
| Units.AIController.CreateSimulatedRepairTarget | core/src/mindustry/entities/units/AIController.java:234-237 | The repair target becomes the result of the same search. |
| Units.AIController.UpdateTargeting | core/src/mindustry/entities/units/AIController.java:290-299 | While Repairing, or for a unit without weapons, target, clock, mounts and `isShooting` are untouched. Otherwise the weapons update runs. The unit's position never changes. |
| Weapons.Revalidate | core/src/mindustry/entities/units/AIController.java:368-375 | A target survives the invalidity check exactly when it exists and is not stale. |
| Units.AIController.UpdateWeapons | core/src/mindustry/entities/units/AIController.java:356-454 | The main target is re-searched on retarget and dropped when invalid. The no-target clock grows by `delta` without a target and restarts with one. Every mount is updated by `Weapons.UpdateMount`, and `isShooting` says whether an aimed mount fires. |
| Units.MountLoop | core/src/mindustry/entities/units/AIController.java:377-439 | After the loop each mount's flags are `UpdateMount` of its old flags. For distinct mounts, `isShooting` is the OR of `shoot` over the mounts the loop processes. |
| Units.UpdateOneMount | core/src/mindustry/entities/units/AIController.java:381-448 | The loop body on one mount leaves its flags as `Weapons.UpdateMount` says. |
| Weapons.SkippedMountsUntouched | core/src/mindustry/entities/units/AIController.java:381-393 | A mount with no weapon, an uncontrollable weapon or a no-attack weapon is left as it is. A weapon not under AI control only stops rotating. |
| Weapons.AimedMountFlags | core/src/mindustry/entities/units/AIController.java:398-448 | An aimed mount shoots exactly when the local `shoot` holds and `shouldFire()` allows it, and only with a target. It rotates when it shoots or turns back to rest after 300 ticks without a target. A shared target is the unit's main target. |
| Weapons.ClosedGateSilencesMounts | core/src/mindustry/entities/units/AIController.java:434-437 | With `shouldFire()` false, no mount the loop aims fires. |
| Units.AIController.OwnTick | core/src/mindustry/entities/units/AIController.java:101-105 | The automaton takes one `Drone.Step` and logs its codes. The fire gate then sees the new state: the weapons update runs exactly when the new state is not Repairing and the unit has weapons. Otherwise target, clock, mounts and `isShooting` are untouched. The unit's position does not change. Afterwards `ShouldFire()` and `ShouldShoot()` are false exactly when the step ended in Repairing. |
| Units.AIController.GetCurrentState | core/src/mindustry/entities/units/AIController.java:641-643 | The state the automaton is in. |
| Units.AIController.ShouldFire | core/src/mindustry/entities/units/AIController.java:463-466 | The gate is false exactly while the automaton is Repairing. |
| Units.AIController.ShouldShoot | core/src/mindustry/entities/units/AIController.java:468-471 | The same gate as `shouldFire`. |
| Drone.GateClosedAfterStep | core/src/mindustry/entities/units/AIController.java:111-198 | After a tick the gate is closed exactly when one of two things holds. Either a Moving tick with a target arrived within 40. Or a Repairing tick kept its valid target within 50 with progress still below 300. |
| Units.AIController.UpdateUnit | core/src/mindustry/entities/units/AIController.java:91-106 | Without a unit, neither the controller nor its fallback changes. When delegating, the fallback is the one already held or a fresh one that logged S1. It is bound to the unit, logging its state once more if the unit was another. It then runs a full own tick on the unit: its automaton, its log, its targeting, the unit's mounts and `isShooting`. The owner's automaton, log, target and clock stay unchanged. Otherwise the owner runs its own tick and the fallback is untouched. |
| Units.AIController.HandOff | core/src/mindustry/entities/units/AIController.java:95-98 | The fallback branch: a missing fallback is created. Then the fallback's tick runs as stated for `UpdateUnit`. |
| Units.AIController.BindFallback | core/src/mindustry/entities/units/AIController.java:96 | The fallback ends bound to this unit with its automaton unchanged. Its log gains the current state's code exactly when it was bound to another unit. |
| Units.AIController.Delegate | core/src/mindustry/entities/units/AIController.java:96-97 | After binding, the fallback's own `updateUnit` runs one tick. The fallback's automaton, log and targeting, and the unit's mounts, `isShooting` and position, are as after that tick started from the fallback's earlier state. |
| LogicHandler.EvalNull | core/src/mindustry/logic/LogicHandler.java:7 | `eval(null)` is null. |
| LogicHandler.EvalLookup | core/src/mindustry/logic/LogicHandler.java:8-10 | A leading `$` looks up the rest of the text, even text holding a `+`. An absent name gives "undefined" and a name bound to null gives null. |
| LogicHandler.SetVariable | tests/src/test/java/mindustry/logic/LogicHandlerTest.java:17 | Setting a variable binds the name to the value and leaves other entries alone. |
| LogicHandler.EvalAfterSet | tests/src/test/java/mindustry/logic/LogicHandlerTest.java:17-18 | A lookup returns what the variable was last set to. |
| LogicHandler.Wrap32 | core/src/mindustry/logic/LogicHandler.java:13 | `int` addition: the result is in the 32-bit range and congruent to the exact sum mod 2^32. A result already in range is unchanged. |
| LogicHandler.FieldsJoin | core/src/mindustry/logic/LogicHandler.java:12 | Splitting at every `+` and joining with `+` gives the text back, and no field holds a `+`. |
| LogicHandler.JoinFields | core/src/mindustry/logic/LogicHandler.java:12 | Joining `+`-free fields and splitting again gives the same fields. |
| LogicHandler.DropTrailingEmpty | core/src/mindustry/logic/LogicHandler.java:12 | Split's result is a prefix of the fields that ends in a non-empty one. Everything it drops is empty. |
| LogicHandler.ParseInt | core/src/mindustry/logic/LogicHandler.java:13-15 | parseInt succeeds exactly on an optional sign followed by one or more decimal digits whose value fits in 32 bits, and returns that value. Anything else throws NumberFormatException. |
| LogicHandler.ParseShow | core/src/mindustry/logic/LogicHandler.java:15 | parseInt reads back every int that `Integer.toString` writes. |
| LogicHandler.EvalLiteral | core/src/mindustry/logic/LogicHandler.java:14-15 | Text with no `$` prefix and no `+` evaluates to parseInt of it, or fails as parseInt fails. |
| LogicHandler.EvalSum | core/src/mindustry/logic/LogicHandler.java:11-13 | For any two `+`-free operand texts that parseInt accepts (`007`, `-0`), `a+b` gives the 32-bit wrapped sum of their values. Anything after a second `+` is ignored. |
| LogicHandler.EvalIgnoresThirdOperand | core/src/mindustry/logic/LogicHandler.java:12-13 | "1+2+3" evaluates to 3. |
| LogicHandler.EvalLeadingPlus | core/src/mindustry/logic/LogicHandler.java:12-13 | Text starting with `+` fails: the first field is empty, or the split is empty. |
| LogicHandler.EvalMissingSecondOperand | core/src/mindustry/logic/LogicHandler.java:12-13 | A `+` after the first operand that is followed by nothing, or by another `+`, fails. The second field is empty or missing. |
| CacheLayers.Insert | tests/src/test/java/mindustry/graphics/CacheLayerTest.java:41-49 | Insertion grows the sequence by one and puts the layer at its position. It keeps the layers before it and moves the ones after it up by one. |
| CacheLayers.InsertKeepsOthers | tests/src/test/java/mindustry/graphics/CacheLayerTest.java:41-49 | Insertion changes no other layer and adds exactly the new one. |
| CacheLayers.NumberedDistinct | tests/src/test/java/mindustry/graphics/CacheLayerTest.java:29-33 | When every id equals its index, no layer appears twice. |
| CacheLayers.InsertDistinct | tests/src/test/java/mindustry/graphics/CacheLayerTest.java:36-51 | A new layer inserted among numbered layers gives distinct layers. |
| CacheLayers.Registry.Renumber | tests/src/test/java/mindustry/graphics/CacheLayerTest.java:47-50 | Renumbering gives every layer its index as id and leaves the order unchanged. |
| CacheLayers.Registry.AddAt | tests/src/test/java/mindustry/graphics/CacheLayerTest.java:36-51 | `add(pos, l)` inserts `l` at `pos` with id `pos`, and every id equals its index. |
| CacheLayers.Registry.Add | tests/src/test/java/mindustry/graphics/CacheLayerTest.java:53-66 | `add(l)` inserts `l` at some position, growing the registry by one, and every id equals its index. |
| CacheLayers.Registry.AddLast | tests/src/test/java/mindustry/graphics/CacheLayerTest.java:68-78 | `addLast(l)` appends `l` with id `length - 1`, and every id equals its index. |
| CacheLayers.Registry.Init | tests/src/test/java/mindustry/graphics/CacheLayerTest.java:20-33 | `init` registers the named built-in layers, including normal and water, and every id equals its index. |

## Left out

- Console output, `Log.info` and DroneLogger's file writing are I/O. The logger is modelled only as the sequence of codes it receives, plus its drop-if-repeated filter.
- Steering, movement and animation are vector geometry over library code that is not shown: `moveTo`, `circle`, `circleAttack`, `faceTarget`, `faceMovement`, `updateVisuals`, `updateMovement`, and the aim points `aimX`/`aimY` with lead prediction.
- World and spatial queries become inputs. `Vars.world.build` is the tile grid. `Mathf.dst` is a distance function. `Units.closestTarget` and `findTarget` are the `found` views. `Units.invalidateTarget` and `checkTarget` are the `stale` views. `within` and the rest-angle check are booleans.
- `stopShooting` clears every mount's `shoot`. It is this class's own method, but nothing in the class calls it, so it is not modelled.
- Units.AIController.OwnTick: `updateVisuals` is left out. For a flying unit whose type wobbles, it calls `unit.wobble()`, which can shift x and y each tick. The model keeps the position fixed through the tick, and so do `Ticked`, `Delegated`, `UpdateUnit`, `HandOff` and `Delegate`.
- `pathfind`, `unloadPayloads`, `targetFlag`, `getClosestSpawner`, `keepState` and `isLogicControllable` are thin calls into collaborators that are not part of this model.
- `afterRead`, the hook run after a saved game is loaded, is not modelled. When handed a unit other than its own, it clears `hasLoggedState` and re-logs the current state without storing the unit. That is the same logging as `init`, which `Units.AIController.Init` models.
- The `Interval` timer, `resetTimers`' random offsets and the 40/90-tick cadence of `retarget()` are not modelled. Whether `retarget()` fired is an input.
- `Mathf.random() < 0.02f` is a boolean input.
- Timers, distances and progress are reals. Float rounding is not modelled.
- A unit whose `type` is null, and whose `updateWeapons` therefore returns at once, is not modelled. A unit's mounts are a fixed sequence, and a null `mounts` array is the empty sequence.
- Units.AIController.UpdateUnit: the fallback controller is a plain AIController, so its own `useFallback()` is false and delegation goes one level deep. A subclass whose fallback delegates again is not modelled.
- The secondary bomber target (`bomberTarget`) is not a field. Whether a bomber target is available is an input per mount.
- Units.MountLoop: requires that no mount object appears twice in a unit's mounts. A Java array could alias one mount at two indices.
- `LogicHandler.ParseInt` accepts only the ASCII digits '0' to '9'. `Integer.parseInt` also accepts other Unicode decimal digits.
- `eval` returns a Java `Object`. Values are modelled as null, an Integer or a String; other objects stored in the map are not modelled.
- `CacheLayer.java` is not part of this model, so the registry follows what its tests assert.
  - The full list and order of the built-in layers are not known. `Init` registers the layers the tests name, appended after any already present.
  - `add(l)` inserts at an unspecified position.
  - `AddAt` requires a position within the array. `AddAt`, `Add` and `AddLast` all require a layer not yet registered.
- `ShaderLayer.begin`/`end` and the layers' `liquid` flags are graphics state and static data whose source is not part of this model.
- The rendering test `TileRendererIntegrationTest` is not modelled.
