# AIge-of-Networks engine core in Dafny

This project models the engine of AIge-of-Networks, a real-time strategy game in the style of Age of Empires. Networked players share one map. The model covers:

- **The command list (ledger).** It is shared by all players. A command registers on it under a per-process exclusivity rule and leaves it when it finishes or fails.
- **The six commands.** These are SPAWN, MOVE, ATTACK, COLLECT, DROP and BUILD, with their tick budgets, first-run checks and completions.
- **The command controller**, which builds a command for a process.
- **The tasks.** These are move, build, collect-and-drop, kill and spawn. A task turns a goal into commands through its waiting flag.
- **The task manager**, which runs every task of a player once per pass.
- **The interactions gateway.** Every change of the map and of ownership goes through it, and it announces the change on the network.
- **The game controller's loop body.** Each iteration runs the players' tasks, then the command list, then the received network messages. The model includes the receive-side handlers that mirror another machine's PLACE_OBJECT, REMOVE_OBJECT, MOVE_UNIT, LINK_OWNER and EXIT messages.
- **The network manager's framing.** Framing is `P<player>|GAME_EVENT:<kind>:<json>`. The model covers the self filter and the game-event processor that applies a peer's MOVE.
- **The C network bridge.** It wraps a local datagram as `{"bridge_id":"<id>","data":<payload>}` and unwraps datagrams from the network. It also filters out its own echoes, generates the machine id and computes the broadcast address.
- **The random strategy's search for build points** next to existing buildings.

The state is functional. A `World` holds:

- the game objects by local id;
- the map grid as a map from anchor cells to ids;
- the players in roster order;
- the outbox of announced network messages;
- the next free id.

Commands live in a heap keyed by command id, because tasks hold references to them. The list holds their keys. A Python exception is an `Err` of a `Result`. Its class (ValueError, AttributeError, IndexError, KeyError) decides which loop catches it. The map's geometric collaborators are function-valued parameters (`Geometry`): adjacency, range, placement checks, path finding and the nearest empty zone. So are the JSON decoder and Python's `id()` of an entity on the network side.

Modules follow the program's structure:

| module | models |
|---|---|
| `Base`, `Text`, `World` | shared vocabulary: results and errors, coordinates, stocks, strings; the world state |
| `Ledger` | `Command.push_command_to_list` and `remove_command_from_list` |
| `Commands` | the six commands and `CommandController.command` |
| `Tasks` | the five task classes |
| `TaskManager` | `TaskController.execute_tasks` |
| `Interactions` | `Interactions` |
| `Reconcile` | `GameController.network_interactions` and its handlers |
| `GameLoop` | `GameController.update`, `load_task`, and the body of `game_loop` |
| `Framing` | `NetworkManager._process_message`, `_handle_game_event`, `send_game_event`, and `GameEventProcessor` |
| `Bridge` | the wrap, unwrap, self-filter, machine-id and broadcast-address logic of `network_bridge.c` |
| `BuildPoints` | `find_adjacent_build_points` |

## Model

| member | source | states |
|---|---|---|
| Ledger.Register | model/commands/command.py:121-141 | registration succeeds exactly when no earlier entry of the same entity is a COLLECT or BUILD, or a MOVE/ATTACK of the same process; on success the entry is appended; on failure the error is the busy or cooling-down error of the FIRST conflicting entry |
| Ledger.Position | model/commands/command.py:149-150 | the first occurrence of an entry, or its absence |
| Ledger.RemoveFirstOccurrence | model/commands/command.py:143-150 | removal cuts out exactly the first occurrence and leaves an absent entry's list unchanged |
| Ledger.RegisterPreservesValid | model/commands/command.py:121-141 | registration keeps the list invariant: distinct ids, one MOVE/ATTACK/COLLECT/BUILD per entity and process, and nothing after a COLLECT or BUILD of the same entity |
| Ledger.DeleteAtPreservesValid | model/commands/command.py:143-150 | deleting any one entry keeps the list invariant |
| Ledger.RemovePreservesValid | model/commands/command.py:143-150 | removal keeps the list invariant |
| Ledger.RegisterAppends | model/commands/command.py:127-141 | with no conflicting entry the new command lands at the end and earlier entries keep their places |
| Ledger.BusyBlocksEverything | model/commands/command.py:131-135 | a COLLECT or BUILD of the entity blocks every later process, SPAWN included |
| Ledger.SameProcessCoolsDown | model/commands/command.py:136-140 | a MOVE (ATTACK) of the entity blocks another MOVE (ATTACK) |
| Ledger.RegisterFailsIff | model/commands/command.py:127-141 | registration fails if and only if a blocking entry of the same entity exists, and SPAWN or DROP entries never block |
| Ledger.MoveAndAttackCoexist | model/commands/command.py:136-140 | a MOVE and an ATTACK of one unit may both be registered, in either order |
| Ledger.SecondRegistration | model/commands/command.py:127-141 | registering the same process twice fails for MOVE, ATTACK, COLLECT and BUILD and succeeds for SPAWN and DROP |
| Ledger.RemoveShape | model/commands/command.py:143-150 | with distinct ids, removal deletes exactly the given entry: the list shrinks by one and keeps every other entry |
| Commands.Budget | model/commands/spawn_command.py:44-45 | SPAWN needs a building the spawner table knows and takes spawn time times the coefficient; BUILD needs the building and takes its build time times the coefficient; MOVE needs a unit; ATTACK takes the coefficient; COLLECT takes the floor of 25/60 of it; DROP takes 0 |
| Commands.JobFor | controller/command_controller.py:77-131 | the command built for a process runs that process |
| Commands.Issue | controller/command_controller.py:77-131 | a command is built exactly when its constructor's lookups succeed and the list accepts it; the constructor's error comes before the list's busy or cooling-down error; on success the new command is in the heap, is appended to the list and takes a fresh id |
| Commands.IssuePreservesConsistent | model/commands/command.py:121-141 | issuing keeps the heap and the list in agreement and every listed command runnable |
| Commands.SpawnComplete | model/commands/spawn_command.py:100-107 | a completed SPAWN adds one fresh unit of the building's kind, owned by the player, on the target cell, and changes no player's resources |
| Commands.RunSpawn | model/commands/spawn_command.py:61-110 | a SPAWN run touches no other command, keeps its own key, player and target, at most takes itself off the list, only adds objects, and counts its tick down by one when it returns |
| Commands.BuildComplete | model/commands/build_command.py:81-94 | a completed BUILD puts the building on the target, owned by the player, and raises the player's population cap by the building's capacity when it increases population |
| Commands.RunBuild | model/commands/build_command.py:56-95 | a BUILD run touches no other command, keeps its own key, player and target, at most takes itself off the list, only adds objects, and counts its tick down by one when it returns |
| Commands.RunMove | model/commands/move_command.py:47-57 | a MOVE run touches no other command, keeps its own key, player and target, at most takes itself off the list, only adds objects, and counts its tick down by one when it returns |
| Commands.RunAttack | model/commands/attack_command.py:49-59 | an ATTACK run touches no other command, keeps its own key, player and target, at most takes itself off the list, only adds objects, and counts its tick down by one when it returns |
| Commands.RunCollect | model/commands/collect_command.py:48-59 | a COLLECT run touches no other command, keeps its own key, player and target, at most takes itself off the list, only adds objects, and counts its tick down by one when it returns |
| Commands.RunDrop | model/commands/drop_command.py:45-52 | a DROP run touches no other command, keeps its tick and at most takes itself off the list |
| Commands.Run | model/commands/command.py:152-158 | `run_command` of any kind touches no other command, keeps its own key, player and target, at most takes itself off the list, only adds objects, and counts its tick down by one when it returns, and keeps every other runnable command runnable |
| Commands.SpawnRejectionChangesNothing | model/commands/spawn_command.py:66-91 | a SPAWN failing the population, resource or placement check raises that check's error, leaves the world unchanged and leaves the list |
| Commands.SpawnFirstRunDeducts | model/commands/spawn_command.py:66-98 | a SPAWN passing its checks deducts the unit's cost once and puts a placeholder on the target |
| Commands.SpawnValidatesOnce | model/commands/spawn_command.py:66-110 | after the first run a SPAWN never checks or deducts again, and while counting down it does not change the world |
| Commands.SpawnCompletes | model/commands/spawn_command.py:100-107 | at tick 0 a registered SPAWN swaps the placeholder for the unit, links it to the player and leaves the list |
| Commands.BuildNeedsAdjacency | model/commands/build_command.py:60-62 | a BUILD whose villager is not adjacent to the target leaves the list with an out-of-range error, on any run |
| Commands.BuildRejectionChangesNothing | model/commands/build_command.py:64-73 | an unaffordable BUILD leaves the list with a resources error and an unchanged world |
| Commands.BuildFirstRunDeducts | model/commands/build_command.py:64-79 | an affordable BUILD deducts the building's cost once and puts a placeholder of the building's size on the target |
| Commands.BuildCompletes | model/commands/build_command.py:81-94 | at tick 0 a registered BUILD puts the building on the target, links it and leaves the list |
| Commands.MoveOnFirstRunOnly | model/commands/move_command.py:51-57 | a MOVE moves its unit on the first run only |
| Commands.KilledTargetLeavesRoster | model/interactions.py:136-148 | the first run of an ATTACK that kills an owned target takes it off the map and out of its owner's units or buildings, lowering the cap for a population-increasing building |
| Commands.AttackOnFirstRunOnly | model/commands/attack_command.py:53-59 | an ATTACK attacks on the first run only and clears its start flag even when the attack raises |
| Commands.CountdownLeavesAtZero | model/commands/move_command.py:55-57 | a MOVE or ATTACK run that returns leaves the list exactly when its tick is at most 0 |
| Commands.CollectWaits | model/commands/collect_command.py:52-59 | a COLLECT whose tick is above 0 only counts down |
| Commands.CollectCollectsOnce | model/commands/collect_command.py:52-58 | at tick 0 or below a registered COLLECT returns normally, collects one unit of what its source yields and leaves the list |
| Commands.DropActsImmediately | model/commands/drop_command.py:45-52 | a DROP drops on its first run and then leaves the list; a failed drop raises with nothing changed and stays listed |
| Commands.RunTimes | model/commands/command.py:152-158 | repeated runs keep the set of commands in the heap |
| Commands.CountdownRuns | model/commands/move_command.py:55-57 | a started MOVE or ATTACK with tick t stays on the list for t runs and is gone after run t+1 |
| Commands.MoveLeavesOnRunBudgetPlusOne | model/commands/move_command.py:41-57 | a fresh MOVE with budget b is still listed after b runs and gone after b+1 |
| Tasks.NewMover | model/tasks/move_task.py:26-37 | a move task plans its path from the unit's coordinate: avoiding the rectangle when both corners are given, otherwise diagonal or not as asked; a unit off the map raises |
| Tasks.NewBuildTask | model/tasks/build_task.py:26-30 | a build task's approach avoids the building's square, from the target to the target plus size minus one |
| Tasks.TargetResource | model/tasks/collect_and_drop_task.py:30 | the collected resource is the resource at the target, or food when the target is another object such as a farm |
| Tasks.NewCollectTask | model/tasks/collect_and_drop_task.py:26-32 | a collect task exists exactly when the villager is on the map and the target holds something |
| Tasks.NewKillTask | model/tasks/kill_task.py:24-27 | a kill task plans its approach to the target |
| Tasks.NewSpawnTask | model/tasks/spawn_task.py:20-23 | a spawn task targets the first empty cell the map finds near the building, and fails when there is none |
| Tasks.IssueFor | controller/command_controller.py:77-131 | issuing from a task adds exactly one entry with the fresh id, or fails with the controller's error |
| Tasks.MoveStep | model/tasks/move_task.py:47-60 | an idle move task issues the MOVE to the next path cell and waits; a waiting one advances exactly when the MOVE is over; the end of the path raises IndexError; a ValueError clears the task |
| Tasks.MovePoll | model/tasks/move_task.py:55-57 | a waiting move task advances one step when its MOVE's tick is out and keeps waiting otherwise |
| Tasks.Poll | model/tasks/build_task.py:50-52 | a task finishes exactly when it has no command or its command's tick is at most the limit |
| Tasks.IssueThenPoll | model/tasks/build_task.py:47-52 | an idle task issues its command exactly when the controller accepts it; a waiting task issues nothing |
| Tasks.Inner | model/tasks/collect_and_drop_task.py:60-72 | running an inner move task registers at most a MOVE and keeps the outer task's waiting flag and command |
| Tasks.BuildStep | model/tasks/build_task.py:40-52 | a villager not adjacent walks and issues no BUILD; an adjacent one issues the BUILD once and waits for it |
| Tasks.Held | model/tasks/collect_and_drop_task.py:58-59 | the collector's load and capacity are read only from a unit |
| Tasks.CollectStep | model/tasks/collect_and_drop_task.py:54-75 | while it can carry more the villager walks to the target or issues one COLLECT; otherwise it walks back or issues one DROP; only COLLECT, DROP and MOVE are registered |
| Tasks.KillStep | model/tasks/kill_task.py:37-57 | out of range the attacker walks (a fresh non-diagonal path when adjacent); in range it issues one ATTACK when the target cell is occupied |
| Tasks.SpawnStep | model/tasks/spawn_task.py:33-39 | a spawn task issues one SPAWN and lets go once the SPAWN's tick is at most 20 times the coefficient |
| Tasks.Execute | model/tasks/task.py:40-45 | stepping a task only registers commands and keeps the task's class, entity and target; a waiting task that does not finish keeps waiting |
| Tasks.IssueCount | model/tasks/task.py:40-45 | the count of steps over a life that issued a command of a kind |
| Tasks.WaitingIssuesNothing | model/tasks/task.py:71-84 | a task that is waiting never issues its own command again over its life |
| Tasks.AtMostOneOwnCommand | model/tasks/build_task.py:47-52 | a build, collect-and-drop, kill or spawn task issues its own command at most once over its life |
| Tasks.MoveWaitsForItsCommand | model/tasks/move_task.py:55-57 | a move task whose MOVE is still counting down issues nothing and keeps waiting |
| Tasks.MoveAdvancesWhenDone | model/tasks/move_task.py:55-57 | a move task whose MOVE is over stops waiting and advances one step |
| Tasks.MovePathExhausted | model/tasks/move_task.py:51-53 | an idle move task past its last path cell raises IndexError, which the move task does not catch |
| Tasks.SpawnTaskLetsGoEarly | model/tasks/spawn_task.py:37-39 | the spawn task lets go of a still-registered SPAWN once its tick falls to 20 times the coefficient |
| Tasks.StepKeepsCommands | model/tasks/task.py:40-45 | a task step never takes back a registered command |
| TaskManager.StepEntity | controller/task_manager.py:19-29 | an entity without a task is skipped; a ValueError or IndexError clears the task; other errors propagate |
| TaskManager.RunAll | controller/task_manager.py:19-35 | a pass leaves the tasks of the entities not in it unchanged and only propagates errors other than ValueError and IndexError |
| TaskManager.ExecuteTasks | controller/task_manager.py:15-35 | the player's units are stepped first and then its buildings; other entities keep their tasks |
| TaskManager.RunAllSplits | controller/task_manager.py:19-35 | a pass over the units and then the buildings is the two passes in sequence |
| TaskManager.IdleEntitiesSkipped | controller/task_manager.py:20 | a pass over entities without tasks changes nothing |
| TaskManager.FailureIsolated | controller/task_manager.py:21-29 | a failing task is dropped and the pass goes on with the next entity |
| TaskManager.PassOnlyRegisters | controller/task_manager.py:15-35 | a task pass never runs a command and never changes the world |
| Interactions.PlaceObject | model/interactions.py:36-48 | the object is anchored at the cell, records its coordinate, and a PLACE_OBJECT with its id, name, size and coordinate is sent |
| Interactions.RemoveObject | model/interactions.py:56-67 | the object's cell is emptied, the object is off the map and dead, and a REMOVE_OBJECT is sent |
| Interactions.PlaceThenRemove | model/interactions.py:36-67 | placing on a free cell and removing again restores the grid and sends both messages |
| Interactions.MoveCells | model/interactions.py:78 | the unit leaves its own cell and takes the new one; other cells are unchanged |
| Interactions.MoveUnit | model/interactions.py:77-93 | the unit moves; the MOVE_UNIT announcement reads the owner's name, so a unit without owner raises AttributeError after having moved |
| Interactions.Bury | model/interactions.py:136-148 | a killed target is off the map with its owner cleared and only a REMOVE_OBJECT sent; it leaves its owner's units or buildings, a population-increasing building takes its capacity off the owner's cap, and the cleanup raises exactly when the unit or building has no owner |
| Interactions.AttackCheck | model/interactions.py:103-113 | an attack goes ahead only on a unit or building at the cell whose owner differs from the attacker's |
| Interactions.AttackSparesNonEntities | model/interactions.py:107-113 | a resource or placeholder in range is never harmed: asking it for its owner raises AttributeError and the world is unchanged |
| Interactions.Disown | model/interactions.py:139-148 | after removal the target has no owner, the grid and messages are those of the removal, and the owner loses the target from its units or buildings and, for a population-increasing building, its capacity from the cap |
| Interactions.Strike | model/interactions.py:114-148 | the target loses exactly the attacker's attack points; with an owned attacker the ATTACK message comes next, and a target left with no hit points is removed, disowned and off its owner's roster |
| Interactions.Attack | model/interactions.py:103-148 | a failed check changes nothing; otherwise the target loses the attacker's damage, one ATTACK is sent, and a target left with no hit points is off the map, has no owner, is out of its owner's roster, and raises exactly when it had no owner |
| Interactions.Take | model/interactions.py:170-177 | a resource gives up the requested amount when it has enough, never more than it holds and never a negative amount |
| Interactions.CollectResource | model/interactions.py:162-200 | a failed check changes nothing; otherwise the collector stocks one unit of what the source yields, the call raises exactly when the collector has no owner and the source is not a farm, and a farm sends no collect message |
| Interactions.DropResource | model/interactions.py:214-245 | a failed check is reported; otherwise every held amount is credited to the player, the inventory is emptied and a DROP_RESOURCE is sent |
| Interactions.LinkOwner | model/interactions.py:256-273 | the entity's owner becomes the player, the entity joins the player's units or buildings, the population cap is unchanged and a LINK_OWNER is sent |
| World.PlayerIndex | controller/game_controller.py:491-495 | the first player with the name, or none |
| World.ReplacePlayer | controller/game_controller.py:491-495 | writing back the named player changes only that player |
| World.Create | controller/game_controller.py:509-525 | a created object takes a fresh id and nothing else changes |
| Reconcile.Lookup | controller/game_controller.py:530 | a member lookup finds a member with the key, or raises KeyError |
| Reconcile.LookupFirst | controller/game_controller.py:530 | the lookup returns the first member with the key |
| Reconcile.Field | controller/game_controller.py:558 | `j[key]` succeeds exactly on an object holding the key; it is KeyError on an object without it and a type error otherwise |
| Reconcile.FieldOr | controller/game_controller.py:531-533 | `.get` gives the default for a missing key and fails with AttributeError on a non-object |
| Reconcile.PyInts | controller/game_controller.py:561-563 | every part is read by `int()`, and the whole reading fails when one part fails |
| Reconcile.ParseCoord | controller/game_controller.py:561-563 | a non-string coordinate is an AttributeError, an unreadable number a ValueError, and a readable one gives the two components |
| Reconcile.PyIntRoundTrip | controller/game_controller.py:561-563 | every printed integer reads back through `int()` |
| Reconcile.CoordRoundTrip | controller/game_controller.py:561-563 | every coordinate the sender prints reads back as itself |
| Reconcile.NoneUnreadable | controller/game_controller.py:581-583 | the "None" coordinate of an object off the map is a ValueError |
| Reconcile.ClearSquare | controller/game_controller.py:566-575 | clearing a footprint removes exactly the cells of the square held by the given objects |
| Reconcile.ActionOf | controller/game_controller.py:530 | an action name is read as the one member with that wire value, and any other value is a ValueError |
| Reconcile.AppendedIndex | controller/game_controller.py:104-130 | a player generated for a new name is found at the end of the roster |
| Reconcile.ResolvePlayer | controller/game_controller.py:531-537 | a known name resolves to its player; an unknown name with a "player" member generates that player; without the member the player is none and the roster unchanged |
| Reconcile.PlaceNew | controller/game_controller.py:556-577 | the new object is anchored at its coordinate after the cells it covers are cleared of foreign objects |
| Reconcile.HandlePlace | controller/game_controller.py:556-577 | a PLACE_OBJECT adds exactly one new object and leaves the roster unchanged |
| Reconcile.HandleRemoveAsWritten | controller/game_controller.py:579-585 | the handler as written reads the id and the coordinate at the top level, and fails when there is no coordinate there |
| Reconcile.HandleRemove | controller/game_controller.py:579-585 | a REMOVE_OBJECT only empties cells and changes no object and no player |
| Reconcile.RemoveAt | controller/game_controller.py:581-585 | the removal only empties cells |
| Reconcile.FindUnit | controller/game_controller.py:503-504 | `get_unit` finds the first of the player's units with the received id |
| Reconcile.MoveKnown | controller/game_controller.py:587-609 | a known unit takes the new cell, its old cell is emptied, and nothing else changes |
| Reconcile.MoveNew | controller/game_controller.py:587-609 | an unknown unit is created with the received id on the new cell and joins the player's units |
| Reconcile.HandleMove | controller/game_controller.py:587-609 | a MOVE_UNIT needs a resolved player and keeps the roster |
| Reconcile.HandleLink | controller/game_controller.py:739-778 | a LINK_OWNER creates one object, linked to the player as a unit or a building |
| Reconcile.FreeFootprint | controller/game_controller.py:766-774 | the link handler only empties cells, and nothing when the cell is free |
| Reconcile.HandleExit | controller/game_controller.py:497-498 | EXIT removes the named player from the roster, and fails when there is no such player |
| Reconcile.Route | controller/game_controller.py:539-554 | every handler only grows the world, and only EXIT changes the roster |
| Reconcile.Handle | controller/game_controller.py:527-554 | the action is read first: a missing one is a KeyError and an unknown one a ValueError; the player is resolved before dispatch |
| Reconcile.Dispatch | controller/game_controller.py:530-554 | a message with a known action and a resolved player goes to that action's handler |
| Reconcile.Receive | controller/game_controller.py:527-554 | receiving only grows the world |
| Reconcile.ReceiveSplits | controller/game_controller.py:529-554 | receiving a+b is receiving a and then b; the first failure stops the pass |
| Reconcile.NoPlayerMember | controller/game_controller.py:531-537 | a message without a player member leaves the roster alone |
| Reconcile.PlaceMirrored | controller/game_controller.py:556-577 | a receiver mirrors a PLACE_OBJECT: one new object with the sender's name, size and coordinate, anchored there |
| Reconcile.NamedPlayerResolved | controller/game_controller.py:531-537 | a message naming a player resolves to that player, generating it when new |
| Reconcile.MoveMirrored | controller/game_controller.py:587-609 | a receiver mirrors a MOVE_UNIT: the player is known afterwards and the unit with the sender's id is at the new cell |
| Reconcile.NamedPlayerStays | controller/game_controller.py:531-537 | any successfully handled non-EXIT message naming a player leaves that player on the roster |
| Reconcile.ExitLeaves | controller/game_controller.py:553-554 | EXIT takes the named player off the roster and changes nothing else |
| Reconcile.RemoveAsWrittenFails | controller/game_controller.py:579-585 | every REMOVE_OBJECT the gateway sends makes the handler as written fail with KeyError |
| Reconcile.RemoveRead | controller/game_controller.py:579-585 | the corrected handler reads the nested id and coordinate |
| Reconcile.RemoveAtMatches | controller/game_controller.py:581-585 | the cell is emptied exactly when its occupant carries the received id |
| Reconcile.RemoveMirrored | controller/game_controller.py:579-585 | with the nested reading, a receiver mirrors a REMOVE_OBJECT: the cell is emptied exactly when its occupant has the sender's id |
| Reconcile.PlaceThenRemoveMirrored | controller/game_controller.py:556-585 | a mirrored PLACE_OBJECT followed by its REMOVE_OBJECT leaves the cell empty |
| GameLoop.LiveIsOk | controller/game_controller.py:430-439 | the loop invariant includes what the task manager needs |
| GameLoop.RunKeepsConsistent | controller/game_controller.py:408-416 | running a command, and removing it after a failure, keeps the heap and the list in agreement |
| GameLoop.InRemoved | model/commands/command.py:143-150 | removal only takes entries away |
| GameLoop.RunOne | controller/game_controller.py:409-416 | one command's turn keeps the loop invariant; a ValueError or AttributeError is caught and other errors propagate |
| GameLoop.RunOneCases | controller/game_controller.py:409-416 | a turn either returns, or fails and its command is taken off the list and its task cleared |
| GameLoop.UpdateAll | controller/game_controller.py:408-416 | running the snapshot keeps the invariant and does not touch commands outside it |
| GameLoop.Update | controller/game_controller.py:404-417 | `update` keeps the invariant and propagates only errors other than ValueError and AttributeError |
| GameLoop.LoadFrom | controller/game_controller.py:424-428 | the task passes of the players keep the invariant and only register commands |
| GameLoop.LoadTask | controller/game_controller.py:419-428 | `load_task` leaves the world unchanged |
| GameLoop.WorldGrows | controller/game_controller.py:436 | received messages only add objects, so every command and task stays valid |
| GameLoop.Tick | controller/game_controller.py:433-436 | one loop iteration keeps the invariant, keeps every command object, never adds tasks and never loses objects |
| GameLoop.Received | controller/game_controller.py:436 | the engine after receiving keeps its commands and tasks |
| GameLoop.UpdateRunsTheSnapshot | controller/game_controller.py:408 | `update` runs only the commands listed when it starts |
| GameLoop.FailedCommandDropped | controller/game_controller.py:412-416 | a command that raises a ValueError or AttributeError leaves the list and its entity's task is cleared |
| GameLoop.UpdateOnlyShrinks | controller/game_controller.py:408-416 | `update` takes commands off the list but never adds one |
| GameLoop.QuietTick | controller/game_controller.py:433-436 | with nothing received, an iteration is the task pass followed by the command pass |
| GameLoop.BadMessageIsFatal | controller/game_controller.py:436-439 | a received message the handlers cannot process ends the loop |
| Framing.Frame | network/network_manager.py:120 | an event frame starts with the event tag |
| Framing.ParseEvent | network/network_manager.py:96-101 | a frame splits at its first two colons into tag, kind and payload; fewer than two colons is no frame |
| Framing.FrameRoundTrip | network/network_manager.py:96-120 | a framed event whose kind has no colon parses back to the same kind and payload |
| Framing.SplitSender | network/network_manager.py:74-77 | the sender prefix is the text before the first '\|', and a message without '\|' has none |
| Framing.ProcessMessage | network/network_manager.py:70-91 | a message without '\|' is malformed; one with the own prefix is ignored; only a content starting with the tag is processed; nothing but object coordinates can change |
| Framing.FirstMatch | network/game_network.py:113-120 | the first entity in the list whose id matches |
| Framing.FindEntity | network/game_network.py:108-124 | players are searched in order, units before buildings, and the first match wins |
| Framing.PositionOf | network/game_network.py:100 | a position is read from integer x and y members |
| Framing.ProcessMove | network/game_network.py:81-106 | a missing or falsy id or position, an unknown entity and a bad position are refused with no change; otherwise only the entity's coordinate changes, the grid untouched |
| Framing.ProcessEvent | network/game_network.py:62-79 | only MOVE events change anything; BUILD, ATTACK and unknown kinds are refused |
| Framing.MoveApplied | network/game_network.py:84-103 | a MOVE event for a known entity sets its coordinate to the received position |
| Framing.UnknownEntityRefused | network/game_network.py:92-95 | a MOVE for an unknown entity changes nothing |
| Framing.FalsyIdRefused | network/game_network.py:88-89 | a falsy entity id changes nothing |
| Framing.MissingMemberRefused | network/game_network.py:84-89 | a MOVE without id or position changes nothing |
| Framing.OwnMessagesIgnored | network/network_manager.py:80 | a message carrying the own player prefix is ignored |
| Framing.PrefixesDiffer | network/network_manager.py:80 | different player numbers give different prefixes, so only own messages are filtered |
| Framing.PeerEventProcessed | network/network_manager.py:70-109 | a peer's framed event is processed as that event |
| Bridge.Hex | network_bridge.c:187 | `%lx`/`%x` print lowercase hex digits that contain no quote and no NUL |
| Bridge.HexLength | network_bridge.c:187 | a number below 16^k prints in at most k hex digits |
| Bridge.HexInjective | network_bridge.c:187 | `%x` prints distinct numbers differently |
| Bridge.MachineId | network_bridge.c:183-188 | the machine id starts with "bridge-", contains no quote and no NUL, and fits the 37-byte buffer |
| Bridge.GenerateMachineId | network_bridge.c:183-188 | the id is well shaped and starts with the printed second: the generator is seeded with that second right before `rand()` |
| Bridge.CStr | network_bridge.c:415 | a C string ends at the first NUL |
| Bridge.Recv | network_bridge.c:410 | `recvfrom` keeps at most BUFFER_SIZE-1 bytes |
| Bridge.Wrap | network_bridge.c:418-420 | the wrapper adds exactly 24 bytes to the id and the payload |
| Bridge.Truncate | network_bridge.c:418-419 | `snprintf` keeps at most the buffer size minus one |
| Bridge.FromLocal | network_bridge.c:405-440 | a non-empty local datagram is broadcast exactly in run mode and when its wrapped form fits one IPv4 datagram, wrapped with the machine id; `sendto`'s failure on a longer one is not checked |
| Bridge.Unwrap | network_bridge.c:463-473 | the payload is what follows the first `"data":`, cut at the last '}'; no key means nothing is forwarded |
| Bridge.FromNetwork | network_bridge.c:442-492 | an empty datagram, one mentioning the own id, one without the data key, or any datagram outside run mode is not forwarded |
| Bridge.FindIs | network_bridge.c:454 | `strstr` finds the first occurrence |
| Bridge.DataKeyAfterId | network_bridge.c:419-463 | in a wrapped message the first data key is the wrapper's own |
| Bridge.UnwrapWrap | network_bridge.c:418-473 | unwrapping a wrapped payload gives the payload back |
| Bridge.WrapNeverTruncates | network_bridge.c:418 | the wrapped message of a received datagram always fits the tagged buffer |
| Bridge.WrapHasNoNul | network_bridge.c:418-431 | a wrapped message has no NUL, so `strlen` sends all of it |
| Bridge.MentionDropped | network_bridge.c:454 | a peer datagram whose payload mentions the own id is dropped as if it were an echo |
| Bridge.PrefixIdDropsPeer | network_bridge.c:454 | a peer whose id starts with the own id is dropped as an echo |
| Bridge.IdPrefixSameSecond | network_bridge.c:187 | an id starts another only when both print the same second |
| Bridge.OneLibraryIdsNeverPrefix | network_bridge.c:186-187 | with one C library, a bridge's id starts another's only when the two ids are equal |
| Bridge.SameSecondPeersDeaf | network_bridge.c:186-187 | two bridges started in the same second with one C library share their id and drop every datagram the other broadcasts |
| Bridge.PrefixIdsExist | network_bridge.c:187 | ids where one starts the other exist, for one second and two different first `rand()` values, which only two C libraries give |
| Bridge.RelayRoundTrip | network_bridge.c:405-492 | a datagram relayed by one bridge and received by another arrives unchanged when it fits one datagram |
| Bridge.LongPayloadNotSent | network_bridge.c:418-431 | a local datagram whose wrapped form exceeds one IPv4 datagram is never broadcast |
| Bridge.UnclosedUnwrap | network_bridge.c:463-473 | a wrapped datagram missing its last byte unwraps to a payload cut at its own last '}' |
| Bridge.LongPayloadCut | network_bridge.c:410-473 | a payload holding a '}' whose wrapped form is exactly one full IPv4 datagram is sent, but the receive reads one byte less and the payload does not arrive intact |
| Bridge.BroadcastAddress | network_bridge.c:149 | the broadcast address keeps the network part of the address and sets every host bit |
| Bridge.ChooseInterface | network_bridge.c:137-165 | the first IPv4 interface that is not loopback is chosen |
| Bridge.Broadcast | network_bridge.c:137-165 | a broadcast address exists exactly when some interface is usable; it is the `BroadcastAddress` of the first usable interface's address and netmask |
| BuildPoints.Step | model/player/strategies/random_strategy.py:102-131 | one offset yields at most one point |
| BuildPoints.Row | model/player/strategies/random_strategy.py:100-131 | one row of offsets yields at most one point per offset |
| BuildPoints.CheckBlock | model/player/strategies/random_strategy.py:115-129 | the 2x2 check succeeds exactly when every block cell is inside the map and unoccupied |
| BuildPoints.TryOffset | model/player/strategies/random_strategy.py:102-131 | one offset of the search yields its point exactly as the specification does |
| BuildPoints.ScanRow | model/player/strategies/random_strategy.py:100-131 | one row of the search matches the specification |
| BuildPoints.ScanAround | model/player/strategies/random_strategy.py:98-131 | the search around one building matches the specification |
| BuildPoints.FindAdjacentBuildPoints | model/player/strategies/random_strategy.py:83-133 | the loops compute the specified list of points |
| BuildPoints.RowMembers | model/player/strategies/random_strategy.py:100-131 | a point is in a row exactly when one of its offsets yields it |
| BuildPoints.RowsMembers | model/player/strategies/random_strategy.py:98-131 | a point is in the rows exactly when one of the rows yields it |
| BuildPoints.AroundMembers | model/player/strategies/random_strategy.py:98-131 | a point is found around a building exactly when it is a neighbour and acceptable |
| BuildPoints.AllPointsMembers | model/player/strategies/random_strategy.py:92-131 | a point is found exactly when it is found around some building |
| BuildPoints.BuildPointsExact | model/player/strategies/random_strategy.py:83-133 | a point is returned exactly when it neighbours some building, lies in the map, is not occupied, and its 2x2 block is free |
| BuildPoints.AllPointsSplit | model/player/strategies/random_strategy.py:92-131 | the result for a+b is the result for a followed by the result for b, without removing duplicates |
| BuildPoints.AroundAtMostEight | model/player/strategies/random_strategy.py:98-131 | at most eight points are found around one building |

## Left out

- Sockets, threads, `select`, the clock and `time.Clock().tick`, the view and printing are left out. The loop body is modelled as one function of the received messages.
- The body of `GameController.start` and the `while self.__running` flag are left out; `Tick` is one iteration.
- The Windows branch of the broadcast lookup is left out.
- Inbound message decoding by `json.loads` is a parameter of the framing layer (`Framing.Receiver.decode`), and so is the entity id the event processor compares (`Framing.Receiver.idOf`). Outbound `json.dumps` is not modelled beyond the frame.
- Reconcile.Foreign, Reconcile.RemoveAt, Reconcile.FindUnit and Reconcile.FreeFootprint: take an object's wire id to be one integer, `netId`, which `set_id` stores and `get_id` returns, and which is `id(obj)` for local objects. `GameObject` (`set_id`) is not part of this model. `Entity.get_id` (model/entity.py:122-126) returns `_entity_id`, whose default is the string `str(id(self))`. The model does not follow that string default, so a local entity's id can match an integer id on the wire.
- Framing.ProcessMove: assumes that the `entity._coordinate` write at network/game_network.py:101 is the coordinate `get_coordinate` reads. `GameObject` is not part of this model. If it keeps the coordinate in a name-mangled private field, as `Entity` keeps its own fields (model/entity.py:27-30), the write would not move the entity as the rest of the game sees it.
- `NetworkManager` without a game controller is left out; the model always has one.
- The stub handlers for ATTACK, COLLECT_RESOURCE and DROP_RESOURCE in `network_interactions` only pass, and are modelled as no change.
- `Entity` internals, `Map` and `Coordinate` are not part of this model. The map's geometry is a parameter, and coordinates are integer pairs. A non-integer x or y in a MOVE event is refused.
- Player names, unit ids and object names on the wire are a string, an integer and a string. Another JSON type is rejected with a type error rather than Python's looser comparison. `create_object` (controller/game_controller.py:509-525) would turn a non-string name into a plain `GameObject`; `Reconcile.ReadPlace` rejects it.
- Python `int()` on strings with underscores or non-ASCII digits is left out; only optional whitespace, an optional sign and ASCII digits are read.
- A placeholder received with a negative size is clamped to 0. A placeholder's default size is taken as 1.
- The map grid holds each object's anchor cell only. Multi-cell footprints appear only where the handlers clear them.
- `map.remove` of an absent cell is a no-op.
- A failed message in `network_interactions` is fatal, and the partial state left by the other messages of that batch is not modelled: the loop is over.
- The network plumbing of commands (`send_network`, the network controller) is an outbox of messages.
- Encoding leaves out the ATTACK `hp` and DROP_RESOURCE `resources` members.
- Fractional tick budgets are exact integer products except COLLECT, whose 25/60 factor is floored as `int()` does.
- Little-endian byte order in the loopback test is left out. Addresses are host-order `bv32` with the first octet in the high byte.
- Reconcile.Route: sends REMOVE_OBJECT to the corrected `HandleRemove`, not to `HandleRemoveAsWritten`. So `Reconcile.Handle`, `Reconcile.Receive`, `GameLoop.Tick` and `GameLoop.BadMessageIsFatal` treat every well-formed REMOVE_OBJECT as handled. The code as written raises KeyError at controller/game_controller.py:581, which ends the loop (controller/game_controller.py:436-439); see Findings.
- Interactions.AttackCheck: `Resource` is not part of this model. A resource is taken not to be an `Entity`, as model/entity.py imports it and describes entities as units and buildings. So the owner lookup at model/interactions.py:110 raises for it, and the resource test at line 112 is never reached.
- Interactions.Take: `Resource.collect` is not part of this model. The clamping is assumed, not read: a non-positive request gives nothing, and a request beyond what is held gives what is held.
- Interactions.CollectResource: rejects a collector that is not a unit before any change. The code first takes from the farm's food or the resource, then raises in `stock_resource` (model/interactions.py:169-170, 176-177). So the amount it took is lost.
- Commands.RunSpawn: looks up the command's player by name, so a SPAWN whose player has left the roster through EXIT raises AttributeError and is dropped (`Commands.SpawnCheck`). The code holds the `Player` object itself (model/commands/spawn_command.py:67-98) and goes on with the detached player: it checks and deducts that player's resources and spawns the unit. The model has no detached players.
- Commands.RunBuild: for the same reason, a BUILD whose player has left the roster raises AttributeError on its first run. The code deducts from the detached player and completes the building (model/commands/build_command.py:64-91).
- Interactions.DropResource: when the named player has left the roster, the inventory is emptied and nobody is credited. The code credits the detached player it holds (model/interactions.py:224-226).
- World.AddId, World.RemoveId, World.NewPlayer and Base.Affordable: `Player` is not part of this model, so its semantics are assumed, not read. Adding a unit or building does not duplicate it. Removing one drops every copy and does nothing for an absent id, where `list.remove` would raise ValueError. A new player starts with no resources. `check_consume` is `>=` on every resource. The unit count is the length of the units list.
- Bridge.GenerateMachineId: both `time(NULL)` calls (network_bridge.c:186-187) are taken to read the same second.
- GameLoop.Tick: does not state what the commands announce in the outbox, because the commands' own contracts state it.
- Commands.Budget: for MOVE states only when the command can be built, not the unit's move time.
- Tasks.Inner: does not state which path cell the inner MOVE targets; `Tasks.MoveStep` states it.
- Reconcile.HandleLink: states the new object and its link; the footprint clearing is stated by `Reconcile.FreeFootprint`.
- Framing.ProcessEvent: the BUILD and ATTACK processors are the source's placeholders and return false.

## Findings

| source | as written | input that shows it | evidently intended | confidence | as-written member | corrected member |
|---|---|---|---|---|---|---|
| controller/game_controller.py:579-585 | the REMOVE_OBJECT handler reads `interaction["id"]` and `interaction["coordinate"]` at the top level | any message `remove_object` sends, e.g. `{"action": "REMOVE_OBJECT", "game_object": {"id": 5, "coordinate": "(1,2)"}}`: a KeyError, which `network_interactions` does not catch, so the game loop ends | read the id and the coordinate from the nested `"game_object"` member, so a receiver empties the cell of the removed object | not executed | Reconcile.RemoveAsWrittenFails | Reconcile.RemoveMirrored |

Command exclusivity is per process kind, not one command per entity, so a MOVE and an ATTACK of one unit may both be registered (`Ledger.MoveAndAttackCoexist`).
