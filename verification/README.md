# Rollback lockstep engine: model and proofs

Several engines play one game. Each bundles its own events frame by frame and sends the bundles to all others.
An updater on every engine computes game states ahead of what it knows, rewinds when a late bundle arrives, and
declares a frame final once every member engine has supplied its bundle for it. The claim the engine lives by is
that all engines finalise the same states, whatever order bundles arrive in (`core/engine_test.go:191-206` looks at
one schedule of it). This project models the updater, the window behind it, the event bundles, the communicator
with its join protocol, and the bundler, and proves that claim and what it rests on for all schedules.

`dafny verify dfyconfig.toml` checks everything.

## How the model is built

The reference is a plain replay (`Replay.dfy`): `Step` folds a frame's engine events over the members in
ascending id order, then the game events of those who are members afterwards, then thinks. `Replayed` iterates it.
Nothing in it knows about windows, cursors or arrival order. The game, its events and `Think` are arbitrary
deterministic functions (`Rules`).

The code that changes state keeps that form:

| file | what it models |
|---|---|
| `Membership.dfy`, `Bundles.dfy`, `Window.dfy` | `EngineInfo` and its map, `EventBundle` with `each`, the circular buffer |
| `Games.dfy`, `FrameStore.dfy` | game objects, one frame's data, and the window with all objects its slots refer to |
| `Sweep.dfy` | the swap-remove loop that the updater and the communicator share |
| `Updater.dfy` | the updater: two constructors, the select cases as methods, `advance` with its loops |
| `Communicator.dfy`, `Bundler.dfy` | their select cases as methods, and `Join` |

and is proved against values with theorems of their own:

| file | what it proves |
|---|---|
| `Turns.dfy` | a frame one event at a time: which events change a world, in which order, and where the game thinks |
| `Rounds.dfy` | one round of the updater's select loop in terms of entries, frames, sends and answers |
| `Rewind.dfy` | rewinding no further than the oldest dirty frame is enough |
| `Agreement.dfy`, `Runs.dfy` | agreement, finality, progress, confluence; of records, and over whole runs |
| `Outbox.dfy` | what was sent, what was answered, who still waits |
| `UpdaterRuns.dfy`, `Driving.dfy` | the same of updater objects, down to the heap, and their select loop |
| `CatchUp.dfy`, `Hypotheses.dfy` | where the code stops doing what it is for, and exactly when |
| `Hosting.dfy`, `HostRuns.dfy` | a host's updater and communicator together, from their start on |
| `Flooding.dfy`, `Collisions.dfy` | forwarding in a network of engines, and why it never makes an updater panic |
| `Joining.dfy` | forwarding in a network that grows while bundles are on their way |

An updater's `Hist()` is its record: where it began, the log of what it used, the log of what it was handed (discards
included), and its two cursors. `Start` and `Bootstrap` begin with `Unplayed`, each bundle handler takes the record
along `StepsTo`, `Runs.Run` is any sequence of such steps, and `Driving.Drive` makes one of whatever inputs its select
loop takes, and stops only where a joiner's handler panics. `Books()` records what it sent and answered.
`HostRuns.HostGame` constructs a host's two objects and runs them.

The methods are proved against functions on values, which could be wrong together with them. So what these functions
compute is said a second time, without them: `Turns.StepInTurns` and `UpdaterRuns.LiveFrameInTurns` for the replay,
`Driving.Round` for the updater's handlers, `Communicators.Handlings` for forwarding, `Bundlers.Over` for the clock, and
the clauses of `LocalBundle`, `RequestFinal`, `FulfillFinalRequests`, `FanIn`, `Broadcast`, `NewConn`, `BootstrapFrame`,
`Join`, `Each` and `Tick` that name no such function.

Go routines and channels: `sent` is the sequence of sends on the two unbuffered channels to the communicator
(`pnf.go:100-101`); `replies` that of answers; a group from `nagle` is an arbitrary sequence of bundles; sends that the
source leaves to go-routines are per-connection logs of which no proof uses the order. The scan for the engine's own
join runs just before its bundle is absorbed, and the source runs it a few statements earlier, between steps that do
not depend on it. Ranging over a map is a loop that takes any remaining key. A copy of a struct shares its map, as in
the source; a nil map is `null`.

## What the theorems assume

- Engine ids are not negative. `RandomId` gives such ids (`core/base.go:12-20`); `Bundles.EachIsAscending` says exactly
  when `each` needs it.
- Frames are integers without overflow, and `Max_frames` is at least 1.
- Every bundle is below the end of the window when its handler runs (the source leaves that check as a TODO,
  `core/updater.go:296` and `core/updater.go:338`), and each engine's events for a frame reach an updater once. The
  second follows from how engines flood their bundles (`Collisions.ArrivalsNeverCollide`).
- `Lawful`: one table says what each engine emits on each frame, and whoever emits engine events on a frame is a member
  before it and is not dropped on it (`Governed`). "Only the host emits engine events" (`core/engine.go:56-58`)
  together with "the host is never dropped" is one way to have that (`Replay.HostGoverns`).
  `Hypotheses.UngovernedUpdatersDisagree` shows that agreement fails without it, and `Hypotheses.CanonicalExactly` on
  exactly which tables a started updater finalises nothing but canonical worlds.
- `Peopled`: a joiner is handed a world with at least one member (`Hypotheses.JoinerFaithfulExactly` says that is
  exact).

The table and the members are a hypothesis of theorems only: no method of the classes requires them, and their
invariants hold without.

## Where code and comments part, and what fails

- `core/updater.go:200-201` says that a nil set of engines marks a bootstrap state that must not be thought on. It never
  is nil there: `Copy` always makes a map. The model follows the code, so every recomputed frame thinks.
- `core/engine.go:64-65` says no events are expected of an engine on the first frame that lists it. The code asks for
  its bundle on that very frame and applies its events. The model follows the code.
- The swap-remove loops skip the entry they move. `Sweep.SweepExact` says exactly when that misses someone;
  `Outbox.SecondNeverHears` is an input on which it does: of two who wait for one final state the second never hears.
  In the communicator a stale entry does no harm (`Communicators.OfferedSound`).
- A joiner's first local bundle that is more than one frame ahead of all known frames makes the handler panic, or loses
  its fillers (`Updaters.Updater.LocalBundle`, `CatchUp.FillersArriveExactly`), and such a frame is never final
  (`CatchUp.LostFrameIsNeverFinal`).
- A joiner that is dropped on the frame it joined on passes that frame once all others are there for it, exactly then
  (`Hypotheses.JoinFrameExactly`), and its first local bundle panics: `Hypotheses.DroppedJoinerIsStuck` is the input.
- A joiner on a world without members finalises a frame it never thought on, as soon as any bundle makes it advance
  (`Hypotheses.EmptyWorldKeepsPlaceholder`).
- With a negative id among others, `each` leaks its sentinel or skips a key (`Bundles.EachStumbles`).

## Model

| member | source | states |
|---|---|---|
| Replay.ReplayLocal | core/updater.go:178-207 | a frame's world depends on no bundle above it, so recomputing from the oldest changed frame can be enough |
| Replay.PartIsEnough | core/updater.go:212-221 | a frame complete on part of the bundles steps exactly as on all of them, if the emitters of engine events are members that stay |
| Replay.SameMembersSameStep | core/updater.go:185-198 | a frame complete on part of its bundles steps as on all of them iff both leave the same members |
| Replay.StepMembers | core/updater.go:185-189 | an engine the frame does not drop is a member after it iff it was one before or the frame joins it |
| Replay.FoldGameSkips | core/updater.go:190-198 | entries of engines that are no members after the frame change no game state, wherever they stand in the order |
| Replay.HostStays | core/engine.go:56-58 | a host that nobody drops is a member on every frame of every replay |
| Replay.HostGoverns | core/engine.go:56-58 | engine events from an undropped host alone make the whole table governed |
| Replay.ReplayShift | core/updater.go:113-133 | replaying on from any frame of a replay gives the rest of it |
| Turns.StepInTurns | core/updater.go:181-206 | the reference step, event by event: all engine events in order make the members, all game events of those in order the game, which then thinks once |
| Turns.TurnsGiveStep | core/updater.go:181-206 | whoever goes through the events of a frame in that order ends in the reference step: there is only one such order |
| Membership.UndroppedMember | core/engine.go:44-54 | over any event sequence without its drop, an engine is a member afterwards iff it was or was joined |
| Membership.EngineMap.Apply | core/engine.go:44-54 | the members become those plus the joined or minus the dropped engine, no other entry changes |
| Membership.Copy | core/engine.go:69-76 | the copy has the same entries in a new map that is never nil, even for a nil original |
| Bundles.EachIsAscending | core/event.go:135-147 | the nested scan visits the keys in strictly ascending order, each once, iff no id is negative or the only id is the sentinel |
| Bundles.EachAscends | core/event.go:135-147 | with non-negative ids the visits are the ascending enumeration of the keys |
| Bundles.EachPrefix | core/event.go:136-140 | after n passes the n smallest keys were visited and `max` is the largest of them: the sentinel cannot leak |
| Bundles.EachStumbles | core/event.go:136-140 | a negative id beside any other key always breaks the enumeration |
| Bundles.AscendingEnumerates | core/event.go:135-147 | the reference order is strictly increasing and has exactly the keys |
| Bundles.EventBundle.Each | core/event.go:135-147 | whatever order the inner range has, the callbacks come as the scan has them; with no negative id they visit every key once, with its events, in ascending order |
| Bundles.EventBundle.AbsorbEventBundle | core/event.go:109-119 | succeeds iff no engine is in both, and is the disjoint union then; entries already there are never changed |
| Bundles.ScanForJoin | core/updater.go:329-337 | finds a join of the given engine iff some engine's events for the frame have it |
| Bundles.FoldEngineSkips | core/updater.go:185-189 | engines without engine events do not matter to the members of a frame |
| Bundles.FoldUndropped | core/updater.go:185-189 | in any order of application, an engine no event drops is a member afterwards iff it was one or is joined |
| Window.DataWindow.constructor | core/window_data.go:13-19 | n positions from `start` on, all holding the zero value |
| Window.DataWindow.PosToIndex | core/window_data.go:21-27 | a live position's place in the slice, wrapping once at its end |
| Window.DataWindow.Get | core/window_data.go:29-32 | the entry at the position in the sequence the buffer stands for |
| Window.DataWindow.Set | core/window_data.go:34-37 | changes that entry and, at no other position, anything |
| Window.DataWindow.Advance | core/window_data.go:47-50 | rotates the sequence by one: the dropped entry is that of the new last position |
| Window.PositionsApart | core/window_data.go:21-27 | two live positions share a place iff they are the same |
| Games.Rethink | core/updater.go:181-206 | the in-place recomputation of a frame leaves the reference step of its predecessor's world, in the same game object and a new map |
| Games.EachEngine | core/updater.go:185-189 | the callbacks change the members one by one, with every engine event of the frame, by ascending id and in each engine's order |
| Games.EachMember | core/updater.go:190-198 | the callbacks change the game one by one, with every game event of the members and no other, by ascending id and in each engine's order |
| Games.OpenFrame | core/updater.go:261-265 | an empty bundle and the predecessor's members in new objects, the game object untouched |
| FrameStores.FillWithCopies | core/updater.go:87-91 | every slot gets its own copy of the game: pairwise different objects with equal states |
| FrameStores.FrameStore.Start | core/updater.go:84-91 | the window of `Start`: the first slot with the given members and bundle, the others with none, and every slot with its own new copy of the game |
| FrameStores.FrameStore.Bootstrap | core/updater.go:113-133 | the window of `Bootstrap`: the host's members on two frames, an empty entry for each on the first and none on the second, blanks after them, and the host's state in every slot |
| FrameStores.FrameStore.InitFrameData | core/updater.go:257-266 | opens one frame, keeps its game object, and touches no other slot and nothing they share |
| FrameStores.FrameStore.AbsorbAt | core/updater.go:339-341 | adds the events to one frame's bundle object; no other frame shows a change |
| FrameStores.FrameStore.RethinkAt | core/updater.go:180-207 | rethinks one slot from its predecessor; every other slot's objects keep what they hold |
| FrameStores.FrameStore.Slide | core/updater.go:222 | the window moves by one and the slot of the old start becomes that of the new last frame |
| Rewind.FaithfulInit | core/updater.go:257-266 | opening the next frame keeps every frame below the oldest dirty one clean |
| Rewind.FaithfulAbsorb | core/updater.go:303-308 | absorbing a bundle needs to make nothing below its own frame dirty |
| Rewind.FaithfulLower | core/updater.go:276-278 | lowering the dirty cursor to a frame that has a bundle loses nothing, the placeholder included |
| Rewind.FaithfulRethink | core/updater.go:180-207 | one step from the last clean frame makes the next one clean |
| Rewind.FaithfulSlide | core/updater.go:222 | sliding keeps the window faithful, with the old final state resting in the recycled slot |
| Sweep.SweepConserves | core/updater.go:148-159 | for any list, served and left together are those who waited, with multiplicity |
| Sweep.SweepExact | core/updater.go:148-159 | the pass serves all who wait for the frame iff none of the n of them stands among the last n-1 entries |
| Sweep.SecondIsPassedOver | core/updater.go:155-156 | of two who wait for one frame one pass answers the first and leaves the second |
| Sweep.DistinctMissesNobody | core/updater.go:148-159 | with different frames pending nobody is missed and they stay different |
| Updaters.AllPresent | core/updater.go:215-220 | true iff every member after the frame's own events has an entry in its bundle |
| Updaters.Updater.Start | core/updater.go:84-95 | a valid updater with the given identity, an unplayed record on the given world, nothing sent, and objects of its own but for the two it was given |
| Updaters.Updater.Bootstrap | core/updater.go:113-138 | for any world, also one without members: a valid bootstrapping updater on it, its next frame an unthought placeholder, nothing sent, and objects of its own but for the host's map |
| Updaters.Updater.FulfillFinalRequests | core/updater.go:148-159 | new replies are all to those who waited for the start frame, with its object and state; everyone else still waits, with multiplicity, and with different frames waited for nobody is left for this one |
| Updaters.Updater.RethinkDirty | core/updater.go:179-208 | from the oldest dirty frame on, brings every known frame to the replay of what was used |
| Updaters.Updater.SlideComplete | core/updater.go:212-237 | slides past complete frames and past all of them, with one offer and one round of answers each, in order |
| Updaters.Updater.Advance | core/updater.go:178-238 | leaves no frame dirty, stops at the first incomplete frame, and its sends and answers are those of the frames passed |
| Updaters.Updater.InitFrames | core/updater.go:297-299 | opens the unknown frames up to a new one without disturbing a clean one |
| Updaters.Updater.TakeRemote | core/updater.go:314-342 | one remote bundle: discarded at or below the start, else recorded, and the first that says this engine joined sets its frame |
| Updaters.Updater.RemoteGroup | core/updater.go:313-343 | for any group: validity is kept, the record takes one step with the whole group, sends and answers are exactly those of the frames that became final (`Driving.DriveOne` says so entry by entry) |
| Updaters.Updater.LocalBundle | core/updater.go:271-310 | while bootstrapping or before the frame to begin on nothing changes; otherwise the bundle is recorded, an empty entry for each missed frame and then the bundle are broadcast before anything is offered, and bootstrapping ends; it panics exactly if a joiner's first frame has left the window or a missed frame above the known ones has no bundle without an entry of the engine |
| Updaters.Updater.RequestFinal | core/updater.go:345-357 | the object and state of the start for a negative frame or the start itself, the empty response for 0 up to the start, kept above; nothing else changes |
| Updaters.RemoteKept | core/updater.go:313-343 | a remote group keeps settledness, balanced books, and the local engine's bounds, wherever it leads |
| Updaters.LocalKept | core/updater.go:271-310 | so does a local bundle, and a joiner's first one ends its bootstrapping |
| Updaters.AdvanceSettles | core/updater.go:212-237 | after sliding as `advance` does, nothing complete is left unfinalised and nothing incomplete is final |
| Updaters.SkipIsSeen | core/updater.go:329-337 | the frame a joiner begins on is a known one whose recorded events say that it joined |
| Updaters.MissedAreFree | core/updater.go:275-288 | a waiting joiner has supplied nothing for any frame; while it is a member of the frame it joined on that is still live, and it is one unless the same events drop it |
| Agreement.FinalIsCanonical | core/updater.go:178-238 | every final world is that of the full replay of the table, whatever arrived and whatever did not |
| Agreement.FinalStatesAgree | core/engine_test.go:191-206 | two updaters from one world have the same world on every frame final in both |
| Agreement.JoinerAgreesWithHost | core/updater.go:113-143 | a joiner bootstrapped from a host's final frame finalises what the host does from there on |
| Agreement.PlaceholderIsRethought | core/updater.go:129-133 | the placeholder's frame is final only after a bundle for it forced it to be recomputed |
| Agreement.ArrivedIsFinal | core/updater.go:212-237 | progress: a known frame is final as soon as every frame up to it has arrived and is complete |
| Agreement.StartIsExact | core/updater.go:212-237 | with everything delivered, a known frame is final iff the table is complete on every frame up to it |
| Agreement.FinalWorldsStand | core/updater.go:317-319 | no later delivery changes the world of a final frame |
| Agreement.DiscardsNeverMatter | core/updater.go:317-319 | the worlds are those of replaying everything delivered, also what was discarded |
| Agreement.Confluence | core/updater.go:271-343 | equal deliveries give equal start, newest frame, worlds and live bundles, speculative frames included |
| Agreement.OrderLeavesNoTrace | core/updater.go:313-343 | any two orders of the same bundles leave the same log |
| Agreement.OnceByCount | core/event.go:109-119 | no engine is delivered twice for a frame iff no engine and frame is counted twice, so the order does not matter |
| Agreement.OncePermuted | core/event.go:109-119 | a reordering of deliveries without repetition is one without repetition |
| Agreement.SchedulesConverge | core/updater.go:313-343 | two settled updaters with the same set of bundles, scheduled differently, are in the same state |
| Agreement.LocalStaysAhead | core/updater.go:291-299 | while the local engine is a member of the newest final frame, that frame is no newer than its local one |
| Agreement.JoinerBeginsAbove | core/updater.go:212-221 | a frame is not final without an entry of each of its members, so a joiner has not passed one that it is a member of |
| Agreement.SeenJoinIsMember | core/updater.go:329-337 | an engine that the used events of a frame join, and do not drop, is a member of it |
| Rounds.StepsPlainly | core/updater.go:178-238 | what a handler makes of the record: above the old start there is an entry iff there was one or it came in; the start has passed frames that have all their members, and stops before one that has not |
| Rounds.LearnsExactly | core/updater.go:329-337 | a bootstrapping updater's frame to begin on is that of the first bundle above the start in which some engine says that it joined; nothing else sets it |
| Runs.RunSettles | core/updater.go:268-343 | after every handler of every run the record is settled and has everything handed over; before the first it rests |
| Runs.FinalStaysFinal | core/updater.go:210-237 | over any run the start never falls back and a final world never changes |
| Runs.EveryFinalWorldIsCanonical | core/updater.go:268-343 | at any point of any run every final world is the replay of the table |
| Runs.RunsAgree | core/engine_test.go:191-206 | at any points of any two runs from one world, frames final in both have one world |
| Runs.RunsConverge | core/updater.go:240-255 | two runs over the same bundles, ordered and grouped in any ways, end in the same state |
| UpdaterRuns.WindowShowsReplay | core/updater.go:178-208 | between handlers the objects of every live frame hold the replay's members and state, and its used bundle |
| UpdaterRuns.EachFrameIsAStep | core/updater.go:178-208 | each live frame's objects are the step of the previous frame's objects with its own bundle, but for an unthought placeholder |
| UpdaterRuns.LiveFrameInTurns | core/updater.go:181-206 | on the objects of any live frame and whatever arrived: its bundle's engine events, in order, make its members from those of the frame before, and the game events of these, in order, its game, which then thinks once |
| UpdaterRuns.WaitsForSomeone | core/updater.go:212-236 | below the newest frame the window stops only if some member of the next frame is not in that frame's bundle |
| UpdaterRuns.FinalHasEveryone | core/updater.go:215-221 | a frame is final only with an entry of each of its members |
| UpdaterRuns.BeginsOnItsWorld | core/updater.go:84-91 | until it slides, the first slot's objects hold the world the updater was given |
| UpdaterRuns.CursorsInBounds | core/updater.go:179-181 | start <= global < end and the dirty cursor one above it: all accesses between handlers are in bounds |
| UpdaterRuns.ExposedUntilRecycled | core/updater.go:151-152 | the object handed out for a final frame holds that frame's state until the frame one window later is known |
| UpdaterRuns.GamesApart | core/updater.go:87-91 | two frames of a window never share a game object, so no game is overwritten with itself |
| UpdaterRuns.OffersAreFinalFrames | core/updater.go:223-230 | the frames offered are the final ones, each once, in order, with canonical worlds, and after the local bundle of the frame was sent |
| UpdaterRuns.UpdatersAgree | core/engine_test.go:191-206 | the objects two updaters expose for a frame final in both hold the canonical state |
| UpdaterRuns.UpdatersConverge | core/updater.go:271-343 | two updaters that were handed the same have equal cursors, worlds and bundles in their windows |
| UpdaterRuns.NextLocalIsAboveStart | core/updater.go:291-308 | while the local engine is a member of the newest final frame, its next local bundle is above the start without being assumed to |
| UpdaterRuns.JoinerHasNotPassedItsFrame | core/updater.go:275-279 | the frame an updater saw its join on is known, and live while the engine is a member of it, as it is unless that frame drops it again |
| UpdaterRuns.OnceDeliveredIsDeliverable | core/event.go:109-119 | bundles below the end and once per engine and frame never make a handler panic |
| CatchUp.FillersArriveExactly | core/updater.go:275-308 | what a joiner's first local bundle makes of the record has its entry on every frame since it joined iff the bundle is at most one frame beyond the known ones |
| CatchUp.FilledWhere | core/updater.go:279-299 | fillers supply exactly the known frames of the gap |
| CatchUp.LostFrameIsNeverFinal | core/updater.go:212-221 | over any run, a frame that has lost the local engine's entry is never final while that engine is a member of it |
| Hypotheses.UngovernedUpdatersDisagree | core/updater.go:212-221 | two updaters, each one handler away from the same start and on parts of one table, finalise a frame differently when a dropped engine emits a drop itself |
| Hypotheses.PartIsEnoughExactly | core/updater.go:212-221 | every complete part of a frame's bundles steps as all of them iff every such part leaves the same members: no game matters |
| Hypotheses.GovernedIsIndifferent | core/engine.go:56-58 | governance suffices for that |
| Hypotheses.SelfDropIsHarmless | core/engine.go:52-54 | governance is not necessary: an engine may drop itself |
| Hypotheses.SafeIsCanonical | core/updater.go:178-238 | on a safe table every final world is canonical and complete on the table |
| Hypotheses.UnsafeRun | core/updater.go:212-221 | on any table there is a run, its own engine playing along or not and each group in bounds, that finalises the first unsafe reachable frame otherwise |
| Hypotheses.FullRun | core/updater.go:212-237 | a frame before which all are complete and safe is reached, on its canonical world, by a run that takes one frame after the other and is never out of bounds |
| Hypotheses.NextFrame | core/updater.go:291-343 | own and others' bundles come apart: of any part that completes the next frame enough can be taken in that order to make it final and still leave other members than given ones |
| Hypotheses.TwoParts | core/updater.go:185-189 | if an engine's own events and those of all others each complete a frame and leave the same members, together they leave them too |
| Hypotheses.CanonicalExactly | core/updater.go:178-238 | in a window of any size, all runs from a start or of a joiner that does not play yet finalise canonical worlds only iff every reachable frame of the table is safe, a condition on its engine events alone |
| Hypotheses.JoinFrameExactly | core/updater.go:275-279 | with everyone else there, no run passes the frame an engine is to begin on iff the table leaves it a member of that frame |
| Hypotheses.MemberIsAwaited | core/updater.go:212-221 | no run passes a frame that lacks an entry of one of its members in the table |
| Hypotheses.DroppedJoinerIsStuck | core/updater.go:275-288 | joined and dropped by one bundle, a joiner is one handler away from a window that starts on the frame it is to begin on, where no local bundle can be taken |
| Hypotheses.EmptyWorldKeepsPlaceholder | core/updater.go:129-133 | a joiner on a world without members is one discarded bundle away from finalising its placeholder unthought |
| Hypotheses.JoinerFaithfulExactly | core/updater.go:129-133 | for a game that thinking changes, joiners finalise canonical worlds, on every governed table and in every run in bounds, iff the handed world has a member |
| Outbox.ServedConserves | core/updater.go:231-233 | over any slide of the window, answered and still pending together are those who waited |
| Outbox.NobodyPassedOver | core/updater.go:231-233 | waiters for different frames above the start are never slid past unanswered |
| Outbox.PassedOverForever | core/updater.go:148-159 | who waits for a frame that is final already is never served, however far the window slides |
| Outbox.SecondNeverHears | core/updater.go:148-159 | of two who wait for one frame the second is all that is left after any further slides |
| Outbox.AdvancedSends | core/updater.go:222-233 | while frames become final, what goes out is their offers and the answers to who waited for them, after all that went out before |
| Outbox.PromptKept | core/updater.go:231-233 | after any `advance` all who waited for a frame that became final are answered, the rest still wait for later, different frames |
| Outbox.PromptRequest | core/updater.go:345-357 | a new request for another frame keeps pending frames different and above the start |
| Outbox.EveryoneIsAnswered | core/updater.go:345-357 | with different frames pending, whoever asked for a frame that is final, or for the newest final one, was answered with that frame's object and state; the empty response went only to those who asked for a frame from 0 to below the start |
| Outbox.WaiterIsAnswered | core/updater.go:231-233 | whoever waits alone for a frame is answered with its object and state when it becomes final |
| Outbox.AdvancedFinalises | core/updater.go:222-233 | while frames become final, a host offers each once, in order, with object and world, others nothing; new replies are final states for those who waited, who are then gone from the list |
| Outbox.BalancedSlide | core/updater.go:222-233 | one slide keeps the books: offers are the final frames, answers are final states, nobody is answered twice |
| Outbox.BalancedBroadcast | core/updater.go:306-309 | so does a broadcast: it disturbs no offer or answer made before, and later offers of its frame may rely on it |
| Outbox.BalancedRequest | core/updater.go:345-357 | so does a request: received equals answered plus pending |
| Outbox.FillersListed | core/updater.go:279-288 | the fillers are one empty local entry for each frame of the gap, ascending |
| Outbox.SaysSo | core/updater.go:279-309 | a local bundle is sent after one empty local entry for each missed frame, ascending, and before any offer |
| Communicators.Communicator.constructor | core/communicator.go:66-75 | the host's connection or none, no joiners, nothing handled, sent or offered |
| Communicators.Communicator.NewConn | core/communicator.go:185-205 | adds the connection, with start horizon + 1, tells it that and its id, and changes nothing of the others |
| Communicators.Communicator.Broadcast | core/communicator.go:207-213 | every connection, and no other, is sent the bundle once more; the horizon is raised to its frame |
| Communicators.Communicator.FanIn | core/communicator.go:215-226 | the auditor and every connection but the sender's are sent the bundle once more, the sender's is not; the horizon is raised to its frame |
| Communicators.Communicator.BootstrapFrame | core/communicator.go:228-248 | whatever the frame, it is sent once to exactly those in the list who start on it; the list loses only such, and at least one if there is one; all other state is kept |
| Communicators.GreetedSound | core/communicator.go:185-205 | a new connection leaves the promises to all earlier joiners intact |
| Communicators.PassedSound | core/communicator.go:207-226 | each connection's log stays what was handled since it is there, less what it sent itself |
| Communicators.OfferedSound | core/communicator.go:228-248 | the next final frame reaches each joiner that starts on it once, with stale list entries harmless |
| Communicators.HandOffIsComplete | core/communicator.go:185-226 | of the bundles above the horizon at its registration, or above any later frame, a joiner was sent all that were ever handled but its own, and none was handled before it came |
| Communicators.JoinerIsSentEachBundle | core/communicator.go:185-226 | of every bundle above its start a joiner has been sent as many copies as were ever handled from elsewhere, and that was none before it came |
| Communicators.HorizonIsMax | core/communicator.go:207-218 | the horizon is the greatest frame handled so far, or what it began with |
| Communicators.OneBootstrapFrame | core/communicator.go:228-248 | a joiner has been sent exactly one bootstrap frame if its start was offered, and none before |
| Communicators.Join | core/communicator.go:81-120 | returns the first data message as bootstrap frame, and forwards exactly the earlier bundles above the horizon, each once and in order of arrival |
| Communicators.CollectedIsAbove | core/communicator.go:90-96 | what the filter keeps is the subsequence of bundles above the horizon |
| Communicators.JoinForwardsEverythingAbove | core/communicator.go:90-119 | wherever the bootstrap frame falls among the arrivals, the bundles above the start that reach the updater are all of them |
| Communicators.JoinerIsGivenEverything | core/communicator.go:81-120 | if a joiner receives what it was sent, in any order, its updater is given of the bundles above its start exactly those the host handled, with multiplicity |
| Communicators.JoinerIsGivenEach | core/communicator.go:81-120 | the same by counts: of each bundle above its start the updater is given as many copies as the host handled from elsewhere |
| Hosting.InterleavingStaysOrderly | pnf.go:100-101 | arrivals and new connections between the updater's sends do not disturb their order |
| Hosting.HostSendsInOrder | core/updater.go:309-310 | after any run a host has offered consecutive frames, each after the local bundle for it, with canonical worlds |
| Hosting.TracksNext | core/communicator.go:228-230 | the next offered frame is the one after the last and within the horizon |
| Hosting.Serve | core/communicator.go:182-248 | the select loop over any orderly script keeps the communicator valid and in step with the updater |
| Hosting.JoinersAreBootstrapped | core/communicator.go:185-248 | after any run every joiner whose start is final got one bootstrap frame, that of its start with the canonical world, and all others none |
| Hosting.HostBootstrapsItsJoiners | core/communicator.go:185-248 | the same of a host's two objects as they stand between handlers |
| Hosting.RecordsAbove | core/updater.go:317-319 | a fresh updater records of what it is given exactly what lies above its start |
| Hosting.JoinerRecordsEverything | core/communicator.go:81-120 | over any run, however its bundles arrive around the bootstrap frame, a joiner's updater has for every frame above its start exactly what its host handled and its own bundle, and uses all of it on frames not final |
| Hosting.JoinerHoldsExactly | core/communicator.go:81-120 | entry by entry: above its start a joiner has an engine's events for a frame iff its host handled a bundle with them from elsewhere, or it sent them itself |
| Hosting.SameAboveSameRecord | core/updater.go:317-319 | schedules with the same bundles above a frame leave the same entries for every frame above it |
| Driving.DriveOne | core/updater.go:268-357 | one round of the select loop in plain terms: which entries come in, how far the window slides, what is sent, answered, learned and kept; it fails only where the source panics |
| Driving.Drive | core/updater.go:268-357 | the select loop over any feasible inputs makes each of these rounds, and a linked run of the record of exactly the bundles given; everyone who asked is answered or pending, with different frames never pending on a final one; it stops only at a joiner's first local bundle |
| Driving.HeardNext | core/updater.go:345-357 | each input keeps the account of requests: nobody is forgotten, and those who wait for different frames wait for later ones |
| Driving.TakesOwnExactly | core/updater.go:271-310 | over a whole run: of its own bundles a joiner drops those before it was told of its join and those before its frame, and takes every other: recorded, broadcast, and from the first on it bootstraps no more |
| Driving.WaitsUntilTold | core/updater.go:329-337 | over a whole run: it has no frame to begin on exactly as long as no bundle above the start said that it joined |
| Driving.RoundPlainly | core/updater.go:268-357 | the handlers' specification implies the plain account of a round, for inputs of every kind |
| Driving.BundlerFeedsUpdater | core/bundler.go:58-73 | if a started updater's local bundles are those of a bundler in order, the next one meets what its local case requires, as soon as it is in bounds |
| Driving.LastOwnCounts | core/bundler.go:58-73 | the newest local frame of an updater fed by a bundler is the first frame plus the number of bundles, less one |
| HostRuns.WovenSends | pnf.go:100-101 | taking out what came from outside gives back the updater's sends, in order |
| HostRuns.HostUpdater | pnf.go:126-146 | a host's updater from its start, over any feasible inputs of one table, is a lawful host; all requests are on its books, and with different frames nobody waits for a final one |
| HostRuns.HostDesk | core/communicator.go:182-248 | a communicator from its start, fed with orderly sends and anything in between, keeps its promises |
| HostRuns.HostGame | pnf.go:126-146 | both objects constructed and run: every joiner whose start is final has its one bootstrap frame with the canonical world |
| Flooding.FloodingReachesAllOnce | core/communicator.go:207-226 | on a tree no engine handles a bundle twice, no copy returns to its origin, and with none in flight every engine handled it once |
| Flooding.SeenFrom | core/communicator.go:66-75 | the connections made by joining form a tree that can be rooted at any engine |
| Flooding.ArrivedOutward | core/communicator.go:215-226 | one arrival keeps every copy travelling away from the origin |
| Flooding.RunsStayOutward | core/communicator.go:207-226 | so does every run of arrivals |
| Joining.FloodingReachesThePromised | core/communicator.go:207-226 | while engines join in between arrivals, no engine handles a bundle twice, and with no copy in flight exactly those it is promised to handled it: all that were there, and who joined a promised engine before that one handled it |
| Joining.PromisedOnce | core/communicator.go:215-226 | while copies travel outwards each engine handled the bundle at most once, never if it was not promised, and once if no copy is left |
| Joining.JoinerMidFlight | core/communicator.go:185-205 | a bundle that a host is promised and whose frame lies above its horizon at a registration reaches the new engine exactly once, wherever the copies were then and whoever else joins |
| Joining.ForwardsLikeFlooding | core/communicator.go:207-226 | a communicator whose connections are a node's neighbours sends just the copies that flooding makes: its own bundles to all, others' to all but where they came from |
| Collisions.ArrivesOnce | core/communicator.go:215-226 | a bundle arrives at an engine at most once, and at its sender never |
| Collisions.ArrivalsNeverCollide | core/event.go:109-119 | what arrives at an engine is once per engine and frame, and never in its own name |
| Collisions.CollisionsAreUnreachable | core/event.go:109-119 | every group of arrivals in bounds is one the updater takes without the collision panic |
| Bundlers.Bundler.constructor | core/bundler.go:37-41 | begins on the frame the clock shows, rounded towards zero, with nothing pending |
| Bundlers.Bundler.LocalEvent | core/bundler.go:49-50 | the event is pending last, and no bundle goes out |
| Bundlers.Bundler.LocalEngineEvent | core/bundler.go:52-56 | the same for an engine event |
| Bundlers.Bundler.TimeDelta | core/bundler.go:75-76 | the clock moves, frames and events do not |
| Bundlers.Bundler.Tick | core/bundler.go:58-73 | a frame at or above the current one is closed iff the clock shows that it is over, (f+1)*F for a clock from 0 on; one bundle for each, in order, all pending events in the first, and none of them in another |
| Bundlers.LatestIsMax | core/bundler.go:58-61 | the current frame is the greatest frame shown at any tick, or the first |
| Bundlers.SteadyClockEmits | core/bundler.go:58-61 | n ticks from c show no later frame than the last of them, also before 0 |
| Bundlers.SteadyBundlerEmits | core/bundler.go:58-73 | a bundler that began at c >= 0 and had n ticks, no delta and any events has emitted (c+n)/F - c/F bundles |
| Bundlers.FramesFollowTheClock | core/bundler.go:37-79 | under any events, ticks and deltas: a frame from the first on has been emitted iff the clock showed at some tick that it is over, and the bundles are for the frames from the first on, one each |
| Bundlers.OverExactly | core/bundler.go:59-61 | what the division has to do with it: a frame is before the one the clock shows iff it is over, in multiples of its length and rounding towards zero |

## Left out

- Fast (speculative) state requests and `NumEngines` (`core/updater.go:163-174`, `core/updater.go:358-374`): they read the
  window as it is proved to be and use the same swap-remove loop.
- Updaters.Updater.RemoteGroup: requires bundles below the end of the window and no collision, where the source panics.
  That there is none is `Collisions.CollisionsAreUnreachable`.
- Updaters.Updater.LocalBundle: requires the same of the local bundle itself; the panics that follow from a joiner's
  fillers are part of its contract.
- Window.DataWindow.PosToIndex: requires a position in bounds, where the source panics.
- In `Joining.dfy` an engine joins in one step: the greeting and the registration at its host are not taken apart there.
  `Communicators.HandOffIsComplete` is about what lies between them.
- int32 frames, int64 ids and clocks: no overflow.
- The timing of `nagle` and of the ticker, the auditor (a pass-through), sockets and the mock network, gob encoding and
  its failures, confirmation of a bootstrap, connection loss and shutdown, and that go-routines are scheduled at all.
- `ThinkFirst`, `ThinkFinal`, `ApplyFirst` and `ApplyFinal`: the source never calls them.
- The truth value stored for each member: only its presence is read.
- `containers/window`: generated copies of the same window.
