# Tamagotchi game core, modelled in Dafny

This project models the game core of a multiplayer Tamagotchi application and
proves properties about it. The model covers:

- **the server's in-memory game store** (`GameStorage`): owner actions (feed, play,
  sleep, revive, release), support by other players, creation, relocation,
  cursors, difficulty, the once-a-second decay sweep, and the debounced
  persistence policy (dirty flag, debounce worker, flush, backup loop);
- **the websocket connection manager**: connect, disconnect, broadcast with
  pruning of failed connections, and send to one user;
- **the guard chains of the GraphQL pet mutations** in front of the store;
- **the older single-file store** (`TamagotchiStorage` in `main.py`), whose
  reads age the pet and save;
- **the browser client's reducers**: the websocket message handler, the
  subscription watcher with its knock-out notices, and the derived lists and
  selection of the UI state.

Modules, one file each:

| file | module | models |
|---|---|---|
| common.dfy | `Common` | `Option`, `min`/`max`, clamping, Python's `int()` on a float, distinct sequences |
| pets.dfy | `Pets` | the pet record, the status ladder, the per-pet rules of every action and of one decay step, difficulty |
| persistence.dfy | `Persistence` | the save policy as a state machine over the dirty flag and the numbered debounce workers |
| storage.dfy | `Storage` | the `GameStorage` class, its maps, outbox of broadcasts and log of writes; the decay sweep as a loop |
| hub.dfy | `Hub` | the `ConnectionManager` class |
| resolvers.dfy | `Resolvers` | the mutation guards and their exact error messages |
| legacy.dfy | `Legacy` | the `TamagotchiStorage` class of `main.py` |
| js.dfy | `Js` | the JavaScript values and operators the client relies on (`??`, `\|\|`, spread, `filter`, `findIndex`, `Map`) |
| gamedata.dfy | `GameData` | the `GameDataState` class: pet list, cursors, toasts, hide queue |
| uistate.dfy | `UIState` | the visibility filter, owner names, status labels, and the selection |

Clock readings, `uuid4()` and the random spawn choices are parameters (`now`,
`id`, `x`, `y`, `direction`, `emoji`). A broadcast the store hands to the
connection manager is appended to an `outbox`. A JSON write is appended to a
log of snapshots (`saved`), or counted (`writes`) in the older store.

## Model

| member | source | states |
|---|---|---|
| Common.Trunc | app/services/storage.py:741 | Python's `int()` on a float truncates toward zero: the result is the whole part, never farther from zero than the argument |
| Common.ClampReal | app/services/storage.py:381-382 | `max(lo, min(hi, v))`: inside the interval, exact for an in-range value, an out-of-range value goes to the nearer bound |
| Pets.Summarize | app/services/storage.py:456-470 | the broadcast payload carries the pet's id, the four stats, age, status and liveness, each as stored |
| Pets.Ladder | app/services/storage.py:726-737 | the status ladder in priority order, as an if-and-only-if for each of the five statuses |
| Pets.RestatusRule | app/services/storage.py:494-505 | the status block sets the ladder's status, clears `is_alive` exactly when health ≤ 0, and changes nothing else |
| Pets.FeedRule | app/services/storage.py:489-505 | feed keeps stats in [0,100], lowers hunger by min(15, hunger), raises health by up to 2 exactly when the new hunger is < 80, stamps `last_fed`, sets the ladder's status and changes nothing else |
| Pets.PlayRule | app/services/storage.py:535-550 | play keeps stats in range, happiness +12 capped, energy −5 floored, stamps `last_played`, changes nothing else |
| Pets.SleepRule | app/services/storage.py:580-596 | sleep keeps stats in range, energy +15 capped, happiness −2 (floored) exactly when the new energy is > 90, stamps `last_slept` |
| Pets.ActionsKeepPositiveHealth | app/services/storage.py:489-505 | none of feed, play or sleep kills a pet with positive health or lowers its health |
| Pets.MinFrom | app/services/storage.py:430 | Python's `min` with a key: the result is a minimum of the candidates, and an earlier equal candidate wins |
| Pets.LowestRanking | app/services/storage.py:423-430 | the stat support picks, as an if-and-only-if per stat, with ties to the earlier of happiness, energy, health, hunger, and hunger ranked by its raw value |
| Pets.SupportRule | app/services/storage.py:423-448 | support moves only the lowest stat one step toward its good end (hunger down, the others up), keeps stats in range and re-derives the status |
| Pets.SupportCanChangeNothing | app/services/storage.py:429-433 | a well-fed pet (hunger 0) is "supported" by a floored hunger decrement that changes no stat |
| Pets.Revived | app/services/storage.py:627-637 | revive sets all four stats to 20, alive, status Happy and the three timestamps to now, and nothing else |
| Pets.RevivedStatusIsNotTheLadder | app/services/storage.py:629-634 | the hard-set Happy disagrees with the ladder, which gives Sad for 20/20/20/20 |
| Pets.NewPet | app/services/storage.py:251-281 | a new pet has full stats, hunger 0, age 0, is alive and Happy, all timestamps now, stands inside the spawn margin, speed 1.0 |
| Pets.Relocated | app/services/storage.py:380-392 | a relocation clamps into the field, keeps an in-field coordinate exactly, keeps or defaults the heading (0) and the speed (1), and changes only the position |
| Pets.ClampDifficulty | app/services/storage.py:698 | the multiplier is clamped into [0.25, 4] |
| Pets.EffectiveDifficulty | app/services/storage.py:473-479 | the decay multiplier is within [0.25, 4]; a missing owner, a missing or non-numeric value and 0 all give 1.0; an in-range value is used as is |
| Pets.NormalizeDifficulty | app/services/storage.py:232-236 | a non-number becomes 1.0; a number below, inside or above [0.25, 4] becomes 0.25, itself or 4 |
| Pets.DecayRule | app/services/storage.py:692-741 | one decay step moves each counter by one exactly when its scaled period has strictly elapsed, and then restarts its clock; health −1 iff a stat is critical; the ladder; age is whole seconds since creation; id, owner and position are kept |
| Storage.ActionsKeepWellFormed | app/services/storage.py:481-616 | feed, play, sleep and support keep every stored record well formed and an alive pet alive |
| Storage.DecayAllRule | app/services/storage.py:688-690 | a sweep keeps the keys, leaves dead pets exactly as they were and keeps every record well formed |
| Storage.CreateOnCleanStoreWritesNothing | app/services/storage.py:76-81 | the flush after creating a pet writes nothing when the store was clean, because `flush_save` writes only when dirty |
| Storage.GameStorage.constructor | app/services/storage.py:22-38 | the store starts with no pets or cursors, a clean save state and an empty outbox |
| Storage.GameStorage.ScheduleSave | app/services/storage.py:70-74 | marks dirty, cancels the pending worker, starts a new one, and keeps the one-armed-worker invariant |
| Storage.GameStorage.FlushSave | app/services/storage.py:76-81 | cancels the pending worker and appends a snapshot exactly when dirty |
| Storage.GameStorage.SaveTimerFires | app/services/storage.py:61-68 | a worker that wakes while armed writes a snapshot exactly when dirty and clears the flag; its `finally` clears only its own handle |
| Storage.GameStorage.SaveTaskCancelled | app/services/storage.py:61-68 | a cancelled worker's `finally` runs without writing and, in the corrected form, clears the handle only while it names that worker |
| Storage.GameStorage.BackupSaveTick | app/services/storage.py:83-89 | the backup loop writes whenever some pet is alive, regardless of the dirty flag |
| Storage.GameStorage.Commit | app/services/storage.py:506-524 | the tail of every stat change: store the record, debounce if it is alive or flush if it died, then announce it |
| Storage.GameStorage.FeedTamagotchi | app/services/storage.py:481-525 | only the owner of an existing, alive pet acts; then the record becomes the fed record, is debounced (or flushed on death) and announced; otherwise nothing changes and None is returned |
| Storage.GameStorage.PlayTamagotchi | app/services/storage.py:527-570 | the same guard and tail with play |
| Storage.GameStorage.SleepTamagotchi | app/services/storage.py:572-616 | the same guard and tail with sleep |
| Storage.GameStorage.SupportTamagotchi | app/services/storage.py:412-471 | only someone else's existing, alive pet is supported; the owner, a dead pet and a missing id get None and no change |
| Storage.GameStorage.ReviveTamagotchi | app/services/storage.py:618-659 | the owner revives the pet whatever its liveness, the store flushes and announces; anyone else gets None and no change |
| Storage.GameStorage.ReleaseTamagotchi | app/services/storage.py:661-680 | succeeds exactly for the owner; then exactly that key is removed, the store flushes and announces the removal |
| Storage.GameStorage.CreateTamagotchi | app/services/storage.py:250-294 | the new record is stored under its id, flushed and announced |
| Storage.GameStorage.UpdateTamagotchiLocation | app/services/storage.py:374-410 | any caller may move an existing pet (no ownership check), a save is debounced and the position announced; an unknown id returns None and changes nothing |
| Storage.GameStorage.UpdateMousePosition | app/services/storage.py:324-355 | a known user's cursor is recorded with the username and broadcast; an unknown user changes nothing; no save is scheduled |
| Storage.GameStorage.SetUserOnline | app/services/storage.py:357-372 | a known user's online flag is set and a save debounced; an unknown user changes nothing |
| Storage.GameStorage.SetUserDifficulty | app/services/storage.py:226-248 | a known user gets the normalised multiplier and a save is debounced; an unknown user gets None |
| Storage.GameStorage.GetUserTamagotchis | app/services/storage.py:320-322 | exactly the pets the user owns, each once, as stored |
| Storage.GameStorage.UpdateStatsTick | app/services/storage.py:682-765 | one sweep decays exactly the alive pets and lists each once; if any was listed, it flushes when one died, otherwise debounces, and broadcasts the batch; an empty batch touches neither saves nor outbox |
| Storage.GameStorage.PublishSweep | app/services/storage.py:745-765 | the sweep's tail: nothing for an empty batch, otherwise flush or debounce, then the batch broadcast |
| Storage.Visit | app/services/storage.py:689-743 | one pass of the loop body: a dead pet is skipped; an alive one is decayed, listed, and a death noted |
| Storage.Sweep | app/services/storage.py:686-743 | the loop over the map yields the decayed map, the batch of every alive pet and the death flag exactly when a pet died |
| Storage.SweepComplete | app/services/storage.py:686-743 | a loop that visits every key once with the decay rule has decayed the whole map, listed every alive pet once and flagged deaths exactly |
| Storage.SweepOverPets | app/services/storage.py:688-690 | after visiting some keys, exactly the visited alive pets hold the rule's result |
| Storage.SweepOverUpdated | app/services/storage.py:743 | the batch lists only visited alive pets, each once, with its record as the loop left it |
| Storage.SweepOverCount | app/services/storage.py:743 | the batch is as long as the number of visited alive pets |
| Storage.SweepOverDied | app/services/storage.py:726-729 | the death flag is set exactly when a visited pet went from alive to dead |
| Persistence.CancelSaveTask | app/services/storage.py:52-59 | cancelling forgets the handle and asks only the still-armed worker to stop |
| Persistence.Backup | app/services/storage.py:83-89 | the backup writes iff a pet is alive and leaves the save state alone |
| Persistence.InitialInv | app/services/storage.py:36-38 | the start-up state satisfies the one-armed-worker invariant |
| Persistence.StepKeepsInv | app/services/storage.py:52-89 | with a worker clearing only its own handle, every event keeps at most one worker armed, the newest one |
| Persistence.OnlyLatestTimerWrites | app/services/storage.py:61-68 | under that policy only the most recently started worker can write |
| Persistence.BurstWritesNothing | app/services/storage.py:70-74 | a burst of schedule_save calls writes nothing and leaves one armed worker, the last, with the store dirty |
| Persistence.QuietKeepsArmed | app/services/storage.py:52-59 | delivered cancellations alone write nothing and keep the armed worker and the flag |
| Persistence.BurstThenQuietWritesOnce | app/services/storage.py:61-74 | a burst followed by the last worker's firing writes exactly once and leaves the store clean with nothing armed |
| Persistence.FlushWritesIffDirty | app/services/storage.py:76-81 | flush writes iff dirty and always leaves the store clean with nothing armed |
| Persistence.SupersededTimerWrites | app/services/storage.py:52-74 | as written, a concrete burst of four schedule_save calls gives two writes, and a superseded worker writes; the corrected policy gives one |
| Persistence.BurstAsWritten | app/services/storage.py:61-68 | the as-written trace of that burst, step by step |
| Persistence.BurstCorrected | app/services/storage.py:61-68 | the same burst under the corrected clearing writes once |
| Hub.KeepRule | app/services/websocket.py:32-35 | pruning keeps exactly the connections not listed, in order, without duplicates |
| Hub.AmongRule | app/services/websocket.py:25-30 | the `disconnected` list holds exactly the connections whose send failed |
| Hub.DeliveriesRule | app/services/websocket.py:26-28 | one delivery per working connection, in insertion order |
| Hub.KeepTwice | app/services/websocket.py:33-35 | deleting one id after another is deleting them all at once |
| Hub.KeepOnlyListed | app/services/websocket.py:33-35 | what the clean-up leaves depends only on which registered ids are listed |
| Hub.KeepAbsent | app/services/websocket.py:34 | listing an id that is not registered changes nothing |
| Hub.ConnectionManager.constructor | app/services/websocket.py:7-9 | both registries start empty |
| Hub.ConnectionManager.Connect | app/services/websocket.py:11-16 | the new connection is registered and becomes the user's connection; older ones stay open |
| Hub.ConnectionManager.Disconnect | app/services/websocket.py:18-22 | removes exactly that connection and that user's mapping; a no-op when both are absent |
| Hub.ConnectionManager.Forget | app/services/websocket.py:19-20 | deletes one connection if present |
| Hub.ConnectionManager.Broadcast | app/services/websocket.py:24-35 | every connection gets the message in insertion order; exactly the failing ones are removed; the user mappings stay, so a mapping may point at a removed connection |
| Hub.ConnectionManager.SendAll | app/services/websocket.py:25-30 | the send loop delivers to the working connections in order and collects exactly the failing ones |
| Hub.ConnectionManager.Prune | app/services/websocket.py:33-35 | the clean-up loop removes exactly the collected ids |
| Hub.ConnectionManager.SendToUser | app/services/websocket.py:37-43 | a reachable user gets one delivery; a failing send disconnects that connection and user; an unmapped user or a closed connection changes nothing |
| Resolvers.Guard | app/graphql/mutations.py:63-145 | authentication first, then existence (release of a missing pet succeeds), then ownership (support demands someone else's pet), with the exact messages |
| Resolvers.GuardPassesOnlyOwner | app/graphql/mutations.py:74-76 | a call passing an owner-only guard comes from the owner of an existing pet |
| Resolvers.SupportGuardLeavesLiveness | app/graphql/mutations.py:95-101 | past support's guard only liveness decides whether the store acts |
| Resolvers.CreateTamagotchi | app/graphql/mutations.py:46-51 | an unauthenticated call is refused and leaves pets, save state, snapshots and outbox unchanged; otherwise the caller owns the new pet, which is flushed and announced |
| Resolvers.UpdateMousePosition | app/graphql/mutations.py:54-60 | an unauthenticated call is refused and leaves users, cursors and outbox unchanged; otherwise true is returned and a known user's cursor is recorded and broadcast |
| Resolvers.UpdateTamagotchiLocation | app/graphql/mutations.py:63-81 | a refused call raises the guard's message and leaves pets, save state and outbox unchanged; a passing call relocates the pet, debounces a save and broadcasts the position |
| Resolvers.SupportTamagotchi | app/graphql/mutations.py:84-102 | a refused call raises; a dead pet passes the guard and then fails with "Failed to support Tamagotchi"; every failure leaves pets, save state, snapshots and outbox unchanged; an alive one is supported, saved by the store's policy and announced |
| Resolvers.ReviveTamagotchi | app/graphql/mutations.py:105-123 | a refused call raises and leaves pets, save state, snapshots and outbox unchanged; the owner always revives, with a flush and an announcement |
| Resolvers.ReleaseTamagotchi | app/graphql/mutations.py:126-145 | a refused call raises; releasing a pet that is already gone answers true; neither touches pets, save state, snapshots or outbox; the owner's release removes exactly that key, flushes and announces; after any success the pet is gone |
| Legacy.Hatched | main.py:53-76 | a new record has full stats, hunger 0, age 0, alive and Happy, all timestamps now |
| Legacy.Aged | main.py:92-137 | update_stats keeps the timestamps, re-derives health, status and liveness, and sets age to whole hours since creation |
| Legacy.AgedRule | main.py:105-116 | hunger +⌊10·hours⌋, happiness −⌊5·hours⌋ and energy −⌊8·hours⌋ unless a bound is reached, in range, and monotone |
| Legacy.DeadPetStillAges | main.py:92-120 | a dead pet is still aged: its hunger rises |
| Legacy.RepeatedReadsCompound | main.py:78-83 | two reads at the same instant age a pet twice, because the timestamps are not reset |
| Legacy.HatchedIsSettled | main.py:53-76 | a pet read at its creation instant is unchanged |
| Legacy.ActionsSurviveTheirUpdate | main.py:149-185 | an action's delta survives the update_stats that follows it at the same instant |
| Legacy.LegacyStorage.constructor | main.py:40-51 | the store holds the loaded records, in file order, with no writes |
| Legacy.LegacyStorage.CreateTamagotchi | main.py:53-76 | stores the new record under its id and saves once |
| Legacy.LegacyStorage.UpdateStats | main.py:92-139 | ages one record in place and saves; an unknown id changes nothing |
| Legacy.LegacyStorage.GetTamagotchi | main.py:78-83 | a read ages the record and saves; an unknown id gives None and changes nothing |
| Legacy.LegacyStorage.GetAllTamagotchis | main.py:85-90 | every record, in insertion order, is aged, returned and saved once |
| Legacy.LegacyStorage.AgeOne | main.py:87-89 | one pass of that loop ages the next record |
| Legacy.LegacyStorage.FeedTamagotchi | main.py:141-155 | unknown id gives None; a dead pet comes back untouched and unsaved; otherwise hunger −30 and happiness +10, then update_stats, two saves |
| Legacy.LegacyStorage.PlayWithTamagotchi | main.py:157-171 | the same with happiness +20 and energy −10 |
| Legacy.LegacyStorage.SleepTamagotchi | main.py:173-186 | the same with energy +40 |
| Js.Prop | frontend/src/composables/useGameData.js:189 | property access on a non-object, or of a missing key, is undefined |
| Js.Coalesce | frontend/src/composables/useGameData.js:130 | `??` falls through only on null and undefined |
| Js.Or | frontend/src/composables/useGameData.js:123 | `\|\|` falls through on any falsy value |
| Js.Spread | frontend/src/composables/useGameData.js:131-133 | an object spread has every key of either side, the right-hand value winning |
| Js.Copy | frontend/src/composables/useGameData.js:136 | a shallow copy of an object is equal to it by content |
| Js.FilterRule | frontend/src/composables/useGameData.js:203 | `filter` keeps exactly the accepted elements, in order |
| Js.FilterAll | frontend/src/composables/useGameData.js:203 | `filter` with a callback accepting everything changes nothing |
| Js.FindIndex | frontend/src/composables/useGameData.js:191 | `findIndex` answers −1 iff nothing matches, else the first match |
| Js.Find | frontend/src/composables/useUIState.js:39 | `find` answers undefined when nothing matches, else the first match |
| Js.MapSet | frontend/src/composables/useGameData.js:124 | `Map.set` holds the new entry, only old entries besides it, and no duplicate key |
| Js.MapSetRule | frontend/src/composables/useGameData.js:124 | `Map.set` keeps every entry with another key |
| Js.MapGetSet | frontend/src/composables/useGameData.js:124 | setting a key changes what `get` answers for that key only |
| Js.MapFromGet | frontend/src/composables/useGameData.js:124-128 | a `Map` built from an array answers, for each key, the last element carrying it, and undefined when none does |
| GameData.CreatedRule | frontend/src/composables/useGameData.js:114-119 | a created message never introduces a duplicate id, is idempotent, and leaves the pet listed |
| GameData.Normalized | frontend/src/composables/useGameData.js:86 | the pushed copy keeps the pet's id |
| GameData.SubscriptionCreatedRule | frontend/src/composables/useGameData.js:83-88 | the subscription's created case keeps ids unique and is idempotent |
| GameData.RemovedRule | frontend/src/composables/useGameData.js:200-205 | removal keeps exactly the pets with other ids, in order, and none with the removed id |
| GameData.RemovedTwice | frontend/src/composables/useGameData.js:200-205 | a repeated removal changes nothing |
| GameData.Moved | frontend/src/composables/useGameData.js:182-183 | a moved pet keeps all its keys except the position |
| GameData.OnPositions | frontend/src/composables/useGameData.js:175-186 | the list keeps its length |
| GameData.PositionsKeep | frontend/src/composables/useGameData.js:175-186 | unlisted pets, and from the websocket knocked-out pets, are unchanged |
| GameData.PositionsMove | frontend/src/composables/useGameData.js:175-186 | a listed pet changes only its position's x, y and direction, taken from the last report for its id |
| GameData.Merged | frontend/src/composables/useGameData.js:131-140 | a merged record takes the update's keys over the pet's, with the given liveness and the merged position |
| GameData.OnStats | frontend/src/composables/useGameData.js:121-161 | the list keeps its length |
| GameData.BatchRule | frontend/src/composables/useGameData.js:126-143 | a batch leaves pets without an entry unchanged; a listed pet takes the entry's keys and position; liveness falls back to the old value when the entry carries neither spelling |
| GameData.SingleDropsUnreportedLiveness | frontend/src/composables/useGameData.js:144-160 | the single form has no fallback: a record without either spelling leaves liveness nullish |
| GameData.KnockOutsSound | frontend/src/composables/useGameData.js:163-172 | every knock-out notice is about a pet that was alive and that a batch entry reports exactly `false` |
| GameData.KnockOutsComplete | frontend/src/composables/useGameData.js:163-172 | every such entry gives a notice |
| GameData.OwnHidesRule | frontend/src/composables/useGameData.js:167-169 | the hide queue holds exactly the ids of the noticed pets the current user owns |
| GameData.MouseRule | frontend/src/composables/useGameData.js:188-198 | the current user's cursor and a missing user id are ignored; otherwise the cursor is replaced or appended, so at most one entry per user remains |
| GameData.UnknownMessageIgnored | frontend/src/composables/useGameData.js:112-207 | a message of another type changes neither the list nor the notices |
| GameData.OnSubscriptionStats | frontend/src/composables/useGameData.js:48-60 | the list keeps its length |
| GameData.SubscriptionStatsRule | frontend/src/composables/useGameData.js:48-60 | pets with another id are unchanged; the pet with the record's id takes the record's keys over its own, the record's position else its own, and keeps its own liveness unless the record carries `isAlive` |
| GameData.SubscriptionOmissionKnocksOut | frontend/src/composables/useGameData.js:61-68 | the subscription tests falsiness: a record that omits `isAlive` knocks out the alive pet it names |
| GameData.GameDataState.constructor | frontend/src/composables/useGameData.js:7-10 | the lists and the hidden set start empty |
| GameData.GameDataState.HandleWebSocketMessage | frontend/src/composables/useGameData.js:112-208 | the handler's new list, cursors, toasts and hide queue per message type |
| GameData.GameDataState.HandleStats | frontend/src/composables/useGameData.js:121-173 | the stats case rebuilds the list, then notices the batch's knock-outs against the list before the message |
| GameData.GameDataState.KnockOutNotices | frontend/src/composables/useGameData.js:163-172 | the loop raises the specified toasts and hides, in the batch map's order |
| GameData.GameDataState.NoticeOne | frontend/src/composables/useGameData.js:164-171 | one entry raises its notice exactly when it knocks its pet out |
| GameData.GameDataState.Notify | frontend/src/composables/useGameData.js:167-170 | an own pet's id is queued to be hidden; a toast names the pet when a toast callback exists |
| GameData.GameDataState.HideTimerFires | frontend/src/composables/useGameData.js:168 | a hide timer adds the oldest queued id to the hidden set |
| GameData.GameDataState.HandleSubscriptionResult | frontend/src/composables/useGameData.js:39-98 | the watcher's new list, toasts and hide queue per update type; an empty result, a stats update without a record and an unknown type change nothing |
| UIState.VisibleRule | frontend/src/composables/useUIState.js:14-26 | the visible pets are an order-preserving subsequence, exactly those passing the filter |
| UIState.VisibleFilters | frontend/src/composables/useUIState.js:15-24 | own alive unhidden pets show, an empty selection lets every owner pass, a visible pet of another owner is selected, a dead pet shows only under its switch, a hidden own pet never shows |
| UIState.MyTamagotchisRule | frontend/src/composables/useUIState.js:9 | exactly the current user's pets, in order |
| UIState.OnlineOthersRule | frontend/src/composables/useUIState.js:11-12 | exactly the online users other than the current user |
| UIState.OnlineOthersOrder | frontend/src/composables/useUIState.js:11-12 | in the users' order |
| UIState.SubsequenceTrans | frontend/src/composables/useUIState.js:11-12 | a subsequence of a subsequence is a subsequence |
| UIState.GetOwnerNameRule | frontend/src/composables/useUIState.js:38-41 | 'Unknown' when no user has the id, else the first such user's name |
| UIState.FindByIdFirst | frontend/src/composables/useUIState.js:39 | the id search answers the first element with the id |
| UIState.DisplayStatus | frontend/src/composables/useUIState.js:43 | 'Dead' shows as 'Knocked Out', every other status as it is |
| UIState.RefreshedRule | frontend/src/composables/useUIState.js:31-36 | the selection becomes the first entry with its id, else stays; its id never changes; an empty selection stays empty |
| UIState.UIState.constructor | frontend/src/composables/useUIState.js:5 | nothing is selected at first |
| UIState.UIState.SelectTamagotchi | frontend/src/composables/useUIState.js:28 | the selection becomes the given pet |
| UIState.UIState.OnListChange | frontend/src/composables/useUIState.js:31-36 | the watch applies that rule to the selection |

## Left out

- The movement loop (app/services/storage.py:767-808) is left out. It is floating-point trigonometry and random perturbation. Only its clamp to the field is shared with `Pets.Relocated`.
- SQLite and bcrypt are left out: user creation, authentication, the user table, and the database writes of `update_mouse_position`, `set_user_online` and `set_user_difficulty`.
- The JSON file I/O of `save_data` and `load_data` is left out. A write is a snapshot in a log, or a counter in the older store. Loading is a constructor parameter.
- The asyncio plumbing is modelled as explicit events: task start-up, the sleeps, and `create_task(broadcast(...))`. A worker waking, a worker receiving its cancellation and a backup tick are method calls. The debounce delay and the backup interval appear only as the moments those calls happen; `DEBOUNCE_DELAY_SEC` and `BACKUP_INTERVAL_SEC` are not defined in app/config.py.
- A broadcast is an outbox entry. Its delivery to the connection manager is left out: the store and the manager are modelled separately.
- Storage.GameStorage.UpdateStatsTick: the source reads the clock once per pet; the model uses one `now` for the whole sweep.
- Storage.GameStorage.UpdateStatsTick: the map's iteration order is left unspecified. The loop takes the keys in any order, so the batch's order is not stated.
- Storage: every stored record carries an `is_alive` flag. The decay loop indexes the flag directly and would fail on a record without one, so the actions' default of `True` for a missing flag does not arise.
- Storage.GameStorage.GetUserTamagotchis: the records are returned as stored. The conversion to the GraphQL `Tamagotchi` type is left out.
- Storage.GameStorage.SaveTimerFires: the store uses the corrected clearing described under Findings. The clearing as written is modelled in `Persistence` only.
- Storage.GameStorage.SaveTaskCancelled: the store uses the corrected clearing. The source's `finally` clears the handle whichever worker it names. The one-armed-worker invariant in `Valid()`, and so in `ScheduleSave` and `FlushSave`, holds for the corrected store only. `Persistence.SupersededTimerWrites` shows how it fails as written.
- Persistence: each worker is taken to reach its sleep before another handler runs. A task cancelled before its first step never enters its `try`, so its `finally` does not run. That interleaving is not modelled.
- Storage.GameStorage.GetUserTamagotchis: the source lists the user's pets in the dict's insertion order. The model's map has no order, so the result's order is not stated.
- Hub.ConnectionManager.Broadcast: `json.dumps` and the socket are left out. The message is its text, and which sends fail is a parameter. Interleaving with other coroutines during the awaits is not modelled.
- Resolvers: the token decoding that fills `user_id` into the context is left out. The context carries it as an optional string.
- Legacy: the two clock reads of an action (the timestamp, then `update_stats`) are one `now`.
- Js: property access on `null` or `undefined` throws in JavaScript. The model answers `undefined` there, so a malformed message is modelled as ignored rather than as an exception. The one throw the model follows is the subscription's `positions.map` on a truthy non-array: it happens before anything changes, so it is modelled as no change.
- Js: values are compared by content. Every comparison in the client is on ids, user ids and type strings, where content and identity agree.
- GameData.SubscriptionCreatedRule: `find(...)` is read as `some(...)`. The two differ only for a falsy element of the pet list, which the list never holds.
- GameData: a toast is represented by the pet's name, since the text is a fixed template around it. `setTimeout` is a queue of ids whose timers fire in order, since all share the 3-second delay.
- GameData: the query seeding watchers (frontend/src/composables/useGameData.js:23-36), `loadGameData` and `createTamagotchi` are network calls and are left out.
- frontend/src/composables/useGame.js is not part of this model. Its reducer repeats a subset of the one in useGameData.js.

## Findings

| source | as written | input that shows it | evidently intended | confidence | as-written member | corrected member |
|---|---|---|---|---|---|---|
| app/services/storage.py:61-68 | the debounce worker's `finally` sets `self._save_task = None` also when the worker was cancelled, which clears the handle of the worker that replaced it | schedule_save, schedule_save, the cancellation of worker 0 delivered, schedule_save, worker 1 wakes, schedule_save, workers 2 and 3 wake: the third call cannot cancel worker 1, so workers 1 and 2 both write (two writes) | a cancelled worker clears the handle only while it still names itself, so the superseded worker never writes and the burst writes once | not executed | Persistence.SupersededTimerWrites | Persistence.BurstThenQuietWritesOnce |
