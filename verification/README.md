# Cloud and weather engine of the farm simulation — a Dafny model

This project models the cloud/weather engine of the farm simulator
(`EnvironmentController`), the `Cloud` record it mutates, the `FarmableTile`
soil mutators it calls, and the `TickInfo` clock. Each tick, the engine runs
the following:

- it rains heavy clouds onto their tiles;
- it moves clouds along the fixed airflow, for at most ten moves per tick;
- it merges clouds that collide;
- it removes clouds that enter a village;
- it gives every cloud one turn, in ascending-id waves, so that a cloud born
  from a merge also gets its turn in the same tick;
- it ends the tick by expiring durations and shading the tiles that are
  still covered.

The model is functional. A `World` value holds the tiles, the active clouds
by id, the occupancy index (tile → cloud id) and the id allocator. Every
engine operation is a function or method from one `World` to the next.

The modules are:

- `Clouds` (`cloud.dfy`): the cloud record, its constructors and mutators.
- `Tiles` (`tiles.dfy`): tile categories and the farmable soil mutators.
- `Session` (`session.dfy`): the tick clock and its read-only wrapper.
- `CloudStore` (`store.dfy`): the world state and its invariants. It also
  holds `addCloud`, `removeCloud`, `lookupCloud` and the corrected
  `updateCloudLocation`.
- `Weather` (`weather.dfy`): rain, merge, the movement step and one cloud's
  turn.
- `Waves` (`waves.dfy`): the wave loop `startCloudLoop`.
- `Finalize` (`finalize.dfy`): `finalCloudBehaviour`.
- `Controller` (`controller.dfy`): the entry points `createCloud`,
  `villageCreatedAt` and `runTick`, and the sunlight table.
- `Findings` (`findings.dfy`): two store updates as the source writes them,
  with proofs that they break the occupancy index.
- `Collections` (`collections.dfy`): generic sequence and set facts.

The engine's standing assumption is `CloudStore.Ready`, made of four parts:

- the airflow only leads to known, different tiles;
- every tile with a capacity category is farmable;
- the occupancy index is exact: every active cloud is indexed under its own
  tile, and no two clouds share a tile;
- no cloud heavy enough to rain stands on a village.

Every operation of a tick preserves `Ready`. It also preserves `Bounds`
(clouds hold no negative water, and soil stays within its capacity with
non-negative sunlight).

External lookups become plain data:

- `getAirflowNeighbour` becomes an `airflow: map<int, int>` parameter; a
  missing key means there is no neighbour.
- `getTileById` becomes the world's tile map, with a membership
  precondition.
- The source keeps `Cloud` objects, compared by reference. The model names
  a cloud by its id, since ids only ever come from incrementing the
  allocator.

## Model

| member | source | states |
|---|---|---|
| Clouds.NewCloud | src/main/kotlin/data/Cloud.kt:3-30 | A new cloud keeps the given id, duration, water and tile, and starts with the full quota of 10. |
| Clouds.NewCloudWithQuota | src/main/kotlin/data/Cloud.kt:36-40 | The five-argument constructor stores the requested quota, except that it never stores more than 10. |
| Clouds.DecreaseCloudAmount | src/main/kotlin/data/Cloud.kt:49-51 | Exactly `amt` litres are removed, and no other field changes. |
| Clouds.DecrementMovementQuota | src/main/kotlin/data/Cloud.kt:57-59 | The quota drops by exactly one, because the floor at zero is discarded. It stays non-negative only when it was positive, and nothing else changes. |
| Clouds.ShouldDissipate | src/main/kotlin/data/Cloud.kt:75-79 | The water-based dissipation test holds exactly when the amount is zero or below. The other two ways to dissipate, duration and villages, are left to the engine. |
| Clouds.ShouldDissipateIffEmpty | src/main/kotlin/data/Cloud.kt:75-79 | After a decrease, `shouldDissipate` holds exactly when the decrease took all the water. |
| Clouds.SetLocation | src/main/kotlin/data/Cloud.kt:81-83 | Only the location changes. |
| Clouds.DecrementDuration | src/main/kotlin/data/Cloud.kt:85-87 | The duration drops by exactly one, with its floor discarded. It stays non-negative only when it was positive. |
| Clouds.SetMovementQuota | src/main/kotlin/data/Cloud.kt:89-91 | Only the quota changes. |
| Tiles.NewSoil | src/main/kotlin/tile/Tiles.kt:34-38 | A fresh farmable tile is full to capacity (no rain is required) and has zero sunlight. |
| Tiles.ReduceSunlight | src/main/kotlin/tile/Tiles.kt:108-110 | Sunlight becomes `s - amt`, floored at zero. For `amt ≥ 0` and non-negative sunlight it never rises; negative sunlight is raised to 0. Moisture and capacity do not change. |
| Tiles.ReduceSunlightComposes | src/main/kotlin/tile/Tiles.kt:108-110 | Two non-negative reductions equal one reduction by their sum. |
| Tiles.CalculateReqRain | src/main/kotlin/tile/Tiles.kt:117-119 | Moisture plus the required rain equals capacity. The required rain is non-negative exactly when moisture is within capacity. |
| Tiles.IncreaseMoisture | src/main/kotlin/tile/Tiles.kt:126-128 | Moisture rises by `amt`, capped at capacity. It rises by exactly `amt` when `amt` fits within the required rain, and no other field changes. |
| Tiles.Irrigate | src/main/kotlin/tile/Tiles.kt:90-92 | After irrigating, no rain is required, and capacity and sunlight do not change. |
| Tiles.IncreaseByReqRainIsIrrigate | src/main/kotlin/tile/Tiles.kt:90-128 | Adding exactly the required rain is the same as irrigating. |
| Tiles.SetCurrentSunlight | src/main/kotlin/tile/Tiles.kt:145-147 | Sunlight becomes exactly the given value, and nothing else changes. |
| Tiles.MutatorsKeepBounds | src/main/kotlin/tile/Tiles.kt:90-147 | Every soil mutator keeps moisture within capacity and sunlight non-negative. `setCurrentSunlight` does so only for a non-negative value. |
| Session.TruncatedRem | src/main/kotlin/session/Session.kt:124 | Kotlin's `%` by 24: the remainder is congruent to the dividend modulo 24. It lies in 0..23 for a non-negative dividend and in −23..0 for a negative one, and a dividend strictly between −24 and 24 is returned unchanged. |
| Session.Increment | src/main/kotlin/session/Session.kt:122-125 | The running tick rises by one. From any non-negative year tick, the new year tick is in 1..24; 24 wraps to 1, and 1..23 step up by one. |
| Session.GetCurrentTick | src/main/kotlin/session/Session.kt:131 | The clock reports its running tick. |
| Session.GetYearTick | src/main/kotlin/session/Session.kt:137 | The clock reports its year tick. |
| Session.GettersAcrossIncrement | src/main/kotlin/session/Session.kt:122-137 | Read through the getters, an increment from a year tick in 1..24 raises the running tick by one and moves the year tick to the next one, 24 wrapping to 1. |
| Session.DataCurrentTick | src/main/kotlin/session/Session.kt:102 | The wrapper reports the wrapped clock's running tick. |
| Session.DataYearTick | src/main/kotlin/session/Session.kt:108 | The wrapper reports the wrapped clock's year tick. |
| Session.IncrementTimesAdvances | src/main/kotlin/session/Session.kt:122-125 | From a year tick in 1..24, `k` increments advance the running tick by `k` and the year tick by `k` modulo 24. |
| Session.YearTickHasPeriod24 | src/main/kotlin/session/Session.kt:124 | Twenty-four increments return a valid year tick to its start. |
| Session.NegativeYearTickEscapesRange | src/main/kotlin/session/Session.kt:124 | From year tick −1 the wrap yields 0, which is outside 1..24. |
| CloudStore.LookupCloud | src/main/kotlin/controllers/EnvironmentController.kt:305-307 | Under the occupancy invariant, a hit names the active cloud standing on the tile, and a miss means no active cloud stands there. |
| CloudStore.AddCloud | src/main/kotlin/controllers/EnvironmentController.kt:100-103 | The cloud becomes active, the tile is indexed to it, and every other tile's lookup is unchanged. The occupancy invariant survives when the cloud is new, its tile was free and known, and its id has been allocated. |
| CloudStore.RemoveCloud | src/main/kotlin/controllers/EnvironmentController.kt:110-113 | The cloud leaves and its tile's entry goes. Other lookups and clouds are unchanged, and removing an indexed cloud keeps the invariant. |
| CloudStore.UpdateCloudLocation | src/main/kotlin/controllers/EnvironmentController.kt:448-451 | Corrected: the cloud moves to `next` and spends one unit of quota, and its index entry moves with it. A move onto a free known tile with quota left keeps the invariant. |
| Weather.Rain | src/main/kotlin/controllers/EnvironmentController.kt:240-297 | Below 5000 litres, or on a full capacity tile, nothing changes. On a capacity tile, exactly min(required rain, water) moves from the cloud to the soil; cloud water plus soil moisture is conserved, moisture stays within capacity and water stays non-negative. On any other non-village tile, the cloud empties and the tile is unchanged. The result reports dissipation exactly when the cloud rained down to empty. |
| Weather.RainKeepsBounds | src/main/kotlin/controllers/EnvironmentController.kt:240-297 | Rain never produces negative water or soil out of bounds. |
| Weather.Merge | src/main/kotlin/controllers/EnvironmentController.kt:465-476 | The merged cloud has the fresh id, the summed water and the stationary cloud's tile. Its duration is −1 if either parent's is, else the smaller one. Its quota is the larger one, capped at 10. |
| Weather.MergeSymmetry | src/main/kotlin/controllers/EnvironmentController.kt:465-476 | Water, duration and quota do not depend on which cloud moved; the tile does. |
| Weather.RainOnFieldExample | src/main/kotlin/controllers/EnvironmentController.kt:250-265 | A 6000-litre cloud over a field holding 200 of 1000 rains exactly 800 litres, keeps 5200 and fills the field. A second rain moves nothing. |
| Weather.MergeExample | src/main/kotlin/controllers/EnvironmentController.kt:465-476 | A 2000-litre cloud with duration 5 merging into an unlimited 1000-litre cloud gives an unlimited 3000-litre cloud on the stationary tile, with the larger quota. |
| Weather.Traversed | src/main/kotlin/controllers/EnvironmentController.kt:348-350 | A farmable tile that a cloud leaves loses 3 hours of sunlight, floored at zero. Other tiles are unchanged. |
| Weather.MovementOutcome | src/main/kotlin/controllers/EnvironmentController.kt:392-429 | A village absorbs the mover. An empty tile receives it, with one unit of quota less. An occupied tile replaces both clouds with their merge under the next id. Each outcome happens exactly when its condition holds, and the world stays ready and in bounds. |
| Weather.MergeOnto | src/main/kotlin/controllers/EnvironmentController.kt:414-423 | Both clouds leave, and their merge enters under the next id. The occupancy invariant and the bounds hold, and rain safety holds when the merge's tile is not a village. |
| Weather.Depart | src/main/kotlin/controllers/EnvironmentController.kt:337-350 | Leaving a tile changes only that tile's sunlight and keeps every invariant. |
| Weather.MovementStep | src/main/kotlin/controllers/EnvironmentController.kt:334-366 | Without an airflow successor, nothing changes and the turn stops. Otherwise the departed tile is traversed and entering the successor decides the rest. |
| Weather.MoveEffectShape | src/main/kotlin/controllers/EnvironmentController.kt:392-429 | A movement outcome changes the active ids only as its kind allows. Only a merge draws an id, and every uninvolved cloud is unchanged. |
| Weather.RainIfTriggered | src/main/kotlin/controllers/EnvironmentController.kt:205-212 | Below the trigger nothing changes. A heavy cloud's water and its tile's soil become exactly what `rain` gives, and dissipation is what `rain` reports. Every other tile and cloud is unchanged. |
| Weather.TurnIteration | src/main/kotlin/controllers/EnvironmentController.kt:203-216 | One loop iteration: rain that empties the cloud removes it; otherwise one movement step. A move follows the airflow and spends one unit of quota, and the world stays ready. |
| Weather.TurnLoop | src/main/kotlin/controllers/EnvironmentController.kt:203-216 | The loop makes at most as many moves as the quota, and exactly that many when the quota runs out. The active ids change only as the stopping step allows. |
| Weather.TurnLoopTrajectory | src/main/kotlin/controllers/EnvironmentController.kt:203-216 | A cloud still standing after the loop (quota spent, or no airflow onwards) spent exactly one unit of quota per move it made and kept its duration. |
| Weather.TurnLoopFrame | src/main/kotlin/controllers/EnvironmentController.kt:203-216 | The loop changes no cloud other than its own and the one it merged with. |
| Weather.ResetQuota | src/main/kotlin/controllers/EnvironmentController.kt:198 | Only the turning cloud's quota changes, and it is set to 10. |
| Weather.Turn | src/main/kotlin/controllers/EnvironmentController.kt:191-217 | An inactive cloud is skipped and nothing changes. Otherwise its quota resets and the loop runs, for at most 10 moves. |
| Weather.TurnTrajectory | src/main/kotlin/controllers/EnvironmentController.kt:191-217 | A turn that ends with the cloud still active (quota spent or no successor) made one move per spent unit of the reset quota and kept the cloud's duration. |
| Weather.TurnFrame | src/main/kotlin/controllers/EnvironmentController.kt:191-217 | A turn changes no cloud other than its own and its merge partner. |
| Waves.TurnKeepsPotential | src/main/kotlin/controllers/EnvironmentController.kt:191-217 | A turn never raises the loop's measure: active clouds, plus once more for each active cloud outside the base set. |
| Waves.TakeTurn | src/main/kotlin/controllers/EnvironmentController.kt:158-165 | The batch step leaves the world exactly as the cloud's `Turn` does, and reports a turn exactly when `Turn` did not skip the cloud. Only fresh ids appear, and the measure does not grow. |
| Waves.WaveTurn | src/main/kotlin/controllers/EnvironmentController.kt:158-165 | After one more batch cloud, the world is that of the batch's first `i + 1` clouds taking their turns in order. The turn list is the clouds among them that were active when their turn came. Who is still active and the measure are carried forward. |
| Waves.TurnsInOrderAppend | src/main/kotlin/controllers/EnvironmentController.kt:158-165 | Turns over two lists one after the other are the turns over their concatenation. |
| Waves.RunWave | src/main/kotlin/controllers/EnvironmentController.kt:158-165 | A batch pass leaves exactly the world of the batch clouds taking their turns in batch order. `turns` is exactly the batch clouds still active when their turn came. For an ascending batch, a cloud is listed exactly when it is active once the earlier batch clouds have had their turns, so a cloud a merge retired is not listed. Every batch cloud still active afterwards took its turn. |
| Waves.WaveLowersCount | src/main/kotlin/controllers/EnvironmentController.kt:145-156 | A non-empty batch strictly lowers the loop's measure, so the loop ends. |
| Waves.WaveScheduleUnique | src/main/kotlin/controllers/EnvironmentController.kt:145-167 | A wave schedule lists, batch by batch, the ascending clouds active and unprocessed after the previous batches' turns, until that list is empty. A world has at most one, so the loop's batches are determined by the world alone. |
| Waves.NextWave | src/main/kotlin/controllers/EnvironmentController.kt:145-166 | One iteration of the `do` loop runs exactly one wave (`OneMoreWave`). The schedule grows by exactly the current batch, and the processed set by exactly its clouds. The world becomes that batch's turns, and the record grows by exactly the batch clouds that took their turn. The loop state `LoopState` is kept and the measure strictly drops. |
| Waves.CloudLoop | src/main/kotlin/controllers/EnvironmentController.kt:140-168 | The loop terminates. Its batches are the world's wave schedule, and no cloud is scheduled twice. Its result is the turns of the batches in order. The wave record (`TurnRecord`) is exactly the scheduled clouds still active when their turn came: a scheduled cloud is listed exactly when it is active after the turns before its own. Each wave is ascending, and every cloud active at the end took its turn, including clouds born from a merge. |
| Waves.TurnsTakenAppend | src/main/kotlin/controllers/EnvironmentController.kt:145-167 | The clouds that take their turn over two runs are those of the first run, then those of the second run started from the first run's world. |
| Waves.TurnsTakenExactly | src/main/kotlin/controllers/EnvironmentController.kt:158-165 | For a sequence without repeats, a cloud takes its turn exactly when it is still active once the clouds before it have had theirs. The clouds that take their turn are clouds of the sequence, each listed once. |
| Waves.ScheduleDistinct | src/main/kotlin/controllers/EnvironmentController.kt:145-167 | In any schedule so far, no cloud appears in two waves or twice in one wave. |
| Waves.LoopExit | src/main/kotlin/controllers/EnvironmentController.kt:153-155 | When the batch is empty, the schedule is complete and `TurnRecord` holds: no cloud was scheduled twice, and a scheduled cloud took its turn exactly when it was still active. Every active cloud has taken its turn. |
| Finalize.DurationStep | src/main/kotlin/controllers/EnvironmentController.kt:494 | A positive duration drops by one and stays non-negative. Other durations, −1 among them, leave the cloud untouched. |
| Finalize.Expires | src/main/kotlin/controllers/EnvironmentController.kt:494-499 | A cloud leaves in the first phase exactly when its duration is 0 or 1. |
| Finalize.ExpiresIff | src/main/kotlin/controllers/EnvironmentController.kt:494-499 | A cloud of unlimited duration never expires, and the tick-end duration step leaves it unchanged. |
| Finalize.DurationStepsCountDown | src/main/kotlin/controllers/EnvironmentController.kt:494-499 | Over many ticks, an unlimited cloud is never touched. A cloud with duration `d > 0` counts down by one per tick and expires at exactly the `d`-th tick end. |
| Finalize.ExpireOne | src/main/kotlin/controllers/EnvironmentController.kt:492-500 | One loop iteration: an expiring cloud leaves together with its tile's index entry; any other cloud is only counted down. |
| Finalize.ExpireOneThenAll | src/main/kotlin/controllers/EnvironmentController.kt:492-500 | Processing one cloud and then a set of others equals processing them all together. |
| Finalize.ExpireSeq | src/main/kotlin/controllers/EnvironmentController.kt:492-500 | The loop over the copied list keeps the tiles and the allocator. A cloud stays exactly when it is unlisted or does not expire; a listed survivor is counted down, and an unlisted cloud is untouched. |
| Finalize.ExpireSeqIsExpireAll | src/main/kotlin/controllers/EnvironmentController.kt:492-500 | The expiry loop's result does not depend on the list order: any listing of distinct clouds gives the order-free result. |
| Finalize.ExpirePass | src/main/kotlin/controllers/EnvironmentController.kt:492-500 | A cloud survives exactly when it does not expire, and survivors are counted down. The index keeps the survivors' tiles, and the invariants and bounds hold. |
| Finalize.Shade | src/main/kotlin/controllers/EnvironmentController.kt:507-508 | A covered farmable tile loses 50 hours of sunlight, floored at zero. Other tiles are unchanged. |
| Finalize.ShadePass | src/main/kotlin/controllers/EnvironmentController.kt:503-512 | Each listed tile is shaded once, and every other tile is unchanged. |
| Finalize.ShadeLogRecords | src/main/kotlin/controllers/EnvironmentController.kt:504-511 | Each position record names a listed farmable tile, the cloud indexed there and the tile's sunlight after the shade. |
| Finalize.ShadeLogCovers | src/main/kotlin/controllers/EnvironmentController.kt:504-511 | Every listed farmable tile has a record. |
| Finalize.ShadeLogOrdered | src/main/kotlin/controllers/EnvironmentController.kt:503-511 | Records follow the visiting order, so ascending tiles give an ascending log. |
| Finalize.CoveredTiles | src/main/kotlin/controllers/EnvironmentController.kt:503 | The index's tiles, in strictly ascending order. All of them are known tiles. |
| Finalize.FinalCloudBehaviour | src/main/kotlin/controllers/EnvironmentController.kt:483-518 | The expiry pass runs first. Then exactly the tiles still indexed to a surviving cloud are shaded, and the occupancy invariant holds. |
| Finalize.FinalCloudBehaviourKeeps | src/main/kotlin/controllers/EnvironmentController.kt:483-518 | The end of a tick keeps the tile layout, rain safety and bounds. |
| Finalize.FinalCloudBehaviourLog | src/main/kotlin/controllers/EnvironmentController.kt:503-511 | The position log is in ascending tile order. It has one record per covered farmable tile, naming the surviving cloud there and the tile's final sunlight. |
| Finalize.ExpiredCloudCastsNoShade | src/main/kotlin/controllers/EnvironmentController.kt:483-512 | A cloud that expires at the end of a tick leaves its last tile's sunlight untouched and has no position record. |
| Controller.SunlightTableCoversYear | src/main/kotlin/controllers/EnvironmentController.kt:27-32 | The table has keys exactly 1..24, and the clock advanced from any non-negative year tick lands on a key. |
| Controller.SunlightTableBounds | src/main/kotlin/controllers/EnvironmentController.kt:27-32 | Base sunlight lies in 84..168. It is 168 exactly on ticks 9..14 and 84 exactly on ticks 23..24. |
| Controller.CreateCloud | src/main/kotlin/controllers/EnvironmentController.kt:69-93 | Corrected. On a free tile, the new cloud takes the next id with a full quota. On an occupied tile, the merge takes the id after that, with the summed water, the −1/min duration rule and a full quota, and the previous cloud leaves. Either way the tile is indexed to the newest cloud and other clouds are untouched. On a known tile the invariant holds. |
| Controller.VillageCreatedAt | src/main/kotlin/controllers/EnvironmentController.kt:528-539 | A farmable tile gets zero sunlight and moisture and becomes a village, and other tiles are unchanged. Exactly the cloud on the tile leaves, so no cloud stands on it afterwards, and the invariants hold. |
| Controller.VillageCreatedAtIdempotent | src/main/kotlin/controllers/EnvironmentController.kt:528-539 | A second conversion of the same tile changes nothing. |
| Controller.TickEnd | src/main/kotlin/controllers/EnvironmentController.kt:55-57 | The tick end is exactly `finalCloudBehaviour`. It keeps the engine ready and the tile layout, only retires clouds, draws no id, and leaves no active cloud with duration 0. Its position log ascends and names the cloud on each logged tile. |
| Controller.RunTick | src/main/kotlin/controllers/EnvironmentController.kt:45-58 | The result is `finalCloudBehaviour` applied to the turns of the world's wave schedule. No cloud is scheduled twice, and the wave record lists (`TurnRecord`) exactly the scheduled clouds still active when their turn came, so every cloud still active took exactly one turn. No active cloud is left with duration 0, the log ascends, and the invariants and bounds hold for the next tick. |
| Findings.UpdateCloudLocationAsWritten | src/main/kotlin/controllers/EnvironmentController.kt:448-451 | As written: the clouds change as in the corrected form, but the index does not change. |
| Findings.UpdateCloudLocationAsWrittenBreaksOccupancy | src/main/kotlin/controllers/EnvironmentController.kt:448-451 | Every real move made as written leaves the old tile naming a cloud that is elsewhere, so the invariant fails. |
| Findings.CreateCloudAsWritten | src/main/kotlin/controllers/EnvironmentController.kt:69-93 | As written: on an occupied tile, the merged cloud is added before the previous cloud is removed. |
| Findings.CreateCloudAsWrittenLosesIndex | src/main/kotlin/controllers/EnvironmentController.kt:88-89 | Done that way, the merged cloud is active on the tile while the lookup reports the tile free. |
| Findings.FindingsOnSampleWorld | src/main/kotlin/controllers/EnvironmentController.kt:88-89 | On a concrete one-cloud world, both written updates break the index and the corrected move keeps it. |

## Left out

- Logging (`Logger`) is left out, because events never affect state. The
  exception is the end-of-tick position record, modelled as `Position`
  because its order is a stated property.
- RunTick: models the tick as if `reduceSoilMoisture` and `resetBaseSunlight`
  returned with no effect. Both are `TODO()` stubs, and Kotlin's `TODO()`
  throws `NotImplementedError`. So `runTick` as written aborts at its first
  step and never reaches `startCloudLoop`. The model runs only the cloud loop
  and the tick end; the sunlight table is modelled as data with its lemmas.
- `setTickInfoData` and the `tickInfo` field are left out: they are a plain
  setter and a field read only by the stubs.
- Kotlin's 32-bit `Int` is modelled by unbounded integers, so overflow of
  water sums, ids or ticks is not modelled.
- The fatal `error(...)` calls in `rain` are not modelled as behaviour.
  - Rain on a village is excluded by the `RainSafe` invariant.
  - Rain on a non-farmable capacity tile is excluded by `TilesWellFormed`.
  - `getTileById` on an unknown id is excluded by tile-membership
    preconditions.
- `EnvironmentMap`, `getAirflowNeighbour` and `getTileById` are stubs in the
  source; they become the `airflow` map and the tile map.
- The tile category is declared `val`, and `setCategory` does not exist. The
  model treats the category as mutable, as `villageCreatedAt` needs.
- The wave loop and turns are modelled with the corrected occupancy updates
  only. As written, stale index entries can make a cloud merge with a cloud
  that is elsewhere. Termination and turn counts of that variant are not
  modelled.
- CreateCloud: it keeps `Valid` only for a known tile id. The source never
  checks the id, and a cloud on an unknown tile breaks the model's rule that
  every cloud sits on a tile.
- CreateCloud: it keeps `RainSafe` only for a non-village tile. Creating a
  heavy cloud on a village makes its next turn fatal in the source, and that
  is not excluded here.
- CreateCloud, VillageCreatedAt: they require the occupancy invariant (`Valid`),
  because the index stores cloud ids and the source stores cloud objects. A
  lookup hit must name an active cloud.
- VillageCreatedAt: it keeps `Bounds` only when the tile's capacity is
  non-negative. Zeroed moisture is within capacity only then.
- Weather.TurnLoopTrajectory, Weather.TurnTrajectory: they state the quota
  spent and the duration kept over a whole turn, but not the tile reached as
  a closed-form airflow path. Each move's destination, the airflow successor
  of the current tile, is stated per move by `TurnIteration`.

## Findings

| source | as written | input that shows it | evidently intended | confidence | as-written member | corrected member |
|---|---|---|---|---|---|---|
| src/main/kotlin/controllers/EnvironmentController.kt:448-451 | `updateCloudLocation` changes the cloud's location but leaves its `tileIdCloudMap` entry under the tile it left | Cloud 0 on field 1 moves to free field 2. Afterwards the lookup of tile 1 still returns cloud 0, and the lookup of tile 2 returns nothing. | Move the index entry with the cloud, so that `lookupCloud` keeps naming the cloud on each tile | high (proved for every move; not executed) | Findings.UpdateCloudLocationAsWrittenBreaksOccupancy | CloudStore.UpdateCloudLocation |
| src/main/kotlin/controllers/EnvironmentController.kt:88-89 | `createCloud` on an occupied tile calls `addCloud(newCloud)` and then `removeCloud(theCloudThatWasThere)`. Both clouds have the same location, so the removal deletes the new entry | Create a cloud on field 1 while cloud 0 is there. Merged cloud 2 is active on field 1, but the lookup of tile 1 returns nothing. | Remove the previous cloud first and then add the merged one, as `cloudMovementHelper` does | high (proved for every occupied tile; not executed) | Findings.CreateCloudAsWrittenLosesIndex | Controller.CreateCloud |
