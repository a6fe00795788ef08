/**
 The environment controller's entry points: cloud creation (the
 `CLOUD_CREATION` incident), a tile turning into a village (the
 `CITY_EXPANSION` incident), the monthly sunlight table, and one tick of the
 cloud engine.
 */
module Controller {
  import opened Collections
  import opened Clouds
  import opened Tiles
  import opened Session
  import opened CloudStore
  import opened Weather
  import opened Waves
  import opened Finalize

  /** Base sunlight hours per year tick (two ticks per month), January to December. */
  const BASE_SUNLIGHT_HOURS: map<int, int> := map[
    1 := 98, 2 := 98, 3 := 112, 4 := 112, 5 := 126, 6 := 126, 7 := 140, 8 := 140,
    9 := 168, 10 := 168, 11 := 168, 12 := 168, 13 := 168, 14 := 168, 15 := 154,
    16 := 154, 17 := 126, 18 := 126, 19 := 112, 20 := 112, 21 := 98, 22 := 98,
    23 := 84, 24 := 84]

  /**
   The table has an entry for exactly the year ticks 1..24, and the clock,
   advanced from any non-negative year tick, always lands on one of them.
   */
  lemma SunlightTableCoversYear(t: TickInfo)
    ensures forall y :: y in BASE_SUNLIGHT_HOURS <==> 1 <= y <= TICKS_PER_YEAR
    ensures t.yearTick >= 0 ==> Increment(t).yearTick in BASE_SUNLIGHT_HOURS
  {
    forall y | 1 <= y <= TICKS_PER_YEAR ensures y in BASE_SUNLIGHT_HOURS {
      assert y in {1, 2, 3, 4, 5, 6, 7, 8, 9, 10, 11, 12, 13, 14, 15, 16, 17, 18, 19, 20, 21, 22, 23, 24};
    }
  }

  /** Base sunlight lies between 84 hours (all of December, ticks 23-24) and 168 (May to the end of July, ticks 9-14). */
  lemma SunlightTableBounds()
    ensures forall y :: y in BASE_SUNLIGHT_HOURS ==> 84 <= BASE_SUNLIGHT_HOURS[y] <= 168
    ensures forall y :: y in BASE_SUNLIGHT_HOURS ==> (BASE_SUNLIGHT_HOURS[y] == 168 <==> 9 <= y <= 14)
    ensures forall y :: y in BASE_SUNLIGHT_HOURS ==> (BASE_SUNLIGHT_HOURS[y] == 84 <==> 23 <= y <= 24)
  {
  }

  /**
   `createCloud`: the new cloud takes the next id. On a free tile it simply
   becomes active. On an occupied tile it merges at once with the cloud
   there: the merge takes the id after that, the cloud that was there leaves,
   and the merged cloud is indexed under the tile (the prior cloud is removed
   before the merged one is added).
   */
  function CreateCloud(w: World, tileId: int, duration: int, amount: int): (r: World)
    requires Valid(w)
    ensures r.tiles == w.tiles
    ensures LookupCloud(w, tileId).None? ==>
              && r.maxCloudId == w.maxCloudId + 1
              && r.clouds.Keys == w.clouds.Keys + {r.maxCloudId}
              && r.clouds[r.maxCloudId] == NewCloud(r.maxCloudId, duration, amount, tileId)
    ensures LookupCloud(w, tileId).Some? ==>
              var prior := w.clouds[LookupCloud(w, tileId).value];
              && r.maxCloudId == w.maxCloudId + 2
              && r.clouds.Keys == w.clouds.Keys - {prior.id} + {r.maxCloudId}
              && r.clouds[r.maxCloudId].amount == amount + prior.amount
              && (r.clouds[r.maxCloudId].duration == UNLIMITED_DURATION
                  <==> duration == UNLIMITED_DURATION || prior.duration == UNLIMITED_DURATION)
              && (r.clouds[r.maxCloudId].duration != UNLIMITED_DURATION ==>
                    r.clouds[r.maxCloudId].duration == (if duration < prior.duration then duration else prior.duration))
              && r.clouds[r.maxCloudId].movementQuota == MAX_MOVEMENT_QUOTA
    ensures r.maxCloudId !in w.clouds && r.clouds[r.maxCloudId].location == tileId
    ensures LookupCloud(r, tileId) == Some(r.maxCloudId)
    ensures forall id :: id in w.clouds && w.clouds[id].location != tileId ==> id in r.clouds && r.clouds[id] == w.clouds[id]
    ensures tileId in w.tiles ==> Valid(r)
    ensures RainSafe(w) && !(tileId in w.tiles && w.tiles[tileId].category == VILLAGE) ==> RainSafe(r)
  {
    var created := NewCloud(w.maxCloudId + 1, duration, amount, tileId);
    match LookupCloud(w, tileId)
    case None =>
      AddCloud(w.(maxCloudId := created.id), created)
    case Some(priorId) =>
      var prior := w.clouds[priorId];
      var merged := Merge(created, prior, w.maxCloudId + 2);
      AddCloud(RemoveCloud(w.(maxCloudId := merged.id), prior), merged)
  }

  /**
   `villageCreatedAt`: a farmable tile loses its sunlight and moisture and
   becomes a village; an unfarmable tile keeps its category. Any cloud on the
   tile leaves, so the tile is free afterwards.
   */
  function VillageCreatedAt(w: World, tileId: int): (r: World)
    requires Valid(w)
    requires tileId in w.tiles
    ensures r.tiles.Keys == w.tiles.Keys
    ensures forall t :: t in w.tiles && t != tileId ==> r.tiles[t] == w.tiles[t]
    ensures w.tiles[tileId].Farmable? ==>
              && r.tiles[tileId].Farmable?
              && r.tiles[tileId].category == VILLAGE
              && r.tiles[tileId].soil.currentSunlight == 0
              && r.tiles[tileId].soil.currentMoisture == 0
              && r.tiles[tileId].soil.moistureCapacity == w.tiles[tileId].soil.moistureCapacity
    ensures w.tiles[tileId].Unfarmable? ==> r.tiles[tileId] == w.tiles[tileId]
    ensures LookupCloud(r, tileId).None?
    ensures forall id :: id in r.clouds ==> r.clouds[id].location != tileId
    ensures forall id :: id in w.clouds ==>
              (id in r.clouds <==> w.clouds[id].location != tileId) && (id in r.clouds ==> r.clouds[id] == w.clouds[id])
    ensures r.maxCloudId == w.maxCloudId
    ensures Valid(r)
    ensures TilesWellFormed(w.tiles) ==> TilesWellFormed(r.tiles)
    ensures RainSafe(w) ==> RainSafe(r)
    ensures Bounds(w) && (w.tiles[tileId].Farmable? ==> w.tiles[tileId].soil.moistureCapacity >= 0) ==> Bounds(r)
  {
    var tile := w.tiles[tileId];
    var w1 :=
      if tile.Farmable? then
        var soil := tile.soil.(currentSunlight := 0, currentMoisture := 0);
        w.(tiles := w.tiles[tileId := Farmable(VILLAGE, soil)])
      else w;
    match LookupCloud(w1, tileId)
    case None => w1
    case Some(id) => RemoveCloud(w1, w1.clouds[id])
  }

  /** Turning a tile into a village a second time changes nothing more. */
  lemma VillageCreatedAtIdempotent(w: World, tileId: int)
    requires Valid(w)
    requires tileId in w.tiles
    ensures VillageCreatedAt(VillageCreatedAt(w, tileId), tileId) == VillageCreatedAt(w, tileId)
  {
    var once := VillageCreatedAt(w, tileId);
    var twice := VillageCreatedAt(once, tileId);
    assert twice.tiles == once.tiles;
  }

  /**
   The tick end as `runTick` uses it: `finalCloudBehaviour`, which keeps the
   engine ready and the tiles' layout, retires every spent cloud, and logs
   each surviving cloud's position in ascending tile order.
   */
  method TickEnd(airflow: map<int, int>, w: World) returns (r: World, log: seq<Position>)
    requires Ready(airflow, w)
    ensures r == FinalCloudBehaviour(w).world && log == FinalCloudBehaviour(w).log
    ensures Ready(airflow, r)
    ensures SameLayout(w.tiles, r.tiles)
    ensures r.clouds.Keys <= w.clouds.Keys && r.maxCloudId == w.maxCloudId
    ensures forall id :: id in r.clouds ==> r.clouds[id].duration != 0
    ensures Increasing(LoggedTiles(log))
    ensures forall p :: p in log ==> LookupCloud(r, p.tile) == Some(p.cloud)
    ensures Bounds(w) ==> Bounds(r)
  {
    var fin := FinalCloudBehaviour(w);
    TickEndKeeps(airflow, w);
    r := fin.world;
    log := fin.log;
  }

  lemma TickEndKeeps(airflow: map<int, int>, w: World)
    requires Ready(airflow, w)
    ensures var fin := FinalCloudBehaviour(w);
      && Ready(airflow, fin.world)
      && SameLayout(w.tiles, fin.world.tiles)
      && fin.world.clouds.Keys <= w.clouds.Keys && fin.world.maxCloudId == w.maxCloudId
      && (forall id :: id in fin.world.clouds ==> fin.world.clouds[id].duration != 0)
      && Increasing(LoggedTiles(fin.log))
      && (forall p :: p in fin.log ==> LookupCloud(fin.world, p.tile) == Some(p.cloud))
      && (Bounds(w) ==> Bounds(fin.world))
  {
    var fin := FinalCloudBehaviour(w);
    FinalCloudBehaviourKeeps(w);
    FinalCloudBehaviourLog(w);
    SameLayoutKeepsGrid(airflow, w.tiles, fin.world.tiles);
    forall id | id in fin.world.clouds ensures fin.world.clouds[id].duration != 0 {
      assert !Expires(w.clouds[id]);
    }
  }

  /**
   `runTick`'s cloud work: the wave loop, then the tick end. The result is
   `finalCloudBehaviour` applied to the world the scheduled waves' turns
   leave. No cloud is scheduled twice; `waves` lists the scheduled clouds
   that were still active when their turn came, so every cloud active
   afterwards took exactly one turn in the loop. No active cloud is left with
   a spent duration, and the engine's invariants and the soil bounds hold
   for the next tick.
   */
  method RunTick(airflow: map<int, int>, w: World)
    returns (r: World, batches: seq<seq<int>>, waves: seq<seq<int>>, log: seq<Position>)
    requires Ready(airflow, w)
    ensures WaveSchedule(airflow, w, batches)
    ensures r == FinalCloudBehaviour(TurnsInOrder(airflow, w, Flatten(batches))).world
    ensures log == FinalCloudBehaviour(TurnsInOrder(airflow, w, Flatten(batches))).log
    ensures Ready(airflow, r)
    ensures SameLayout(w.tiles, r.tiles)
    ensures |waves| == |batches|
    ensures forall i, x :: 0 <= i < |waves| && x in waves[i] ==> x in batches[i]
    ensures Distinct(Flatten(waves))
    ensures TurnRecord(airflow, w, batches, waves)
    ensures forall i :: 0 <= i < |waves| ==> Increasing(waves[i])
    ensures forall id :: id in r.clouds ==> id in Flatten(waves)
    ensures forall id :: id in r.clouds ==> r.clouds[id].duration != 0
    ensures forall id :: id in r.clouds ==> id in w.clouds || id > w.maxCloudId
    ensures r.maxCloudId >= w.maxCloudId
    ensures Increasing(LoggedTiles(log))
    ensures forall p :: p in log ==> LookupCloud(r, p.tile) == Some(p.cloud)
    ensures Bounds(w) ==> Bounds(r)
  {
    var looped;
    looped, batches, waves := CloudLoop(airflow, w);
    r, log := TickEnd(airflow, looped);
    SameLayoutTransitive(w.tiles, looped.tiles, r.tiles);
  }
}
