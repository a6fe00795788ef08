/**
 One cloud's behaviour within a tick: rain onto its tile, a single airflow
 movement step (with its village and merge outcomes), the merge rule, and the
 turn that alternates rain and movement until the cloud stops or its quota is
 spent.
 */
module Weather {
  import opened Collections
  import opened Clouds
  import opened Tiles
  import opened CloudStore

  // ---------------------------------------------------------------- rain

  datatype RainResult = RainResult(cloud: Cloud, tile: Tile, rainAmount: int, dissipates: bool)

  /**
   `rain`: a cloud holding at least the trigger amount rains onto its tile.
   Capacity tiles take rain only up to capacity; every other non-village tile
   takes the whole cloud. The result says whether the cloud is now empty.
   */
  function Rain(c: Cloud, t: Tile): (r: RainResult)
    requires t.category != VILLAGE
    requires HasMoistureCapacity(t.category) ==> t.Farmable?
    ensures c.amount < RAIN_TRIGGER_AMOUNT ==> r == RainResult(c, t, 0, false)
    ensures c.amount >= RAIN_TRIGGER_AMOUNT && HasMoistureCapacity(t.category)
            && t.soil.currentMoisture == t.soil.moistureCapacity
            ==> r == RainResult(c, t, 0, false)
    ensures c.amount >= RAIN_TRIGGER_AMOUNT && HasMoistureCapacity(t.category)
            && t.soil.currentMoisture != t.soil.moistureCapacity ==>
              && r.rainAmount <= CalculateReqRain(t.soil) && r.rainAmount <= c.amount
              && (r.rainAmount == CalculateReqRain(t.soil) || r.rainAmount == c.amount)
              && r.cloud == c.(amount := c.amount - r.rainAmount)
              && r.tile == Farmable(t.category, t.soil.(currentMoisture := t.soil.currentMoisture + r.rainAmount))
              && r.cloud.amount + r.tile.soil.currentMoisture == c.amount + t.soil.currentMoisture
              && r.cloud.amount >= 0
              && r.tile.soil.currentMoisture <= t.soil.moistureCapacity
    ensures c.amount >= RAIN_TRIGGER_AMOUNT && !HasMoistureCapacity(t.category) ==>
              r == RainResult(c.(amount := 0), t, c.amount, true)
    ensures r.dissipates <==> c.amount >= RAIN_TRIGGER_AMOUNT && r.cloud.amount <= 0
    ensures r.cloud.id == c.id && r.cloud.location == c.location && r.cloud.movementQuota == c.movementQuota
    ensures r.tile.category == t.category && r.tile.Farmable? == t.Farmable?
    ensures t.Farmable? ==> r.tile.soil.moistureCapacity == t.soil.moistureCapacity
  {
    if c.amount < RAIN_TRIGGER_AMOUNT then RainResult(c, t, 0, false)
    else if HasMoistureCapacity(t.category) then
      var soil := t.soil;
      if soil.currentMoisture == soil.moistureCapacity then RainResult(c, t, 0, false)
      else
        var required := CalculateReqRain(soil);
        var rainAmount := if required < c.amount then required else c.amount;
        var rained := DecreaseCloudAmount(c, rainAmount);
        RainResult(rained, Farmable(t.category, IncreaseMoisture(soil, rainAmount)), rainAmount, ShouldDissipate(rained))
    else
      var rained := DecreaseCloudAmount(c, c.amount);
      RainResult(rained, t, c.amount, ShouldDissipate(rained))
  }

  /** Rain never leaves a cloud with negative water nor a soil above capacity or with negative sunlight. */
  lemma RainKeepsBounds(c: Cloud, t: Tile)
    requires t.category != VILLAGE
    requires HasMoistureCapacity(t.category) ==> t.Farmable?
    requires c.amount >= 0
    requires t.Farmable? ==> SoilInBounds(t.soil)
    ensures Rain(c, t).cloud.amount >= 0
    ensures Rain(c, t).tile.Farmable? ==> SoilInBounds(Rain(c, t).tile.soil)
  {
  }

  // ---------------------------------------------------------------- merge

  /**
   `merge`: the moving cloud `current` joins the stationary `other`. The new
   cloud takes a fresh id, both clouds' water, the shorter duration (unless
   either is unlimited), the stationary cloud's tile, and the larger quota
   capped at the maximum.
   */
  function Merge(current: Cloud, other: Cloud, newId: int): (m: Cloud)
    ensures m.id == newId
    ensures m.amount == current.amount + other.amount
    ensures m.duration == UNLIMITED_DURATION
            <==> current.duration == UNLIMITED_DURATION || other.duration == UNLIMITED_DURATION
    ensures m.duration != UNLIMITED_DURATION ==>
              m.duration <= current.duration && m.duration <= other.duration
              && (m.duration == current.duration || m.duration == other.duration)
    ensures m.location == other.location
    ensures m.movementQuota <= MAX_MOVEMENT_QUOTA
    ensures current.movementQuota >= MAX_MOVEMENT_QUOTA || other.movementQuota >= MAX_MOVEMENT_QUOTA
            ==> m.movementQuota == MAX_MOVEMENT_QUOTA
    ensures current.movementQuota < MAX_MOVEMENT_QUOTA && other.movementQuota < MAX_MOVEMENT_QUOTA ==>
              && m.movementQuota >= current.movementQuota && m.movementQuota >= other.movementQuota
              && (m.movementQuota == current.movementQuota || m.movementQuota == other.movementQuota)
    ensures current.movementQuota >= 0 || other.movementQuota >= 0 ==> m.movementQuota >= 0
  {
    var duration :=
      if current.duration == UNLIMITED_DURATION || other.duration == UNLIMITED_DURATION then UNLIMITED_DURATION
      else if current.duration < other.duration then current.duration else other.duration;
    var quota := if current.movementQuota < other.movementQuota then other.movementQuota else current.movementQuota;
    NewCloudWithQuota(newId, duration, current.amount + other.amount, other.location, quota)
  }

  /** Water, duration and quota of a merge do not depend on which cloud moved; the tile does. */
  lemma MergeSymmetry(a: Cloud, b: Cloud, newId: int)
    ensures Merge(a, b, newId).amount == Merge(b, a, newId).amount
    ensures Merge(a, b, newId).duration == Merge(b, a, newId).duration
    ensures Merge(a, b, newId).movementQuota == Merge(b, a, newId).movementQuota
    ensures Merge(a, b, newId).location == b.location && Merge(b, a, newId).location == a.location
  {
  }

  /**
   A 6000-litre cloud over a field of capacity 1000 holding 200 rains 800
   litres and keeps 5200; a second rain on the now full field moves nothing.
   */
  lemma RainOnFieldExample()
    ensures var first := Rain(NewCloud(0, 3, 6000, 7), Farmable(FIELD, Soil(1000, 200, 0)));
      && first.rainAmount == 800 && first.cloud.amount == 5200 && !first.dissipates
      && first.tile.soil.currentMoisture == 1000
      && Rain(first.cloud, first.tile).rainAmount == 0
  {
  }

  /**
   A limited cloud (2000 litres, duration 5) moving onto an unlimited one
   (1000 litres) merges into an unlimited 3000-litre cloud on the stationary
   cloud's tile.
   */
  lemma MergeExample(y: int)
    ensures var m := Merge(Cloud(1, 5, 2000, y - 1, 9), Cloud(2, UNLIMITED_DURATION, 1000, y, 10), 3);
      m == Cloud(3, UNLIMITED_DURATION, 3000, y, 10)
  {
  }

  // ---------------------------------------------------------------- movement

  /** How a single iteration of a cloud's turn ended. */
  datatype StepEnd = Moved | NoNeighbour | EnteredVillage | MergedWith(other: int, merged: int) | Dissipated

  datatype MoveResult = MoveResult(world: World, step: StepEnd)

  /** The departed tile after a cloud leaves it: a farmable tile loses 3 hours of sunlight. */
  function Traversed(t: Tile): (r: Tile)
    ensures r.category == t.category && r.Farmable? == t.Farmable?
    ensures t.Farmable? ==> r.soil == ReduceSunlight(t.soil, 3)
    ensures t.Unfarmable? ==> r == t
  {
    if t.Farmable? then Farmable(t.category, ReduceSunlight(t.soil, 3)) else t
  }

  /**
   What entering `next` does to the active clouds and the id allocator: a
   village absorbs the mover; an empty tile receives it at the cost of one
   unit of quota; an occupied tile replaces both clouds by their merge, which
   takes the next fresh id.
   */
  ghost predicate MoveEffect(clouds: map<int, Cloud>, maxId: int, id: int, next: int, step: StepEnd,
                             after: map<int, Cloud>, maxAfter: int) {
    && id in clouds
    && match step
       case EnteredVillage => after == clouds - {id} && maxAfter == maxId
       case Moved =>
         && after == clouds[id := clouds[id].(location := next, movementQuota := clouds[id].movementQuota - 1)]
         && maxAfter == maxId
       case MergedWith(other, merged) =>
         && other in clouds && other != id && clouds[other].location == next
         && merged == maxId + 1 && maxAfter == merged
         && after == (clouds - {id, other})[merged := Merge(clouds[id], clouds[other], merged)]
       case _ => false
  }

  /**
   `cloudMovementHelper`: the outcome of a cloud trying to enter `next`.
   A village absorbs the cloud; an occupied tile merges the two clouds into a
   fresh one on that tile; an empty tile receives the cloud, which may go on.
   */
  function MovementOutcome(w: World, id: int, next: int): (r: MoveResult)
    requires Valid(w) && id in w.clouds && next in w.tiles && next != w.clouds[id].location
    ensures r.world.tiles == w.tiles
    ensures r.step == EnteredVillage <==> w.tiles[next].category == VILLAGE
    ensures r.step == Moved <==> w.tiles[next].category != VILLAGE && LookupCloud(w, next).None?
    ensures r.step.MergedWith? ==> LookupCloud(w, next) == Some(r.step.other)
    ensures MoveEffect(w.clouds, w.maxCloudId, id, next, r.step, r.world.clouds, r.world.maxCloudId)
    ensures (r.step == Moved && w.clouds[id].movementQuota <= 0) || Valid(r.world)
    ensures RainSafe(w) ==> RainSafe(r.world)
    ensures Bounds(w) ==> Bounds(r.world)
  {
    var c := w.clouds[id];
    if w.tiles[next].category == VILLAGE then
      MoveResult(RemoveCloud(w, c), EnteredVillage)
    else if LookupCloud(w, next).None? then
      MoveResult(UpdateCloudLocation(w, id, next), Moved)
    else
      var o := LookupCloud(w, next).value;
      MoveResult(MergeOnto(w, id, o), MergedWith(o, w.maxCloudId + 1))
  }

  /**
   The merge branch of `cloudMovementHelper`: both clouds leave, and the
   merged cloud, under the next fresh id, takes the other cloud's tile.
   */
  function MergeOnto(w: World, id: int, o: int): (r: World)
    requires Valid(w) && id in w.clouds && o in w.clouds && o != id
    ensures r.tiles == w.tiles && r.maxCloudId == w.maxCloudId + 1
    ensures r.clouds == (w.clouds - {id, o})[r.maxCloudId := Merge(w.clouds[id], w.clouds[o], r.maxCloudId)]
    ensures Valid(r)
    ensures RainSafe(w) && !(w.clouds[o].location in w.tiles && w.tiles[w.clouds[o].location].category == VILLAGE)
            ==> RainSafe(r)
    ensures Bounds(w) ==> Bounds(r)
  {
    var c := w.clouds[id];
    var newId := w.maxCloudId + 1;
    var merged := Merge(c, w.clouds[o], newId);
    var renumbered := w.(maxCloudId := newId);
    var withoutOther := RemoveCloud(renumbered, renumbered.clouds[o]);
    var withoutBoth := RemoveCloud(withoutOther, c);
    assert withoutBoth.clouds == w.clouds - {id, o};
    AddCloud(withoutBoth, merged)
  }

  /** The world once a cloud has left tile `cur`: only that tile's sunlight changes. */
  function Depart(w: World, cur: int): (r: World)
    requires cur in w.tiles
    ensures r.clouds == w.clouds && r.occupancy == w.occupancy && r.maxCloudId == w.maxCloudId
    ensures r.tiles == w.tiles[cur := Traversed(w.tiles[cur])]
    ensures SameLayout(w.tiles, r.tiles)
    ensures Valid(w) ==> Valid(r)
    ensures RainSafe(w) ==> RainSafe(r)
    ensures Bounds(w) ==> Bounds(r)
  {
    var t := w.tiles[cur];
    assert t.Farmable? ==> (SoilInBounds(t.soil) ==> SoilInBounds(ReduceSunlight(t.soil, 3)));
    w.(tiles := w.tiles[cur := Traversed(t)])
  }

  /**
   `cloudMovement`: one step along the airflow. Without a successor the cloud
   has arrived and nothing changes; otherwise the tile being left loses
   sunlight and the entry into the successor decides the rest.
   */
  function MovementStep(airflow: map<int, int>, w: World, id: int): (r: MoveResult)
    requires GridOk(airflow, w.tiles) && Valid(w) && id in w.clouds
    ensures r.step == NoNeighbour <==> w.clouds[id].location !in airflow
    ensures r.step == NoNeighbour ==> r.world == w
    ensures w.clouds[id].location in airflow ==>
              && r.world.tiles == w.tiles[w.clouds[id].location := Traversed(w.tiles[w.clouds[id].location])]
              && (r.step == EnteredVillage <==> w.tiles[airflow[w.clouds[id].location]].category == VILLAGE)
              && MoveEffect(w.clouds, w.maxCloudId, id, airflow[w.clouds[id].location], r.step,
                            r.world.clouds, r.world.maxCloudId)
    ensures SameLayout(w.tiles, r.world.tiles)
    ensures (r.step == Moved && w.clouds[id].movementQuota <= 0) || Valid(r.world)
    ensures RainSafe(w) ==> RainSafe(r.world)
    ensures Bounds(w) ==> Bounds(r.world)
  {
    var cur := w.clouds[id].location;
    if cur !in airflow then MoveResult(w, NoNeighbour)
    else MovementOutcome(Depart(w, cur), id, airflow[cur])
  }

  /** The active ids, the allocator and the other clouds after a movement effect. */
  lemma MoveEffectShape(clouds: map<int, Cloud>, maxId: int, id: int, next: int, step: StepEnd,
                        after: map<int, Cloud>, maxAfter: int)
    requires MoveEffect(clouds, maxId, id, next, step, after, maxAfter)
    requires forall k :: k in clouds ==> k <= maxId
    ensures StepKeys(clouds.Keys, after.Keys, id, step, maxId)
    ensures maxAfter == MaxIdAfter(maxId, step)
    ensures forall k :: k in clouds && k != id && !(step.MergedWith? && k == step.other)
              ==> k in after && after[k] == clouds[k]
  {
    if step.MergedWith? {
      assert after.Keys == clouds.Keys - {id, step.other} + {step.merged};
    }
  }

  // ---------------------------------------------------------------- turn

  datatype RainStepResult = RainStepResult(world: World, dissipates: bool)

  /** The rain check at the head of each loop iteration, applied to the world. */
  function RainIfTriggered(w: World, id: int): (r: RainStepResult)
    requires TilesWellFormed(w.tiles) && Valid(w) && RainSafe(w) && id in w.clouds
    ensures Valid(r.world) && RainSafe(r.world)
    ensures SameLayout(w.tiles, r.world.tiles)
    ensures r.world.clouds.Keys == w.clouds.Keys && r.world.maxCloudId == w.maxCloudId
    ensures forall k :: k in w.clouds && k != id ==> r.world.clouds[k] == w.clouds[k]
    ensures r.world.clouds[id] == w.clouds[id].(amount := r.world.clouds[id].amount)
    ensures r.dissipates <==> w.clouds[id].amount >= RAIN_TRIGGER_AMOUNT && r.world.clouds[id].amount <= 0
    ensures w.clouds[id].amount < RAIN_TRIGGER_AMOUNT ==> r.world == w
    ensures forall t :: t in w.tiles && t != w.clouds[id].location ==> r.world.tiles[t] == w.tiles[t]
    ensures w.clouds[id].amount >= RAIN_TRIGGER_AMOUNT ==>
              var c := w.clouds[id];
              && c.location in w.tiles && w.tiles[c.location].category != VILLAGE
              && r.world.clouds[id] == Rain(c, w.tiles[c.location]).cloud
              && r.world.tiles[c.location] == Rain(c, w.tiles[c.location]).tile
              && r.dissipates == Rain(c, w.tiles[c.location]).dissipates
    ensures Bounds(w) ==> Bounds(r.world)
  {
    var c := w.clouds[id];
    if c.amount < RAIN_TRIGGER_AMOUNT then RainStepResult(w, false)
    else
      var rained := Rain(c, w.tiles[c.location]);
      RainKeepsBoundsIf(w, c);
      RainStepResult(w.(clouds := w.clouds[id := rained.cloud], tiles := w.tiles[c.location := rained.tile]), rained.dissipates)
  }

  lemma RainKeepsBoundsIf(w: World, c: Cloud)
    requires c.location in w.tiles && w.tiles[c.location].category != VILLAGE
    requires TilesWellFormed(w.tiles)
    ensures Bounds(w) && c.id in w.clouds && w.clouds[c.id] == c ==>
              Rain(c, w.tiles[c.location]).cloud.amount >= 0
              && (Rain(c, w.tiles[c.location]).tile.Farmable? ==> SoilInBounds(Rain(c, w.tiles[c.location]).tile.soil))
  {
    if Bounds(w) && c.id in w.clouds && w.clouds[c.id] == c {
      RainKeepsBounds(c, w.tiles[c.location]);
    }
  }

  /** How an iteration that ended with `step` changes the set of active ids. */
  predicate StepKeys(before: set<int>, after: set<int>, id: int, step: StepEnd, maxId: int) {
    && id in before
    && match step
       case Moved => after == before
       case NoNeighbour => after == before
       case Dissipated => after == before - {id}
       case EnteredVillage => after == before - {id}
       case MergedWith(other, merged) =>
         other in before && other != id && merged == maxId + 1
         && after == before - {id, other} + {merged}
  }

  /** The id allocator after an iteration: only a merge draws a fresh id. */
  function MaxIdAfter(maxId: int, step: StepEnd): int {
    if step.MergedWith? then maxId + 1 else maxId
  }

  /**
   One iteration of the loop in `cloudLoopHelper`: rain if the cloud is heavy
   enough (an emptied cloud is removed), otherwise take a movement step.
   */
  function TurnIteration(airflow: map<int, int>, w: World, id: int): (r: MoveResult)
    requires Ready(airflow, w) && id in w.clouds && w.clouds[id].movementQuota > 0
    ensures Ready(airflow, r.world)
    ensures SameLayout(w.tiles, r.world.tiles)
    ensures StepKeys(w.clouds.Keys, r.world.clouds.Keys, id, r.step, w.maxCloudId)
    ensures r.world.maxCloudId == MaxIdAfter(w.maxCloudId, r.step)
    ensures r.step == Moved || r.step == NoNeighbour ==>
              r.world.clouds[id].duration == w.clouds[id].duration
    ensures r.step == Moved ==>
              && w.clouds[id].location in airflow
              && r.world.clouds[id].location == airflow[w.clouds[id].location]
              && r.world.clouds[id].movementQuota == w.clouds[id].movementQuota - 1
    ensures r.step == NoNeighbour ==>
              && w.clouds[id].location !in airflow
              && r.world.clouds[id].location == w.clouds[id].location
              && r.world.clouds[id].movementQuota == w.clouds[id].movementQuota
    ensures forall k :: k in w.clouds && k != id && !(r.step.MergedWith? && k == r.step.other)
              ==> k in r.world.clouds && r.world.clouds[k] == w.clouds[k]
    ensures Bounds(w) ==> Bounds(r.world)
  {
    var rained := RainIfTriggered(w, id);
    SameLayoutKeepsGrid(airflow, w.tiles, rained.world.tiles);
    if rained.dissipates then
      MoveResult(RemoveCloud(rained.world, rained.world.clouds[id]), Dissipated)
    else
      var step := MovementStep(airflow, rained.world, id);
      SameLayoutKeepsGrid(airflow, rained.world.tiles, step.world.tiles);
      if step.step == NoNeighbour then step
      else
        var cur := rained.world.clouds[id].location;
        MoveEffectShape(rained.world.clouds, rained.world.maxCloudId, id, airflow[cur], step.step,
                        step.world.clouds, step.world.maxCloudId);
        step
  }

  /** How a cloud's turn ended. */
  datatype TurnEnd =
    | Skipped
    | QuotaExhausted
    | Stopped(step: StepEnd)

  datatype TurnResult = TurnResult(world: World, end: TurnEnd, moves: nat)

  /** How a turn that ended with `end` changes the set of active ids. */
  predicate TurnKeys(before: set<int>, after: set<int>, id: int, end: TurnEnd, maxId: int) {
    match end
    case Skipped => id !in before && after == before
    case QuotaExhausted => id in before && after == before
    case Stopped(step) => step != Moved && StepKeys(before, after, id, step, maxId)
  }

  /** The id allocator after a turn: only a merge draws a fresh id. */
  function MaxIdAfterTurn(maxId: int, end: TurnEnd): int {
    if end.Stopped? then MaxIdAfter(maxId, end.step) else maxId
  }

  /**
   The loop of `cloudLoopHelper`: iterate while quota remains; only a
   successful move lets the loop go on.
   */
  function TurnLoop(airflow: map<int, int>, w: World, id: int): (r: TurnResult)
    requires Ready(airflow, w) && id in w.clouds
    decreases w.clouds[id].movementQuota
    ensures Ready(airflow, r.world)
    ensures SameLayout(w.tiles, r.world.tiles)
    ensures r.moves <= w.clouds[id].movementQuota
    ensures r.end == QuotaExhausted ==> r.moves == w.clouds[id].movementQuota
    ensures TurnKeys(w.clouds.Keys, r.world.clouds.Keys, id, r.end, w.maxCloudId)
    ensures r.world.maxCloudId == MaxIdAfterTurn(w.maxCloudId, r.end)
    ensures Bounds(w) ==> Bounds(r.world)
  {
    if w.clouds[id].movementQuota <= 0 then TurnResult(w, QuotaExhausted, 0)
    else
      var step := TurnIteration(airflow, w, id);
      if step.step == Moved then
        var rest := TurnLoop(airflow, step.world, id);
        TurnResult(rest.world, rest.end, rest.moves + 1)
      else
        TurnResult(step.world, Stopped(step.step), 0)
  }

  /**
   A cloud still standing at the end of its turn has spent exactly one unit
   of quota on each move it made, and kept its duration.
   */
  lemma {:induction false} TurnLoopTrajectory(airflow: map<int, int>, w: World, id: int)
    requires Ready(airflow, w) && id in w.clouds
    decreases w.clouds[id].movementQuota
    ensures var r := TurnLoop(airflow, w, id);
            r.end == QuotaExhausted || r.end == Stopped(NoNeighbour) ==>
              && id in r.world.clouds
              && r.world.clouds[id].movementQuota == w.clouds[id].movementQuota - r.moves
              && r.world.clouds[id].duration == w.clouds[id].duration
  {
    if w.clouds[id].movementQuota > 0 {
      var step := TurnIteration(airflow, w, id);
      if step.step == Moved {
        var rest := TurnLoop(airflow, step.world, id);
        assert TurnLoop(airflow, w, id) == TurnResult(rest.world, rest.end, rest.moves + 1);
        TurnLoopTrajectory(airflow, step.world, id);
      } else {
        assert TurnLoop(airflow, w, id) == TurnResult(step.world, Stopped(step.step), 0);
      }
    }
  }

  /** A turn leaves every other cloud untouched, except the one it merged with. */
  lemma {:induction false} TurnLoopFrame(airflow: map<int, int>, w: World, id: int)
    requires Ready(airflow, w) && id in w.clouds
    decreases w.clouds[id].movementQuota
    ensures var r := TurnLoop(airflow, w, id);
            forall k :: k in w.clouds && k != id && !(r.end.Stopped? && r.end.step.MergedWith? && k == r.end.step.other)
              ==> k in r.world.clouds && r.world.clouds[k] == w.clouds[k]
  {
    if w.clouds[id].movementQuota > 0 {
      var step := TurnIteration(airflow, w, id);
      if step.step == Moved {
        TurnLoopFrame(airflow, step.world, id);
      }
    }
  }

  /** The quota reset at the start of a turn: only the cloud's quota changes. */
  function ResetQuota(airflow: map<int, int>, w: World, id: int): (r: World)
    requires Ready(airflow, w) && id in w.clouds
    ensures Ready(airflow, r)
    ensures r.tiles == w.tiles && r.maxCloudId == w.maxCloudId
    ensures r.clouds.Keys == w.clouds.Keys
    ensures r.clouds[id] == w.clouds[id].(movementQuota := MAX_MOVEMENT_QUOTA)
    ensures forall k :: k in w.clouds && k != id ==> r.clouds[k] == w.clouds[k]
    ensures Bounds(w) ==> Bounds(r)
  {
    w.(clouds := w.clouds[id := SetMovementQuota(w.clouds[id], MAX_MOVEMENT_QUOTA)])
  }

  /**
   `cloudLoopHelper`: a cloud that is no longer active is skipped; otherwise
   its quota is reset to the maximum and the turn loop runs.
   */
  function Turn(airflow: map<int, int>, w: World, id: int): (r: TurnResult)
    requires Ready(airflow, w)
    ensures Ready(airflow, r.world)
    ensures SameLayout(w.tiles, r.world.tiles)
    ensures r.end == Skipped ==> r.world == w
    ensures r.moves <= MAX_MOVEMENT_QUOTA
    ensures r.end == QuotaExhausted ==> r.moves == MAX_MOVEMENT_QUOTA
    ensures TurnKeys(w.clouds.Keys, r.world.clouds.Keys, id, r.end, w.maxCloudId)
    ensures r.world.maxCloudId == MaxIdAfterTurn(w.maxCloudId, r.end)
    ensures Bounds(w) ==> Bounds(r.world)
  {
    if id !in w.clouds then TurnResult(w, Skipped, 0)
    else TurnLoop(airflow, ResetQuota(airflow, w, id), id)
  }

  /**
   A turn that ends with the cloud still active (quota spent, or no airflow
   onwards) made one move per spent unit of the reset quota and kept the
   cloud's duration.
   */
  lemma TurnTrajectory(airflow: map<int, int>, w: World, id: int)
    requires Ready(airflow, w)
    ensures var r := Turn(airflow, w, id);
            r.end == QuotaExhausted || r.end == Stopped(NoNeighbour) ==>
              && id in w.clouds && id in r.world.clouds
              && r.world.clouds[id].movementQuota == MAX_MOVEMENT_QUOTA - r.moves
              && r.world.clouds[id].duration == w.clouds[id].duration
  {
    if id in w.clouds {
      TurnLoopTrajectory(airflow, ResetQuota(airflow, w, id), id);
    }
  }

  /** A turn changes no cloud other than its own and the one it merged with. */
  lemma TurnFrame(airflow: map<int, int>, w: World, id: int)
    requires Ready(airflow, w)
    ensures var r := Turn(airflow, w, id);
            forall k :: k in w.clouds && k != id && !(r.end.Stopped? && r.end.step.MergedWith? && k == r.end.step.other)
              ==> k in r.world.clouds && r.world.clouds[k] == w.clouds[k]
  {
    if id in w.clouds {
      TurnLoopFrame(airflow, ResetQuota(airflow, w, id), id);
    }
  }
}
