/**
 The environment engine's world state and its cloud store: the active clouds
 (by id), the tile-to-cloud occupancy index, the id allocator, and the tiles
 whose soil the clouds change. The operations here are the store primitives
 `addCloud`, `removeCloud`, `lookupCloud` and `updateCloudLocation`.
 */
module CloudStore {
  import opened Collections
  import opened Clouds
  import opened Tiles

  datatype World = World(
    tiles: map<int, Tile>,
    clouds: map<int, Cloud>,
    occupancy: map<int, int>,
    maxCloudId: int)

  /**
   The promise of `lookupCloud`: the index maps a tile to the active cloud
   standing on it, and every active cloud is indexed under its own tile (so
   no two active clouds share a tile).
   */
  ghost predicate Occupancy(w: World) {
    && (forall t :: t in w.occupancy ==>
          w.occupancy[t] in w.clouds && w.clouds[w.occupancy[t]].location == t)
    && (forall id :: id in w.clouds ==>
          w.clouds[id].location in w.occupancy && w.occupancy[w.clouds[id].location] == id)
  }

  /** Each cloud is stored under its own id, which the allocator has handed out, and sits on a known tile. */
  ghost predicate CloudsWellFormed(w: World) {
    forall id :: id in w.clouds ==>
      && w.clouds[id].id == id
      && id <= w.maxCloudId
      && 0 <= w.clouds[id].movementQuota <= MAX_MOVEMENT_QUOTA
      && w.clouds[id].location in w.tiles
  }

  ghost predicate Valid(w: World) {
    Occupancy(w) && CloudsWellFormed(w)
  }

  /**
   No cloud that could be asked to rain stands on a village: raining on a
   village tile is a fatal integrity error in the engine.
   */
  ghost predicate RainSafe(w: World) {
    forall id :: id in w.clouds ==>
      w.clouds[id].location in w.tiles && w.tiles[w.clouds[id].location].category == VILLAGE
      ==> w.clouds[id].amount < RAIN_TRIGGER_AMOUNT
  }

  /** A tile whose category has a moisture capacity is a farmable tile (else the engine aborts). */
  ghost predicate TilesWellFormed(tiles: map<int, Tile>) {
    forall t :: t in tiles && HasMoistureCapacity(tiles[t].category) ==> tiles[t].Farmable?
  }

  /** Every airflow successor is a known tile adjoining, hence different from, its source. */
  ghost predicate GridOk(airflow: map<int, int>, tiles: map<int, Tile>) {
    forall t :: t in airflow ==> airflow[t] in tiles && airflow[t] != t
  }

  /** What the engine assumes on entry to a cloud turn, a wave or a tick. */
  ghost predicate Ready(airflow: map<int, int>, w: World) {
    GridOk(airflow, w.tiles) && TilesWellFormed(w.tiles) && Valid(w) && RainSafe(w)
  }

  /** Clouds hold no negative water and every farmable tile's soil is within its bounds. */
  ghost predicate Bounds(w: World) {
    && (forall id :: id in w.clouds ==> w.clouds[id].amount >= 0)
    && (forall t :: t in w.tiles && w.tiles[t].Farmable? ==> SoilInBounds(w.tiles[t].soil))
  }

  /** Same tiles with the same categories, farmability and capacities: only soil readings differ. */
  ghost predicate SameLayout(a: map<int, Tile>, b: map<int, Tile>) {
    && a.Keys == b.Keys
    && forall t :: t in a ==>
         && t in b
         && b[t].category == a[t].category
         && b[t].Farmable? == a[t].Farmable?
         && (a[t].Farmable? ==> b[t].soil.moistureCapacity == a[t].soil.moistureCapacity)
  }

  lemma SameLayoutKeepsGrid(airflow: map<int, int>, a: map<int, Tile>, b: map<int, Tile>)
    requires SameLayout(a, b)
    ensures GridOk(airflow, a) ==> GridOk(airflow, b)
    ensures TilesWellFormed(a) ==> TilesWellFormed(b)
  {
    assert forall t :: t in b ==> t in a;
  }

  lemma SameLayoutTransitive(a: map<int, Tile>, b: map<int, Tile>, c: map<int, Tile>)
    requires SameLayout(a, b) && SameLayout(b, c)
    ensures SameLayout(a, c)
  {
  }

  /** `lookupCloud`: the cloud the occupancy index records for a tile, if any. */
  function LookupCloud(w: World, tile: int): (r: Option<int>)
    ensures Occupancy(w) && r.Some? ==> r.value in w.clouds && w.clouds[r.value].location == tile
    ensures Occupancy(w) && r.None? ==> forall id :: id in w.clouds ==> w.clouds[id].location != tile
  {
    if tile in w.occupancy then Some(w.occupancy[tile]) else None
  }

  /**
   `addCloud`: activates the cloud and indexes it under its tile, overwriting
   any entry already there; the occupancy promise survives only when the tile
   was free.
   */
  function AddCloud(w: World, c: Cloud): (r: World)
    ensures r.clouds.Keys == w.clouds.Keys + {c.id}
    ensures r.clouds[c.id] == c
    ensures forall id :: id in w.clouds && id != c.id ==> r.clouds[id] == w.clouds[id]
    ensures LookupCloud(r, c.location) == Some(c.id)
    ensures forall t :: t != c.location ==> LookupCloud(r, t) == LookupCloud(w, t)
    ensures r.tiles == w.tiles && r.maxCloudId == w.maxCloudId
    ensures Valid(w) && c.id !in w.clouds && LookupCloud(w, c.location).None? && c.location in w.tiles
            && c.id <= w.maxCloudId && 0 <= c.movementQuota <= MAX_MOVEMENT_QUOTA
            ==> Valid(r)
  {
    w.(clouds := w.clouds[c.id := c], occupancy := w.occupancy[c.location := c.id])
  }

  /**
   `removeCloud`: deactivates the cloud and drops the index entry under the
   cloud's own location, whichever cloud that entry names.
   */
  function RemoveCloud(w: World, c: Cloud): (r: World)
    ensures r.clouds.Keys == w.clouds.Keys - {c.id}
    ensures forall id :: id in r.clouds ==> r.clouds[id] == w.clouds[id]
    ensures LookupCloud(r, c.location).None?
    ensures forall t :: t != c.location ==> LookupCloud(r, t) == LookupCloud(w, t)
    ensures r.tiles == w.tiles && r.maxCloudId == w.maxCloudId
    ensures Valid(w) && c.id in w.clouds && w.clouds[c.id].location == c.location ==> Valid(r)
  {
    w.(clouds := w.clouds - {c.id}, occupancy := w.occupancy - {c.location})
  }

  /**
   `updateCloudLocation` as intended: the cloud moves to `next`, spends one
   unit of quota, and its index entry moves with it.
   */
  function UpdateCloudLocation(w: World, id: int, next: int): (r: World)
    requires id in w.clouds
    ensures r.clouds.Keys == w.clouds.Keys
    ensures r.clouds[id].location == next
    ensures r.clouds[id].movementQuota == w.clouds[id].movementQuota - 1
    ensures r.clouds[id].id == w.clouds[id].id && r.clouds[id].amount == w.clouds[id].amount
    ensures r.clouds[id].duration == w.clouds[id].duration
    ensures forall k :: k in w.clouds && k != id ==> r.clouds[k] == w.clouds[k]
    ensures r.tiles == w.tiles && r.maxCloudId == w.maxCloudId
    ensures Valid(w) && next in w.tiles && LookupCloud(w, next).None? && w.clouds[id].movementQuota > 0
            ==> Valid(r) && LookupCloud(r, next) == Some(id) && LookupCloud(r, w.clouds[id].location).None?
  {
    var c := w.clouds[id];
    var moved := DecrementMovementQuota(SetLocation(c, next));
    w.(clouds := w.clouds[id := moved], occupancy := (w.occupancy - {c.location})[next := id])
  }
}
