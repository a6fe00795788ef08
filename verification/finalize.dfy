/**
 The end of a tick (`finalCloudBehaviour`). The first phase counts every
 cloud's duration down and retires the clouds whose duration reaches zero;
 the second visits the tiles still covered by a cloud, in ascending tile id,
 takes 50 hours of sunlight from each farmable one and records the cloud's
 final position.
 */
module Finalize {
  import opened Collections
  import opened Clouds
  import opened Tiles
  import opened CloudStore

  /** Sunlight hours a cloud still standing on a farmable tile at the end of a tick takes away. */
  const END_OF_TICK_SHADE: int := 50

  /** The first phase's update of one cloud: a positive duration counts down; any other value is kept. */
  function DurationStep(c: Cloud): (r: Cloud)
    ensures c.duration > 0 ==> r.duration == c.duration - 1 && r.duration >= 0
    ensures c.duration <= 0 ==> r == c
    ensures r.id == c.id && r.amount == c.amount
    ensures r.location == c.location && r.movementQuota == c.movementQuota
  {
    if c.duration > 0 then DecrementDuration(c) else c
  }

  /** A cloud leaves in the first phase exactly when its duration, after counting down, is zero. */
  function Expires(c: Cloud): (r: bool)
    ensures r <==> c.duration == 0 || c.duration == 1
  {
    DurationStep(c).duration == 0
  }

  /** A cloud of unlimited duration never expires, and the tick end leaves it as it is. */
  lemma ExpiresIff(c: Cloud)
    ensures c.duration == UNLIMITED_DURATION ==> !Expires(c) && DurationStep(c) == c
  {
  }

  /** `k` tick ends applied to one cloud's duration. */
  function DurationSteps(c: Cloud, k: nat): Cloud
  {
    if k == 0 then c else DurationStep(DurationSteps(c, k - 1))
  }

  /**
   A cloud created with a positive duration `d` is counted down once per
   tick and expires at exactly the `d`-th tick end; an unlimited cloud is
   never touched.
   */
  lemma {:induction false} DurationStepsCountDown(c: Cloud, k: nat)
    ensures c.duration == UNLIMITED_DURATION ==> DurationSteps(c, k) == c
    ensures 0 < k <= c.duration ==> DurationSteps(c, k).duration == c.duration - k
    ensures 0 < k <= c.duration ==> (Expires(DurationSteps(c, k - 1)) <==> k == c.duration)
  {
    if k > 0 {
      DurationStepsCountDown(c, k - 1);
    }
  }

  /**
   One iteration of the first phase on cloud `id`: count its duration down,
   and if it reached zero remove it (with the index entry under its tile).
   */
  function ExpireOne(w: World, id: int): (r: World)
    requires id in w.clouds
    ensures r.tiles == w.tiles && r.maxCloudId == w.maxCloudId
    ensures Expires(w.clouds[id]) ==> r.clouds == w.clouds - {id}
                                      && r.occupancy == w.occupancy - {w.clouds[id].location}
    ensures !Expires(w.clouds[id]) ==> r.clouds == w.clouds[id := DurationStep(w.clouds[id])]
                                       && r.occupancy == w.occupancy
  {
    var c := DurationStep(w.clouds[id]);
    if c.duration == 0 then w.(clouds := w.clouds - {id}, occupancy := w.occupancy - {c.location})
    else w.(clouds := w.clouds[id := c])
  }

  /** The first phase as the loop runs it: the clouds of a copied list, one after another. */
  function ExpireSeq(w: World, ids: seq<int>): (r: World)
    requires Distinct(ids)
    requires forall i :: 0 <= i < |ids| ==> ids[i] in w.clouds
    ensures r.tiles == w.tiles && r.maxCloudId == w.maxCloudId
    ensures forall id :: id in r.clouds <==> id in w.clouds && !(id in ids && Expires(w.clouds[id]))
    ensures forall id :: id in r.clouds && id in ids ==> r.clouds[id] == DurationStep(w.clouds[id])
    ensures forall id :: id in r.clouds && id !in ids ==> r.clouds[id] == w.clouds[id]
    decreases |ids|
  {
    if ids == [] then w
    else
      var next := ExpireOne(w, ids[0]);
      assert forall i :: 1 <= i < |ids| ==> ids[i] != ids[0] && ids[i] in next.clouds;
      var r := ExpireSeq(next, ids[1..]);
      ExpireSeqStep(w, ids, next, r);
      r
  }

  /** The facts `ExpireSeq` states, carried from the rest of the list back over its first cloud. */
  lemma ExpireSeqStep(w: World, ids: seq<int>, next: World, r: World)
    requires ids != [] && ids[0] in w.clouds && next == ExpireOne(w, ids[0])
    requires forall i :: 1 <= i < |ids| ==> ids[i] != ids[0]
    requires r.tiles == next.tiles && r.maxCloudId == next.maxCloudId
    requires forall id :: id in r.clouds <==> id in next.clouds && !(id in ids[1..] && Expires(next.clouds[id]))
    requires forall id :: id in r.clouds && id in ids[1..] ==> r.clouds[id] == DurationStep(next.clouds[id])
    requires forall id :: id in r.clouds && id !in ids[1..] ==> r.clouds[id] == next.clouds[id]
    ensures r.tiles == w.tiles && r.maxCloudId == w.maxCloudId
    ensures forall id :: id in r.clouds <==> id in w.clouds && !(id in ids && Expires(w.clouds[id]))
    ensures forall id :: id in r.clouds && id in ids ==> r.clouds[id] == DurationStep(w.clouds[id])
    ensures forall id :: id in r.clouds && id !in ids ==> r.clouds[id] == w.clouds[id]
  {
    InCons(ids);
    assert ids[0] !in ids[1..];
  }

  /** The tiles under clouds of `s` that expire. */
  ghost function ExpiredLocations(w: World, s: set<int>): set<int> {
    set id | id in s && id in w.clouds && Expires(w.clouds[id]) :: w.clouds[id].location
  }

  /**
   The first phase applied to the clouds of `s` at once: each counts down,
   those reaching zero leave together with the index entries under their
   tiles, and every other cloud is untouched.
   */
  ghost function ExpireAll(w: World, s: set<int>): World {
    w.(clouds := map id | id in w.clouds && !(id in s && Expires(w.clouds[id])) ::
                   if id in s then DurationStep(w.clouds[id]) else w.clouds[id],
       occupancy := map t | t in w.occupancy && t !in ExpiredLocations(w, s) :: w.occupancy[t])
  }

  /** Processing one more cloud first and the rest together is processing them all together. */
  lemma ExpireOneThenAll(w: World, x: int, s: set<int>)
    requires x in w.clouds && x !in s
    ensures ExpireAll(ExpireOne(w, x), s) == ExpireAll(w, s + {x})
  {
    var one := ExpireOne(w, x);
    var a := ExpireAll(one, s);
    var b := ExpireAll(w, s + {x});
    forall id | id in s && id in one.clouds ensures one.clouds[id] == w.clouds[id] {
    }
    assert ExpiredLocations(w, s + {x}) == ExpiredLocations(one, s) + ExpiredLocations(w, {x}) by {
      forall t | t in ExpiredLocations(w, s + {x}) ensures t in ExpiredLocations(one, s) + ExpiredLocations(w, {x}) {
        var id :| id in s + {x} && id in w.clouds && Expires(w.clouds[id]) && w.clouds[id].location == t;
        if id != x {
          assert id in one.clouds;
        }
      }
    }
    forall id | id in a.clouds || id in b.clouds ensures id in a.clouds && id in b.clouds && a.clouds[id] == b.clouds[id] {
    }
    assert a.clouds == b.clouds;
    forall t | t in a.occupancy || t in b.occupancy
      ensures t in a.occupancy && t in b.occupancy && a.occupancy[t] == b.occupancy[t]
    {
    }
    assert a.occupancy == b.occupancy;
  }

  /** The loop's order does not matter: any listing of distinct clouds does what processing them together does. */
  lemma {:induction false} ExpireSeqIsExpireAll(w: World, ids: seq<int>)
    requires Distinct(ids)
    requires forall i :: 0 <= i < |ids| ==> ids[i] in w.clouds
    ensures ExpireSeq(w, ids) == ExpireAll(w, set x | x in ids)
    decreases |ids|
  {
    if ids == [] {
      assert (set x | x in ids) == {};
      assert ExpiredLocations(w, {}) == {};
      assert ExpireAll(w, {}).clouds == w.clouds;
      assert ExpireAll(w, {}).occupancy == w.occupancy;
    } else {
      var rest := ids[1..];
      assert forall i :: 1 <= i < |ids| ==> ids[i] != ids[0];
      var next := ExpireOne(w, ids[0]);
      assert forall i :: 0 <= i < |rest| ==> rest[i] in next.clouds by {
        forall i | 0 <= i < |rest| ensures rest[i] in next.clouds {
          assert rest[i] == ids[i + 1];
        }
      }
      ExpireSeqIsExpireAll(next, rest);
      var s := set x | x in rest;
      assert ids[0] !in s;
      ExpireOneThenAll(w, ids[0], s);
      ElementsOfCons(ids);
    }
  }

  /**
   The first phase over every active cloud: unlimited clouds are untouched,
   positive durations drop by one, and a cloud leaves exactly when it
   expires; the index keeps only the tiles of the clouds that stay.
   */
  function ExpirePass(w: World): (r: World)
    ensures r == ExpireAll(w, w.clouds.Keys)
    ensures r.tiles == w.tiles && r.maxCloudId == w.maxCloudId
    ensures forall id :: id in r.clouds <==> id in w.clouds && !Expires(w.clouds[id])
    ensures forall id :: id in r.clouds ==> r.clouds[id] == DurationStep(w.clouds[id])
    ensures Valid(w) ==> Valid(r)
    ensures RainSafe(w) ==> RainSafe(r)
    ensures Bounds(w) ==> Bounds(r)
  {
    var gone := set id | id in w.clouds && Expires(w.clouds[id]) :: w.clouds[id].location;
    var r := w.(clouds := map id | id in w.clouds && !Expires(w.clouds[id]) :: DurationStep(w.clouds[id]),
                occupancy := map t | t in w.occupancy && t !in gone :: w.occupancy[t]);
    assert r == ExpireAll(w, w.clouds.Keys) by {
      assert gone == ExpiredLocations(w, w.clouds.Keys);
    }
    ExpirePassKeepsValid(w, r, gone);
    r
  }

  lemma ExpirePassKeepsValid(w: World, r: World, gone: set<int>)
    requires gone == set id | id in w.clouds && Expires(w.clouds[id]) :: w.clouds[id].location
    requires r == w.(clouds := map id | id in w.clouds && !Expires(w.clouds[id]) :: DurationStep(w.clouds[id]),
                     occupancy := map t | t in w.occupancy && t !in gone :: w.occupancy[t])
    ensures Valid(w) ==> Valid(r)
  {
    if Valid(w) {
      forall t | t in r.occupancy
        ensures r.occupancy[t] in r.clouds && r.clouds[r.occupancy[t]].location == t
      {
        if Expires(w.clouds[w.occupancy[t]]) {
          ExpiredLocationIsGone(w, w.occupancy[t], gone);
          assert false;
        }
      }
      forall id | id in r.clouds
        ensures r.clouds[id].location in r.occupancy && r.occupancy[r.clouds[id].location] == id
      {
      }
    }
  }

  lemma ExpiredLocationIsGone(w: World, id: int, gone: set<int>)
    requires gone == set id | id in w.clouds && Expires(w.clouds[id]) :: w.clouds[id].location
    requires id in w.clouds && Expires(w.clouds[id])
    ensures w.clouds[id].location in gone
  {
  }

  /** A tile still covered at the end of a tick: the cloud on it and the sunlight left after the shade. */
  datatype Position = Position(cloud: int, tile: int, sunlight: int)

  /** The second phase's effect on one tile: a farmable tile loses the shade, floored at zero. */
  function Shade(t: Tile): (r: Tile)
    ensures r.category == t.category && r.Farmable? == t.Farmable?
    ensures t.Farmable? ==> r.soil == ReduceSunlight(t.soil, END_OF_TICK_SHADE)
    ensures t.Unfarmable? ==> r == t
  {
    if t.Farmable? then t.(soil := ReduceSunlight(t.soil, END_OF_TICK_SHADE)) else t
  }

  /** The tiles of a position log, in order. */
  function LoggedTiles(log: seq<Position>): (r: seq<int>)
    ensures |r| == |log|
    ensures forall k :: 0 <= k < |log| ==> r[k] == log[k].tile
  {
    if log == [] then [] else [log[0].tile] + LoggedTiles(log[1..])
  }

  datatype ShadeResult = ShadeResult(tiles: map<int, Tile>, log: seq<Position>)

  /**
   The second phase's loop over the covered tiles `ts`: each farmable one is
   shaded once and logged with its cloud and its sunlight after the shade;
   an unfarmable one is passed over. The log follows the order of `ts`.
   */
  function ShadePass(tiles: map<int, Tile>, occupancy: map<int, int>, ts: seq<int>): (r: ShadeResult)
    requires Distinct(ts)
    requires forall i :: 0 <= i < |ts| ==> ts[i] in occupancy && ts[i] in tiles
    ensures r.tiles.Keys == tiles.Keys
    ensures forall t :: t in tiles ==> r.tiles[t] == if t in ts then Shade(tiles[t]) else tiles[t]
    decreases |ts|
  {
    if ts == [] then ShadeResult(tiles, [])
    else
      var t := ts[0];
      assert forall i :: 1 <= i < |ts| ==> ts[i] != t;
      var rest := ShadePass(tiles[t := Shade(tiles[t])], occupancy, ts[1..]);
      assert forall x :: x in ts[1..] ==> x in ts && x != t;
      if tiles[t].Farmable? then
        ShadeResult(rest.tiles, [Position(occupancy[t], t, Shade(tiles[t]).soil.currentSunlight)] + rest.log)
      else
        ShadeResult(rest.tiles, rest.log)
  }

  /** Each record of the second phase's log names a farmable tile of `ts`, its cloud, and its sunlight after the shade. */
  lemma {:induction false} ShadeLogRecords(tiles: map<int, Tile>, occupancy: map<int, int>, ts: seq<int>)
    requires Distinct(ts)
    requires forall i :: 0 <= i < |ts| ==> ts[i] in occupancy && ts[i] in tiles
    ensures forall p :: p in ShadePass(tiles, occupancy, ts).log ==>
        && p.tile in ts
        && tiles[p.tile].Farmable?
        && p.cloud == occupancy[p.tile]
        && p.sunlight == Shade(tiles[p.tile]).soil.currentSunlight
    decreases |ts|
  {
    if ts != [] {
      var t := ts[0];
      var shaded := tiles[t := Shade(tiles[t])];
      assert forall i :: 1 <= i < |ts| ==> ts[i] != t;
      assert forall x :: x in ts[1..] ==> x in ts && x != t;
      ShadeLogRecords(shaded, occupancy, ts[1..]);
      var rest := ShadePass(shaded, occupancy, ts[1..]).log;
      forall p | p in rest
        ensures p.tile in ts && tiles[p.tile] == shaded[p.tile]
      {
      }
    }
  }

  /** Every farmable tile of `ts` has a record in the second phase's log. */
  lemma {:induction false} ShadeLogCovers(tiles: map<int, Tile>, occupancy: map<int, int>, ts: seq<int>)
    requires Distinct(ts)
    requires forall i :: 0 <= i < |ts| ==> ts[i] in occupancy && ts[i] in tiles
    ensures var log := ShadePass(tiles, occupancy, ts).log;
      forall t :: t in ts && tiles[t].Farmable? ==> t in LoggedTiles(log)
    decreases |ts|
  {
    if ts != [] {
      var t := ts[0];
      var shaded := tiles[t := Shade(tiles[t])];
      assert forall i :: 1 <= i < |ts| ==> ts[i] != t;
      assert forall x :: x in ts[1..] ==> x in ts && x != t;
      ShadeLogCovers(shaded, occupancy, ts[1..]);
      var rest := ShadePass(shaded, occupancy, ts[1..]).log;
      var log := ShadePass(tiles, occupancy, ts).log;
      if tiles[t].Farmable? {
        assert LoggedTiles(log) == [t] + LoggedTiles(rest) by {
          assert log[1..] == rest;
        }
      }
      forall x | x in ts && tiles[x].Farmable? ensures x in LoggedTiles(log) {
        if x != t {
          assert x in ts[1..];
          assert shaded[x] == tiles[x];
        }
      }
    }
  }

  /** The second phase logs the tiles in the order it visits them. */
  lemma {:induction false} ShadeLogOrdered(tiles: map<int, Tile>, occupancy: map<int, int>, ts: seq<int>)
    requires Distinct(ts)
    requires forall i :: 0 <= i < |ts| ==> ts[i] in occupancy && ts[i] in tiles
    requires Increasing(ts)
    ensures Increasing(LoggedTiles(ShadePass(tiles, occupancy, ts).log))
    decreases |ts|
  {
    if ts != [] {
      var t := ts[0];
      var shaded := tiles[t := Shade(tiles[t])];
      assert forall i :: 1 <= i < |ts| ==> ts[i] != t;
      assert forall x :: x in ts[1..] ==> x in ts && x != t;
      assert Increasing(ts[1..]);
      ShadeLogOrdered(shaded, occupancy, ts[1..]);
      ShadeLogRecords(shaded, occupancy, ts[1..]);
      var rest := ShadePass(shaded, occupancy, ts[1..]).log;
      var log := ShadePass(tiles, occupancy, ts).log;
      if tiles[t].Farmable? {
        assert LoggedTiles(log) == [t] + LoggedTiles(rest) by {
          assert log[1..] == rest;
        }
        IncreasingHead(ts);
        forall k | 0 <= k < |rest| ensures t < LoggedTiles(rest)[k] {
          assert rest[k] in rest;
        }
        IncreasingCons(t, LoggedTiles(rest));
      }
    }
  }

  datatype FinalResult = FinalResult(world: World, log: seq<Position>)

  /** The tiles the index still maps after the expiry phase, in ascending id. */
  function CoveredTiles(w: World): (r: seq<int>)
    requires Valid(w)
    ensures Increasing(r) && Distinct(r)
    ensures forall t :: t in r <==> t in w.occupancy
    ensures forall i :: 0 <= i < |r| ==> r[i] in w.occupancy && r[i] in w.tiles
  {
    var covered := Ascending(w.occupancy.Keys);
    IncreasingIsDistinct(covered);
    forall i | 0 <= i < |covered| ensures covered[i] in w.tiles {
      assert covered[i] in covered;
      var id := w.occupancy[covered[i]];
      assert w.clouds[id].location == covered[i];
    }
    covered
  }

  /**
   `finalCloudBehaviour`: the expiry phase over every active cloud, then the
   shade phase over the tiles the index still maps, in ascending tile id.
   Only a tile still covered after expiry loses sunlight.
   */
  function FinalCloudBehaviour(w: World): (r: FinalResult)
    requires Valid(w)
    ensures r.world.clouds == ExpirePass(w).clouds
    ensures r.world.occupancy == ExpirePass(w).occupancy
    ensures r.world.maxCloudId == w.maxCloudId
    ensures r.world.tiles.Keys == w.tiles.Keys
    ensures forall t :: t in w.tiles ==>
              r.world.tiles[t] == if LookupCloud(r.world, t).Some? then Shade(w.tiles[t]) else w.tiles[t]
    ensures Valid(r.world)
  {
    var e := ExpirePass(w);
    var s := ShadePass(e.tiles, e.occupancy, CoveredTiles(e));
    FinalResult(e.(tiles := s.tiles), s.log)
  }

  /** The end of a tick keeps the layout, the water bounds and the rain-safety of villages. */
  lemma FinalCloudBehaviourKeeps(w: World)
    requires Valid(w)
    ensures SameLayout(w.tiles, FinalCloudBehaviour(w).world.tiles)
    ensures RainSafe(w) ==> RainSafe(FinalCloudBehaviour(w).world)
    ensures Bounds(w) ==> Bounds(FinalCloudBehaviour(w).world)
  {
    var r := FinalCloudBehaviour(w).world;
    forall t | t in w.tiles && w.tiles[t].Farmable? && SoilInBounds(w.tiles[t].soil)
      ensures SoilInBounds(r.tiles[t].soil)
    {
      MutatorsKeepBounds(w.tiles[t].soil, END_OF_TICK_SHADE, 0);
    }
  }

  /**
   The position log of a tick end: ascending tile ids, one record per
   farmable tile still covered, each naming the cloud on it and its sunlight
   after the shade.
   */
  lemma FinalCloudBehaviourLog(w: World)
    requires Valid(w)
    ensures var r := FinalCloudBehaviour(w);
      && Increasing(LoggedTiles(r.log))
      && (forall p :: p in r.log ==>
            && LookupCloud(r.world, p.tile) == Some(p.cloud)
            && p.tile in w.tiles && w.tiles[p.tile].Farmable?
            && p.tile in r.world.tiles && r.world.tiles[p.tile].Farmable?
            && p.sunlight == r.world.tiles[p.tile].soil.currentSunlight)
      && (forall t :: t in w.tiles && w.tiles[t].Farmable? && LookupCloud(r.world, t).Some? ==>
            t in LoggedTiles(r.log))
  {
    var e := ExpirePass(w);
    ShadeLogRecords(e.tiles, e.occupancy, CoveredTiles(e));
    ShadeLogCovers(e.tiles, e.occupancy, CoveredTiles(e));
    ShadeLogOrdered(e.tiles, e.occupancy, CoveredTiles(e));
  }

  /** A cloud that expires takes no sunlight from its last tile and leaves no position record. */
  lemma ExpiredCloudCastsNoShade(w: World, id: int)
    requires Valid(w)
    requires id in w.clouds && Expires(w.clouds[id])
    ensures FinalCloudBehaviour(w).world.tiles[w.clouds[id].location] == w.tiles[w.clouds[id].location]
    ensures forall p :: p in FinalCloudBehaviour(w).log ==> p.cloud != id
  {
    var r := FinalCloudBehaviour(w);
    var t := w.clouds[id].location;
    assert t in ExpiredLocations(w, w.clouds.Keys);
    assert LookupCloud(r.world, t).None?;
    FinalCloudBehaviourLog(w);
  }
}
