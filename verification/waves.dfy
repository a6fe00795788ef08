/**
 The tick's cloud phase (`startCloudLoop`): clouds take their turns in waves.
 Each wave is the set of active clouds not yet processed, in ascending id;
 clouds born from a merge during a wave are picked up by the next one, and
 the loop stops once a wave would be empty.
 */
module Waves {
  import opened Collections
  import opened Clouds
  import opened Tiles
  import opened CloudStore
  import opened Weather

  /**
   The active clouds counted once, plus once more for each active cloud that
   is not in `base`. A turn never raises it, because every merge that brings
   in a cloud outside `base` first retires two active clouds.
   */
  function Potential(w: World, base: set<int>): nat {
    |w.clouds.Keys| + |w.clouds.Keys - base|
  }

  lemma TurnKeepsPotential(airflow: map<int, int>, w: World, id: int, base: set<int>)
    requires Ready(airflow, w)
    requires forall x :: x in base ==> x <= w.maxCloudId
    ensures Potential(Turn(airflow, w, id).world, base) <= Potential(w, base)
  {
    var r := Turn(airflow, w, id);
    KeysKeepCount(w.clouds.Keys, r.world.clouds.Keys, base, id, r.end, w.maxCloudId);
  }

  /** Whatever a turn does to the active ids, the count with newcomers doubled does not grow. */
  lemma KeysKeepCount(before: set<int>, after: set<int>, base: set<int>, id: int, end: TurnEnd, maxId: int)
    requires TurnKeys(before, after, id, end, maxId)
    requires forall x :: x in before ==> x <= maxId
    requires forall x :: x in base ==> x <= maxId
    ensures |after| + |after - base| <= |before| + |before - base|
  {
    match end
    case Stopped(MergedWith(other, merged)) =>
      MergeKeepsCount(before, after, base, id, other, merged);
    case Stopped(Dissipated) =>
      RemovalKeepsCount(before, after, base, id);
    case Stopped(EnteredVillage) =>
      RemovalKeepsCount(before, after, base, id);
    case _ =>
  }

  /** Two members out and one newcomer in: the count with newcomers doubled does not grow. */
  lemma MergeKeepsCount(before: set<int>, after: set<int>, base: set<int>, id: int, o: int, n: int)
    requires id in before && o in before && id != o
    requires n !in before && n !in base
    requires after == before - {id, o} + {n}
    ensures |after| + |after - base| <= |before| + |before - base|
  {
    CardRemove(before, id);
    CardRemove(before - {id}, o);
    assert before - {id, o} == (before - {id}) - {o};
    SubsetCard(after - base, (before - base) + {n});
  }

  /** One member out: the count with newcomers doubled goes down. */
  lemma RemovalKeepsCount(before: set<int>, after: set<int>, base: set<int>, id: int)
    requires id in before
    requires after == before - {id}
    ensures |after| + |after - base| < |before| + |before - base|
  {
    CardRemove(before, id);
    SubsetCard(after - base, before - base);
  }

  /** A turn only ever adds the next fresh id, and a cloud it leaves active was active before. */
  lemma TurnKeysFresh(before: set<int>, after: set<int>, id: int, end: TurnEnd, maxId: int)
    requires TurnKeys(before, after, id, end, maxId)
    ensures forall k :: k in after ==> k in before || k == maxId + 1
  {
  }

  /** The world once the clouds `ids` have taken their turns one after another. */
  function TurnsInOrder(airflow: map<int, int>, w: World, ids: seq<int>): (r: World)
    requires Ready(airflow, w)
    ensures Ready(airflow, r)
    decreases |ids|
  {
    if ids == [] then w
    else Turn(airflow, TurnsInOrder(airflow, w, ids[..|ids| - 1]), ids[|ids| - 1]).world
  }

  /** One more cloud taking its turn after the others. */
  lemma TurnsInOrderSnoc(airflow: map<int, int>, w: World, ids: seq<int>, id: int)
    requires Ready(airflow, w)
    ensures TurnsInOrder(airflow, w, ids + [id]) == Turn(airflow, TurnsInOrder(airflow, w, ids), id).world
  {
    assert (ids + [id])[..|ids|] == ids;
  }

  /** The turns of a prefix one element longer: the next cloud's turn after the shorter prefix's. */
  lemma TurnsInOrderPrefix(airflow: map<int, int>, w: World, ids: seq<int>, i: nat)
    requires Ready(airflow, w) && i < |ids|
    ensures TurnsInOrder(airflow, w, ids[..i + 1]) == Turn(airflow, TurnsInOrder(airflow, w, ids[..i]), ids[i]).world
  {
    assert ids[..i + 1] == ids[..i] + [ids[i]];
    TurnsInOrderSnoc(airflow, w, ids[..i], ids[i]);
  }

  /** Turns taken in two runs are the turns of the whole sequence. */
  lemma {:induction false} TurnsInOrderAppend(airflow: map<int, int>, w: World, a: seq<int>, b: seq<int>)
    requires Ready(airflow, w)
    ensures TurnsInOrder(airflow, w, a + b) == TurnsInOrder(airflow, TurnsInOrder(airflow, w, a), b)
    decreases |b|
  {
    if b == [] {
      assert a + b == a;
    } else {
      var init := b[..|b| - 1];
      var last := b[|b| - 1];
      assert b == init + [last];
      assert a + b == (a + init) + [last];
      TurnsInOrderAppend(airflow, w, a, init);
      TurnsInOrderSnoc(airflow, w, a + init, last);
      TurnsInOrderSnoc(airflow, TurnsInOrder(airflow, w, a), init, last);
    }
  }

  /**
   The clouds among `ids` that take their turn when the clouds `ids` take
   their turns one after another: those still active when their turn comes.
   A cloud a merge has already retired is skipped (`TakeTurn`).
   */
  function TurnsTaken(airflow: map<int, int>, w: World, ids: seq<int>): seq<int>
    requires Ready(airflow, w)
    decreases |ids|
  {
    if ids == [] then []
    else
      var init := ids[..|ids| - 1];
      var last := ids[|ids| - 1];
      TurnsTaken(airflow, w, init) + (if last in TurnsInOrder(airflow, w, init).clouds then [last] else [])
  }

  /** One more cloud: it joins the turns taken exactly when it is active after the others' turns. */
  lemma TurnsTakenSnoc(airflow: map<int, int>, w: World, ids: seq<int>, id: int)
    requires Ready(airflow, w)
    ensures TurnsTaken(airflow, w, ids + [id])
            == TurnsTaken(airflow, w, ids) + (if id in TurnsInOrder(airflow, w, ids).clouds then [id] else [])
  {
    assert (ids + [id])[..|ids|] == ids;
  }

  /** The turns taken in two runs are those of the first run followed by those of the second. */
  lemma {:induction false} TurnsTakenAppend(airflow: map<int, int>, w: World, a: seq<int>, b: seq<int>)
    requires Ready(airflow, w)
    ensures TurnsTaken(airflow, w, a + b) == TurnsTaken(airflow, w, a) + TurnsTaken(airflow, TurnsInOrder(airflow, w, a), b)
    decreases |b|
  {
    if b == [] {
      assert a + b == a;
    } else {
      var init := b[..|b| - 1];
      var last := b[|b| - 1];
      var v := TurnsInOrder(airflow, w, a);
      assert b == init + [last];
      assert a + b == (a + init) + [last];
      TurnsTakenAppend(airflow, w, a, init);
      TurnsInOrderAppend(airflow, w, a, init);
      TurnsTakenSnoc(airflow, w, a + init, last);
      TurnsTakenSnoc(airflow, v, init, last);
      var tail := if last in TurnsInOrder(airflow, v, init).clouds then [last] else [];
      ConcatAssoc(TurnsTaken(airflow, w, a), TurnsTaken(airflow, v, init), tail);
    }
  }

  /**
   For a sequence without repeats, a cloud is among the turns taken exactly
   when it is active once the clouds before it have had their turns; the
   turns taken are clouds of the sequence, each listed once.
   */
  lemma TurnsTakenExactly(airflow: map<int, int>, w: World, ids: seq<int>)
    requires Ready(airflow, w)
    requires Distinct(ids)
    ensures forall x :: x in TurnsTaken(airflow, w, ids) ==> x in ids
    ensures Distinct(TurnsTaken(airflow, w, ids))
    ensures TakesTurnWhenActive(airflow, w, ids, TurnsTaken(airflow, w, ids))
  {
    TurnsTakenWithin(airflow, w, ids);
    TurnsTakenDistinct(airflow, w, ids);
    TurnsTakenAt(airflow, w, ids);
  }

  /** Only clouds of the sequence take their turn. */
  lemma {:induction false} TurnsTakenWithin(airflow: map<int, int>, w: World, ids: seq<int>)
    requires Ready(airflow, w)
    ensures forall x :: x in TurnsTaken(airflow, w, ids) ==> x in ids
    decreases |ids|
  {
    if ids != [] {
      var init := ids[..|ids| - 1];
      TurnsTakenWithin(airflow, w, init);
      assert forall x :: x in init ==> x in ids;
    }
  }

  /** A sequence without repeats lists each cloud that takes its turn once. */
  lemma {:induction false} TurnsTakenDistinct(airflow: map<int, int>, w: World, ids: seq<int>)
    requires Ready(airflow, w)
    requires Distinct(ids)
    ensures Distinct(TurnsTaken(airflow, w, ids))
    decreases |ids|
  {
    if ids != [] {
      var n := |ids| - 1;
      var init := ids[..n];
      var last := ids[n];
      DistinctInit(ids);
      TurnsTakenDistinct(airflow, w, init);
      TurnsTakenWithin(airflow, w, init);
      var tail := if last in TurnsInOrder(airflow, w, init).clouds then [last] else [];
      DistinctConcat(TurnsTaken(airflow, w, init), tail);
    }
  }

  /**
   In a sequence without repeats, a cloud takes its turn exactly when it is
   active once the clouds before it have had theirs.
   */
  lemma TurnsTakenAt(airflow: map<int, int>, w: World, ids: seq<int>)
    requires Ready(airflow, w)
    requires Distinct(ids)
    ensures TakesTurnWhenActive(airflow, w, ids, TurnsTaken(airflow, w, ids))
  {
    forall j | 0 <= j < |ids|
      ensures ids[j] in TurnsTaken(airflow, w, ids) <==> ids[j] in TurnsInOrder(airflow, w, ids[..j]).clouds
    {
      TurnsTakenAtIndex(airflow, w, ids, j);
    }
  }

  /** The cloud at position `j` takes its turn exactly when it is active after the turns before it. */
  lemma {:induction false} TurnsTakenAtIndex(airflow: map<int, int>, w: World, ids: seq<int>, j: nat)
    requires Ready(airflow, w)
    requires Distinct(ids)
    requires j < |ids|
    ensures ids[j] in TurnsTaken(airflow, w, ids) <==> ids[j] in TurnsInOrder(airflow, w, ids[..j]).clouds
    decreases |ids|
  {
    var n := |ids| - 1;
    var init := ids[..n];
    var last := ids[n];
    var tail := if last in TurnsInOrder(airflow, w, init).clouds then [last] else [];
    assert TurnsTaken(airflow, w, ids) == TurnsTaken(airflow, w, init) + tail;
    DistinctInit(ids);
    if j == n {
      TurnsTakenWithin(airflow, w, init);
    } else {
      TurnsTakenAtIndex(airflow, w, init, j);
      PrefixOfPrefix(ids, n, j);
      assert ids[j] != last;
    }
  }

  /**
   `cloudLoopHelper` as the wave loop sees it: the turn leaves a ready world
   with the same layout, draws at most fresh ids, skips exactly a cloud that
   is no longer active, and does not raise the loop's measure.
   */
  method TakeTurn(airflow: map<int, int>, w: World, id: int, base: set<int>) returns (r: World, tookTurn: bool)
    requires Ready(airflow, w)
    requires forall x :: x in base ==> x <= w.maxCloudId
    ensures Ready(airflow, r)
    ensures SameLayout(w.tiles, r.tiles)
    ensures r.maxCloudId >= w.maxCloudId
    ensures forall k :: k in r.clouds ==> k in w.clouds || k > w.maxCloudId
    ensures r == Turn(airflow, w, id).world
    ensures tookTurn <==> Turn(airflow, w, id).end != Skipped
    ensures tookTurn <==> id in w.clouds
    ensures !tookTurn ==> r == w
    ensures Potential(r, base) <= Potential(w, base)
    ensures Bounds(w) ==> Bounds(r)
  {
    var t := Turn(airflow, w, id);
    TurnKeysFresh(w.clouds.Keys, t.world.clouds.Keys, id, t.end, w.maxCloudId);
    TurnKeepsPotential(airflow, w, id, base);
    r := t.world;
    tookTurn := t.end != Skipped;
  }

  /**
   One pass of the `for` loop in `startCloudLoop`: every cloud of the batch
   takes its turn in order, so the wave leaves the world those turns make
   one after another; `turns` lists those still active when their turn
   came. Every batch cloud still active afterwards has had its turn, since a
   cloud is skipped only once it has left the active set and ids are never
   reused.
   */
  method RunWave(airflow: map<int, int>, w: World, batch: seq<int>, base: set<int>) returns (r: World, turns: seq<int>)
    requires Ready(airflow, w)
    requires forall x :: x in base ==> x <= w.maxCloudId
    requires forall j :: 0 <= j < |batch| ==> batch[j] <= w.maxCloudId
    ensures Ready(airflow, r)
    ensures SameLayout(w.tiles, r.tiles)
    ensures r.maxCloudId >= w.maxCloudId
    ensures forall k :: k in r.clouds ==> k in w.clouds || k > w.maxCloudId
    ensures r == TurnsInOrder(airflow, w, batch)
    ensures turns == TurnsTaken(airflow, w, batch)
    ensures Increasing(batch) ==> forall j :: 0 <= j < |batch| ==>
              (batch[j] in turns <==> batch[j] in TurnsInOrder(airflow, w, batch[..j]).clouds)
    ensures forall x :: x in turns ==> x in batch
    ensures Increasing(batch) ==> Increasing(turns)
    ensures forall x :: x in batch && x in r.clouds ==> x in turns
    ensures Potential(r, base) <= Potential(w, base)
    ensures Bounds(w) ==> Bounds(r)
  {
    r := w;
    turns := [];
    var i := 0;
    ghost var took: seq<bool> := [];
    while i < |batch|
      invariant 0 <= i <= |batch|
      invariant Ready(airflow, r)
      invariant SameLayout(w.tiles, r.tiles)
      invariant r.maxCloudId >= w.maxCloudId
      invariant forall k :: k in r.clouds ==> k in w.clouds || k > w.maxCloudId
      invariant r == TurnsInOrder(airflow, w, batch[..i])
      invariant |took| == i
      invariant turns == Selected(batch, took)
      invariant turns == TurnsTaken(airflow, w, batch[..i])
      invariant forall j :: 0 <= j < i && batch[j] in r.clouds ==> took[j]
      invariant Potential(r, base) <= Potential(w, base)
      invariant Bounds(w) ==> Bounds(r)
    {
      r, turns, took := WaveTurn(airflow, w, r, batch, i, took, turns, base);
      i := i + 1;
    }
    assert batch[..i] == batch;
    WaveTurnsListed(airflow, w, r, batch, took, turns);
  }

  /**
   What a finished wave's turn list says: the clouds of the batch still
   active when their turn came, ascending when the batch is, and every batch
   cloud active at the end among them.
   */
  lemma WaveTurnsListed(airflow: map<int, int>, w: World, r: World, batch: seq<int>, took: seq<bool>, turns: seq<int>)
    requires Ready(airflow, w)
    requires |took| == |batch|
    requires turns == Selected(batch, took)
    requires turns == TurnsTaken(airflow, w, batch)
    requires forall j :: 0 <= j < |batch| && batch[j] in r.clouds ==> took[j]
    ensures Increasing(batch) ==> forall j :: 0 <= j < |batch| ==>
              (batch[j] in turns <==> batch[j] in TurnsInOrder(airflow, w, batch[..j]).clouds)
    ensures forall x :: x in turns ==> x in batch
    ensures Increasing(batch) ==> Increasing(turns)
    ensures forall x :: x in batch && x in r.clouds ==> x in turns
  {
    SelectedFacts(batch, took);
    if Increasing(batch) {
      IncreasingIsDistinct(batch);
      TurnsTakenExactly(airflow, w, batch);
    }
  }

  /** The turn of the wave's next batch cloud, with the wave's bookkeeping carried forward. */
  method WaveTurn(airflow: map<int, int>, w: World, r: World, batch: seq<int>, i: nat, ghost took: seq<bool>, turns: seq<int>,
                  base: set<int>)
    returns (next: World, nextTurns: seq<int>, ghost nextTook: seq<bool>)
    requires Ready(airflow, w)
    requires i == |took| < |batch|
    requires forall x :: x in base ==> x <= w.maxCloudId
    requires forall j :: 0 <= j < |batch| ==> batch[j] <= w.maxCloudId
    requires Ready(airflow, r)
    requires SameLayout(w.tiles, r.tiles)
    requires r.maxCloudId >= w.maxCloudId
    requires forall k :: k in r.clouds ==> k in w.clouds || k > w.maxCloudId
    requires r == TurnsInOrder(airflow, w, batch[..i])
    requires turns == Selected(batch, took)
    requires turns == TurnsTaken(airflow, w, batch[..i])
    requires forall j :: 0 <= j < |took| && batch[j] in r.clouds ==> took[j]
    requires Potential(r, base) <= Potential(w, base)
    requires Bounds(w) ==> Bounds(r)
    ensures Ready(airflow, next)
    ensures SameLayout(w.tiles, next.tiles)
    ensures next.maxCloudId >= w.maxCloudId
    ensures forall k :: k in next.clouds ==> k in w.clouds || k > w.maxCloudId
    ensures next == TurnsInOrder(airflow, w, batch[..i + 1])
    ensures |nextTook| == |took| + 1
    ensures nextTurns == Selected(batch, nextTook)
    ensures nextTurns == TurnsTaken(airflow, w, batch[..i + 1])
    ensures forall j :: 0 <= j < |nextTook| && batch[j] in next.clouds ==> nextTook[j]
    ensures Potential(next, base) <= Potential(w, base)
    ensures Bounds(w) ==> Bounds(next)
  {
    var id := batch[i];
    var tookTurn;
    next, tookTurn := TakeTurn(airflow, r, id, base);
    TurnsInOrderPrefix(airflow, w, batch, i);
    PrefixStep(batch, i + 1);
    TurnsTakenSnoc(airflow, w, batch[..i], id);
    SameLayoutTransitive(w.tiles, r.tiles, next.tiles);
    WaveStepKeys(batch, took, tookTurn, w.clouds.Keys, r.clouds.Keys, next.clouds.Keys, w.maxCloudId, r.maxCloudId);
    nextTurns := if tookTurn then turns + [id] else turns;
    nextTook := took + [tookTurn];
  }

  /**
   The id bookkeeping of one turn in a wave: the turn list grows by the
   batch cloud exactly when it took its turn, a batch cloud active after the
   turn took its own, and only fresh ids join the active set.
   */
  lemma WaveStepKeys(batch: seq<int>, took: seq<bool>, b: bool, initial: set<int>, before: set<int>, after: set<int>,
                     maxId: int, maxBefore: int)
    requires |took| < |batch|
    requires forall j :: 0 <= j < |batch| ==> batch[j] <= maxId
    requires maxId <= maxBefore
    requires forall k :: k in before ==> k in initial || k > maxId
    requires forall k :: k in after ==> k in before || k > maxBefore
    requires forall j :: 0 <= j < |took| && batch[j] in before ==> took[j]
    requires b <==> batch[|took|] in before
    requires !b ==> after == before
    ensures Selected(batch, took + [b]) == Selected(batch, took) + (if b then [batch[|took|]] else [])
    ensures forall j :: 0 <= j < |took| + 1 && batch[j] in after ==> (took + [b])[j]
    ensures forall k :: k in after ==> k in initial || k > maxId
  {
    SelectedSnoc(batch, took, b);
    forall j | 0 <= j < |took| + 1 && batch[j] in after ensures (took + [b])[j] {
      if j < |took| {
        assert batch[j] in before;
      }
    }
  }

  /** The clouds a wave runs: those active in `v` and not among `done`, in ascending id. */
  function WaveBatch(v: World, done: set<int>): (b: seq<int>)
    ensures Increasing(b)
    ensures forall x :: x in b <==> x in v.clouds && x !in done
  {
    Ascending(v.clouds.Keys - done)
  }

  /**
   Each of `batches` is the non-empty batch of clouds active and not yet
   processed once the earlier waves have taken their turns from `w`.
   */
  predicate WavesSoFar(airflow: map<int, int>, w: World, batches: seq<seq<int>>)
    requires Ready(airflow, w)
  {
    forall i :: 0 <= i < |batches| ==>
      batches[i] != [] && batches[i] == WaveBatch(TurnsInOrder(airflow, w, Flatten(batches[..i])), Members(batches[..i]))
  }

  /**
   The waves `startCloudLoop` runs from `w`: each wave as it must be, and
   nothing left to run after the last one.
   */
  predicate WaveSchedule(airflow: map<int, int>, w: World, batches: seq<seq<int>>)
    requires Ready(airflow, w)
  {
    && WavesSoFar(airflow, w, batches)
    && WaveBatch(TurnsInOrder(airflow, w, Flatten(batches)), Members(batches)) == []
  }

  /** The schedule leaves no choice: from a given world there is exactly one. */
  lemma WaveScheduleUnique(airflow: map<int, int>, w: World, a: seq<seq<int>>, b: seq<seq<int>>)
    requires Ready(airflow, w)
    requires WaveSchedule(airflow, w, a) && WaveSchedule(airflow, w, b)
    ensures a == b
  {
    WholePrefix(a);
    WholePrefix(b);
    if |a| < |b| {
      SchedulesAgree(airflow, w, a, b, |a|);
      CompleteScheduleIsNoPrefix(airflow, w, a, b);
      assert false;
    } else if |b| < |a| {
      SchedulesAgree(airflow, w, b, a, |b|);
      CompleteScheduleIsNoPrefix(airflow, w, b, a);
      assert false;
    } else {
      SchedulesAgree(airflow, w, a, b, |a|);
    }
  }

  /**
   No cloud is scheduled twice in a tick: each wave runs, once each, only
   clouds that no earlier wave ran.
   */
  lemma ScheduleDistinct(airflow: map<int, int>, w: World, batches: seq<seq<int>>)
    requires Ready(airflow, w)
    requires WavesSoFar(airflow, w, batches)
    ensures Distinct(Flatten(batches))
  {
    forall i | 0 <= i < |batches|
      ensures Increasing(batches[i])
      ensures forall x :: x in batches[i] ==> x !in Members(batches[..i])
    {
      assert batches[i] == WaveBatch(TurnsInOrder(airflow, w, Flatten(batches[..i])), Members(batches[..i]));
    }
    FreshBatchesDistinct(batches);
  }

  /** A complete schedule is no prefix of a longer one: the longer one runs a wave where it stops. */
  lemma CompleteScheduleIsNoPrefix(airflow: map<int, int>, w: World, a: seq<seq<int>>, b: seq<seq<int>>)
    requires Ready(airflow, w)
    requires WaveSchedule(airflow, w, a) && WavesSoFar(airflow, w, b)
    requires |a| < |b|
    ensures a != b[..|a|]
  {
    assert b[|a|] != [];
    assert b[|a|] == WaveBatch(TurnsInOrder(airflow, w, Flatten(b[..|a|])), Members(b[..|a|]));
  }

  /** Two schedules so far agree on their common length. */
  lemma {:induction false} SchedulesAgree(airflow: map<int, int>, w: World, a: seq<seq<int>>, b: seq<seq<int>>, k: nat)
    requires Ready(airflow, w)
    requires WavesSoFar(airflow, w, a) && WavesSoFar(airflow, w, b)
    requires k <= |a| && k <= |b|
    ensures a[..k] == b[..k]
  {
    if k > 0 {
      SchedulesAgree(airflow, w, a, b, k - 1);
      NextWaveAgrees(airflow, w, a, b, k);
    }
  }

  /** Schedules that agree before a wave agree on that wave too. */
  lemma NextWaveAgrees(airflow: map<int, int>, w: World, a: seq<seq<int>>, b: seq<seq<int>>, k: nat)
    requires Ready(airflow, w)
    requires WavesSoFar(airflow, w, a) && WavesSoFar(airflow, w, b)
    requires 0 < k <= |a| && k <= |b|
    requires a[..k - 1] == b[..k - 1]
    ensures a[..k] == b[..k]
  {
    PrefixStep(a, k);
    PrefixStep(b, k);
    assert a[k - 1] == WaveBatch(TurnsInOrder(airflow, w, Flatten(a[..k - 1])), Members(a[..k - 1]));
    assert b[k - 1] == WaveBatch(TurnsInOrder(airflow, w, Flatten(b[..k - 1])), Members(b[..k - 1]));
  }

  /**
   `startCloudLoop`: waves until every active cloud has been processed. Each
   wave runs the active clouds not yet processed, in ascending id, and the
   loop leaves the world those turns make one after another. `waves` lists,
   per wave, the clouds that were still active when their turn came: no
   cloud takes two turns, and every cloud active at the end, including one
   born from a merge during the loop, has taken its turn. The loop ends
   because each wave retires its whole batch from the measure, while a merge
   only ever trades two active clouds for one new one.
   */
  method CloudLoop(airflow: map<int, int>, w: World) returns (r: World, batches: seq<seq<int>>, waves: seq<seq<int>>)
    requires Ready(airflow, w)
    ensures WaveSchedule(airflow, w, batches)
    ensures r == TurnsInOrder(airflow, w, Flatten(batches))
    ensures Ready(airflow, r)
    ensures SameLayout(w.tiles, r.tiles)
    ensures |waves| == |batches|
    ensures forall i :: 0 <= i < |waves| ==> Increasing(waves[i])
    ensures forall i, x :: 0 <= i < |waves| && x in waves[i] ==> x in batches[i]
    ensures Distinct(Flatten(waves))
    ensures TurnRecord(airflow, w, batches, waves)
    ensures forall x :: x in r.clouds ==> x in Flatten(waves)
    ensures r.maxCloudId >= w.maxCloudId
    ensures forall k :: k in r.clouds ==> k in w.clouds || k > w.maxCloudId
    ensures Bounds(w) ==> Bounds(r)
  {
    r := w;
    var processed: set<int> := {};
    batches := [];
    waves := [];
    LoopStart(airflow, w);
    while true
      invariant LoopState(airflow, w, r, batches, waves, processed)
      decreases Potential(r, processed)
    {
      var batch := Ascending(r.clouds.Keys - processed);
      if batch == [] {
        LoopExit(airflow, w, r, batches, waves, processed);
        break;
      }
      r, batches, waves, processed := NextWave(airflow, w, r, batches, waves, processed);
    }
  }

  /**
   What the cloud loop knows after each wave: the world is the turns of the
   scheduled batches applied in order, the processed set is their union, and
   the recorded waves list each processed cloud that still exists once, in
   ascending order within a wave.
   */
  ghost predicate LoopState(airflow: map<int, int>, w: World, r: World, batches: seq<seq<int>>, waves: seq<seq<int>>,
                            processed: set<int>)
    requires Ready(airflow, w)
  {
    && Ready(airflow, r)
    && WavesSoFar(airflow, w, batches)
    && r == TurnsInOrder(airflow, w, Flatten(batches))
    && processed == Members(batches)
    && SameLayout(w.tiles, r.tiles)
    && r.maxCloudId >= w.maxCloudId
    && (forall k :: k in r.clouds ==> k in w.clouds || k > w.maxCloudId)
    && (forall x :: x in processed ==> x <= r.maxCloudId)
    && |waves| == |batches|
    && (forall i :: 0 <= i < |waves| ==> Increasing(waves[i]))
    && (forall i, x :: 0 <= i < |waves| && x in waves[i] ==> x in batches[i])
    && Distinct(Flatten(waves))
    && Flatten(waves) == TurnsTaken(airflow, w, Flatten(batches))
    && (forall x :: x in Flatten(waves) ==> x in processed)
    && (forall x :: x in r.clouds && x in processed ==> x in Flatten(waves))
    && (Bounds(w) ==> Bounds(r))
  }

  /**
   The clouds `ids` take their turns one after another from `w`, and `taken`
   lists those that took one: a cloud of `ids` is in `taken` exactly when it
   is still active when its turn comes.
   */
  ghost predicate TakesTurnWhenActive(airflow: map<int, int>, w: World, ids: seq<int>, taken: seq<int>)
    requires Ready(airflow, w)
  {
    forall j :: 0 <= j < |ids| ==> (ids[j] in taken <==> ids[j] in TurnsInOrder(airflow, w, ids[..j]).clouds)
  }

  /**
   The record of a tick's turns: no cloud is scheduled twice, and the waves
   list, in order, exactly the scheduled clouds that were still active when
   their turn came.
   */
  ghost predicate TurnRecord(airflow: map<int, int>, w: World, batches: seq<seq<int>>, waves: seq<seq<int>>)
    requires Ready(airflow, w)
  {
    && Distinct(Flatten(batches))
    && Flatten(waves) == TurnsTaken(airflow, w, Flatten(batches))
    && TakesTurnWhenActive(airflow, w, Flatten(batches), Flatten(waves))
  }

  /**
   The loop state `next*` is the state `r`, `batches`, `waves`, `processed`
   after exactly one more wave: the active clouds not yet processed, in
   ascending id, are scheduled and marked processed, the world is what their
   turns make, and the wave's record lists those that took their turn.
   */
  ghost predicate OneMoreWave(airflow: map<int, int>, r: World, batches: seq<seq<int>>, waves: seq<seq<int>>,
                              processed: set<int>, next: World, nextBatches: seq<seq<int>>,
                              nextWaves: seq<seq<int>>, nextProcessed: set<int>)
    requires Ready(airflow, r)
  {
    var batch := Ascending(r.clouds.Keys - processed);
    && nextBatches == batches + [batch]
    && nextProcessed == processed + (r.clouds.Keys - processed)
    && next == TurnsInOrder(airflow, r, batch)
    && nextWaves == waves + [TurnsTaken(airflow, r, batch)]
  }

  /** One wave of `startCloudLoop`: it keeps the loop's state and strictly lowers its potential. */
  method NextWave(airflow: map<int, int>, w: World, r: World, batches: seq<seq<int>>, waves: seq<seq<int>>,
                  processed: set<int>)
    returns (next: World, nextBatches: seq<seq<int>>, nextWaves: seq<seq<int>>, nextProcessed: set<int>)
    requires Ready(airflow, w)
    requires LoopState(airflow, w, r, batches, waves, processed)
    requires Ascending(r.clouds.Keys - processed) != []
    ensures OneMoreWave(airflow, r, batches, waves, processed, next, nextBatches, nextWaves, nextProcessed)
    ensures LoopState(airflow, w, next, nextBatches, nextWaves, nextProcessed)
    ensures Potential(next, nextProcessed) < Potential(r, processed)
  {
    var active := r.clouds.Keys;
    var batch := Ascending(active - processed);
    BatchBelowMax(r, processed);
    var turns;
    next, turns := RunWave(airflow, r, batch, active);
    WaveLowersCount(active, processed, next.clouds.Keys);
    SameLayoutTransitive(w.tiles, r.tiles, next.tiles);
    WaveRecord(waves, turns, batch, processed, active, next.clouds.Keys, r.maxCloudId, next.maxCloudId);
    ScheduleStep(airflow, w, batches, batch, processed);
    BatchesRecord(waves, batches, turns, batch);
    TurnRecordStep(airflow, w, batches, waves, batch, turns);
    FreshSince(w.clouds.Keys, r.clouds.Keys, next.clouds.Keys, w.maxCloudId, r.maxCloudId);
    nextWaves := waves + [turns];
    nextBatches := batches + [batch];
    nextProcessed := processed + (active - processed);
  }

  /** The record of the turns taken grows by the wave's turns, as the turns of the batches do. */
  lemma TurnRecordStep(airflow: map<int, int>, w: World, batches: seq<seq<int>>, waves: seq<seq<int>>, batch: seq<int>,
                       turns: seq<int>)
    requires Ready(airflow, w)
    requires Flatten(waves) == TurnsTaken(airflow, w, Flatten(batches))
    requires turns == TurnsTaken(airflow, TurnsInOrder(airflow, w, Flatten(batches)), batch)
    ensures Flatten(waves + [turns]) == TurnsTaken(airflow, w, Flatten(batches + [batch]))
  {
    FlattenSnoc(waves, turns);
    FlattenSnoc(batches, batch);
    TurnsTakenAppend(airflow, w, Flatten(batches), batch);
  }

  /** Ids that are fresh after a step taken from a state whose ids were fresh are fresh. */
  lemma FreshSince(initial: set<int>, mid: set<int>, last: set<int>, maxId: int, maxMid: int)
    requires maxId <= maxMid
    requires forall k :: k in mid ==> k in initial || k > maxId
    requires forall k :: k in last ==> k in mid || k > maxMid
    ensures forall k :: k in last ==> k in initial || k > maxId
  {
  }

  /** Before the first wave nothing has been scheduled, run or recorded. */
  lemma LoopStart(airflow: map<int, int>, w: World)
    requires Ready(airflow, w)
    ensures LoopState(airflow, w, w, [], [], {})
  {
  }

  /**
   The loop stops on an empty batch: the schedule is complete, no cloud was
   scheduled twice, and every active cloud has taken its turn.
   */
  lemma LoopExit(airflow: map<int, int>, w: World, r: World, batches: seq<seq<int>>, waves: seq<seq<int>>,
                 processed: set<int>)
    requires Ready(airflow, w)
    requires LoopState(airflow, w, r, batches, waves, processed)
    requires Ascending(r.clouds.Keys - processed) == []
    ensures WaveSchedule(airflow, w, batches)
    ensures TurnRecord(airflow, w, batches, waves)
    ensures forall x :: x in r.clouds ==> x in Flatten(waves)
  {
    forall x | x in r.clouds ensures x in processed {
      assert x !in Ascending(r.clouds.Keys - processed);
    }
    ScheduleDistinct(airflow, w, batches);
    TurnsTakenExactly(airflow, w, Flatten(batches));
  }

  /**
   One more wave: the batch run is the one the schedule calls for, and the
   turns of all waves so far are the earlier turns followed by the batch's.
   */
  lemma ScheduleStep(airflow: map<int, int>, w: World, batches: seq<seq<int>>, batch: seq<int>, processed: set<int>)
    requires Ready(airflow, w)
    requires WavesSoFar(airflow, w, batches)
    requires processed == Members(batches)
    requires batch == Ascending(TurnsInOrder(airflow, w, Flatten(batches)).clouds.Keys - processed) && batch != []
    ensures WavesSoFar(airflow, w, batches + [batch])
    ensures TurnsInOrder(airflow, w, Flatten(batches + [batch]))
            == TurnsInOrder(airflow, TurnsInOrder(airflow, w, Flatten(batches)), batch)
    ensures processed + (TurnsInOrder(airflow, w, Flatten(batches)).clouds.Keys - processed)
            == Members(batches + [batch])
  {
    FlattenSnoc(batches, batch);
    TurnsInOrderAppend(airflow, w, Flatten(batches), batch);
    WavesSoFarSnoc(airflow, w, batches, batch);
    ProcessedSnoc(batches, batch, processed, TurnsInOrder(airflow, w, Flatten(batches)).clouds.Keys);
  }

  /** The processed set grows by exactly the wave's batch. */
  lemma ProcessedSnoc(batches: seq<seq<int>>, batch: seq<int>, processed: set<int>, active: set<int>)
    requires processed == Members(batches)
    requires batch == Ascending(active - processed)
    ensures processed + (active - processed) == Members(batches + [batch])
  {
    MembersSnoc(batches, batch);
    assert (set x | x in batch) == active - processed;
  }

  /** A schedule so far extends by the batch due after it. */
  lemma WavesSoFarSnoc(airflow: map<int, int>, w: World, batches: seq<seq<int>>, batch: seq<int>)
    requires Ready(airflow, w)
    requires WavesSoFar(airflow, w, batches)
    requires batch == WaveBatch(TurnsInOrder(airflow, w, Flatten(batches)), Members(batches)) && batch != []
    ensures WavesSoFar(airflow, w, batches + [batch])
  {
    forall i | 0 <= i < |batches + [batch]|
      ensures (batches + [batch])[i] != []
      ensures (batches + [batch])[i] == WaveBatch(TurnsInOrder(airflow, w, Flatten((batches + [batch])[..i])),
                                                  Members((batches + [batch])[..i]))
    {
      if i < |batches| {
        EarlierWaveKept(airflow, w, batches, batch, i);
      } else {
        SnocPrefix(batches, batch, i);
        assert batches[..i] == batches;
      }
    }
  }

  /** Appending a wave leaves the earlier waves and what came before them as they were. */
  lemma EarlierWaveKept(airflow: map<int, int>, w: World, batches: seq<seq<int>>, batch: seq<int>, i: nat)
    requires Ready(airflow, w)
    requires WavesSoFar(airflow, w, batches)
    requires i < |batches|
    ensures (batches + [batch])[i] != []
    ensures (batches + [batch])[i] == WaveBatch(TurnsInOrder(airflow, w, Flatten((batches + [batch])[..i])),
                                                Members((batches + [batch])[..i]))
  {
    SnocPrefix(batches, batch, i);
  }

  /** The record of the batches after one more: each wave lists only clouds of its batch. */
  lemma BatchesRecord(waves: seq<seq<int>>, batches: seq<seq<int>>, turns: seq<int>, batch: seq<int>)
    requires |waves| == |batches|
    requires forall i, x :: 0 <= i < |waves| && x in waves[i] ==> x in batches[i]
    requires forall x :: x in turns ==> x in batch
    ensures forall i, x :: 0 <= i < |waves + [turns]| && x in (waves + [turns])[i] ==> x in (batches + [batch])[i]
  {
  }

  /**
   The record of the waves after one more: each wave ascending, no cloud
   listed twice, every listed cloud processed, and every processed cloud still
   active listed.
   */
  lemma WaveRecord(waves: seq<seq<int>>, turns: seq<int>, batch: seq<int>, processed: set<int>, active: set<int>,
                   after: set<int>, maxBefore: int, maxAfter: int)
    requires batch == Ascending(active - processed)
    requires forall x :: x in processed ==> x <= maxBefore
    requires forall x :: x in active ==> x <= maxBefore
    requires maxBefore <= maxAfter
    requires forall k :: k in after ==> k in active || k > maxBefore
    requires forall i :: 0 <= i < |waves| ==> Increasing(waves[i])
    requires Distinct(Flatten(waves))
    requires forall x :: x in Flatten(waves) ==> x in processed
    requires forall x :: x in active && x in processed ==> x in Flatten(waves)
    requires forall x :: x in turns ==> x in batch
    requires Increasing(turns)
    requires forall x :: x in batch && x in after ==> x in turns
    ensures forall i :: 0 <= i < |waves + [turns]| ==> Increasing((waves + [turns])[i])
    ensures Distinct(Flatten(waves + [turns]))
    ensures forall x :: x in Flatten(waves + [turns]) ==> x in processed + (active - processed)
    ensures forall x :: x in after && x in processed + (active - processed) ==> x in Flatten(waves + [turns])
    ensures forall x :: x in processed + (active - processed) ==> x <= maxAfter
  {
    FlattenSnoc(waves, turns);
    WavesStayIncreasing(waves, turns);
    WavesStayDistinct(Flatten(waves), turns, batch, processed, active);
    forall x | x in after && x in processed + (active - processed)
      ensures x in Flatten(waves) + turns
    {
      if x in processed {
        assert x in active;
      } else {
        assert x in batch;
      }
    }
  }

  /** Appending an ascending wave keeps every wave ascending. */
  lemma WavesStayIncreasing(waves: seq<seq<int>>, turns: seq<int>)
    requires forall i :: 0 <= i < |waves| ==> Increasing(waves[i])
    requires Increasing(turns)
    ensures forall i :: 0 <= i < |waves + [turns]| ==> Increasing((waves + [turns])[i])
  {
    forall i | 0 <= i < |waves + [turns]| ensures Increasing((waves + [turns])[i]) {
      if i < |waves| {
        assert (waves + [turns])[i] == waves[i];
      }
    }
  }

  /** The new wave's clouds were unprocessed, so the record stays free of repeats. */
  lemma WavesStayDistinct(listed: seq<int>, turns: seq<int>, batch: seq<int>, processed: set<int>, active: set<int>)
    requires batch == Ascending(active - processed)
    requires Distinct(listed)
    requires forall x :: x in listed ==> x in processed
    requires forall x :: x in turns ==> x in batch
    requires Increasing(turns)
    ensures Distinct(listed + turns)
  {
    IncreasingIsDistinct(turns);
    DistinctConcat(listed, turns);
  }

  /** Every id in a wave's batch has been handed out by the allocator. */
  lemma BatchBelowMax(w: World, processed: set<int>)
    requires Valid(w)
    ensures forall x :: x in w.clouds ==> x <= w.maxCloudId
    ensures forall j :: 0 <= j < |Ascending(w.clouds.Keys - processed)| ==>
              Ascending(w.clouds.Keys - processed)[j] <= w.maxCloudId
  {
    var batch := Ascending(w.clouds.Keys - processed);
    forall j | 0 <= j < |batch| ensures batch[j] <= w.maxCloudId {
      assert batch[j] in batch;
    }
  }

  /** A wave over a non-empty batch strictly lowers the loop's measure. */
  lemma WaveLowersCount(active: set<int>, processed: set<int>, after: set<int>)
    requires active - processed != {}
    requires |after| + |after - active| <= |active| + |active - active|
    ensures |after| + |after - (processed + (active - processed))| < |active| + |active - processed|
  {
    assert active - active == {};
    SubsetCard(after - (processed + (active - processed)), after - active);
    NonEmptyHasMember(active - processed);
    var x :| x in active - processed;
    SubsetCard({x}, active - processed);
  }
}
