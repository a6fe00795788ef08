/**
 Two store updates as the controller writes them, next to the occupancy
 promise of `lookupCloud` they break. The rest of the model uses the
 corrected forms (`CloudStore.UpdateCloudLocation` and
 `Controller.CreateCloud`).
 */
module Findings {
  import opened Collections
  import opened Clouds
  import opened Tiles
  import opened CloudStore
  import opened Weather

  /**
   `updateCloudLocation` as written: the cloud moves and spends a unit of
   quota, but the index entry stays under the tile it left.
   */
  function UpdateCloudLocationAsWritten(w: World, id: int, next: int): (r: World)
    requires id in w.clouds
    ensures r.clouds == UpdateCloudLocation(w, id, next).clouds
    ensures r.occupancy == w.occupancy
    ensures r.tiles == w.tiles && r.maxCloudId == w.maxCloudId
  {
    w.(clouds := w.clouds[id := DecrementMovementQuota(SetLocation(w.clouds[id], next))])
  }

  /**
   Every real move made the written way breaks the index: the tile left
   still names the cloud, which now stands elsewhere, and the tile entered
   does not name it.
   */
  lemma UpdateCloudLocationAsWrittenBreaksOccupancy(w: World, id: int, next: int)
    requires Valid(w) && id in w.clouds
    requires next != w.clouds[id].location
    ensures var r := UpdateCloudLocationAsWritten(w, id, next);
      && LookupCloud(r, w.clouds[id].location) == Some(id)
      && r.clouds[id].location == next
      && LookupCloud(r, next) != Some(id)
      && !Occupancy(r)
  {
  }

  /**
   `createCloud` as written: on an occupied tile the merged cloud is added
   first and the cloud that was there removed second; both sit on the same
   tile, so the removal deletes the merged cloud's fresh index entry.
   */
  function CreateCloudAsWritten(w: World, tileId: int, duration: int, amount: int): (r: World)
    requires Valid(w)
    ensures LookupCloud(w, tileId).None? ==> r == AddCloud(w.(maxCloudId := w.maxCloudId + 1),
                                                          NewCloud(w.maxCloudId + 1, duration, amount, tileId))
    ensures LookupCloud(w, tileId).Some? ==>
              && r.maxCloudId == w.maxCloudId + 2
              && r.clouds.Keys == w.clouds.Keys - {LookupCloud(w, tileId).value} + {r.maxCloudId}
              && r.clouds[r.maxCloudId].location == tileId
  {
    var created := NewCloud(w.maxCloudId + 1, duration, amount, tileId);
    match LookupCloud(w, tileId)
    case None =>
      AddCloud(w.(maxCloudId := created.id), created)
    case Some(priorId) =>
      var prior := w.clouds[priorId];
      var merged := Merge(created, prior, w.maxCloudId + 2);
      RemoveCloud(AddCloud(w.(maxCloudId := merged.id), merged), prior)
  }

  /**
   A cloud created the written way on an occupied tile leaves the merged
   cloud active on the tile but unindexed: `lookupCloud` reports the tile
   free, so a cloud moving there next would not merge with it.
   */
  lemma CreateCloudAsWrittenLosesIndex(w: World, tileId: int, duration: int, amount: int)
    requires Valid(w)
    requires LookupCloud(w, tileId).Some?
    ensures var r := CreateCloudAsWritten(w, tileId, duration, amount);
      && r.maxCloudId in r.clouds
      && r.clouds[r.maxCloudId].location == tileId
      && LookupCloud(r, tileId).None?
      && !Occupancy(r)
  {
  }

  /** A one-cloud world: cloud 0 over field 1, with field 2 free. */
  function SampleWorld(): (w: World)
    ensures Valid(w)
    ensures LookupCloud(w, 1) == Some(0) && LookupCloud(w, 2).None?
  {
    var field := Farmable(FIELD, NewSoil(100));
    World(map[1 := field, 2 := field], map[0 := NewCloud(0, 3, 6000, 1)], map[1 := 0], 0)
  }

  /**
   Both defects on concrete inputs: moving cloud 0 to field 2, and creating
   a cloud over field 1, each leave the index wrong; the corrected forms
   keep it.
   */
  lemma FindingsOnSampleWorld()
    ensures !Occupancy(UpdateCloudLocationAsWritten(SampleWorld(), 0, 2))
    ensures Valid(UpdateCloudLocation(SampleWorld(), 0, 2))
    ensures !Occupancy(CreateCloudAsWritten(SampleWorld(), 1, 4, 1000))
  {
    UpdateCloudLocationAsWrittenBreaksOccupancy(SampleWorld(), 0, 2);
    CreateCloudAsWrittenLosesIndex(SampleWorld(), 1, 4, 1000);
  }
}
