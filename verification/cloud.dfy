/**
 The cloud record the environment engine mutates: its fields, its two
 constructors, and its field-level mutators. Mutation is modelled by
 returning the updated record.
 */
module Clouds {

  /** Most tiles a cloud may move in one tick. */
  const MAX_MOVEMENT_QUOTA: int := 10

  /** Least water (litres) a cloud must hold before it rains. */
  const RAIN_TRIGGER_AMOUNT: int := 5000

  /** The duration value of a cloud that never expires. */
  const UNLIMITED_DURATION: int := -1

  datatype Cloud = Cloud(
    id: int,
    duration: int,
    amount: int,
    location: int,
    movementQuota: int)

  /** The four-argument constructor: every new cloud starts with a full quota. */
  function NewCloud(id: int, duration: int, amount: int, location: int): (c: Cloud)
    ensures c.movementQuota == MAX_MOVEMENT_QUOTA
    ensures c.id == id && c.duration == duration && c.amount == amount && c.location == location
  {
    Cloud(id, duration, amount, location, MAX_MOVEMENT_QUOTA)
  }

  /** The five-argument constructor: the requested quota, but never above the maximum. */
  function NewCloudWithQuota(id: int, duration: int, amount: int, location: int, quota: int): (c: Cloud)
    ensures c.movementQuota <= MAX_MOVEMENT_QUOTA
    ensures c.movementQuota <= quota
    ensures c.movementQuota == quota || c.movementQuota == MAX_MOVEMENT_QUOTA
    ensures c.id == id && c.duration == duration && c.amount == amount && c.location == location
  {
    var stored := if quota < MAX_MOVEMENT_QUOTA then quota else MAX_MOVEMENT_QUOTA;
    NewCloud(id, duration, amount, location).(movementQuota := stored)
  }

  /** Removes `amt` litres of water; no other field changes. */
  function DecreaseCloudAmount(c: Cloud, amt: int): (r: Cloud)
    ensures r.amount + amt == c.amount
    ensures r.id == c.id && r.duration == c.duration
    ensures r.location == c.location && r.movementQuota == c.movementQuota
  {
    c.(amount := c.amount - amt)
  }

  /**
   Lowers the quota by one. The source computes a floor at zero but discards
   it, so a quota of zero would become negative; callers guard with quota > 0.
   */
  function DecrementMovementQuota(c: Cloud): (r: Cloud)
    ensures r.movementQuota + 1 == c.movementQuota
    ensures c.movementQuota > 0 ==> r.movementQuota >= 0
    ensures r.id == c.id && r.duration == c.duration
    ensures r.amount == c.amount && r.location == c.location
  {
    c.(movementQuota := c.movementQuota - 1)
  }

  /**
   Water-based dissipation, the only one of the three ways a cloud dissipates
   that the cloud decides itself: no water is left (or the amount went below
   zero).
   */
  function ShouldDissipate(c: Cloud): (r: bool)
    ensures r <==> c.amount <= 0
  {
    c.amount <= 0
  }

  function SetLocation(c: Cloud, location: int): (r: Cloud)
    ensures r.location == location
    ensures r.id == c.id && r.duration == c.duration
    ensures r.amount == c.amount && r.movementQuota == c.movementQuota
  {
    c.(location := location)
  }

  /** Lowers the duration by one; like the quota, its floor at zero is discarded. */
  function DecrementDuration(c: Cloud): (r: Cloud)
    ensures r.duration + 1 == c.duration
    ensures c.duration > 0 ==> r.duration >= 0
    ensures r.id == c.id && r.amount == c.amount
    ensures r.location == c.location && r.movementQuota == c.movementQuota
  {
    c.(duration := c.duration - 1)
  }

  function SetMovementQuota(c: Cloud, quota: int): (r: Cloud)
    ensures r.movementQuota == quota
    ensures r.id == c.id && r.duration == c.duration
    ensures r.amount == c.amount && r.location == c.location
  {
    c.(movementQuota := quota)
  }

  /** `shouldDissipate()` holds exactly when no water is left. */
  lemma ShouldDissipateIffEmpty(c: Cloud, amt: int)
    ensures ShouldDissipate(DecreaseCloudAmount(c, amt)) <==> amt >= c.amount
  {
  }
}
