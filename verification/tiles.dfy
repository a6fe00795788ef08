/**
 Tiles as the environment engine sees them: a category, and for farmable
 tiles the soil state (moisture capacity, current moisture, current sunlight)
 that rain and cloud cover change.
 */
module Tiles {

  datatype TileCategory = VILLAGE | FIELD | PLANTATION | ROAD | MEADOW | FARMSTEAD | FOREST

  /** The mutable soil fields of a farmable tile. */
  datatype Soil = Soil(moistureCapacity: int, currentMoisture: int, currentSunlight: int)

  /**
   A farmable tile carries soil; an unfarmable one only a category. The
   category is modelled as changeable because a tile may become a village.
   */
  datatype Tile =
    | Farmable(category: TileCategory, soil: Soil)
    | Unfarmable(category: TileCategory)

  /** The categories whose soil takes up rain only up to its capacity. */
  predicate HasMoistureCapacity(category: TileCategory) {
    category == FIELD || category == PLANTATION
  }

  /** The soil bounds the engine maintains: moisture within capacity, sunlight never negative. */
  predicate SoilInBounds(s: Soil) {
    s.currentMoisture <= s.moistureCapacity && s.currentSunlight >= 0
  }

  /** A freshly built farmable tile: soil full to capacity, no sunlight yet. */
  function NewSoil(moistureCapacity: int): (s: Soil)
    ensures s.moistureCapacity == moistureCapacity
    ensures CalculateReqRain(s) == 0
    ensures s.currentSunlight == 0
    ensures moistureCapacity >= 0 ==> SoilInBounds(s)
  {
    Soil(moistureCapacity, moistureCapacity, 0)
  }

  /** Lowers sunlight by `amt`, never below zero. */
  function ReduceSunlight(s: Soil, amt: int): (r: Soil)
    ensures r.currentSunlight >= 0
    ensures r.currentSunlight == 0 || r.currentSunlight == s.currentSunlight - amt
    ensures s.currentSunlight - amt >= 0 ==> r.currentSunlight == s.currentSunlight - amt
    ensures amt >= 0 && s.currentSunlight >= 0 ==> r.currentSunlight <= s.currentSunlight
    ensures r.moistureCapacity == s.moistureCapacity && r.currentMoisture == s.currentMoisture
  {
    var lowered := s.currentSunlight - amt;
    s.(currentSunlight := if lowered > 0 then lowered else 0)
  }

  /** The rain the soil still takes before it is full. */
  function CalculateReqRain(s: Soil): (r: int)
    ensures s.currentMoisture + r == s.moistureCapacity
    ensures r >= 0 <==> s.currentMoisture <= s.moistureCapacity
  {
    s.moistureCapacity - s.currentMoisture
  }

  /** Adds `amt` moisture, never above capacity. */
  function IncreaseMoisture(s: Soil, amt: int): (r: Soil)
    ensures r.currentMoisture <= s.moistureCapacity
    ensures r.currentMoisture == s.moistureCapacity || r.currentMoisture == s.currentMoisture + amt
    ensures amt <= CalculateReqRain(s) ==> r.currentMoisture == s.currentMoisture + amt
    ensures r.moistureCapacity == s.moistureCapacity && r.currentSunlight == s.currentSunlight
  {
    var raised := s.currentMoisture + amt;
    s.(currentMoisture := if raised < s.moistureCapacity then raised else s.moistureCapacity)
  }

  /** Fills the soil to capacity. */
  function Irrigate(s: Soil): (r: Soil)
    ensures CalculateReqRain(r) == 0
    ensures r.moistureCapacity == s.moistureCapacity && r.currentSunlight == s.currentSunlight
  {
    s.(currentMoisture := s.moistureCapacity)
  }

  function SetCurrentSunlight(s: Soil, amount: int): (r: Soil)
    ensures r.currentSunlight == amount
    ensures r.moistureCapacity == s.moistureCapacity && r.currentMoisture == s.currentMoisture
  {
    s.(currentSunlight := amount)
  }

  /** Raising moisture by exactly the required rain is the same as irrigating. */
  lemma IncreaseByReqRainIsIrrigate(s: Soil)
    ensures IncreaseMoisture(s, CalculateReqRain(s)) == Irrigate(s)
  {
  }

  /** Two non-negative sunlight reductions compose into one. */
  lemma ReduceSunlightComposes(s: Soil, a: int, b: int)
    requires a >= 0 && b >= 0
    ensures ReduceSunlight(ReduceSunlight(s, a), b) == ReduceSunlight(s, a + b)
  {
  }

  /** Every soil mutator keeps the soil bounds. */
  lemma MutatorsKeepBounds(s: Soil, amt: int, x: int)
    requires SoilInBounds(s)
    ensures SoilInBounds(ReduceSunlight(s, amt))
    ensures SoilInBounds(IncreaseMoisture(s, amt))
    ensures SoilInBounds(Irrigate(s))
    ensures x >= 0 ==> SoilInBounds(SetCurrentSunlight(s, x))
  {
  }
}
