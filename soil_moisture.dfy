/** The multi-plant soil-moisture monitor: every tick each plant's moisture
    drifts by a random jitter within [0, 100], and its reading joins that
    plant's 20-point history. */
module SoilMoisture {
  import opened Sensor

  const MAX_MOISTURE: real := 100.0
  /** A tick moves each reading by a random amount in [-JITTER, JITTER). */
  const JITTER: real := 5.0
  const DRY_BELOW: real := 30.0
  const WET_ABOVE: real := 70.0

  datatype MoisturePoint = MoisturePoint(time: string, moisture: real)

  datatype Plant = Plant(id: string, name: string, moisture: real, history: seq<MoisturePoint>)

  /** `generateRandomMoisture`, with the random part passed in. */
  function NextMoisture(prev: real, variation: real): (r: real)
    ensures 0.0 <= r <= MAX_MOISTURE
    ensures 0.0 <= prev + variation <= MAX_MOISTURE ==> r == prev + variation
  {
    Clamp(prev + variation, 0.0, MAX_MOISTURE)
  }

  /** From an in-range value one tick moves the moisture by at most 5. */
  lemma MoistureStaysClose(prev: real, variation: real)
    requires 0.0 <= prev <= MAX_MOISTURE && -JITTER <= variation < JITTER
    ensures Dist(NextMoisture(prev, variation), prev) <= JITTER
  {
    StepBounded(prev, variation, 0.0, MAX_MOISTURE, JITTER);
  }

  datatype SoilStatus = Dry | Wet | Optimal {
    function Label(): string {
      match this
      case Dry => "Dry"
      case Wet => "Wet"
      case Optimal => "Optimal"
    }

    function Color(): string {
      match this
      case Dry => "bg-red-100 text-red-700"
      case Wet => "bg-blue-100 text-blue-700"
      case Optimal => "bg-green-100 text-green-700"
    }
  }

  /** `getStatus`. */
  function StatusOf(moisture: real): SoilStatus
  {
    if moisture < DRY_BELOW then Dry
    else if moisture > WET_ABOVE then Wet
    else Optimal
  }

  /** The three statuses partition the moisture axis; 30 and 70 are optimal. */
  lemma StatusBands(moisture: real)
    ensures StatusOf(moisture) == Dry <==> moisture < 30.0
    ensures StatusOf(moisture) == Optimal <==> 30.0 <= moisture <= 70.0
    ensures StatusOf(moisture) == Wet <==> moisture > 70.0
  {
  }

  /** One plant's tick: a new moisture and history, everything else kept. */
  function TickPlant(p: Plant, variation: real, now: string): (q: Plant)
    ensures q.id == p.id && q.name == p.name
    ensures 0.0 <= q.moisture <= MAX_MOISTURE
  {
    var m := NextMoisture(p.moisture, variation);
    Plant(p.id, p.name, m, Push(p.history, MoisturePoint(now, m)))
  }

  /** The tick over the plant list: every plant ticks with its own variation. */
  function TickPlants(plants: seq<Plant>, variations: seq<real>, now: string): (r: seq<Plant>)
    requires |variations| == |plants|
    ensures |r| == |plants|
    ensures forall i :: 0 <= i < |r| ==> r[i] == TickPlant(plants[i], variations[i], now)
  {
    if |plants| == 0 then []
    else [TickPlant(plants[0], variations[0], now)] + TickPlants(plants[1..], variations[1..], now)
  }

  /** A tick keeps the plants, their order, ids and names, and gives each one a
      history one point longer (up to 20) that ends with its new reading and
      keeps its most recent earlier points in order. */
  lemma TickKeepsPlants(plants: seq<Plant>, variations: seq<real>, now: string, i: int)
    requires |variations| == |plants| && 0 <= i < |plants|
    ensures var r := TickPlants(plants, variations, now);
      && |r| == |plants|
      && r[i].id == plants[i].id && r[i].name == plants[i].name
      && r[i].moisture == NextMoisture(plants[i].moisture, variations[i])
      && |r[i].history| == (if |plants[i].history| + 1 < 20 then |plants[i].history| + 1 else 20)
      && r[i].history[|r[i].history| - 1] == MoisturePoint(now, r[i].moisture)
      && forall k :: 0 <= k < |r[i].history| - 1 ==>
           r[i].history[k] == plants[i].history[|plants[i].history| - (|r[i].history| - 1) + k]
  {
    var p := plants[i];
    var q := TickPlants(plants, variations, now)[i];
    var m := NextMoisture(p.moisture, variations[i]);
    assert q == Plant(p.id, p.name, m, Push(p.history, MoisturePoint(now, m)));
  }

  class SoilMonitor {
    var plants: seq<Plant>

    /** Every moisture is in range and every history holds at most 20 points. */
    ghost predicate Valid()
      reads this
    {
      forall i :: 0 <= i < |plants| ==>
        0.0 <= plants[i].moisture <= MAX_MOISTURE && |plants[i].history| <= HISTORY_CAPACITY
    }

    constructor ()
      ensures Valid()
      ensures plants == [
        Plant("p1", "Tomato 1", 50.0, []),
        Plant("p2", "Tomato 2", 60.0, []),
        Plant("p3", "Tomato 3", 40.0, [])]
    {
      plants := [
        Plant("p1", "Tomato 1", 50.0, []),
        Plant("p2", "Tomato 2", 60.0, []),
        Plant("p3", "Tomato 3", 40.0, [])];
    }

    /** The interval callback, with one variation per plant and `now` for the
        clock's label. */
    method Tick(variations: seq<real>, now: string)
      requires Valid() && |variations| == |plants|
      requires forall i :: 0 <= i < |variations| ==> -JITTER <= variations[i] < JITTER
      modifies this
      ensures Valid()
      ensures plants == TickPlants(old(plants), variations, now)
      ensures forall i :: 0 <= i < |plants| ==> Dist(plants[i].moisture, old(plants)[i].moisture) <= JITTER
    {
      forall i | 0 <= i < |plants|
        ensures Dist(NextMoisture(plants[i].moisture, variations[i]), plants[i].moisture) <= JITTER
      {
        MoistureStaysClose(plants[i].moisture, variations[i]);
      }
      plants := TickPlants(plants, variations, now);
    }

    function Status(i: int): SoilStatus
      reads this
      requires 0 <= i < |plants|
    {
      StatusOf(plants[i].moisture)
    }
  }
}
