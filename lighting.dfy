/** The light control: a lux meter driven by a simulated sensor, a slider that
    sets the reading by hand, a roof that opens and closes, a status badge and a
    percentage gauge. */
module Lighting {
  import opened Sensor

  const MAX_LUX: real := 40000.0
  const MIN_LUX: real := 20000.0
  const OPTIMAL_LUX_LOW: real := 25000.0
  const OPTIMAL_LUX_HIGH: real := 35000.0
  /** The reading the control starts from, inside the optimal band. */
  const INITIAL_LUX: real := 26000.0
  /** A tick moves the reading by a random amount in [-JITTER, JITTER). */
  const JITTER: real := 2000.0

  /** One point of the lux chart; the time label comes from the clock. */
  datatype LightPoint = LightPoint(time: string, lux: int)

  /** `Math.round`: the nearest integer, halves rounded up. */
  function Round(x: real): (n: int)
    ensures x - 0.5 < n as real <= x + 0.5
  {
    (x + 0.5).Floor
  }

  /** The reading after one tick: the previous one moved by `variation`, clamped
      into [0, MAX_LUX]. */
  function NextLux(lux: real, variation: real): (r: real)
    ensures 0.0 <= r <= MAX_LUX
    ensures 0.0 <= lux + variation <= MAX_LUX ==> r == lux + variation
  {
    Clamp(lux + variation, 0.0, MAX_LUX)
  }

  /** From an in-range reading one tick moves the lux by at most 2000; from 26000
      it lands in [24000, 28000]. */
  lemma TickStaysClose(lux: real, variation: real)
    requires 0.0 <= lux <= MAX_LUX && -JITTER <= variation < JITTER
    ensures Dist(NextLux(lux, variation), lux) <= JITTER
    ensures lux == INITIAL_LUX ==> 24000.0 <= NextLux(lux, variation) <= 28000.0
  {
    StepBounded(lux, variation, 0.0, MAX_LUX, JITTER);
  }

  /** The chart stores the rounded reading, which stays within [0, 40000]. */
  lemma RoundInRange(x: real)
    requires 0.0 <= x <= MAX_LUX
    ensures 0 <= Round(x) <= 40000
  {
  }

  /** The gauge's percentage: the reading as a rounded share of MAX_LUX. */
  function Percentage(lux: real): (p: int)
    ensures 0.0 <= lux <= MAX_LUX ==> 0 <= p <= 100
  {
    Round(lux / MAX_LUX * 100.0)
  }

  datatype LightStatus = TooLow | Optimal | TooHigh | Moderate {
    function Label(): string {
      match this
      case TooLow => "Too Low"
      case Optimal => "Optimal"
      case TooHigh => "Too High"
      case Moderate => "Moderate"
    }

    function Color(): string {
      match this
      case TooLow => "bg-red-100 text-red-700 border-red-300"
      case Optimal => "bg-green-100 text-green-700 border-green-300"
      case TooHigh => "bg-yellow-100 text-yellow-800 border-yellow-300"
      case Moderate => "bg-blue-100 text-blue-700 border-blue-300"
    }
  }

  /** `getStatusDetails`: the checks in the order the control makes them. */
  function StatusOf(lux: real): LightStatus
  {
    if lux < MIN_LUX then TooLow
    else if OPTIMAL_LUX_LOW <= lux <= OPTIMAL_LUX_HIGH then Optimal
    else if lux > OPTIMAL_LUX_HIGH then TooHigh
    else Moderate
  }

  /** The four statuses are exactly four bands of the lux axis, both ends of
      the optimal band included. */
  lemma StatusBands(lux: real)
    ensures StatusOf(lux) == TooLow <==> lux < 20000.0
    ensures StatusOf(lux) == Moderate <==> 20000.0 <= lux < 25000.0
    ensures StatusOf(lux) == Optimal <==> 25000.0 <= lux <= 35000.0
    ensures StatusOf(lux) == TooHigh <==> lux > 35000.0
  {
  }

  /** Each status shows its own label, so the badge always names exactly one
      status. */
  lemma LabelsDistinct(a: LightStatus, b: LightStatus)
    ensures a.Label() == b.Label() <==> a == b
  {
  }

  class LightControl {
    var lux: real
    var data: seq<LightPoint>
    var roofClosed: bool

    /** The reading stays in the sensor's range and the chart holds at most 20
        points, each within [0, 40000]. */
    ghost predicate Valid()
      reads this
    {
      && 0.0 <= lux <= MAX_LUX
      && |data| <= HISTORY_CAPACITY
      && forall k :: 0 <= k < |data| ==> 0 <= data[k].lux <= 40000
    }

    constructor ()
      ensures Valid()
      ensures lux == INITIAL_LUX && data == [] && !roofClosed
    {
      lux := INITIAL_LUX;
      data := [];
      roofClosed := false;
    }

    /** The interval callback, with `variation` standing for the random move
        and `time` for the clock's label. */
    method Tick(variation: real, time: string)
      requires Valid() && -JITTER <= variation < JITTER
      modifies this
      ensures Valid()
      ensures lux == NextLux(old(lux), variation)
      ensures Dist(lux, old(lux)) <= JITTER
      ensures data == Push(old(data), LightPoint(time, Round(lux)))
      ensures roofClosed == old(roofClosed)
    {
      var newLux := NextLux(lux, variation);
      TickStaysClose(lux, variation);
      RoundInRange(newLux);
      var point := LightPoint(time, Round(newLux));
      lux := newLux;
      data := Push(data, point);
    }

    /** `handleSliderChange`: the range input yields a whole number in [0, MAX_LUX]. */
    method SetFromSlider(value: int)
      requires Valid() && 0 <= value <= 40000
      modifies this
      ensures Valid()
      ensures lux == value as real && data == old(data) && roofClosed == old(roofClosed)
    {
      lux := value as real;
    }

    /** `toggleRoof`; toggling twice therefore restores the roof. */
    method ToggleRoof()
      modifies this
      ensures roofClosed == !old(roofClosed)
      ensures lux == old(lux) && data == old(data)
    {
      roofClosed := !roofClosed;
    }

    function Status(): LightStatus
      reads this
    {
      StatusOf(lux)
    }

    /** The percentage the gauge shows. */
    function Percent(): (p: int)
      reads this
      requires Valid()
      ensures 0 <= p <= 100
    {
      Percentage(lux)
    }
  }
}
