/**
 * The demo generator (`generate_demo_reading`). The random draws and the clock
 * hour are inputs; what is modelled is how the reading is built from them.
 */
module Demo {
  import opened Wrappers
  import opened Readings

  const HvacName: string := "HVAC"
  const KitchenName: string := "Kitchen"
  const LivingRoomName: string := "Living Room"
  const OfficeName: string := "Office"

  /** The random draws of one demo tick, in the roles the generator gives them. */
  datatype DemoDraw = DemoDraw(
    baseJitter: real,   // uniform(-100, 100)
    peakExtra: real,    // uniform(200, 500), used in peak hours only
    noiseA: real,       // uniform(-50, 50)
    noiseB: real,       // uniform(-50, 50)
    hvacRoll: real,     // random() in [0, 1)
    hvac: real,         // uniform(100, 400), used when hvacRoll > 0.3
    kitchen: real,      // uniform(50, 200)
    livingRoom: real,   // uniform(20, 80)
    office: real)       // uniform(30, 150)

  /** The ranges the random draws come from. */
  predicate DrawInRange(d: DemoDraw) {
    && -100.0 <= d.baseJitter <= 100.0
    && 200.0 <= d.peakExtra <= 500.0
    && -50.0 <= d.noiseA <= 50.0
    && -50.0 <= d.noiseB <= 50.0
    && 0.0 <= d.hvacRoll < 1.0
    && 100.0 <= d.hvac <= 400.0
    && 50.0 <= d.kitchen <= 200.0
    && 20.0 <= d.livingRoom <= 80.0
    && 30.0 <= d.office <= 150.0
  }

  /** The morning (6 to 9 o'clock) and evening (17 to 21 o'clock) peaks, both ends included. */
  predicate IsPeakHour(hour: int) {
    (6 <= hour <= 9) || (17 <= hour <= 21)
  }

  /** The synthetic reading at time `ts` and clock hour `hour`. */
  function DemoReading(ts: int, hour: int, d: DemoDraw): (r: Reading)
    ensures r.ts == ts
    ensures r.circuits.Keys == {HvacName, KitchenName, LivingRoomName, OfficeName}
    ensures r.phaseA.Some? && r.phaseB.Some?
  {
    var total := 800.0 + d.baseJitter + (if IsPeakHour(hour) then d.peakExtra else 0.0);
    Reading(
      ts,
      total,
      Some(total * 0.55 + d.noiseA),
      Some(total * 0.45 + d.noiseB),
      map[HvacName := if d.hvacRoll > 0.3 then d.hvac else 0.0,
          KitchenName := d.kitchen,
          LivingRoomName := d.livingRoom,
          OfficeName := d.office])
  }

  /** The total stays within 700..900 W off-peak and 900..1400 W in the peaks. */
  lemma DemoTotalBounds(ts: int, hour: int, d: DemoDraw)
    requires DrawInRange(d)
    ensures IsPeakHour(hour) ==> 900.0 <= DemoReading(ts, hour, d).total <= 1400.0
    ensures !IsPeakHour(hour) ==> 700.0 <= DemoReading(ts, hour, d).total <= 900.0
  {
  }

  /** The HVAC circuit is idle (0 W, key still present) exactly when the roll is at most 0.3. */
  lemma DemoHvacIdle(ts: int, hour: int, d: DemoDraw)
    requires DrawInRange(d)
    ensures DemoReading(ts, hour, d).circuits[HvacName] == 0.0 <==> d.hvacRoll <= 0.3
  {
  }
}
