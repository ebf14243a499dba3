/**
 * The outbound message of TelemetryApp/Telemetry.cs: per wheel, the three
 * inner-layer rubber temperatures and the carcass temperature of the selected
 * vehicle, copied out of its rF2VehicleTelemetry.
 */
module TelemetryMessage {
  import opened Rf2Data

  /** RubberTemperature: Left, Right, Middle, each 0 unless set. */
  datatype RubberTemperature = RubberTemperature(left: Double, right: Double, middle: Double)

  /** CarcassTemperature: Value. */
  datatype CarcassTemperature = CarcassTemperature(value: Double)

  /** Telemetry: one rubber and one carcass entry per wheel, in wheel order. */
  datatype Telemetry = Telemetry(rubberTemperatures: seq<RubberTemperature>, carcassTemperatures: seq<CarcassTemperature>)

  /** The readings of a RubberTemperature in the source array's index order: Left, Right, Middle. */
  function Readings(r: RubberTemperature): (s: InnerLayer)
  {
    [r.left, r.right, r.middle]
  }

  /**
   * `new RubberTemperature(wheel)`: index 0 into Left, 1 into Right, 2 into
   * Middle when the inner-layer array is present; all three stay 0 otherwise.
   */
  function RubberTemperatureOf(wheel: Rf2Wheel): RubberTemperature
  {
    match wheel.tireInnerLayerTemperature
    case Some(layer) => RubberTemperature(layer[0], layer[1], layer[2])
    case None => RubberTemperature(Zero, Zero, Zero)
  }

  /** `new CarcassTemperature(wheel)`. */
  function CarcassTemperatureOf(wheel: Rf2Wheel): CarcassTemperature
  {
    CarcassTemperature(wheel.tireCarcassTemperature)
  }

  /** `new Telemetry(ref telemetry)`: the two projections of mWheels. */
  function TelemetryOf(vehicle: Rf2VehicleTelemetry): (t: Telemetry)
    ensures |t.rubberTemperatures| == |vehicle.wheels| == |t.carcassTemperatures|
  {
    Telemetry(
      seq(|vehicle.wheels|, i requires 0 <= i < |vehicle.wheels| => RubberTemperatureOf(vehicle.wheels[i])),
      seq(|vehicle.wheels|, i requires 0 <= i < |vehicle.wheels| => CarcassTemperatureOf(vehicle.wheels[i])))
  }

  /** The wheel data a message carries, read back out of it: the inner-layer readings and the carcass value of wheel i. */
  function WheelReadings(t: Telemetry, i: nat): (InnerLayer, Double)
    requires i < |t.rubberTemperatures| && i < |t.carcassTemperatures|
  {
    (Readings(t.rubberTemperatures[i]), t.carcassTemperatures[i].value)
  }

  /**
   * The message built from a vehicle gives back, wheel by wheel and in wheel
   * order, that wheel's inner-layer array (zeros when it is null) and its
   * carcass temperature.
   */
  lemma MessageCarriesWheelTemperatures(vehicle: Rf2VehicleTelemetry, i: nat)
    requires i < |vehicle.wheels|
    ensures var w := vehicle.wheels[i];
      WheelReadings(TelemetryOf(vehicle), i) ==
        (if w.tireInnerLayerTemperature.Some? then w.tireInnerLayerTemperature.value else [Zero, Zero, Zero],
         w.tireCarcassTemperature)
  {
    var w := vehicle.wheels[i];
    if w.tireInnerLayerTemperature.Some? {
      var layer := w.tireInnerLayerTemperature.value;
      assert layer == [layer[0], layer[1], layer[2]];
    }
  }
}
