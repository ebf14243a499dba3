/**
 * The parts of the rFactor 2 shared-memory records that the telemetry loop
 * reads. Field names follow the rF2 structures (mID, mControl, mIsPlayer,
 * mNumVehicles, mGamePhase, mWheels, ...); the full layouts and enum constants
 * are not part of this model, so control mode and game phase keep only the
 * cases the loop distinguishes.
 */
module Rf2Data {
  import opened Wrappers

  /** A C# double, carried bit for bit; the model only copies temperatures, never computes with them. */
  datatype Double = Double(bits: bv64)

  /** default(double), positive zero. */
  const Zero: Double := Double(0)

  /** mTireInnerLayerTemperature: a fixed array of three readings. */
  type InnerLayer = s: seq<Double> | |s| == 3 witness [Zero, Zero, Zero]

  /** rF2Wheel: the array is null in a default-constructed wheel. */
  datatype Rf2Wheel = Rf2Wheel(tireInnerLayerTemperature: Option<InnerLayer>, tireCarcassTemperature: Double)

  /** rF2VehicleTelemetry. */
  datatype Rf2VehicleTelemetry = Rf2VehicleTelemetry(id: int, wheels: seq<Rf2Wheel>)

  /** rF2Telemetry: mNumVehicles and the fixed mVehicles array. */
  datatype Rf2Telemetry = Rf2Telemetry(numVehicles: int, vehicles: seq<Rf2VehicleTelemetry>)

  /** rF2Control, with every mode other than AI, Player and Remote folded into one case. */
  datatype Rf2Control = AI | Player | Remote | OtherControl

  /** rF2GamePhase, with every phase other than GreenFlag folded into one case. */
  datatype Rf2GamePhase = GreenFlag | OtherPhase

  /** rF2VehicleScoring: mID, mControl and the mIsPlayer byte. */
  datatype Rf2VehicleScoring = Rf2VehicleScoring(id: int, control: Rf2Control, isPlayer: int)

  /** rF2ScoringInfo. */
  datatype Rf2ScoringInfo = Rf2ScoringInfo(numVehicles: int, gamePhase: Rf2GamePhase)

  /** rF2Scoring: the scoring info and the fixed mVehicles array. */
  datatype Rf2Scoring = Rf2Scoring(scoringInfo: Rf2ScoringInfo, vehicles: seq<Rf2VehicleScoring>)

  /** `new rF2Telemetry()`: mNumVehicles 0; mVehicles is null in the source, modelled as empty and never read while the count is 0. */
  const DefaultTelemetry: Rf2Telemetry := Rf2Telemetry(0, [])

  /** `new rF2Scoring()`: mVehicles is null in the source; modelled as empty and never read while the count is 0. Phase 0 is not GreenFlag. */
  const DefaultScoring: Rf2Scoring := Rf2Scoring(Rf2ScoringInfo(0, OtherPhase), [])

  /** `new rF2VehicleScoring()`: mID 0, mIsPlayer 0; its control mode is never read by the loop. */
  const DefaultVehicleScoring: Rf2VehicleScoring := Rf2VehicleScoring(0, OtherControl, 0)

  /** `new rF2VehicleTelemetry()`: mID 0; mWheels is null in the source, modelled as empty and never read before the record is overwritten by a lookup. */
  const DefaultVehicleTelemetry: Rf2VehicleTelemetry := Rf2VehicleTelemetry(0, [])
}
