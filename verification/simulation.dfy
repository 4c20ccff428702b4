/** The simulation loop's own variables, updated in place once per frame. */
module Simulation {
  import opened Numeric
  import opened Control

  class Racer {
    // Carried from frame to frame by the control step.
    var carPos: Vec2
    var linePos: Vec2
    var lastDistance: real
    var dirVector: Vec2
    var engine: EngineId
    // Written only by the operator's controls, read by the control step.
    var carSpeed: real
    var carMaxTurnVector: Vec2
    var lineController: int

    /** The carried state as a value. */
    function Snapshot(): State
      reads this
    {
      State(carPos, linePos, lastDistance, dirVector, engine)
    }

    /** The operator's settings as a value. */
    function Tuning(): Settings
      reads this
    {
      Settings(carSpeed, carMaxTurnVector, lineController)
    }

    /** The values set up before the loop starts. */
    constructor ()
      ensures Snapshot() == Start && Tuning() == Defaults
    {
      carPos := Vec2(200.0, 300.0);
      linePos := Vec2(400.0, 300.0);
      carMaxTurnVector := Vec2(0.75, 0.2);
      dirVector := Vec2(0.0, 0.0);
      carSpeed := 250.0;
      lastDistance := 400.0 - 200.0;
      engine := Mamdani1;
      lineController := 0;
    }

    /** The engine selector: positions 0 to 4 pick the five engines in order,
        any other position keeps the engine in use. */
    method SelectEngine(selectedFis: int)
      modifies this`engine
      ensures engine == Selected(old(engine), selectedFis)
      ensures 0 <= selectedFis < 5 ==> IndexOf(engine) == selectedFis
      ensures !(0 <= selectedFis < 5) ==> engine == old(engine)
    {
      if selectedFis == 0 {
        engine := Mamdani1;
      } else if selectedFis == 1 {
        engine := Mamdani2;
      } else if selectedFis == 2 {
        engine := Sugeno1;
      } else if selectedFis == 3 {
        engine := Sugeno2;
      } else if selectedFis == 4 {
        engine := LastYear;
      }
    }

    /** The line controller: the sine and noise controllers place the line at
        centre - sample * amplitude; the manual controller and any other
        selection leave it where it is. */
    method MoveLine(frame: Frame)
      modifies this`linePos
      ensures linePos == DriveLine(old(linePos), lineController, frame)
    {
      if lineController == 0 {
        linePos := linePos.(x := LineCentre - frame.sine * LineAmplitude);
      } else if lineController == 1 {
        linePos := linePos.(x := LineCentre - frame.noise * LineAmplitude);
      }
    }

    /** The engine's two inputs: the offset from the car to the line and its
        shrinkage since the previous frame, each scaled and guarded to [-1, 1]. */
    method Inputs() returns (distance: real, distanceNormalised: real, velocityNormalised: real)
      ensures distance == Offset(linePos, carPos)
      ensures distanceNormalised == NormalisedDistance(distance)
      ensures velocityNormalised == NormalisedVelocity(lastDistance, distance)
    {
      distance := linePos.x - carPos.x;
      distanceNormalised := Clamp(distance / DistanceDivisor, 1.0);
      var diffDistance := lastDistance - distance;
      velocityNormalised := Clamp(diffDistance / VelocityDivisor, 1.0);
    }

    /** The steering vector for the engine's output, each axis guarded by its limit. */
    method Steering(direction: real) returns (dir: Vec2)
      ensures dir == Command(direction, carMaxTurnVector)
    {
      var dx := Clamp(direction * carMaxTurnVector.x, carMaxTurnVector.x);
      var dy := Clamp(carMaxTurnVector.y, carMaxTurnVector.y);
      dir := Vec2(dx, dy);
    }

    /** One frame: move the line, feed the normalised offset and its change to
        the selected engine, and, unless its output is not a number, store the
        limited steering vector, move the car one Euler step and remember the
        offset. `ok` is false exactly when the engine's output is not a number;
        the line has then already moved but the car's state is untouched. */
    method Tick(frame: Frame, fis: Engines) returns (ok: bool)
      modifies this
      ensures Tuning() == old(Tuning())
      ensures ok == Step(old(Snapshot()), old(Tuning()), frame, fis).Ok?
      ensures ok ==> Snapshot() == Step(old(Snapshot()), old(Tuning()), frame, fis).value
      ensures ok ==> WithinLimits(dirVector, carMaxTurnVector) && carPos.y == old(carPos.y)
      ensures ok ==> lastDistance == linePos.x - old(carPos.x)
      ensures !ok ==> linePos == DriveLine(old(linePos), lineController, frame)
      ensures !ok ==> carPos == old(carPos) && dirVector == old(dirVector)
      ensures !ok ==> lastDistance == old(lastDistance) && engine == old(engine)
    {
      ghost var before, settings := Snapshot(), Tuning();
      MoveLine(frame);
      var distance, distanceNormalised, velocityNormalised := Inputs();
      var reading := fis(engine, distanceNormalised, velocityNormalised);
      StepOutcome(before, settings, frame, fis, linePos, distance);
      if reading.NaN? {
        return false;
      }
      dirVector := Steering(reading.value);
      carPos := Advance(carPos, dirVector, carSpeed, frame.delta);
      lastDistance := distance;
      ok := true;
    }
  }
}
