/** The per-frame control step of the racing-line simulation as pure functions
    over a value of the carried state: move the reference line, measure the
    car's offset from it, normalise the offset and its frame-to-frame change,
    ask the selected fuzzy engine for a direction, limit the resulting steering
    vector and integrate the car's position with one explicit Euler step. */
module Control {
  import opened Numeric

  /** Width of the window in pixels; every scale below is derived from it
      (see `ScalesFollowWindowWidth`). */
  const WindowWidth: nat := 800
  /** `windowSize.x / 4`: an offset of a quarter of the window saturates. */
  const DistanceDivisor: real := 200.0
  /** `windowSize.x / 12` in unsigned integer arithmetic: 66, not 66.67. */
  const VelocityDivisor: real := 66.0
  /** The line oscillates around the middle of the window, `windowSize.x / 2` ... */
  const LineCentre: real := 400.0
  /** ... by at most a quarter of the window when its sample lies in [-1, 1]. */
  const LineAmplitude: real := 200.0

  /** The five fuzzy inference systems loaded at start-up, in the order of the selector. */
  datatype EngineId = Mamdani1 | Mamdani2 | Sugeno1 | Sugeno2 | LastYear

  /** The value read from an engine's `direction` output: a number, or not-a-number. */
  datatype Reading = Num(value: real) | NaN

  /** The loaded engines, each queried with the normalised (distance, velocity). Their
      rule evaluation belongs to the fuzzy-logic library and is not modelled. */
  type Engines = (EngineId, real, real) -> Reading

  /** Operator-tunable values the tick reads but never writes: the car's speed,
      the per-axis steering limit `carMaxTurnVector`, and the line controller
      chosen in the selector (0 sine curve, 1 procedural noise, 2 manual). */
  datatype Settings = Settings(speed: real, maxTurn: Vec2, lineMode: int)

  /** What the outside world supplies to one frame: the elapsed time `delta`,
      and the two samples the line controllers scale (`sin` of the run time
      and the fractal noise at the run time), both produced outside the model. */
  datatype Frame = Frame(delta: real, sine: real, noise: real)

  /** The state carried from one frame to the next. */
  datatype State = State(car: Vec2, line: Vec2, lastDistance: real, dir: Vec2, engine: EngineId)

  /** Why a tick stopped: the engine's output was not a number. */
  datatype Fault = NotANumber

  datatype Result<T> = Ok(value: T) | Abort(fault: Fault)

  /** The state before the first frame: car at (200, 300), line at (400, 300),
      no steering yet, the first engine selected and the previous offset
      initialised to the current one. */
  const Start: State := State(Vec2(200.0, 300.0), Vec2(400.0, 300.0), 400.0 - 200.0, Vec2(0.0, 0.0), Mamdani1)

  /** Speed 250, steering limit (0.75, 0.2), sine-curve line controller. */
  const Defaults: Settings := Settings(250.0, Vec2(0.75, 0.2), 0)

  // ---------------------------------------------------------------- engines

  /** The engine at position `i` of the selector. */
  function EngineAt(i: int): EngineId
    requires 0 <= i < 5
  {
    if i == 0 then Mamdani1
    else if i == 1 then Mamdani2
    else if i == 2 then Sugeno1
    else if i == 3 then Sugeno2
    else LastYear
  }

  /** The selector position of an engine. */
  function IndexOf(e: EngineId): (i: nat)
    ensures i < 5 && EngineAt(i) == e
  {
    match e
    case Mamdani1 => 0
    case Mamdani2 => 1
    case Sugeno1 => 2
    case Sugeno2 => 3
    case LastYear => 4
  }

  /** Positions and engines are in one-to-one correspondence. */
  lemma IndexOfEngineAt(i: int)
    requires 0 <= i < 5
    ensures IndexOf(EngineAt(i)) == i
  {
  }

  /** The engine in use after the selector reports `selectedFis`: the engine at
      that position when it is one of the five, otherwise the current one. */
  function Selected(current: EngineId, selectedFis: int): (e: EngineId)
    ensures 0 <= selectedFis < 5 ==> IndexOf(e) == selectedFis
    ensures !(0 <= selectedFis < 5) ==> e == current
  {
    if 0 <= selectedFis < 5 then EngineAt(selectedFis) else current
  }

  /** Choosing an engine's own position selects that engine, from any current one. */
  lemma SelectedIndexOf(current: EngineId, e: EngineId)
    ensures Selected(current, IndexOf(e)) == e
  {
  }

  // --------------------------------------------------------------- distance

  /** Distance between the line and the car, ignoring the vertical axis: the
      square root of dx * dx + 0 * 0. */
  function DistanceFromLine(linePos: Vec2, carPos: Vec2): (r: real)
    ensures r >= 0.0
    ensures r * r == (linePos.x - carPos.x) * (linePos.x - carPos.x)
  {
    Abs(linePos.x - carPos.x)
  }

  /** The square-root characterisation fixes the distance as an absolute difference,
      which makes it symmetric and blind to both vertical coordinates. */
  lemma DistanceFromLineIsAbsolute(linePos: Vec2, carPos: Vec2)
    ensures DistanceFromLine(linePos, carPos) == Abs(linePos.x - carPos.x)
    ensures DistanceFromLine(linePos, carPos) == DistanceFromLine(carPos, linePos)
    ensures forall ly: real, cy: real {:trigger DistanceFromLine(Vec2(linePos.x, ly), Vec2(carPos.x, cy))} ::
      DistanceFromLine(Vec2(linePos.x, ly), Vec2(carPos.x, cy)) == DistanceFromLine(linePos, carPos)
  {
    var d := linePos.x - carPos.x;
    RootUnique(DistanceFromLine(linePos, carPos), d);
    assert (-d) * (-d) == d * d;
    RootUnique(DistanceFromLine(carPos, linePos), d);
  }

  // ---------------------------------------------------------- normalisation

  /** The raw offset from the car to the line, positive when the line is to the right. */
  function Offset(line: Vec2, car: Vec2): real
  {
    line.x - car.x
  }

  /** The engine's `distance` input: the offset in quarter-window units, saturated to [-1, 1]. */
  function NormalisedDistance(distance: real): (r: real)
    ensures -1.0 <= r <= 1.0
    ensures Abs(distance) <= DistanceDivisor ==> r == distance / DistanceDivisor
    ensures distance > DistanceDivisor ==> r == 1.0
    ensures distance < -DistanceDivisor ==> r == -1.0
  {
    Limit(distance / DistanceDivisor, 1.0)
  }

  /** The engine's `velocity` input: how much the offset shrank since the previous
      frame, in units of 66 pixels, saturated to [-1, 1]. It is positive exactly
      when the offset decreased and zero exactly when it did not change. */
  function NormalisedVelocity(lastDistance: real, distance: real): (r: real)
    ensures -1.0 <= r <= 1.0
    ensures Abs(lastDistance - distance) <= VelocityDivisor ==> r == (lastDistance - distance) / VelocityDivisor
    ensures lastDistance - distance > VelocityDivisor ==> r == 1.0
    ensures lastDistance - distance < -VelocityDivisor ==> r == -1.0
    ensures r > 0.0 <==> lastDistance > distance
    ensures r == 0.0 <==> lastDistance == distance
  {
    Limit((lastDistance - distance) / VelocityDivisor, 1.0)
  }

  // ------------------------------------------------------------- steering

  /** Every component of `v` lies within the matching limit, whatever its sign. */
  predicate WithinLimits(v: Vec2, maxTurn: Vec2)
  {
    -Abs(maxTurn.x) <= v.x <= Abs(maxTurn.x) && -Abs(maxTurn.y) <= v.y <= Abs(maxTurn.y)
  }

  /** The steering vector: (direction * max.x, max.y), each component then limited
      to its axis. For a non-negative limit and an engine output within [-1, 1]
      the x limit changes nothing; with a non-negative y limit the vertical
      component is the limit itself. */
  function Command(direction: real, maxTurn: Vec2): (r: Vec2)
    ensures WithinLimits(r, maxTurn)
    ensures maxTurn.x >= 0.0 && Abs(direction) <= 1.0 ==> r.x == direction * maxTurn.x
    ensures maxTurn.x >= 0.0 && direction > 1.0 ==> r.x == maxTurn.x
    ensures maxTurn.x >= 0.0 && direction < -1.0 ==> r.x == -maxTurn.x
    ensures maxTurn.y >= 0.0 ==> r.y == maxTurn.y
  {
    ScaledDirection(direction, maxTurn.x);
    Vec2(Limit(direction * maxTurn.x, maxTurn.x), Limit(maxTurn.y, maxTurn.y))
  }

  /** What the x guard makes of the engine's output scaled by a non-negative limit. */
  lemma ScaledDirection(direction: real, m: real)
    ensures m >= 0.0 && Abs(direction) <= 1.0 ==> Limit(direction * m, m) == direction * m
    ensures m >= 0.0 && direction > 1.0 ==> Limit(direction * m, m) == m
    ensures m >= 0.0 && direction < -1.0 ==> Limit(direction * m, m) == -m
  {
    var p := direction * m;
    if m < 0.0 {
    } else if Abs(direction) <= 1.0 {
      ScaleBound(direction, 1.0, m);
      assert -m <= p <= m;
    } else if direction > 1.0 {
      ProductSign(direction - 1.0, m);
      assert p >= m;
    } else {
      ProductSign(direction + 1.0, m);
      assert p <= -m;
    }
  }

  /** A negative x limit (the operator's slider allows down to -0.75) makes the
      two guards collapse: the command's x component is `-max.x` for every
      engine output, so the engine no longer steers the car. */
  lemma NegativeLimitIgnoresEngine(direction: real, maxTurn: Vec2)
    requires maxTurn.x < 0.0
    ensures Command(direction, maxTurn).x == -maxTurn.x
  {
  }

  // ------------------------------------------------------------ integration

  /** One explicit Euler step: the car moves horizontally with velocity
      -dir.x * speed for `delta` seconds, that is against the steering
      direction, by |dir.x * speed * delta|; its vertical position is fixed. */
  function Advance(car: Vec2, dir: Vec2, speed: real, delta: real): (r: Vec2)
    ensures r.y == car.y
    ensures Abs(r.x - car.x) == Abs(dir.x) * Abs(speed) * Abs(delta)
    ensures dir.x * speed * delta > 0.0 ==> r.x < car.x
    ensures dir.x * speed * delta < 0.0 ==> r.x > car.x
  {
    var r := Vec2(car.x - dir.x * (speed * delta), car.y);
    assert dir.x * (speed * delta) == dir.x * speed * delta;
    assert r.x - car.x == (-dir.x * speed) * delta;
    AbsMul(dir.x, speed * delta);
    AbsMul(speed, delta);
    assert Abs(dir.x) * (Abs(speed) * Abs(delta)) == Abs(dir.x) * Abs(speed) * Abs(delta);
    r
  }

  // ------------------------------------------------------------------ line

  /** The line after this frame's controller has run: the sine and noise
      controllers place it at centre - sample * amplitude, and every other
      selection (manual included) leaves it where it is. */
  function DriveLine(line: Vec2, lineMode: int, f: Frame): (r: Vec2)
    ensures r.y == line.y
    ensures lineMode == 0 ==> Abs(r.x - LineCentre) == Abs(f.sine) * LineAmplitude
    ensures lineMode == 0 && f.sine > 0.0 ==> r.x < LineCentre
    ensures lineMode == 0 && f.sine < 0.0 ==> r.x > LineCentre
    ensures lineMode == 0 && Abs(f.sine) <= 1.0 ==> Abs(r.x - LineCentre) <= LineAmplitude
    ensures lineMode == 1 ==> Abs(r.x - LineCentre) == Abs(f.noise) * LineAmplitude
    ensures lineMode == 1 && f.noise > 0.0 ==> r.x < LineCentre
    ensures lineMode == 1 && f.noise < 0.0 ==> r.x > LineCentre
    ensures lineMode == 1 && Abs(f.noise) <= 1.0 ==> Abs(r.x - LineCentre) <= LineAmplitude
    ensures lineMode != 0 && lineMode != 1 ==> r == line
  {
    if lineMode == 0 then
      ScaleBound(f.sine, 1.0, LineAmplitude);
      AbsMul(f.sine, LineAmplitude);
      line.(x := LineCentre - f.sine * LineAmplitude)
    else if lineMode == 1 then
      ScaleBound(f.noise, 1.0, LineAmplitude);
      AbsMul(f.noise, LineAmplitude);
      line.(x := LineCentre - f.noise * LineAmplitude)
    else
      line
  }

  // ------------------------------------------------------------------ tick

  /** The engine's output for this frame, given the offset measured against the moved line. */
  function Query(s: State, fis: Engines, distance: real): Reading
  {
    fis(s.engine, NormalisedDistance(distance), NormalisedVelocity(s.lastDistance, distance))
  }

  /** One frame of the control loop. It aborts exactly when the engine's output is
      not a number; otherwise the new steering vector is the guarded command for
      that output (so it respects the limits), the car takes one Euler step with
      it and keeps its vertical position, the selected engine stays selected, and
      the offset measured in this frame is remembered for the next one. */
  function Step(s: State, c: Settings, f: Frame, fis: Engines): (r: Result<State>)
    ensures var line := DriveLine(s.line, c.lineMode, f);
            r.Abort? <==> Query(s, fis, Offset(line, s.car)).NaN?
    ensures r.Ok? ==> var line := DriveLine(s.line, c.lineMode, f);
            && r.value.line == line
            && r.value.lastDistance == Offset(line, s.car)
            && r.value.engine == s.engine
            && r.value.car.y == s.car.y
            && WithinLimits(r.value.dir, c.maxTurn)
    ensures r.Ok? ==> var q := Query(s, fis, Offset(DriveLine(s.line, c.lineMode, f), s.car));
            && q.Num?
            && r.value.dir == Command(q.value, c.maxTurn)
            && r.value.car == Advance(s.car, r.value.dir, c.speed, f.delta)
  {
    var line := DriveLine(s.line, c.lineMode, f);
    var distance := Offset(line, s.car);
    match Query(s, fis, distance)
    case NaN => Abort(NotANumber)
    case Num(direction) =>
      var dir := Command(direction, c.maxTurn);
      Ok(State(Advance(s.car, dir, c.speed, f.delta), line, distance, dir, s.engine))
  }

  /** Step taken apart: which state it reaches once the line, the offset and the
      engine's output are known. */
  lemma StepOutcome(s: State, c: Settings, f: Frame, fis: Engines, line: Vec2, distance: real)
    requires line == DriveLine(s.line, c.lineMode, f) && distance == Offset(line, s.car)
    ensures Query(s, fis, distance).NaN? ==> Step(s, c, f, fis) == Abort(NotANumber)
    ensures Query(s, fis, distance).Num? ==>
              var dir := Command(Query(s, fis, distance).value, c.maxTurn);
              Step(s, c, f, fis) == Ok(State(Advance(s.car, dir, c.speed, f.delta), line, distance, dir, s.engine))
  {
  }

  /** A sequence of frames run with fixed settings, stopping at the first abort. */
  function Run(s: State, c: Settings, frames: seq<Frame>, fis: Engines): (r: Result<State>)
    ensures r.Ok? ==> r.value.engine == s.engine && r.value.car.y == s.car.y
    ensures r.Ok? && frames != [] ==> WithinLimits(r.value.dir, c.maxTurn)
    ensures r.Ok? && c.lineMode != 0 && c.lineMode != 1 ==> r.value.line == s.line
    decreases |frames|
  {
    if frames == [] then Ok(s)
    else
      match Step(s, c, frames[0], fis)
      case Abort(fault) => Abort(fault)
      case Ok(next) => Run(next, c, frames[1..], fis)
  }

  /** The time covered by a sequence of frames. */
  function Elapsed(frames: seq<Frame>): real
  {
    if frames == [] then 0.0 else frames[0].delta + Elapsed(frames[1..])
  }

  // ---------------------------------------------------------------- lemmas

  /** With a non-negative steering limit, speed and time step, a successful frame
      moves the car by at most `rate * delta`, where `rate` is limit times speed. */
  lemma StepDisplacement(s: State, c: Settings, f: Frame, fis: Engines, rate: real)
    requires c.maxTurn.x >= 0.0 && c.speed >= 0.0 && f.delta >= 0.0
    requires rate == c.maxTurn.x * c.speed
    requires Step(s, c, f, fis).Ok?
    ensures Abs(Step(s, c, f, fis).value.car.x - s.car.x) <= rate * f.delta
  {
    var next := Step(s, c, f, fis).value;
    var direction := Query(s, fis, Offset(DriveLine(s.line, c.lineMode, f), s.car)).value;
    var dir := Command(direction, c.maxTurn);
    assert next.car == Advance(s.car, dir, c.speed, f.delta);
    ProductMonotone(Abs(dir.x), c.maxTurn.x, c.speed, f.delta, rate);
  }

  /** Any step function folded over the frames, stopping at the first abort;
      `Run` is this fold for the control step. Stating a property once for an
      arbitrary step keeps the proof about a run apart from the step's arithmetic. */
  function Iterate(s: State, frames: seq<Frame>, step: (State, Frame) -> Result<State>): Result<State>
    decreases |frames|
  {
    if frames == [] then Ok(s)
    else
      match step(s, frames[0])
      case Abort(fault) => Abort(fault)
      case Ok(next) => Iterate(next, frames[1..], step)
  }

  lemma {:induction false} RunIsIterate(s: State, c: Settings, frames: seq<Frame>, fis: Engines)
    ensures Run(s, c, frames, fis) == Iterate(s, frames, (st: State, f: Frame) => Step(st, c, f, fis))
    decreases |frames|
  {
    if frames != [] && Step(s, c, frames[0], fis).Ok? {
      RunIsIterate(Step(s, c, frames[0], fis).value, c, frames[1..], fis);
    }
  }

  /** If every step moves the car by at most `rate` times its time step, a whole
      successful fold moves it by at most `rate` times the elapsed time. */
  lemma {:induction false} IterateDisplacement(s: State, frames: seq<Frame>, step: (State, Frame) -> Result<State>, rate: real)
    requires forall st: State, f: Frame :: step(st, f).Ok? && f.delta >= 0.0 ==> Abs(step(st, f).value.car.x - st.car.x) <= rate * f.delta
    requires forall f <- frames :: f.delta >= 0.0
    requires Iterate(s, frames, step).Ok?
    ensures Abs(Iterate(s, frames, step).value.car.x - s.car.x) <= rate * Elapsed(frames)
    decreases |frames|
  {
    if frames != [] {
      var next := step(s, frames[0]).value;
      var last := Iterate(next, frames[1..], step).value;
      IterateDisplacement(next, frames[1..], step, rate);
      ChainedBound(s.car.x, next.car.x, last.car.x, rate, frames[0].delta, Elapsed(frames[1..]));
    }
  }

  /** Over any successful run the car's horizontal travel is at most `rate`,
      the steering limit times the speed, times the elapsed time. */
  lemma RunDisplacement(s: State, c: Settings, frames: seq<Frame>, fis: Engines, rate: real)
    requires c.maxTurn.x >= 0.0 && c.speed >= 0.0 && forall f <- frames :: f.delta >= 0.0
    requires rate == c.maxTurn.x * c.speed
    requires Run(s, c, frames, fis).Ok?
    ensures Abs(Run(s, c, frames, fis).value.car.x - s.car.x) <= rate * Elapsed(frames)
  {
    var step := (st: State, f: Frame) => Step(st, c, f, fis);
    forall st: State, f: Frame | step(st, f).Ok? && f.delta >= 0.0
      ensures Abs(step(st, f).value.car.x - st.car.x) <= rate * f.delta
    {
      StepDisplacement(st, c, f, fis, rate);
    }
    RunIsIterate(s, c, frames, fis);
    IterateDisplacement(s, frames, step, rate);
  }

  /** Under the sine or noise controller, with every sample in [-1, 1], the line
      stays within a quarter window of the centre after any non-empty run. */
  lemma {:induction false} RunKeepsLineInBand(s: State, c: Settings, frames: seq<Frame>, fis: Engines)
    requires c.lineMode == 0 || c.lineMode == 1
    requires forall f <- frames :: Abs(f.sine) <= 1.0 && Abs(f.noise) <= 1.0
    requires frames != [] && Run(s, c, frames, fis).Ok?
    ensures Abs(Run(s, c, frames, fis).value.line.x - LineCentre) <= LineAmplitude
    decreases |frames|
  {
    var next := Step(s, c, frames[0], fis).value;
    assert Run(s, c, frames, fis) == Run(next, c, frames[1..], fis);
    if |frames| > 1 {
      RunKeepsLineInBand(next, c, frames[1..], fis);
    } else {
      assert Run(next, c, frames[1..], fis) == Ok(next);
    }
  }

  /** After a successful frame the next frame's velocity input is the normalised
      change of the raw offset between the two frames. */
  lemma NextVelocityIsOffsetChange(s: State, c: Settings, f1: Frame, f2: Frame, fis: Engines)
    requires Step(s, c, f1, fis).Ok?
    ensures var next := Step(s, c, f1, fis).value;
            var d1 := Offset(DriveLine(s.line, c.lineMode, f1), s.car);
            var d2 := Offset(DriveLine(next.line, c.lineMode, f2), next.car);
            NormalisedVelocity(next.lastDistance, d2) == NormalisedVelocity(d1, d2)
  {
  }

  /** From the start state the offset is 200, exactly the saturation point, and
      while the line holds still the first velocity input is 0. */
  lemma StartSignals()
    ensures Offset(Start.line, Start.car) == 200.0
    ensures NormalisedDistance(Offset(Start.line, Start.car)) == 1.0
    ensures NormalisedVelocity(Start.lastDistance, Offset(Start.line, Start.car)) == 0.0
  {
  }

  /** The divisors, centre and amplitude are the window width's quarter, twelfth
      (truncated) and half. */
  lemma ScalesFollowWindowWidth()
    ensures DistanceDivisor == (WindowWidth / 4) as real == LineAmplitude
    ensures VelocityDivisor == (WindowWidth / 12) as real
    ensures LineCentre == (WindowWidth / 2) as real
  {
  }

  /** Worked values: an offset falling from 200 to 190 gives velocity 10/66, and a
      command of 0.5 at speed 250 over 0.02 s moves the car from 200 to 197.5. */
  lemma WorkedValues()
    ensures NormalisedVelocity(200.0, 190.0) == 10.0 / 66.0
    ensures Advance(Vec2(200.0, 300.0), Vec2(0.5, 0.2), 250.0, 0.02) == Vec2(197.5, 300.0)
  {
  }
}
