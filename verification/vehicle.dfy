/**
 * `VehicleTask`, the plant: a vehicle on a 2400 m track whose acceleration
 * comes from the throttle, wind resistance, the brake and the slope of the
 * track section it is on. Each iteration posts the velocity, takes the
 * latest throttle, brake and engine messages, integrates position and
 * velocity over one 300 ms period, shows the velocity and the position,
 * and writes and clears the LED globals.
 *
 * `VehicleStep` states one iteration on values; `VehicleDynamics.Step` is
 * the same iteration as the task runs it, updating its variables in place.
 */
module Vehicle {
  import opened CTypes
  import opened SevenSeg
  import opened Leds

  /** `wind_factor` and `brake_factor`, both `unsigned int` in the source. */
  const WIND_FACTOR := 1
  const BRAKE_FACTOR := 4
  /** The period of the task in milliseconds, the integration step. */
  const VEHICLE_PERIOD := 300
  /** The most throttle the vehicle can apply. */
  const MAX_THROTTLE: UInt8 := 80

  /** The task's variables: `position` (`INT16U`), `velocity` (`INT16S`), the flags and the throttle last received. */
  datatype VehicleState = VehicleState(
    position: UInt16, velocity: Int16, brake: Active, engine: Active, throttle: UInt8)

  /** The non-blocking mailbox reads of one iteration: a message or nothing. */
  datatype VehicleMessages = VehicleMessages(throttle: Option<UInt8>, brake: Option<Active>, engine: Option<Active>)

  /** The task's initial values; the throttle pointer starts out with no message, taken as 0. */
  const InitialVehicle := VehicleState(0, 0, Off, Off, 0)

  /** Throttle above 80 is cut back to 80; anything else is used as received. */
  function ClampThrottle(t: UInt8): (r: UInt8)
    ensures r <= MAX_THROTTLE
    ensures r == t || (t > MAX_THROTTLE && r == MAX_THROTTLE)
  {
    if t > MAX_THROTTLE then MAX_THROTTLE else t
  }

  /**
   * The slope term of the section the vehicle is on: uphill for
   * [400, 800) and steeply for [800, 1200), downhill steeply for
   * [1600, 2000) and gently from 2000 on, flat elsewhere.
   */
  function TerrainOffset(position: UInt16): (d: int)
    ensures -4 <= d <= 4
  {
    if 400 <= position < 800 then -2
    else if 800 <= position < 1200 then -4
    else if 1600 <= position < 2000 then 4
    else if 2000 <= position then 2
    else 0
  }

  /** The slope of each 400 m section of the track, the first section first. */
  const SECTION_SLOPES: seq<int> := [0, -2, -4, 0, 4, 2]

  /**
   * The terrain is one slope per 400 m section, and every position from
   * 2000 m up to the largest `INT16U` has the last section's slope.
   */
  lemma TerrainBySection(position: UInt16)
    ensures var section := if position / 400 < 5 then position / 400 else 5;
      TerrainOffset(position) == SECTION_SLOPES[section]
  {
  }

  /**
   * `-c * velocity` with `c` an `unsigned int`: the negation and the product
   * are taken modulo 2^32 and the result is stored into an `INT16S`.
   */
  function NegScaled(c: UInt32, velocity: Int16): Int16
  {
    ToInt16(ToUInt32(ToUInt32(-(c as int)) * ToUInt32(velocity)))
  }

  /**
   * The acceleration as the source computes it. Without the brake it starts
   * from the wind term, then the throttle (when the engine is on) and the
   * slope are added, each sum stored back into the `INT16S`
   * `acceleration`. With the brake it is the braking term alone.
   */
  function Acceleration(velocity: Int16, position: UInt16, brake: Active, engine: Active, throttle: UInt8): Int16
  {
    if brake == Off then
      var wind := NegScaled(WIND_FACTOR, velocity);
      var driven := if engine == On then ToInt16(wind + throttle) else wind;
      ToInt16(driven + TerrainOffset(position))
    else
      NegScaled(BRAKE_FACTOR, velocity)
  }

  /**
   * The acceleration is the signed sum of its terms wrapped to 16 bits once:
   * the intermediate stores into the `INT16S` lose nothing more.
   */
  lemma AccelerationWrapsOnce(velocity: Int16, position: UInt16, brake: Active, engine: Active, throttle: UInt8)
    ensures var a := Acceleration(velocity, position, brake, engine, throttle);
      && (brake == On ==> a == ToInt16(-BRAKE_FACTOR * velocity))
      && (brake == Off ==>
            a == ToInt16(-(velocity as int) + (if engine == On then throttle else 0) + TerrainOffset(position)))
  {
    if brake == On {
      UnsignedNegProduct(BRAKE_FACTOR, velocity);
    } else {
      var v := -(velocity as int);
      var wind := NegScaled(WIND_FACTOR, velocity);
      UnsignedNegProduct(WIND_FACTOR, velocity);
      assert wind == ToInt16(v);
      if engine == On {
        ToInt16AddTwice(wind, v, throttle, TerrainOffset(position));
      } else {
        ToInt16Add(v, TerrainOffset(position));
      }
    }
  }

  /**
   * `position + velocity * 300 / 1000` in `int`, stored into the `INT16U`,
   * and reset to 0 past 2400. From a position on the track the vehicle
   * moves by the distance covered, truncated toward zero, and restarts at
   * 0 when that takes it past either end.
   */
  function NextPosition(position: UInt16, velocity: Int16): (p: UInt16)
    ensures p <= TRACK_LENGTH
    ensures position <= TRACK_LENGTH ==>
      var moved := position + DivTrunc(velocity * VEHICLE_PERIOD, 1000);
      p == if 0 <= moved <= TRACK_LENGTH then moved else 0
  {
    var moved := ToUInt16(position + DivTrunc(velocity * VEHICLE_PERIOD, 1000));
    if moved > TRACK_LENGTH then 0 else moved
  }

  /**
   * `velocity + acceleration * 300 / 1000.0` stored into the `INT16S`: the
   * exact sum `velocity + 3 * acceleration / 10` truncated toward zero, and
   * then wrapped to 16 bits. The truncation is exact: the double quotient
   * is within a rounding error of a multiple of 0.1 and is exact when that
   * multiple is a whole number.
   */
  function NextVelocity(velocity: Int16, acceleration: Int16): (v: Int16)
    ensures var exact := 10 * velocity + 3 * acceleration;
      -0x8000 <= DivTrunc(exact, 10) < 0x8000 ==>
        && (exact >= 0 ==> 0 <= exact - 10 * v < 10)
        && (exact < 0 ==> -10 < exact - 10 * v <= 0)
  {
    ToInt16(DivTrunc(10 * velocity + 3 * acceleration, 10))
  }

  /**
   * One iteration of `VehicleTask` on values: the latest messages replace
   * the throttle and the flags, the throttle is capped, the acceleration is
   * taken from the velocity and position before the update, and position
   * and velocity are both advanced from the old velocity.
   */
  function VehicleStep(s: VehicleState, m: VehicleMessages): (t: VehicleState)
    ensures t.throttle <= MAX_THROTTLE
    ensures t.throttle == ClampThrottle(Latest(m.throttle, s.throttle))
    ensures t.brake == Latest(m.brake, s.brake) && t.engine == Latest(m.engine, s.engine)
    ensures t.position == NextPosition(s.position, s.velocity)
    ensures t.velocity == NextVelocity(s.velocity, Acceleration(s.velocity, s.position, t.brake, t.engine, t.throttle))
  {
    var throttle := ClampThrottle(Latest(m.throttle, s.throttle));
    var brake := Latest(m.brake, s.brake);
    var engine := Latest(m.engine, s.engine);
    var a := Acceleration(s.velocity, s.position, brake, engine, throttle);
    VehicleState(NextPosition(s.position, s.velocity), NextVelocity(s.velocity, a), brake, engine, throttle)
  }

  /**
   * What holds of the task's variables at every iteration: the vehicle is
   * on the track, its velocity lies in [-16, 84] m/s and the throttle is
   * within the cap.
   */
  predicate VehicleInvariant(s: VehicleState) {
    && s.position <= TRACK_LENGTH
    && -16 <= s.velocity <= 84
    && s.throttle <= MAX_THROTTLE
  }

  /**
   * Inside the invariant nothing wraps: the acceleration is the plain
   * signed sum, at least -88 and at most 100 without the brake.
   */
  lemma AccelerationExact(s: VehicleState, brake: Active, engine: Active, throttle: UInt8)
    requires -16 <= s.velocity <= 84 && throttle <= MAX_THROTTLE
    ensures var a := Acceleration(s.velocity, s.position, brake, engine, throttle);
      && (brake == On ==> a == -BRAKE_FACTOR * s.velocity)
      && (brake == Off ==>
            a == -s.velocity + (if engine == On then throttle else 0) + TerrainOffset(s.position)
            && -88 <= a <= 100)
  {
    AccelerationWrapsOnce(s.velocity, s.position, brake, engine, throttle);
  }

  /**
   * The invariant is kept by every iteration, whatever messages arrive:
   * braking takes the velocity to a fifth of it, reversed, and without the
   * brake the new velocity is a 7:3 mix of the old one and the throttle
   * plus slope, which lies in [-4, 84].
   */
  lemma StepKeepsInvariant(s: VehicleState, m: VehicleMessages)
    requires VehicleInvariant(s)
    ensures VehicleInvariant(VehicleStep(s, m))
  {
    var t := VehicleStep(s, m);
    AccelerationExact(s, t.brake, t.engine, t.throttle);
    var a := Acceleration(s.velocity, s.position, t.brake, t.engine, t.throttle);
    if t.brake == On {
      assert 10 * s.velocity + 3 * a == -2 * s.velocity;
    } else {
      var push := (if t.engine == On then t.throttle else 0) + TerrainOffset(s.position);
      assert -4 <= push <= 84;
      assert 10 * s.velocity + 3 * a == 7 * s.velocity + 3 * push;
    }
  }

  /** The state after running `VehicleTask` over a sequence of iterations' messages. */
  function VehicleRun(s: VehicleState, ms: seq<VehicleMessages>): VehicleState
    decreases |ms|
  {
    if |ms| == 0 then s else VehicleRun(VehicleStep(s, ms[0]), ms[1..])
  }

  /**
   * From the initial state, after any number of iterations with any
   * messages, the invariant holds; so the velocity posted is in [-16, 84],
   * the velocity display never reads past the digit table and the position
   * indicator is always one of bits 12-18.
   */
  lemma {:induction false} RunKeepsInvariant(s: VehicleState, ms: seq<VehicleMessages>)
    requires VehicleInvariant(s)
    ensures var t := VehicleRun(s, ms);
      && VehicleInvariant(t)
      && ShowVelocity(ToInt8(t.velocity)).Some?
      && 12 <= PositionLed(t.position) <= 18
    decreases |ms|
  {
    if |ms| > 0 {
      StepKeepsInvariant(s, ms[0]);
      RunKeepsInvariant(VehicleStep(s, ms[0]), ms[1..]);
    }
  }

  /** `VehicleTask`'s variables, updated in place by each iteration. */
  class VehicleDynamics {
    var position: UInt16
    var velocity: Int16
    var brake: Active
    var engine: Active
    var throttle: UInt8

    function State(): VehicleState
      reads this
    {
      VehicleState(position, velocity, brake, engine, throttle)
    }

    ghost predicate Valid()
      reads this
    {
      VehicleInvariant(State())
    }

    /** At rest at the start of the track, engine and brake off, no throttle. */
    constructor ()
      ensures Valid() && State() == InitialVehicle
    {
      position, velocity, brake, engine, throttle := 0, 0, Off, Off, 0;
    }

    /** The acceleration block, computed statement by statement. */
    method Accelerate() returns (acceleration: Int16)
      ensures acceleration == Acceleration(velocity, position, brake, engine, throttle)
    {
      if brake == Off {
        acceleration := ToInt16(ToUInt32(ToUInt32(-WIND_FACTOR) * ToUInt32(velocity)));
        if engine == On {
          acceleration := ToInt16(acceleration + throttle);
        }
        if 400 <= position < 800 {
          acceleration := ToInt16(acceleration - 2);
        } else if 800 <= position < 1200 {
          acceleration := ToInt16(acceleration - 4);
        } else if 1600 <= position < 2000 {
          acceleration := ToInt16(acceleration + 4);
        } else if 2000 <= position {
          acceleration := ToInt16(acceleration + 2);
        }
      } else {
        acceleration := ToInt16(ToUInt32(ToUInt32(-BRAKE_FACTOR) * ToUInt32(velocity)));
      }
    }

    /**
     * The non-blocking reads of the throttle, brake and engine mailboxes,
     * each keeping the last value when no message is pending, and the cap
     * on the throttle.
     */
    method Receive(m: VehicleMessages)
      modifies this
      ensures throttle == ClampThrottle(Latest(m.throttle, old(throttle)))
      ensures brake == Latest(m.brake, old(brake)) && engine == Latest(m.engine, old(engine))
      ensures position == old(position) && velocity == old(velocity)
    {
      if m.throttle.Some? {
        throttle := m.throttle.value;
      }
      if m.brake.Some? {
        brake := m.brake.value;
      }
      if m.engine.Some? {
        engine := m.engine.value;
      }
      if throttle > MAX_THROTTLE {
        throttle := MAX_THROTTLE;
      }
    }

    /** Position and velocity advanced over one period, both from the old velocity. */
    method Advance(acceleration: Int16)
      modifies this
      ensures position == NextPosition(old(position), old(velocity))
      ensures velocity == NextVelocity(old(velocity), acceleration)
      ensures brake == old(brake) && engine == old(engine) && throttle == old(throttle)
    {
      position := ToUInt16(position + DivTrunc(velocity * VEHICLE_PERIOD, 1000));
      velocity := ToInt16(DivTrunc(10 * velocity + 3 * acceleration, 10));
      if position > TRACK_LENGTH {
        position := 0;
      }
    }

    /**
     * One iteration of the `VehicleTask` loop. Returns the value of the
     * velocity at the post that starts it (the message itself is a pointer
     * to `velocity`, read later by the controller), the word shown on the velocity display and the LED words
     * written, which hold every bit the tasks set during the period plus the
     * position indicator; the LED globals are then cleared.
     */
    method Step(m: VehicleMessages, leds: Indicators)
      returns (posted: Int16, velocityWord: Option<bv32>, redOut: set<nat>, greenOut: set<nat>)
      modifies this, leds
      ensures State() == VehicleStep(old(State()), m)
      ensures old(Valid()) ==> Valid()
      ensures posted == old(velocity)
      ensures velocityWord == ShowVelocity(ToInt8(velocity))
      ensures redOut == old(leds.red) + {PositionLed(position)} && greenOut == old(leds.green)
      ensures leds.red == {} && leds.green == {}
    {
      posted := velocity;
      Receive(m);
      var acceleration := Accelerate();
      Advance(acceleration);

      velocityWord := ShowVelocity(ToInt8(velocity));
      leds.LightRed({PositionLed(position)});
      redOut, greenOut := leds.Flush();

      if old(Valid()) {
        StepKeepsInvariant(old(State()), m);
      }
    }
  }
}
