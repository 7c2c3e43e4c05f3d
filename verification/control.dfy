/**
 * `ControlTask`, the cruise-control decision logic. One iteration of its
 * loop takes the velocity and the five input flags, may engage or disengage
 * cruise control, runs the proportional-plus-raw-integral throttle law while
 * cruise holds, lets the gas pedal override it, and posts the throttle and
 * the engine flag.
 *
 * `ControlStep` states one iteration on values; `Controller.Step` is the
 * same iteration as the task runs it, updating its persistent variables and
 * the LED globals in place.
 */
module Control {
  import opened CTypes
  import opened SevenSeg
  import opened Leds

  /** Cruise control only holds at or above this velocity (m/s). */
  const CRUISE_MIN_VELOCITY := 20
  /** Throttle the gas pedal commands in top gear and in the lower gears. */
  const GAS_THROTTLE_TOP_GEAR: UInt8 := 80
  const GAS_THROTTLE_LOW_GEAR: UInt8 := 40

  /**
   * The variables that persist between iterations: `cruise_toggle`,
   * `target_vel` (`INT8U`), `vel_err` (`INT16S`) and `engine`.
   */
  datatype ControlState = ControlState(cruiseToggle: Active, targetVel: UInt8, velErr: Int16, engine: Active)

  /** What one iteration receives: the velocity and the gas, brake, gear, engine and cruise flags. */
  datatype ControlInputs = ControlInputs(
    velocity: Int16, gas: Active, brake: Active, topGear: Active, engine: Active, cruise: Active)

  /** The new state, the throttle posted (`INT8U`) and the LED bits set. */
  datatype ControlResult = ControlResult(state: ControlState, throttle: UInt8, red: set<nat>, green: set<nat>)

  const InitialControl := ControlState(Off, 0, 0, Off)

  /** Disengaged means target and integral are both zero: they are reset together. */
  predicate ResetTogether(s: ControlState) {
    s.cruiseToggle == Off ==> s.targetVel == 0 && s.velErr == 0
  }

  /** The condition under which cruise control commands the throttle. */
  predicate Holding(inputs: ControlInputs, toggle: Active) {
    && inputs.topGear == On
    && inputs.velocity >= CRUISE_MIN_VELOCITY
    && inputs.gas == Off
    && inputs.brake == Off
    && toggle == On
  }

  /**
   * One iteration of `ControlTask` on values. The engine is forced on while
   * moving and is never switched off; cruise is engaged after the step
   * exactly when the hold condition is met with a request or an earlier
   * engagement; otherwise toggle, target and integral are all reset. An
   * engagement snapshots the low byte of the velocity, an existing one keeps
   * its target; the integral accumulates the raw error in 16 bits and the
   * throttle is 3 (the proportional gain) times the error plus the integral, truncated to 8 bits;
   * a pressed gas pedal with the engine on commands 80 in top gear and 40
   * otherwise, whatever cruise computed; otherwise the throttle is 0.
   */
  function ControlStep(s: ControlState, inputs: ControlInputs): (r: ControlResult)
    ensures r.state.engine == On <==> inputs.engine == On || inputs.velocity > 0
    ensures r.state.cruiseToggle == On <==>
      && inputs.topGear == On && inputs.velocity >= CRUISE_MIN_VELOCITY
      && inputs.gas == Off && inputs.brake == Off
      && (inputs.cruise == On || s.cruiseToggle == On)
    ensures ResetTogether(r.state)
    ensures r.state.cruiseToggle == On && s.cruiseToggle == Off ==> r.state.targetVel == ToUInt8(inputs.velocity)
    ensures r.state.cruiseToggle == On && s.cruiseToggle == On ==> r.state.targetVel == s.targetVel
    ensures r.state.cruiseToggle == On ==>
      && r.state.velErr == ToInt16(s.velErr + (r.state.targetVel - inputs.velocity))
      && r.throttle == ToUInt8(3 * (r.state.targetVel - inputs.velocity) + r.state.velErr)
    ensures inputs.gas == On && r.state.engine == On ==>
      r.throttle == if inputs.topGear == On then GAS_THROTTLE_TOP_GEAR else GAS_THROTTLE_LOW_GEAR
    ensures r.state.cruiseToggle == Off && (inputs.gas == Off || r.state.engine == Off) ==> r.throttle == 0
    ensures r.red == if r.state.engine == On then {LED_RED_0} else {}
    ensures LED_GREEN_2 in r.green <==> r.state.cruiseToggle == On
    ensures LED_GREEN_6 in r.green <==> inputs.gas == On && r.state.engine == On
    ensures r.green <= {LED_GREEN_2, LED_GREEN_6}
  {
    var e := Engaged(s, inputs);
    var g := Regulated(e, inputs);
    var pedal := inputs.gas == On && e.engine == On;
    var throttle :=
      if pedal then (if inputs.topGear == On then GAS_THROTTLE_TOP_GEAR else GAS_THROTTLE_LOW_GEAR)
      else g.throttle;
    ControlResult(g.state, throttle,
                  if e.engine == On then {LED_RED_0} else {},
                  (if g.state.cruiseToggle == On then {LED_GREEN_2} else {})
                  + (if pedal then {LED_GREEN_6} else {}))
  }

  /**
   * The first block of an iteration: a cruise request while disengaged
   * engages cruise and snapshots the velocity, truncated to the `INT8U`
   * target; the engine flag just received is forced on while the vehicle
   * moves forward. The integral is not touched.
   */
  function Engaged(s: ControlState, inputs: ControlInputs): (e: ControlState)
    ensures e.cruiseToggle == On <==> inputs.cruise == On || s.cruiseToggle == On
    ensures s.cruiseToggle == Off && inputs.cruise == On ==> e.targetVel == ToUInt8(inputs.velocity)
    ensures s.cruiseToggle == On || inputs.cruise == Off ==> e.targetVel == s.targetVel
    ensures e.velErr == s.velErr
    ensures e.engine == On <==> inputs.engine == On || inputs.velocity > 0
  {
    var v := inputs.velocity;
    var engaging := inputs.cruise == On && s.cruiseToggle == Off;
    ControlState(if engaging then On else s.cruiseToggle,
                 if engaging then ToUInt8(v) else s.targetVel,
                 s.velErr,
                 if inputs.engine == Off && v > 0 then On else inputs.engine)
  }

  /** The state and the throttle after the regulation block. */
  datatype Regulation = Regulation(state: ControlState, throttle: UInt8)

  /**
   * The regulation block: while cruise holds it stays engaged with the same
   * target, the error is added to the integral and the throttle is 3 times
   * the error plus the new integral; otherwise cruise is disengaged with
   * target and integral reset and the throttle left at 0.
   */
  function Regulated(e: ControlState, inputs: ControlInputs): (g: Regulation)
    ensures g.state.cruiseToggle == On <==> Holding(inputs, e.cruiseToggle)
    ensures ResetTogether(g.state)
    ensures g.state.engine == e.engine
    ensures g.state.cruiseToggle == On ==>
      && g.state.targetVel == e.targetVel
      && g.state.velErr == ToInt16(e.velErr + (e.targetVel - inputs.velocity))
      && g.throttle == ToUInt8(3 * (e.targetVel - inputs.velocity) + g.state.velErr)
    ensures g.state.cruiseToggle == Off ==> g.throttle == 0
  {
    var v := inputs.velocity;
    if Holding(inputs, e.cruiseToggle) then
      var err := ToInt16(e.velErr + (e.targetVel - v));
      Regulation(ControlState(On, e.targetVel, err, e.engine), ToUInt8(3 * (e.targetVel - v) + err))
    else
      Regulation(ControlState(Off, 0, 0, e.engine), 0)
  }

  /** The state after one iteration. */
  function NextControl(s: ControlState, inputs: ControlInputs): ControlState {
    Regulated(Engaged(s, inputs), inputs).state
  }

  /** The state after running `ControlTask` on a sequence of iterations' inputs. */
  function ControlRun(s: ControlState, inputs: seq<ControlInputs>): ControlState
    decreases |inputs|
  {
    if |inputs| == 0 then s else ControlRun(NextControl(s, inputs[0]), inputs[1..])
  }

  /** Cruise stays engaged after every iteration of the sequence. */
  predicate StaysEngaged(s: ControlState, inputs: seq<ControlInputs>)
    decreases |inputs|
  {
    |inputs| == 0 ||
    (var next := NextControl(s, inputs[0]);
     next.cruiseToggle == On && StaysEngaged(next, inputs[1..]))
  }

  /** The raw velocity errors `target - v` summed over a sequence of iterations. */
  function ErrorSum(target: int, inputs: seq<ControlInputs>): int
    decreases |inputs|
  {
    if |inputs| == 0 then 0 else (target - inputs[0].velocity) + ErrorSum(target, inputs[1..])
  }

  /**
   * While cruise stays engaged the target is the one snapshotted at
   * engagement, whatever the velocity does, and the integral is the sum of
   * all errors since then, wrapped to 16 bits: it is never decayed or
   * saturated.
   */
  lemma {:induction false} EngagedRun(s: ControlState, inputs: seq<ControlInputs>)
    requires s.cruiseToggle == On
    requires StaysEngaged(s, inputs)
    ensures var t := ControlRun(s, inputs);
      && t.cruiseToggle == On
      && t.targetVel == s.targetVel
      && t.velErr == ToInt16(s.velErr + ErrorSum(s.targetVel, inputs))
    decreases |inputs|
  {
    if |inputs| > 0 {
      var next := NextControl(s, inputs[0]);
      var rest := inputs[1..];
      var err := s.targetVel - inputs[0].velocity;
      assert next.targetVel == s.targetVel && next.velErr == ToInt16(s.velErr + err);
      assert ControlRun(s, inputs) == ControlRun(next, rest);
      EngagedRun(next, rest);
      var sum := ErrorSum(s.targetVel, rest);
      assert ControlRun(next, rest).velErr == ToInt16(ToInt16(s.velErr + err) + sum);
      ToInt16Add(s.velErr + err, sum);
      assert ErrorSum(s.targetVel, inputs) == err + sum;
      assert s.velErr + ErrorSum(s.targetVel, inputs) == (s.velErr + err) + sum;
    }
  }

  /**
   * Engaging at a velocity from 20 to 255 m/s sets the target to exactly that
   * velocity, and any later iterations that keep cruise engaged leave it there.
   */
  lemma EngageSnapshot(s: ControlState, engage: ControlInputs, later: seq<ControlInputs>)
    requires s.cruiseToggle == Off
    requires engage.cruise == On && engage.topGear == On && engage.gas == Off && engage.brake == Off
    requires CRUISE_MIN_VELOCITY <= engage.velocity < 0x100
    requires StaysEngaged(ControlStep(s, engage).state, later)
    ensures ControlStep(s, engage).state.cruiseToggle == On
    ensures ControlRun(s, [engage] + later).targetVel == engage.velocity
  {
    var s1 := ControlStep(s, engage).state;
    assert ([engage] + later)[1..] == later;
    EngagedRun(s1, later);
  }

  /** `ControlTask`'s persistent variables, updated in place by each iteration. */
  class Controller {
    var cruiseToggle: Active
    var targetVel: UInt8
    var velErr: Int16
    var engine: Active

    function State(): ControlState
      reads this
    {
      ControlState(cruiseToggle, targetVel, velErr, engine)
    }

    /** The task's initial values: everything off, target and integral 0. */
    constructor ()
      ensures State() == InitialControl
    {
      cruiseToggle, targetVel, velErr, engine := Off, 0, 0, Off;
    }

    /** The engage block and the engine start, in place. */
    method Engage(inputs: ControlInputs)
      modifies this
      ensures State() == Engaged(old(State()), inputs)
    {
      var v := inputs.velocity;
      engine := inputs.engine;
      if inputs.cruise == On && cruiseToggle == Off {
        cruiseToggle := On;
        targetVel := ToUInt8(v);
      }
      if engine == Off && v > 0 {
        engine := On;
      }
    }

    /** The regulation block, in place; it sets `LED_GREEN_2` (bit 1, LEDG1) while cruise holds. */
    method Regulate(inputs: ControlInputs, leds: Indicators) returns (throttle: UInt8)
      modifies this, leds
      ensures Regulation(State(), throttle) == Regulated(old(State()), inputs)
      ensures leds.red == old(leds.red)
      ensures leds.green == old(leds.green) + (if cruiseToggle == On then {LED_GREEN_2} else {})
    {
      var v := inputs.velocity;
      throttle := 0;
      if inputs.topGear == On && v >= CRUISE_MIN_VELOCITY && inputs.gas == Off
         && inputs.brake == Off && cruiseToggle == On {
        leds.LightGreen({LED_GREEN_2});
        velErr := ToInt16(velErr + (targetVel - v));
        throttle := ToUInt8(3 * (targetVel - v) + velErr);
      } else {
        cruiseToggle := Off;
        targetVel := 0;
        velErr := 0;
      }
    }

    /**
     * One iteration of the `ControlTask` loop, after the blocking reads.
     * Returns the throttle and engine flag it posts and the word shown on
     * the target-velocity display (`None` when the target is past the
     * digit table), and ORs its LED bits into `leds`.
     */
    method Step(inputs: ControlInputs, leds: Indicators)
      returns (throttle: UInt8, postedEngine: Active, targetWord: Option<bv32>)
      modifies this, leds
      ensures var r := ControlStep(old(State()), inputs);
        && State() == r.state
        && throttle == r.throttle
        && postedEngine == r.state.engine
        && leds.red == old(leds.red) + r.red
        && leds.green == old(leds.green) + r.green
      ensures targetWord == ShowTargetVelocity(targetVel)
    {
      Engage(inputs);
      throttle := Regulate(inputs, leds);

      if engine == On {
        leds.LightRed({LED_RED_0});
      }

      if inputs.gas == On && engine == On {
        leds.LightGreen({LED_GREEN_6});
        throttle := if inputs.topGear == On then GAS_THROTTLE_TOP_GEAR else GAS_THROTTLE_LOW_GEAR;
      }

      postedEngine := engine;
      targetWord := ShowTargetVelocity(targetVel);
    }
  }
}
