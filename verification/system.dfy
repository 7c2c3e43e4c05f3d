/**
 * Properties that follow values from one task into another: the throttle
 * `ControlTask` posts is what `VehicleTask` clamps and applies, and the
 * velocity `VehicleTask` posts is what `ControlTask` snapshots as its target
 * and shows on the target display.
 */
module CruiseSystem {
  import opened CTypes
  import opened SevenSeg
  import opened Control
  import opened Vehicle

  /**
   * The throttle the vehicle applies while cruise holds, as a function of
   * the signed effort `3 * error + integral` the law computes. The effort is
   * truncated into the `INT8U` throttle, which keeps it modulo 256, and the
   * vehicle caps that residue at 80; the 16-bit integral lets the effort
   * range far beyond one byte. So an effort in [0, 80] is applied as is and
   * one in (80, 255] is capped at 80; but a negative effort, which asks to
   * slow down, is applied as 256 plus the effort from -256 on: from -176 to
   * -1 that is full throttle.
   */
  lemma CruiseThrottleApplied(s: ControlState, inputs: ControlInputs)
    requires ControlStep(s, inputs).state.cruiseToggle == On
    ensures var r := ControlStep(s, inputs);
      var effort := 3 * (r.state.targetVel - inputs.velocity) + r.state.velErr;
      var applied := ClampThrottle(r.throttle);
      && r.throttle == effort % 0x100
      && applied == (if effort % 0x100 > MAX_THROTTLE then MAX_THROTTLE else effort % 0x100)
      && (applied == MAX_THROTTLE <==> effort % 0x100 >= MAX_THROTTLE)
      && (0 <= effort <= MAX_THROTTLE ==> applied == effort)
      && (MAX_THROTTLE < effort < 0x100 || -176 <= effort < 0 ==> applied == MAX_THROTTLE)
      && (-0x100 <= effort < -176 ==> applied == effort + 0x100 < MAX_THROTTLE)
  {
    var r := ControlStep(s, inputs);
    var effort := 3 * (r.state.targetVel - inputs.velocity) + r.state.velErr;
    assert r.throttle == ToUInt8(effort) == effort % 0x100;
    if -0x100 <= effort < 0 {
      assert effort % 0x100 == effort + 0x100;
    }
  }

  /**
   * One iteration keeps the target at most 84 m/s when the velocity it
   * receives is at most 84: an engagement that holds happens at 20 m/s or
   * more, where the low byte of the velocity is the velocity itself.
   */
  lemma TargetStepBounded(s: ControlState, inputs: ControlInputs)
    requires s.targetVel <= 84 && inputs.velocity <= 84
    ensures ControlStep(s, inputs).state.targetVel <= 84
  {
    var t := ControlStep(s, inputs).state;
    if t.cruiseToggle == On && s.cruiseToggle == Off {
      assert t.targetVel == ToUInt8(inputs.velocity) == inputs.velocity;
    }
  }

  /**
   * Fed with velocities of at most 84 m/s, which is what `VehicleTask` posts
   * from its initial state (`Vehicle.RunKeepsInvariant`), `ControlTask` from
   * its initial state always shows a target the digit table can display.
   */
  lemma {:induction false} TargetShownRun(s: ControlState, inputs: seq<ControlInputs>)
    requires s.targetVel <= 84
    requires forall i :: 0 <= i < |inputs| ==> inputs[i].velocity <= 84
    ensures ControlRun(s, inputs).targetVel <= 84
    ensures ShowTargetVelocity(ControlRun(s, inputs).targetVel).Some?
    decreases |inputs|
  {
    if |inputs| > 0 {
      TargetStepBounded(s, inputs[0]);
      TargetShownRun(ControlStep(s, inputs[0]).state, inputs[1..]);
    }
  }
}
