# Cruise control on uC/OS-II, modelled in Dafny

This project models the application logic of `src/cruise_skeleton.c`. That
file holds a cruise-control demonstrator for a DE2 board running uC/OS-II.
Periodic tasks exchange values through mailboxes:

- `ButtonIOTask` and `SwitchIOTask` decode the push buttons and the toggle
  switches into on/off flags.
- `ControlTask` engages and disengages cruise control. While cruise holds it
  runs a proportional-plus-integral throttle law, and the gas pedal
  overrides it.
- `VehicleTask` simulates the vehicle on a 2400 m track: throttle, wind,
  brake and slope give the acceleration, which is integrated every 300 ms.
- `ExtraTask` turns the overload selector into a busy-wait load.
- `ButtonIOTask`, `SwitchIOTask`, `ControlTask` and `VehicleTask` OR
  indicator bits into two shared LED words, which `VehicleTask` writes out
  and clears. The other tasks do not touch them.

The modules follow that structure:

- `CTypes`: the C integer types, with the wrap-around applied when a value is
  stored into a narrower type, and C's truncating division.
- `SevenSeg`: the digit table, the packing of a display word, and a decoder
  that reads the shown value back.
- `Leds`: the LED globals as a class `Indicators`, and the position
  indicator.
- `Inputs`: the button and switch decoders, with encoders as their inverses.
- `Control`: one `ControlTask` iteration as the function `ControlStep`, and
  the same iteration in place as the class `Controller`.
- `Vehicle`: one `VehicleTask` iteration as the function `VehicleStep`, and
  in place as the class `VehicleDynamics`.
- `Overload`: the arithmetic of `ExtraTask`.
- `CruiseSystem`: properties that follow values from one task into the other.

Integer widths are explicit throughout:

- The 8- and 16-bit stores wrap.
- `-wind_factor*velocity` is computed in `unsigned int`.
- The `INT8U` throttle truncates the cruise effort.

The velocity update divides by `1000.0` in double precision. It is modelled
exactly as `velocity + 3 * acceleration / 10`, truncated toward zero. The
double result lies within a rounding error of a multiple of 0.1, and it is
exact when that multiple is a whole number. Truncating it therefore gives the
same integer as the exact value.

Behaviours of the code that the model keeps as written:

- The throttle clamp only caps values above 80; it has no lower bound. The
  cruise effort is stored into the `INT8U` throttle modulo 256, and the
  16-bit integral lets the effort range far beyond one byte. A negative
  effort from -176 to -1 becomes full throttle, and every effort whose
  residue modulo 256 is 80 or more does too
  (`CruiseSystem.CruiseThrottleApplied`).
- The position is reset only past 2400, so 2400 itself is a position. There,
  `show_position` sets bit 18, which has no LED. The code lights LEDR12 for
  [0, 400) and LEDR17 from 2000 m on, the reverse of the comment above it.
- The target velocity is the low byte of the velocity at engagement. The
  integral is never decayed or saturated and wraps in 16 bits.
- A tens digit of 10 is shown as the dash pattern, because that is the
  table's entry 10.
- The macro `LED_GREEN_2` is the mask 0x0002, which is bit 1 of the green
  word, so the cruise indicator lights LEDG1, not LEDG2. The other LED
  macros name the bit they set.
- The LED words are modelled as the sets of their bit numbers. `Leds.BitsOfOr`
  proves that OR on words is union on those sets, and `Leds.LedMasks` ties
  each LED mask of the source to its bit number.

The proved invariant of the vehicle: from rest, the position stays in
[0, 2400], the velocity in [-16, 84] m/s and the throttle at most 80. As a
consequence, neither display routine ever reads past the digit table.

## Model

| member | source | states |
|---|---|---|
| CTypes.UnsignedNegProduct | src/cruise_skeleton.c:339-352 | `(unsigned)(-c) * (unsigned)v` stored into an `INT16S` is `-c * v` wrapped to 16 bits |
| CTypes.ToInt16Add | src/cruise_skeleton.c:339-349 | storing an intermediate sum into the `INT16S` and adding more wraps like the whole sum stored once |
| CTypes.ToInt16AddTwice | src/cruise_skeleton.c:339-349 | two successive `+=` on the `INT16S` acceleration wrap like the whole sum stored once |
| CTypes.DivTrunc | src/cruise_skeleton.c:359-360 | C integer division truncates toward zero: the remainder has the dividend's sign and is smaller than the divisor |
| CTypes.Latest | src/cruise_skeleton.c:322-331 | a non-blocking mailbox read yields the pending message, or keeps the last value when there is none |
| SevenSeg.DigitOf | src/cruise_skeleton.c:124-135 | a segment pattern maps back to the table index that has it |
| SevenSeg.Int2Seven | src/cruise_skeleton.c:140-142 | an in-table index gives a 7-bit pattern whose inverse is that index (the table is injective) |
| SevenSeg.Pack | src/cruise_skeleton.c:164-167 | the zero pattern, sign, tens and units land in their own 7-bit fields and bits 28-31 stay clear |
| SevenSeg.SevenSegWord | src/cruise_skeleton.c:147-169 | a word exists exactly for values in [-109, 109]; it shows the sign as a dash or 0 and decodes back to the value |
| SevenSeg.ShowVelocity | src/cruise_skeleton.c:147-169 | the `INT8S` velocity is shown exactly when it lies in [-109, 109], and the word decodes back to it |
| SevenSeg.ShowTargetVelocity | src/cruise_skeleton.c:175-198 | the `INT8U` target is never shown as negative; it is shown exactly when it is at most 109, and it decodes back |
| Leds.BitsOf | src/cruise_skeleton.c:494-495 | the set of a word holds exactly the bit numbers below 32 whose bit is set |
| Leds.BitsOfOr | src/cruise_skeleton.c:494-495 | OR-ing a mask into an LED word sets exactly the union of the bits of the word and of the mask |
| Leds.BitsOfBit | src/cruise_skeleton.c:25-31 | a one-bit mask `1 << i` sets bit `i` and no other |
| Leds.LedMasks | src/cruise_skeleton.c:25-31 | the masks `LED_RED_0`, `LED_RED_1`, `LED_GREEN_2`, `LED_GREEN_4` and `LED_GREEN_6` are the single bits 0, 1, 1, 4 and 6 |
| Leds.PositionMask | src/cruise_skeleton.c:211-214 | the mask `show_position` ORs into `led_red` sets exactly the bit `PositionLed` names |
| Leds.PositionLed | src/cruise_skeleton.c:209-215 | the bit is `4096 << (position / 400)`; a position below 2400 lights one of LEDR12-LEDR17 and 2400 sets bit 18 |
| Leds.Indicators.LightRed | src/cruise_skeleton.c:214 | `led_red` gains the given bits; `led_green` is unchanged |
| Leds.Indicators.LightGreen | src/cruise_skeleton.c:436 | `led_green` gains the given bits; `led_red` is unchanged |
| Leds.Indicators.Flush | src/cruise_skeleton.c:368-371 | the words written out are the accumulated ones, and both globals are cleared |
| Inputs.DecodeButtons | src/cruise_skeleton.c:513-541 | the cruise, brake and gas flags are on exactly when their bits are set, and the brake lights LEDG4 and nothing else |
| Inputs.EncodeButtons | src/cruise_skeleton.c:15-17 | a word made of the three flag bits decodes back to the flags |
| Inputs.ButtonsDecodeEncode | src/cruise_skeleton.c:516-537 | decoding loses only the bits outside the three flags |
| Inputs.DecodeSwitches | src/cruise_skeleton.c:476-501 | engine and top gear follow bits 0 and 1; the overload is switches 4-9 as a number below 64; the red bits are LEDR1 for top gear plus the overload switches |
| Inputs.EncodeSwitches | src/cruise_skeleton.c:20-21 | a word made of the engine, gear and overload settings decodes back to them |
| Inputs.SwitchesDecodeEncode | src/cruise_skeleton.c:479-496 | decoding loses only the bits outside the flags and the selector |
| Overload.ExtraLoad | src/cruise_skeleton.c:255-264 | the percentage is twice the selector in 16 bits; the printed value is capped at 100; the busy time is 3 ticks per percent |
| Overload.SwitchLoad | src/cruise_skeleton.c:494-496 | a selector read from the switches gives at most 126 %, and the busy time exceeds the 300-tick period exactly when the selector is above 50 |
| Control.ControlStep | src/cruise_skeleton.c:419-458 | the complete iteration: engine forced on while moving; cruise engaged exactly when hold conditions meet a request or an earlier engagement; snapshot target; 16-bit raw integral; 8-bit throttle `3*err + integral`; gas override 80/40; LED bits |
| Control.Engaged | src/cruise_skeleton.c:422-433 | a request while disengaged engages and snapshots the velocity's low byte; otherwise the target is kept; the engine is on exactly when switched on or moving forward |
| Control.Regulated | src/cruise_skeleton.c:435-446 | cruise stays on exactly under the hold condition, with the same target, the error added to the integral and the throttle law; otherwise toggle, target and integral are reset and the throttle is 0 |
| Control.EngagedRun | src/cruise_skeleton.c:435-446 | while cruise stays engaged, the target never changes and the integral is the 16-bit wrap of the sum of all errors since engagement |
| Control.EngageSnapshot | src/cruise_skeleton.c:422-446 | engaging at 20-255 m/s sets the target to that velocity, and it stays there while cruise holds |
| Control.Controller.Engage | src/cruise_skeleton.c:422-433 | the in-place engage block and engine start give the state `Engaged` describes |
| Control.Controller.Regulate | src/cruise_skeleton.c:435-446 | the in-place regulation block gives the state and throttle `Regulated` describes, and sets bit 1 of `led_green` (`LED_GREEN_2` = 0x0002, that is LEDG1) exactly while cruise holds |
| Control.Controller.Step | src/cruise_skeleton.c:419-462 | the in-place iteration gives `ControlStep`'s state, throttle, posted engine and LED bits, and shows the target |
| Vehicle.ClampThrottle | src/cruise_skeleton.c:334 | a throttle above 80 becomes 80; any other is kept |
| Vehicle.TerrainOffset | src/cruise_skeleton.c:342-349 | the slope term is in [-4, 4] |
| Vehicle.TerrainBySection | src/cruise_skeleton.c:342-349 | the slope is one constant per 400 m section, and the last section's slope extends to every larger position |
| Vehicle.AccelerationWrapsOnce | src/cruise_skeleton.c:336-352 | the acceleration is the signed sum `-v + throttle + slope` (or `-4v` when braking), wrapped to 16 bits once |
| Vehicle.AccelerationExact | src/cruise_skeleton.c:336-352 | for velocities in [-16, 84] and throttle at most 80 nothing wraps, and the acceleration without the brake lies in [-88, 100] |
| Vehicle.NextPosition | src/cruise_skeleton.c:359-362 | from a position on the track, the vehicle moves by `v*300/1000` truncated, and restarts at 0 when that leaves [0, 2400] |
| Vehicle.NextVelocity | src/cruise_skeleton.c:360 | the new velocity is `(10v + 3a) / 10` truncated toward zero when that fits the `INT16S` |
| Vehicle.VehicleStep | src/cruise_skeleton.c:322-362 | one iteration: the latest messages, the throttle capped at 80, position and velocity both advanced from the old velocity |
| Vehicle.StepKeepsInvariant | src/cruise_skeleton.c:333-362 | every iteration keeps the position in [0, 2400], the velocity in [-16, 84] and the throttle at most 80, whatever the messages |
| Vehicle.RunKeepsInvariant | src/cruise_skeleton.c:312-365 | after any number of iterations from a valid state, the invariant holds, the velocity can be shown and the position bit is 12-18 |
| Vehicle.VehicleDynamics.Accelerate | src/cruise_skeleton.c:336-352 | the statement-by-statement acceleration block computes `Acceleration` |
| Vehicle.VehicleDynamics.Receive | src/cruise_skeleton.c:322-334 | the three non-blocking reads and the throttle cap, in place |
| Vehicle.VehicleDynamics.Advance | src/cruise_skeleton.c:359-362 | the position and velocity update in place, both from the old velocity |
| Vehicle.VehicleDynamics.Step | src/cruise_skeleton.c:314-371 | the in-place iteration: returns the velocity's value at the post that starts it, reaches `VehicleStep`'s state, keeps the invariant, shows the velocity, and writes out and clears the LED words with the position bit added |
| CruiseSystem.CruiseThrottleApplied | src/cruise_skeleton.c:439-440 | the throttle is the cruise effort `3*err + integral` modulo 256, and the vehicle applies that residue capped at 80, so full throttle exactly when the residue is 80 or more; in particular an effort in [0, 80] is applied as is, one in (80, 256) or [-176, 0) as 80, and one in [-256, -176) as effort + 256 |
| CruiseSystem.TargetStepBounded | src/cruise_skeleton.c:422-425 | fed velocities of at most 84, one iteration keeps the target at most 84 |
| CruiseSystem.TargetShownRun | src/cruise_skeleton.c:422-462 | fed the velocities the vehicle can post, the target stays at most 84 and can always be shown |

## Left out

- Kernel services are not modelled: semaphores, mailbox blocking and timeouts, software timers, and the hardware timer ISR. Each task iteration is a function of the values its mailboxes deliver.
- Scheduling, task priorities and periods are not modelled, and neither are the interleaving of tasks on the shared LED words or the race on them.
- `WatchdogTask` and `OverloadDetectionTask` are timing-only, so they are left out.
- The busy loop in `ExtraTask` is reduced to its length in ticks, because `OSTimeGet` is a clock.
- The register reads and writes (`IORD`/`IOWR`) are replaced by parameters and results.
- `buttons_pressed()` and `switches_pressed()` are hardware reads. Their values are the decoders' parameters.
- `StartTask`, `main` and every `printf` are left out, because they are set-up and output only.
- Every mailbox message is a pointer to the sender's variable. The model passes the value at the moment of posting. In the source, `ControlTask` reads `VehicleTask`'s live `velocity` at each use, so it sees a later value when `VehicleTask` updates it in between, and its several reads within one iteration can disagree. The same holds for the flags posted by the input tasks.
- The throttle pointer in `VehicleTask` aliases `ControlTask`'s variable. Before the first message it is uninitialised. The model passes the value and starts it at 0.
- The double-precision velocity update is modelled in exact arithmetic. Storing an out-of-range double into an `INT16S` is undefined in C; the model wraps it.
- `LED_GREEN_0` is defined but never used by the code, so it has no counterpart.
- Vehicle.NextVelocity: its contract relates the result to the truncated quotient only when that quotient fits the `INT16S`. Outside that range the conversion is undefined in C.
- Vehicle.Acceleration: it carries no contract of its own. Its meaning is stated by `Vehicle.AccelerationWrapsOnce` and `Vehicle.AccelerationExact`.
