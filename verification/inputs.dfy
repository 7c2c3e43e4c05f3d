/**
 * The input tasks' decoders: one sample of the push buttons
 * (`ButtonIOTask`) and of the toggle switches (`SwitchIOTask`) turned into
 * on/off flags, the overload selector, and the LED bits each task ORs into
 * the LED aggregate. The encoders build an input word from flags and are
 * used to state that decoding loses nothing but the bits it ignores.
 */
module Inputs {
  import opened CTypes
  import opened Leds

  const GAS_PEDAL_FLAG: bv32 := 0x08
  const BRAKE_PEDAL_FLAG: bv32 := 0x04
  const CRUISE_CONTROL_FLAG: bv32 := 0x02
  const TOP_GEAR_FLAG: bv32 := 0x0000_0002
  const ENGINE_FLAG: bv32 := 0x0000_0001
  /** Switches 4-9: the overload selector. */
  const OVERLOAD_FIELD: bv32 := 0x3F0

  /** The bits of the button word the decoder looks at. */
  const BUTTON_BITS: bv32 := 0x0E
  /** The bits of the switch word the decoder looks at. */
  const SWITCH_BITS: bv32 := 0x3F3

  /** What `ButtonIOTask` posts, and the green LED bits it sets. */
  datatype Buttons = Buttons(cruise: Active, brake: Active, gas: Active, green: set<nat>)

  /** What `SwitchIOTask` posts (`overload` is an `INT16U`), and the red LED bits it sets. */
  datatype Switches = Switches(engine: Active, topGear: Active, overload: bv16, red: set<nat>)

  /**
   * One iteration of `ButtonIOTask` on the value of `buttons_pressed()`:
   * each flag is on exactly when its bit is set, and the brake lights LEDG4.
   */
  function DecodeButtons(buttons: bv32): (r: Buttons)
    ensures r.cruise == On <==> buttons & CRUISE_CONTROL_FLAG != 0
    ensures r.brake == On <==> buttons & BRAKE_PEDAL_FLAG != 0
    ensures r.gas == On <==> buttons & GAS_PEDAL_FLAG != 0
    ensures r.green == if r.brake == On then {LED_GREEN_4} else {}
  {
    var brake := Flag(buttons & BRAKE_PEDAL_FLAG != 0);
    Buttons(Flag(buttons & CRUISE_CONTROL_FLAG != 0), brake,
            Flag(buttons & GAS_PEDAL_FLAG != 0),
            if brake == On then {LED_GREEN_4} else {})
  }

  /** A button word with exactly the given flags pressed; decoding it gives them back. */
  function EncodeButtons(cruise: Active, brake: Active, gas: Active): (w: bv32)
    ensures w & BUTTON_BITS == w
    ensures var d := DecodeButtons(w); d.cruise == cruise && d.brake == brake && d.gas == gas
  {
    (if cruise == On then CRUISE_CONTROL_FLAG else 0)
    | (if brake == On then BRAKE_PEDAL_FLAG else 0)
    | (if gas == On then GAS_PEDAL_FLAG else 0)
  }

  /** Decoding keeps exactly the three flag bits: re-encoding gives the word masked to them. */
  lemma ButtonsDecodeEncode(buttons: bv32)
    ensures var d := DecodeButtons(buttons); EncodeButtons(d.cruise, d.brake, d.gas) == buttons & BUTTON_BITS
  {
    var d := DecodeButtons(buttons);
    if d.cruise == On { assert buttons & CRUISE_CONTROL_FLAG != 0; }
  }

  /**
   * One iteration of `SwitchIOTask` on the value of `switches_pressed()`:
   * the engine and top-gear flags follow bits 0 and 1, the overload value
   * is switches 4-9 read as a number in [0, 63], top gear lights LEDR1 and
   * the overload switches light their own red LEDs.
   */
  function DecodeSwitches(switches: bv32): (r: Switches)
    ensures r.engine == On <==> switches & ENGINE_FLAG != 0
    ensures r.topGear == On <==> switches & TOP_GEAR_FLAG != 0
    ensures r.overload < 64
    ensures (r.overload as bv32) << 4 == switches & OVERLOAD_FIELD
    ensures r.red == (if r.topGear == On then {LED_RED_1} else {}) + BitsOf(switches & OVERLOAD_FIELD)
    ensures forall i :: i in r.red ==> i == LED_RED_1 || 4 <= i < 10
  {
    var topGear := Flag(switches & TOP_GEAR_FLAG != 0);
    var field := switches & OVERLOAD_FIELD;
    Switches(Flag(switches & ENGINE_FLAG != 0), topGear,
             (field >> 4) as bv16,
             (if topGear == On then {LED_RED_1} else {}) + BitsOf(field))
  }

  /** A switch word with the given engine, gear and overload settings; decoding it gives them back. */
  function EncodeSwitches(engine: Active, topGear: Active, overload: bv16): (w: bv32)
    requires overload < 64
    ensures w & SWITCH_BITS == w
    ensures var d := DecodeSwitches(w);
      d.engine == engine && d.topGear == topGear && d.overload == overload
  {
    (if engine == On then ENGINE_FLAG else 0)
    | (if topGear == On then TOP_GEAR_FLAG else 0)
    | ((overload as bv32) << 4)
  }

  /** Decoding keeps exactly the flag and selector bits: re-encoding gives the word masked to them. */
  lemma SwitchesDecodeEncode(switches: bv32)
    ensures var d := DecodeSwitches(switches);
      EncodeSwitches(d.engine, d.topGear, d.overload) == switches & SWITCH_BITS
  {
  }
}
