/** pin_and_value_t as the argument of a notification (asx/include/digital_input.h). */
module Pins {
  function PinArg(pin: nat, value: bool): int { 2 * pin + if value then 1 else 0 }
  function PinOf(arg: int): int { arg / 2 }
  function ValueOf(arg: int): bool { arg % 2 == 1 }
}
