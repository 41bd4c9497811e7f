/** The classification of an input device (`InputDevice?.getInputClass()`):
    the first "every bit present" test that succeeds, in priority order
    gamepad, joystick-with-keyboard, keyboard, decides the class. */
module InputClassification {
  import opened Common
  import opened InputSource

  datatype InputClass = InputClassUnknown | InputClassGamePad | InputClassJoystick | InputClassKeyboard

  /** The mask `InputClassJoystick.SOURCE_JOYSTICK_KEYBOARD`. */
  const JOYSTICK_CLASS_MASK: bv32 := SOURCE_JOYSTICK_KEYBOARD

  function GetInputClass(device: Option<InputDevice>): (c: InputClass)
    ensures device.None? ==> c == InputClassUnknown
    ensures device.Some? && HasAllBits(device.value.sources, SOURCE_GAMEPAD) ==> c == InputClassGamePad
  {
    match device
    case None => InputClassUnknown
    case Some(d) =>
      if HasAllBits(d.sources, SOURCE_GAMEPAD) then InputClassGamePad
      else if HasAllBits(d.sources, JOYSTICK_CLASS_MASK) then InputClassJoystick
      else if HasAllBits(d.sources, SOURCE_KEYBOARD) then InputClassKeyboard
      else InputClassUnknown
  }

  /** A device is a joystick exactly when it is not a gamepad and has every
      joystick and keyboard bit; extra bits never matter. */
  lemma JoystickWhenNotGamePad(d: InputDevice)
    ensures GetInputClass(Some(d)) == InputClassJoystick
        <==> !HasAllBits(d.sources, SOURCE_GAMEPAD) && HasAllBits(d.sources, SOURCE_JOYSTICK_KEYBOARD)
  {
  }

  /** A device is a keyboard exactly when it has every keyboard bit but is
      neither a gamepad nor a joystick; everything else that is present is
      unknown. */
  lemma KeyboardOtherwise(d: InputDevice)
    ensures GetInputClass(Some(d)) == InputClassKeyboard
        <==> !HasAllBits(d.sources, SOURCE_GAMEPAD) && !HasAllBits(d.sources, SOURCE_JOYSTICK_KEYBOARD)
             && HasAllBits(d.sources, SOURCE_KEYBOARD)
    ensures GetInputClass(Some(d)) == InputClassUnknown
        <==> !HasAllBits(d.sources, SOURCE_GAMEPAD) && !HasAllBits(d.sources, SOURCE_KEYBOARD)
  {
    // a device with every joystick-and-keyboard bit has every keyboard bit
    JoystickKeyboardBits(d.sources);
  }

  /** The tests ask for every bit of a mask, not for any of them: a device
      that reports the gamepad bit without the button class bit is not a
      gamepad, and one that reports the joystick source alone is not a
      joystick. */
  lemma SomeBitsAreNotEnough()
    ensures GetInputClass(Some(InputDevice(0x0000_0400, false))) == InputClassUnknown
    ensures GetInputClass(Some(InputDevice(SOURCE_JOYSTICK, false))) == InputClassUnknown
    ensures GetInputClass(Some(InputDevice(SOURCE_GAMEPAD | SOURCE_JOYSTICK, false))) == InputClassGamePad
  {
  }
}
