/** The bits of android.view.InputDevice that the input classifiers read. The
    values are those of the Android SDK; a device's `sources` is a 32-bit mask. */
module InputSource {

  const SOURCE_CLASS_BUTTON: bv32 := 0x0000_0001
  const SOURCE_CLASS_JOYSTICK: bv32 := 0x0000_0010
  const SOURCE_KEYBOARD: bv32 := 0x0000_0100 | SOURCE_CLASS_BUTTON
  const SOURCE_GAMEPAD: bv32 := 0x0000_0400 | SOURCE_CLASS_BUTTON
  const SOURCE_JOYSTICK: bv32 := 0x0100_0000 | SOURCE_CLASS_JOYSTICK

  /** The mask `SOURCE_JOYSTICK or SOURCE_KEYBOARD`. */
  const SOURCE_JOYSTICK_KEYBOARD: bv32 := SOURCE_JOYSTICK | SOURCE_KEYBOARD

  datatype InputDevice = InputDevice(sources: bv32, isVirtual: bool)

  /** The test `(sources and mask) == mask`: every bit of the mask is present. */
  predicate HasAllBits(sources: bv32, mask: bv32) {
    sources & mask == mask
  }

  /** Having every joystick-and-keyboard bit is having every joystick bit and
      every keyboard bit. */
  lemma JoystickKeyboardBits(sources: bv32)
    ensures HasAllBits(sources, SOURCE_JOYSTICK_KEYBOARD)
        <==> HasAllBits(sources, SOURCE_JOYSTICK) && HasAllBits(sources, SOURCE_KEYBOARD)
  {
    assert SOURCE_JOYSTICK_KEYBOARD == 0x0100_0111;
  }
}
