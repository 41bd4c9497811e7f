/** `LemudroidInputDeviceJoystick`: an input device wrapper for joysticks that
    also report keyboard keys. Its only state is the immutable device it
    wraps; every capability is a constant. */
module JoystickDevice {
  import opened Common
  import opened InputSource
  import opened InputClassification

  /** An Android key code (`InputKey`). */
  type InputKey = int
  /** A libretro key code (`RetroKey`). */
  type RetroKey = int

  /** A game-menu shortcut: a name and the keys that trigger it. */
  datatype GameMenuShortcut = GameMenuShortcut(name: string, keys: set<InputKey>)

  datatype LemudroidInputDeviceJoystick = LemudroidInputDeviceJoystick(device: InputDevice) {

    /** The keys a user may rebind are the shared output-key list, passed in
        as `outputKeys`. */
    function GetCustomizableKeys(outputKeys: seq<RetroKey>): (keys: seq<RetroKey>)
      ensures keys == outputKeys
    {
      outputKeys
    }

    function GetDefaultBindings(): (bindings: map<InputKey, RetroKey>)
      ensures |bindings| == 0
    {
      map[]
    }

    predicate IsSupported() {
      HasAllBits(device.sources, SOURCE_JOYSTICK_KEYBOARD) && !device.isVirtual
    }

    predicate IsEnabledByDefault() {
      false
    }

    function GetSupportedShortcuts(): (shortcuts: seq<GameMenuShortcut>)
      ensures |shortcuts| == 0
    {
      []
    }
  }

  /** A wrapped device is supported exactly when it has every joystick and
      every keyboard bit and is a physical device. */
  lemma SupportedIff(j: LemudroidInputDeviceJoystick)
    ensures j.IsSupported()
        <==> HasAllBits(j.device.sources, SOURCE_JOYSTICK) && HasAllBits(j.device.sources, SOURCE_KEYBOARD)
             && !j.device.isVirtual
  {
    JoystickKeyboardBits(j.device.sources);
  }

  /** A virtual device is never supported, and neither the joystick bits nor
      the keyboard bits are enough alone. */
  lemma UnsupportedDevices(sources: bv32)
    ensures !LemudroidInputDeviceJoystick(InputDevice(sources, true)).IsSupported()
    ensures !LemudroidInputDeviceJoystick(InputDevice(SOURCE_JOYSTICK, false)).IsSupported()
    ensures !LemudroidInputDeviceJoystick(InputDevice(SOURCE_KEYBOARD, false)).IsSupported()
    ensures LemudroidInputDeviceJoystick(InputDevice(SOURCE_JOYSTICK_KEYBOARD, false)).IsSupported()
  {
  }

  /** Every supported device is classified as a gamepad or a joystick, never
      as a plain keyboard or as unknown. */
  lemma SupportedDevicesAreJoysticksOrGamePads(j: LemudroidInputDeviceJoystick)
    requires j.IsSupported()
    ensures GetInputClass(Some(j.device)) in {InputClassGamePad, InputClassJoystick}
  {
  }

  /** Never enabled by default, no default bindings, no shortcuts. */
  lemma NothingByDefault(j: LemudroidInputDeviceJoystick)
    ensures !j.IsEnabledByDefault()
    ensures j.GetDefaultBindings() == map[] && j.GetSupportedShortcuts() == []
  {
  }
}
