/**
 * The type-text and namespace-key constants shared by the completion registry.
 */
module LoveTypes {
  import opened Sequences

  // Type texts shown beside a completion entry.
  const CALLBACK: string := "Callback"
  const MODULE: string := "Module"
  const FUNCTION: string := "Function"

  // Keys of the two top-level lists.
  const CALLBACKS_KEY: string := "callbacks"
  const MODULES_KEY: string := "modules"

  // One key per `love.<module>` namespace.
  const AUDIO_KEY: string := "audio"
  const DATA_KEY: string := "data"
  const EVENT_KEY: string := "event"
  const FILESYSTEM_KEY: string := "filesystem"
  const FONT_KEY: string := "font"
  const GRAPHICS_KEY: string := "graphics"
  const IMAGE_KEY: string := "image"
  const JOYSTICK_KEY: string := "joystick"
  const KEYBOARD_KEY: string := "keyboard"
  const MATH_KEY: string := "math"
  const MOUSE_KEY: string := "mouse"
  const PHYSICS_KEY: string := "physics"
  const SOUND_KEY: string := "sound"
  const SYSTEM_KEY: string := "system"
  const THREAD_KEY: string := "thread"
  const TIMER_KEY: string := "timer"
  const TOUCH_KEY: string := "touch"
  const VIDEO_KEY: string := "video"
  const WINDOW_KEY: string := "window"

  /** Every module key, in declaration order. */
  const MODULE_KEYS: seq<string> := [
    AUDIO_KEY, DATA_KEY, EVENT_KEY, FILESYSTEM_KEY, FONT_KEY, GRAPHICS_KEY, IMAGE_KEY,
    JOYSTICK_KEY, KEYBOARD_KEY, MATH_KEY, MOUSE_KEY, PHYSICS_KEY, SOUND_KEY, SYSTEM_KEY,
    THREAD_KEY, TIMER_KEY, TOUCH_KEY, VIDEO_KEY, WINDOW_KEY
  ]

  /** The three type texts are non-empty and tell the entry kinds apart. */
  lemma TypeTextsDistinct()
    ensures CALLBACK != [] && MODULE != [] && FUNCTION != []
    ensures CALLBACK != MODULE && MODULE != FUNCTION && CALLBACK != FUNCTION
  {
  }

  /** `MODULE_KEYS` lists exactly the nineteen module keys, each once, and no top-level key. */
  lemma ModuleKeysShape()
    ensures |MODULE_KEYS| == 19
    ensures forall k :: k in MODULE_KEYS <==>
      k in {AUDIO_KEY, DATA_KEY, EVENT_KEY, FILESYSTEM_KEY, FONT_KEY, GRAPHICS_KEY, IMAGE_KEY,
            JOYSTICK_KEY, KEYBOARD_KEY, MATH_KEY, MOUSE_KEY, PHYSICS_KEY, SOUND_KEY, SYSTEM_KEY,
            THREAD_KEY, TIMER_KEY, TOUCH_KEY, VIDEO_KEY, WINDOW_KEY}
    ensures Distinct(MODULE_KEYS)
    ensures CALLBACKS_KEY !in MODULE_KEYS && MODULES_KEY !in MODULE_KEYS
  {
  }
}
