/**
 * The completion registry of the `intellijloveframework` package, the one its
 * completion provider consults. Its lists equal the other package's except that
 * `graphics` holds only nine functions.
 */
module FrameworkElements {
  import opened LoveTypes
  import opened Registry
  import opened Sequences

  /** The `love` callbacks. */
  const LOVE_CALLBACKS: seq<Element> := CreateElements(
    ["load", "update", "draw"],
    CALLBACK)

  /** The `love` modules, in declaration order. */
  const LOVE_MODULES: seq<Element> := CreateElements(
    ["audio", "data", "event", "filesystem",
     "font", "graphics", "image", "joystick",
     "keyboard", "math", "mouse", "physics",
     "sound", "system", "thread", "timer",
     "touch", "video", "window"],
    MODULE)

  /** The functions of `love.audio`. */
  const LOVE_AUDIO_FUNCTIONS: seq<Element> := CreateElements(
    ["getActiveEffects", "getActiveSourceCount", "getDistanceModel", "getDopplerScale",
     "getEffect", "getMaxSceneEffects", "getMaxSourceEffects", "getNumSources"] +
    ["getOrientation", "getPosition", "getRecordingDevices", "getSourceCount",
     "getVelocity", "getVolume", "isEffectsSupported", "newQueueableSource"] +
    ["newSource", "pause", "play", "resume",
     "rewind", "setDistanceModel", "setDopplerScale", "setEffect"] +
    ["setMixWithSystem", "setOrientation", "setPosition", "setVelocity",
     "setVolume", "stop"],
    FUNCTION)

  /** The functions of `love.data`. */
  const LOVE_DATA_FUNCTIONS: seq<Element> := CreateElements(
    ["compress", "decode", "decompress", "encode",
     "getPackedSize", "hash", "newByteData", "newDataView",
     "pack", "unpack"],
    FUNCTION)

  /** The functions of `love.event`. */
  const LOVE_EVENT_FUNCTIONS: seq<Element> := CreateElements(
    ["clear", "poll", "pump", "push",
     "quit", "wait"],
    FUNCTION)

  /** The functions of `love.filesystem`. */
  const LOVE_FILESYSTEM_FUNCTIONS: seq<Element> := CreateElements(
    ["append", "areSymlinksEnabled", "createDirectory", "enumerate",
     "exists", "getAppdataDirectory", "getCRequirePath", "getDirectoryItems"] +
    ["getIdentity", "getInfo", "getLastModified", "getRealDirectory",
     "getRequirePath", "getSaveDirectory", "getSize", "getSource"] +
    ["getSourceBaseDirectory", "getUserDirectory", "getWorkingDirectory", "init",
     "isDirectory", "isFile", "isFused", "isSymlink"] +
    ["lines", "load", "mkdir", "mount",
     "newFile", "newFileData", "read", "remove"] +
    ["setCRequirePath", "setIdentity", "setRequirePath", "setSource",
     "setSymlinksEnabled", "unmount", "write"],
    FUNCTION)

  /** The functions of `love.font`. */
  const LOVE_FONT_FUNCTIONS: seq<Element> := CreateElements(
    ["newBMFontRasterizer", "newFontData", "newGlyphData", "newImageRasterizer",
     "newRasterizer", "newTrueTypeRasterizer"],
    FUNCTION)

  /** The functions of `love.graphics`. */
  const LOVE_GRAPHICS_FUNCTIONS: seq<Element> := CreateElements(
    ["arc", "circle", "clear", "discard",
     "draw", "line", "point", "print",
     "setColor"],
    FUNCTION)

  /** The functions of `love.image`. */
  const LOVE_IMAGE_FUNCTIONS: seq<Element> := CreateElements(
    ["isCompressed", "newCompressedData", "newEncodedImageData", "newImageData"],
    FUNCTION)

  /** The functions of `love.joystick`. */
  const LOVE_JOYSTICK_FUNCTIONS: seq<Element> := CreateElements(
    ["close", "getAxes", "getAxis", "getBall",
     "getGamepadMappingString", "getHat", "getJoystickCount", "getJoysticks",
     "getName", "getNumAxes", "getNumBalls", "getNumButtons",
     "getNumHats", "getNumJoysticks", "isDown", "isOpen",
     "loadGamepadMappings", "open", "saveGamepadMappings", "setGamepadMapping"],
    FUNCTION)

  /** The functions of `love.keyboard`. */
  const LOVE_KEYBOARD_FUNCTIONS: seq<Element> := CreateElements(
    ["getKeyFromScancode", "getKeyRepeat", "getScancodeFromKey", "hasKeyRepeat",
     "hasScreenKeyboard", "hasTextInput", "isDown", "isScancodeDown",
     "setKeyRepeat", "setTextInput"],
    FUNCTION)

  /** The functions of `love.math`. */
  const LOVE_MATH_FUNCTIONS: seq<Element> := CreateElements(
    ["colorFromBytes", "colorToBytes", "compress", "decompress",
     "gammaToLinear", "getRandomSeed", "getRandomState", "isConvex",
     "linearToGamma", "newBezierCurve", "newRandomGenerator", "newTransform",
     "noise", "random", "randomNormal", "setRandomSeed",
     "setRandomState", "triangulate"],
    FUNCTION)

  /** The functions of `love.mouse`. */
  const LOVE_MOUSE_FUNCTIONS: seq<Element> := CreateElements(
    ["getCursor", "getPosition", "getRelativeMode", "getSystemCursor",
     "getX", "getY", "hasCursor", "isCursorSupported",
     "isDown", "isGrabbed", "isVisible", "newCursor",
     "setCursor", "setGrab", "setGrabbed", "setPosition",
     "setRelativeMode", "setVisible", "setX", "setY"],
    FUNCTION)

  /** The functions of `love.physics`. */
  const LOVE_PHYSICS_FUNCTIONS: seq<Element> := CreateElements(
    ["getDistance", "getMeter", "newBody", "newChainShape",
     "newCircleShape", "newDistanceJoint", "newEdgeShape", "newFixture",
     "newFrictionJoint", "newGearJoint", "newMotorJoint", "newMouseJoint",
     "newPolygonShape", "newPrismaticJoint", "newPulleyJoint", "newRectangleShape",
     "newRevoluteJoint", "newRopeJoint", "newWeldJoint", "newWheelJoint",
     "newWorld", "setMeter"],
    FUNCTION)

  /** The functions of `love.sound`. */
  const LOVE_SOUND_FUNCTIONS: seq<Element> := CreateElements(
    ["newDecoder", "newSoundData"],
    FUNCTION)

  /** The functions of `love.system`. */
  const LOVE_SYSTEM_FUNCTIONS: seq<Element> := CreateElements(
    ["getClipboardText", "getOS", "getPowerInfo", "getProcessorCount",
     "hasBackgroundMusic", "openURL", "setClipboardText", "vibrate"],
    FUNCTION)

  /** The functions of `love.thread`. */
  const LOVE_THREAD_FUNCTIONS: seq<Element> := CreateElements(
    ["getChannel", "getThread", "getThreads", "newChannel",
     "newThread"],
    FUNCTION)

  /** The functions of `love.timer`. */
  const LOVE_TIMER_FUNCTIONS: seq<Element> := CreateElements(
    ["getAverageDelta", "getDelta", "getFPS", "getMicroTime",
     "getTime", "sleep", "step"],
    FUNCTION)

  /** The functions of `love.touch`. */
  const LOVE_TOUCH_FUNCTIONS: seq<Element> := CreateElements(
    ["getPosition", "getPressure", "getTouches"],
    FUNCTION)

  /** The functions of `love.video`. */
  const LOVE_VIDEO_FUNCTIONS: seq<Element> := CreateElements(
    ["newVideoStream"],
    FUNCTION)

  /** The functions of `love.window`. */
  const LOVE_WINDOW_FUNCTIONS: seq<Element> := CreateElements(
    ["close", "fromPixels", "getDPIScale", "getDesktopDimensions",
     "getDimensions", "getDisplayCount", "getDisplayName", "getDisplayOrientation"] +
    ["getFullscreen", "getFullscreenModes", "getHeight", "getIcon",
     "getMode", "getPixelScale", "getPosition", "getSafeArea"] +
    ["getTitle", "getVSync", "getWidth", "hasFocus",
     "hasMouseFocus", "isCreated", "isDisplaySleepEnabled", "isMaximized"] +
    ["isMinimized", "isOpen", "isVisible", "maximize",
     "minimize", "requestAttention", "restore", "setDisplaySleepEnabled"] +
    ["setFullscreen", "setIcon", "setMode", "setPosition",
     "setTitle", "setVSync", "showMessageBox", "toPixels"] +
    ["updateMode"],
    FUNCTION)

  /** The frozen map the static initializer builds. */
  const LOVE_LOOKUP_MAP: LookupMap := map[
    CALLBACKS_KEY := LOVE_CALLBACKS,
    MODULES_KEY := LOVE_MODULES,
    AUDIO_KEY := LOVE_AUDIO_FUNCTIONS,
    DATA_KEY := LOVE_DATA_FUNCTIONS,
    EVENT_KEY := LOVE_EVENT_FUNCTIONS,
    FILESYSTEM_KEY := LOVE_FILESYSTEM_FUNCTIONS,
    FONT_KEY := LOVE_FONT_FUNCTIONS,
    GRAPHICS_KEY := LOVE_GRAPHICS_FUNCTIONS,
    IMAGE_KEY := LOVE_IMAGE_FUNCTIONS,
    JOYSTICK_KEY := LOVE_JOYSTICK_FUNCTIONS,
    KEYBOARD_KEY := LOVE_KEYBOARD_FUNCTIONS,
    MATH_KEY := LOVE_MATH_FUNCTIONS,
    MOUSE_KEY := LOVE_MOUSE_FUNCTIONS,
    PHYSICS_KEY := LOVE_PHYSICS_FUNCTIONS,
    SOUND_KEY := LOVE_SOUND_FUNCTIONS,
    SYSTEM_KEY := LOVE_SYSTEM_FUNCTIONS,
    THREAD_KEY := LOVE_THREAD_FUNCTIONS,
    TIMER_KEY := LOVE_TIMER_FUNCTIONS,
    TOUCH_KEY := LOVE_TOUCH_FUNCTIONS,
    VIDEO_KEY := LOVE_VIDEO_FUNCTIONS,
    WINDOW_KEY := LOVE_WINDOW_FUNCTIONS
  ]

  /** The keys in the order the static initializer registers them. */
  const REGISTRATION_ORDER: seq<string> := [
    CALLBACKS_KEY,
    MODULES_KEY,
    AUDIO_KEY,
    DATA_KEY,
    EVENT_KEY,
    FILESYSTEM_KEY,
    FONT_KEY,
    GRAPHICS_KEY,
    IMAGE_KEY,
    JOYSTICK_KEY,
    KEYBOARD_KEY,
    MATH_KEY,
    MOUSE_KEY,
    PHYSICS_KEY,
    SOUND_KEY,
    SYSTEM_KEY,
    THREAD_KEY,
    TIMER_KEY,
    TOUCH_KEY,
    VIDEO_KEY,
    WINDOW_KEY
  ]

  /** The static initializer: one `put` per key into an empty map, which is then frozen. */
  method InitLookupMap() returns (m: LookupMap)
    ensures m == LOVE_LOOKUP_MAP
  {
    var registry: LookupMap := map[];
    registry := registry[CALLBACKS_KEY := LOVE_CALLBACKS];
    registry := registry[MODULES_KEY := LOVE_MODULES];
    registry := registry[AUDIO_KEY := LOVE_AUDIO_FUNCTIONS];
    registry := registry[DATA_KEY := LOVE_DATA_FUNCTIONS];
    registry := registry[EVENT_KEY := LOVE_EVENT_FUNCTIONS];
    registry := registry[FILESYSTEM_KEY := LOVE_FILESYSTEM_FUNCTIONS];
    registry := registry[FONT_KEY := LOVE_FONT_FUNCTIONS];
    registry := registry[GRAPHICS_KEY := LOVE_GRAPHICS_FUNCTIONS];
    registry := registry[IMAGE_KEY := LOVE_IMAGE_FUNCTIONS];
    registry := registry[JOYSTICK_KEY := LOVE_JOYSTICK_FUNCTIONS];
    registry := registry[KEYBOARD_KEY := LOVE_KEYBOARD_FUNCTIONS];
    registry := registry[MATH_KEY := LOVE_MATH_FUNCTIONS];
    registry := registry[MOUSE_KEY := LOVE_MOUSE_FUNCTIONS];
    registry := registry[PHYSICS_KEY := LOVE_PHYSICS_FUNCTIONS];
    registry := registry[SOUND_KEY := LOVE_SOUND_FUNCTIONS];
    registry := registry[SYSTEM_KEY := LOVE_SYSTEM_FUNCTIONS];
    registry := registry[THREAD_KEY := LOVE_THREAD_FUNCTIONS];
    registry := registry[TIMER_KEY := LOVE_TIMER_FUNCTIONS];
    registry := registry[TOUCH_KEY := LOVE_TOUCH_FUNCTIONS];
    registry := registry[VIDEO_KEY := LOVE_VIDEO_FUNCTIONS];
    registry := registry[WINDOW_KEY := LOVE_WINDOW_FUNCTIONS];
    m := registry;
  }

  /** `getElementsFor(key)`: the registered list, or the empty list for an unknown key. */
  function GetElementsFor(key: string): (r: seq<Element>)
    ensures key in LOVE_LOOKUP_MAP ==> r == LOVE_LOOKUP_MAP[key]
    ensures key !in LOVE_LOOKUP_MAP ==> r == []
  {
    Lookup(LOVE_LOOKUP_MAP, key)
  }

  /** `getAllElements()`, given the map's iteration order `order`. */
  function GetAllElements(order: seq<string>): seq<Element>
    requires IsEnumeration(order, LOVE_LOOKUP_MAP)
  {
    Registry.GetAllElements(LOVE_LOOKUP_MAP, order)
  }

  /** The registration order visits every key once, so it is one iteration order of the map. */
  lemma RegistrationOrderEnumerates()
    ensures Distinct(REGISTRATION_ORDER)
    ensures LOVE_LOOKUP_MAP.Keys == set k | k in REGISTRATION_ORDER
    ensures IsEnumeration(REGISTRATION_ORDER, LOVE_LOOKUP_MAP)
  {
    RegistrationOrderDistinct();
    RegisteredKeys();
    DistinctElements(REGISTRATION_ORDER);
  }

  lemma RegistrationOrderDistinct()
    ensures Distinct(REGISTRATION_ORDER)
  {
  }

  lemma RegisteredKeys()
    ensures LOVE_LOOKUP_MAP.Keys == set k | k in REGISTRATION_ORDER
  {
  }

  /** `getAllElements()` holds exactly the entries of the registered lists. */
  lemma AllElementsContents(order: seq<string>, e: Element)
    requires IsEnumeration(order, LOVE_LOOKUP_MAP)
    ensures e in GetAllElements(order) <==> exists k :: k in LOVE_LOOKUP_MAP && e in GetElementsFor(k)
  {
    AllElementsMembership(LOVE_LOOKUP_MAP, order, e);
  }

  lemma LookupCallbacks()
    ensures GetElementsFor(CALLBACKS_KEY) == LOVE_CALLBACKS
  {
  }

  lemma LookupModules()
    ensures GetElementsFor(MODULES_KEY) == LOVE_MODULES
  {
  }

  lemma LookupAudio()
    ensures GetElementsFor(AUDIO_KEY) == LOVE_AUDIO_FUNCTIONS
  {
  }

  lemma LookupData()
    ensures GetElementsFor(DATA_KEY) == LOVE_DATA_FUNCTIONS
  {
  }

  lemma LookupEvent()
    ensures GetElementsFor(EVENT_KEY) == LOVE_EVENT_FUNCTIONS
  {
  }

  lemma LookupFilesystem()
    ensures GetElementsFor(FILESYSTEM_KEY) == LOVE_FILESYSTEM_FUNCTIONS
  {
  }

  lemma LookupFont()
    ensures GetElementsFor(FONT_KEY) == LOVE_FONT_FUNCTIONS
  {
  }

  lemma LookupGraphics()
    ensures GetElementsFor(GRAPHICS_KEY) == LOVE_GRAPHICS_FUNCTIONS
  {
  }

  lemma LookupImage()
    ensures GetElementsFor(IMAGE_KEY) == LOVE_IMAGE_FUNCTIONS
  {
  }

  lemma LookupJoystick()
    ensures GetElementsFor(JOYSTICK_KEY) == LOVE_JOYSTICK_FUNCTIONS
  {
  }

  lemma LookupKeyboard()
    ensures GetElementsFor(KEYBOARD_KEY) == LOVE_KEYBOARD_FUNCTIONS
  {
  }

  lemma LookupMath()
    ensures GetElementsFor(MATH_KEY) == LOVE_MATH_FUNCTIONS
  {
  }

  lemma LookupMouse()
    ensures GetElementsFor(MOUSE_KEY) == LOVE_MOUSE_FUNCTIONS
  {
  }

  lemma LookupPhysics()
    ensures GetElementsFor(PHYSICS_KEY) == LOVE_PHYSICS_FUNCTIONS
  {
  }

  lemma LookupSound()
    ensures GetElementsFor(SOUND_KEY) == LOVE_SOUND_FUNCTIONS
  {
  }

  lemma LookupSystem()
    ensures GetElementsFor(SYSTEM_KEY) == LOVE_SYSTEM_FUNCTIONS
  {
  }

  lemma LookupThread()
    ensures GetElementsFor(THREAD_KEY) == LOVE_THREAD_FUNCTIONS
  {
  }

  lemma LookupTimer()
    ensures GetElementsFor(TIMER_KEY) == LOVE_TIMER_FUNCTIONS
  {
  }

  lemma LookupTouch()
    ensures GetElementsFor(TOUCH_KEY) == LOVE_TOUCH_FUNCTIONS
  {
  }

  lemma LookupVideo()
    ensures GetElementsFor(VIDEO_KEY) == LOVE_VIDEO_FUNCTIONS
  {
  }

  lemma LookupWindow()
    ensures GetElementsFor(WINDOW_KEY) == LOVE_WINDOW_FUNCTIONS
  {
  }

  /** Every key resolves to the list registered under it. */
  lemma RegisteredLists()
    ensures GetElementsFor(CALLBACKS_KEY) == LOVE_CALLBACKS
    ensures GetElementsFor(MODULES_KEY) == LOVE_MODULES
    ensures GetElementsFor(AUDIO_KEY) == LOVE_AUDIO_FUNCTIONS
    ensures GetElementsFor(DATA_KEY) == LOVE_DATA_FUNCTIONS
    ensures GetElementsFor(EVENT_KEY) == LOVE_EVENT_FUNCTIONS
    ensures GetElementsFor(FILESYSTEM_KEY) == LOVE_FILESYSTEM_FUNCTIONS
    ensures GetElementsFor(FONT_KEY) == LOVE_FONT_FUNCTIONS
    ensures GetElementsFor(GRAPHICS_KEY) == LOVE_GRAPHICS_FUNCTIONS
    ensures GetElementsFor(IMAGE_KEY) == LOVE_IMAGE_FUNCTIONS
    ensures GetElementsFor(JOYSTICK_KEY) == LOVE_JOYSTICK_FUNCTIONS
    ensures GetElementsFor(KEYBOARD_KEY) == LOVE_KEYBOARD_FUNCTIONS
    ensures GetElementsFor(MATH_KEY) == LOVE_MATH_FUNCTIONS
    ensures GetElementsFor(MOUSE_KEY) == LOVE_MOUSE_FUNCTIONS
    ensures GetElementsFor(PHYSICS_KEY) == LOVE_PHYSICS_FUNCTIONS
    ensures GetElementsFor(SOUND_KEY) == LOVE_SOUND_FUNCTIONS
    ensures GetElementsFor(SYSTEM_KEY) == LOVE_SYSTEM_FUNCTIONS
    ensures GetElementsFor(THREAD_KEY) == LOVE_THREAD_FUNCTIONS
    ensures GetElementsFor(TIMER_KEY) == LOVE_TIMER_FUNCTIONS
    ensures GetElementsFor(TOUCH_KEY) == LOVE_TOUCH_FUNCTIONS
    ensures GetElementsFor(VIDEO_KEY) == LOVE_VIDEO_FUNCTIONS
    ensures GetElementsFor(WINDOW_KEY) == LOVE_WINDOW_FUNCTIONS
  {
    LookupCallbacks();
    LookupModules();
    LookupAudio();
    LookupData();
    LookupEvent();
    LookupFilesystem();
    LookupFont();
    LookupGraphics();
    LookupImage();
    LookupJoystick();
    LookupKeyboard();
    LookupMath();
    LookupMouse();
    LookupPhysics();
    LookupSound();
    LookupSystem();
    LookupThread();
    LookupTimer();
    LookupTouch();
    LookupVideo();
    LookupWindow();
  }

  lemma TypedAudio()
    ensures Typed(LOVE_AUDIO_FUNCTIONS, FUNCTION)
  {
    CreatedTyped();
  }

  lemma TypedData()
    ensures Typed(LOVE_DATA_FUNCTIONS, FUNCTION)
  {
    CreatedTyped();
  }

  lemma TypedEvent()
    ensures Typed(LOVE_EVENT_FUNCTIONS, FUNCTION)
  {
    CreatedTyped();
  }

  lemma TypedFilesystem()
    ensures Typed(LOVE_FILESYSTEM_FUNCTIONS, FUNCTION)
  {
    CreatedTyped();
  }

  lemma TypedFont()
    ensures Typed(LOVE_FONT_FUNCTIONS, FUNCTION)
  {
    CreatedTyped();
  }

  lemma TypedGraphics()
    ensures Typed(LOVE_GRAPHICS_FUNCTIONS, FUNCTION)
  {
    CreatedTyped();
  }

  lemma TypedImage()
    ensures Typed(LOVE_IMAGE_FUNCTIONS, FUNCTION)
  {
    CreatedTyped();
  }

  lemma TypedJoystick()
    ensures Typed(LOVE_JOYSTICK_FUNCTIONS, FUNCTION)
  {
    CreatedTyped();
  }

  lemma TypedKeyboard()
    ensures Typed(LOVE_KEYBOARD_FUNCTIONS, FUNCTION)
  {
    CreatedTyped();
  }

  lemma TypedMath()
    ensures Typed(LOVE_MATH_FUNCTIONS, FUNCTION)
  {
    CreatedTyped();
  }

  lemma TypedMouse()
    ensures Typed(LOVE_MOUSE_FUNCTIONS, FUNCTION)
  {
    CreatedTyped();
  }

  lemma TypedPhysics()
    ensures Typed(LOVE_PHYSICS_FUNCTIONS, FUNCTION)
  {
    CreatedTyped();
  }

  lemma TypedSound()
    ensures Typed(LOVE_SOUND_FUNCTIONS, FUNCTION)
  {
    CreatedTyped();
  }

  lemma TypedSystem()
    ensures Typed(LOVE_SYSTEM_FUNCTIONS, FUNCTION)
  {
    CreatedTyped();
  }

  lemma TypedThread()
    ensures Typed(LOVE_THREAD_FUNCTIONS, FUNCTION)
  {
    CreatedTyped();
  }

  lemma TypedTimer()
    ensures Typed(LOVE_TIMER_FUNCTIONS, FUNCTION)
  {
    CreatedTyped();
  }

  lemma TypedTouch()
    ensures Typed(LOVE_TOUCH_FUNCTIONS, FUNCTION)
  {
    CreatedTyped();
  }

  lemma TypedVideo()
    ensures Typed(LOVE_VIDEO_FUNCTIONS, FUNCTION)
  {
    CreatedTyped();
  }

  lemma TypedWindow()
    ensures Typed(LOVE_WINDOW_FUNCTIONS, FUNCTION)
  {
    CreatedTyped();
  }

  lemma FunctionListTyped0(k: string)
    requires k == AUDIO_KEY || k == DATA_KEY || k == EVENT_KEY
    ensures Typed(GetElementsFor(k), FUNCTION)
  {
    if k == AUDIO_KEY {
      LookupAudio();
      TypedAudio();
    } else if k == DATA_KEY {
      LookupData();
      TypedData();
    } else {
      LookupEvent();
      TypedEvent();
    }
  }

  lemma FunctionListTyped1(k: string)
    requires k == FILESYSTEM_KEY || k == FONT_KEY || k == GRAPHICS_KEY
    ensures Typed(GetElementsFor(k), FUNCTION)
  {
    if k == FILESYSTEM_KEY {
      LookupFilesystem();
      TypedFilesystem();
    } else if k == FONT_KEY {
      LookupFont();
      TypedFont();
    } else {
      LookupGraphics();
      TypedGraphics();
    }
  }

  lemma FunctionListTyped2(k: string)
    requires k == IMAGE_KEY || k == JOYSTICK_KEY || k == KEYBOARD_KEY
    ensures Typed(GetElementsFor(k), FUNCTION)
  {
    if k == IMAGE_KEY {
      LookupImage();
      TypedImage();
    } else if k == JOYSTICK_KEY {
      LookupJoystick();
      TypedJoystick();
    } else {
      LookupKeyboard();
      TypedKeyboard();
    }
  }

  lemma FunctionListTyped3(k: string)
    requires k == MATH_KEY || k == MOUSE_KEY || k == PHYSICS_KEY
    ensures Typed(GetElementsFor(k), FUNCTION)
  {
    if k == MATH_KEY {
      LookupMath();
      TypedMath();
    } else if k == MOUSE_KEY {
      LookupMouse();
      TypedMouse();
    } else {
      LookupPhysics();
      TypedPhysics();
    }
  }

  lemma FunctionListTyped4(k: string)
    requires k == SOUND_KEY || k == SYSTEM_KEY || k == THREAD_KEY
    ensures Typed(GetElementsFor(k), FUNCTION)
  {
    if k == SOUND_KEY {
      LookupSound();
      TypedSound();
    } else if k == SYSTEM_KEY {
      LookupSystem();
      TypedSystem();
    } else {
      LookupThread();
      TypedThread();
    }
  }

  lemma FunctionListTyped5(k: string)
    requires k == TIMER_KEY || k == TOUCH_KEY || k == VIDEO_KEY
    ensures Typed(GetElementsFor(k), FUNCTION)
  {
    if k == TIMER_KEY {
      LookupTimer();
      TypedTimer();
    } else if k == TOUCH_KEY {
      LookupTouch();
      TypedTouch();
    } else {
      LookupVideo();
      TypedVideo();
    }
  }

  lemma FunctionListTyped6(k: string)
    requires k == WINDOW_KEY
    ensures Typed(GetElementsFor(k), FUNCTION)
  {
    if k == WINDOW_KEY {
      LookupWindow();
      TypedWindow();
    }
  }

  lemma FunctionListTyped(k: string)
    requires k in MODULE_KEYS
    ensures Typed(GetElementsFor(k), FUNCTION)
  {
    if k == AUDIO_KEY || k == DATA_KEY || k == EVENT_KEY {
      FunctionListTyped0(k);
    } else if k == FILESYSTEM_KEY || k == FONT_KEY || k == GRAPHICS_KEY {
      FunctionListTyped1(k);
    } else if k == IMAGE_KEY || k == JOYSTICK_KEY || k == KEYBOARD_KEY {
      FunctionListTyped2(k);
    } else if k == MATH_KEY || k == MOUSE_KEY || k == PHYSICS_KEY {
      FunctionListTyped3(k);
    } else if k == SOUND_KEY || k == SYSTEM_KEY || k == THREAD_KEY {
      FunctionListTyped4(k);
    } else if k == TIMER_KEY || k == TOUCH_KEY || k == VIDEO_KEY {
      FunctionListTyped5(k);
    } else {
      FunctionListTyped6(k);
    }
  }

  /** The size of every registered list. */
  lemma ListSizes()
    ensures |GetElementsFor(CALLBACKS_KEY)| == 3
    ensures |GetElementsFor(MODULES_KEY)| == 19
    ensures |GetElementsFor(AUDIO_KEY)| == 30
    ensures |GetElementsFor(DATA_KEY)| == 10
    ensures |GetElementsFor(EVENT_KEY)| == 6
    ensures |GetElementsFor(FILESYSTEM_KEY)| == 39
    ensures |GetElementsFor(FONT_KEY)| == 6
    ensures |GetElementsFor(GRAPHICS_KEY)| == 9
    ensures |GetElementsFor(IMAGE_KEY)| == 4
    ensures |GetElementsFor(JOYSTICK_KEY)| == 20
    ensures |GetElementsFor(KEYBOARD_KEY)| == 10
    ensures |GetElementsFor(MATH_KEY)| == 18
    ensures |GetElementsFor(MOUSE_KEY)| == 20
    ensures |GetElementsFor(PHYSICS_KEY)| == 22
    ensures |GetElementsFor(SOUND_KEY)| == 2
    ensures |GetElementsFor(SYSTEM_KEY)| == 8
    ensures |GetElementsFor(THREAD_KEY)| == 5
    ensures |GetElementsFor(TIMER_KEY)| == 7
    ensures |GetElementsFor(TOUCH_KEY)| == 3
    ensures |GetElementsFor(VIDEO_KEY)| == 1
    ensures |GetElementsFor(WINDOW_KEY)| == 41
  {
    RegisteredLists();
  }

  lemma SizeSumFrom18()
    ensures SizeSum(LOVE_LOOKUP_MAP, REGISTRATION_ORDER, 18) == 45
  {
    LookupWindow();
    LookupVideo();
    LookupTouch();
    var m, o := LOVE_LOOKUP_MAP, REGISTRATION_ORDER;
    assert o[20] == WINDOW_KEY;
    assert SizeSum(m, o, 20) == 41;
    assert o[19] == VIDEO_KEY;
    assert SizeSum(m, o, 19) == 42;
    assert o[18] == TOUCH_KEY;
    assert SizeSum(m, o, 18) == 45;
  }

  lemma SizeSumFrom15()
    ensures SizeSum(LOVE_LOOKUP_MAP, REGISTRATION_ORDER, 15) == 65
  {
    SizeSumFrom18();
    LookupTimer();
    LookupThread();
    LookupSystem();
    var m, o := LOVE_LOOKUP_MAP, REGISTRATION_ORDER;
    assert o[17] == TIMER_KEY;
    assert SizeSum(m, o, 17) == 52;
    assert o[16] == THREAD_KEY;
    assert SizeSum(m, o, 16) == 57;
    assert o[15] == SYSTEM_KEY;
    assert SizeSum(m, o, 15) == 65;
  }

  lemma SizeSumFrom12()
    ensures SizeSum(LOVE_LOOKUP_MAP, REGISTRATION_ORDER, 12) == 109
  {
    SizeSumFrom15();
    LookupSound();
    LookupPhysics();
    LookupMouse();
    var m, o := LOVE_LOOKUP_MAP, REGISTRATION_ORDER;
    assert o[14] == SOUND_KEY;
    assert SizeSum(m, o, 14) == 67;
    assert o[13] == PHYSICS_KEY;
    assert SizeSum(m, o, 13) == 89;
    assert o[12] == MOUSE_KEY;
    assert SizeSum(m, o, 12) == 109;
  }

  lemma SizeSumFrom9()
    ensures SizeSum(LOVE_LOOKUP_MAP, REGISTRATION_ORDER, 9) == 157
  {
    SizeSumFrom12();
    LookupMath();
    LookupKeyboard();
    LookupJoystick();
    var m, o := LOVE_LOOKUP_MAP, REGISTRATION_ORDER;
    assert o[11] == MATH_KEY;
    assert SizeSum(m, o, 11) == 127;
    assert o[10] == KEYBOARD_KEY;
    assert SizeSum(m, o, 10) == 137;
    assert o[9] == JOYSTICK_KEY;
    assert SizeSum(m, o, 9) == 157;
  }

  lemma SizeSumFrom6()
    ensures SizeSum(LOVE_LOOKUP_MAP, REGISTRATION_ORDER, 6) == 176
  {
    SizeSumFrom9();
    LookupImage();
    LookupGraphics();
    LookupFont();
    var m, o := LOVE_LOOKUP_MAP, REGISTRATION_ORDER;
    assert o[8] == IMAGE_KEY;
    assert SizeSum(m, o, 8) == 161;
    assert o[7] == GRAPHICS_KEY;
    assert SizeSum(m, o, 7) == 170;
    assert o[6] == FONT_KEY;
    assert SizeSum(m, o, 6) == 176;
  }

  lemma SizeSumFrom3()
    ensures SizeSum(LOVE_LOOKUP_MAP, REGISTRATION_ORDER, 3) == 231
  {
    SizeSumFrom6();
    LookupFilesystem();
    LookupEvent();
    LookupData();
    var m, o := LOVE_LOOKUP_MAP, REGISTRATION_ORDER;
    assert o[5] == FILESYSTEM_KEY;
    assert SizeSum(m, o, 5) == 215;
    assert o[4] == EVENT_KEY;
    assert SizeSum(m, o, 4) == 221;
    assert o[3] == DATA_KEY;
    assert SizeSum(m, o, 3) == 231;
  }

  lemma SizeSumFrom2()
    ensures SizeSum(LOVE_LOOKUP_MAP, REGISTRATION_ORDER, 2) == 261
  {
    SizeSumFrom3();
    LookupAudio();
    var m, o := LOVE_LOOKUP_MAP, REGISTRATION_ORDER;
    assert o[2] == AUDIO_KEY;
    assert SizeSum(m, o, 2) == 261;
  }

  lemma SizeSumFrom1()
    ensures SizeSum(LOVE_LOOKUP_MAP, REGISTRATION_ORDER, 1) == 280
  {
    SizeSumFrom2();
    LookupModules();
    var m, o := LOVE_LOOKUP_MAP, REGISTRATION_ORDER;
    assert o[1] == MODULES_KEY;
    assert SizeSum(m, o, 1) == 280;
  }

  lemma SizeSumFrom0()
    ensures SizeSum(LOVE_LOOKUP_MAP, REGISTRATION_ORDER, 0) == 283
  {
    SizeSumFrom1();
    LookupCallbacks();
    var m, o := LOVE_LOOKUP_MAP, REGISTRATION_ORDER;
    assert o[0] == CALLBACKS_KEY;
    assert SizeSum(m, o, 0) == 283;
  }

  /** Whatever the iteration order, `getAllElements()` has 283 entries, the sum of the list sizes. */
  lemma AllElementsSize(order: seq<string>)
    requires IsEnumeration(order, LOVE_LOOKUP_MAP)
    ensures |GetAllElements(order)| == 283
  {
    RegistrationOrderEnumerates();
    AllElementsOrderIrrelevant(LOVE_LOOKUP_MAP, order, REGISTRATION_ORDER);
    AllElementsLength(LOVE_LOOKUP_MAP, REGISTRATION_ORDER);
    SizeSumFrom0();
  }

  /** The map has the two top-level keys and one key per module. */
  lemma LookupMapKeys()
    ensures LOVE_LOOKUP_MAP.Keys == {CALLBACKS_KEY, MODULES_KEY} + set k | k in MODULE_KEYS
  {
    RegisteredKeys();
    RegistrationOrderKeys();
  }

  /** The map holds 21 keys. */
  lemma LookupMapSize()
    ensures |LOVE_LOOKUP_MAP| == 21
  {
    RegistrationOrderDistinct();
    RegisteredKeys();
    DistinctElements(REGISTRATION_ORDER);
    assert |LOVE_LOOKUP_MAP| == |LOVE_LOOKUP_MAP.Keys|;
  }

  lemma RegistrationOrderKeys()
    ensures (set k | k in REGISTRATION_ORDER) == {CALLBACKS_KEY, MODULES_KEY} + set k | k in MODULE_KEYS
  {
    RegistrationOrderShape();
    ElementsOfConcat([CALLBACKS_KEY, MODULES_KEY], MODULE_KEYS);
    assert (set k | k in [CALLBACKS_KEY, MODULES_KEY]) == {CALLBACKS_KEY, MODULES_KEY};
  }

  lemma RegistrationOrderShape()
    ensures REGISTRATION_ORDER == [CALLBACKS_KEY, MODULES_KEY] + MODULE_KEYS
  {
  }

  /** The modules list names exactly the module keys, in order, so `love.<module>.` always resolves. */
  lemma ModulesResolve()
    ensures Names(GetElementsFor(MODULES_KEY)) == MODULE_KEYS
    ensures forall e :: e in GetElementsFor(MODULES_KEY) ==> e.name in LOVE_LOOKUP_MAP
  {
    LookupModules();
    CreatedNames();
    LookupMapKeys();
    var s := GetElementsFor(MODULES_KEY);
    forall e | e in s ensures e.name in LOVE_LOOKUP_MAP {
      var i :| 0 <= i < |s| && s[i] == e;
      assert Names(s)[i] == e.name;
    }
  }

  /** Callbacks carry "Callback", modules "Module", module functions "Function"; every entry has priority 1000. */
  lemma TypeTextsFollowList()
    ensures Typed(GetElementsFor(CALLBACKS_KEY), CALLBACK)
    ensures Typed(GetElementsFor(MODULES_KEY), MODULE)
    ensures forall k :: k in MODULE_KEYS ==> Typed(GetElementsFor(k), FUNCTION)
    ensures forall k, e :: e in GetElementsFor(k) ==> e.priority == PRIORITY
  {
    LookupCallbacks();
    LookupModules();
    TypedCallbacks();
    TypedModules();
    FunctionListsTyped();
    forall k, e | e in GetElementsFor(k) ensures e.priority == PRIORITY {
      HasPriority(k, e);
    }
  }

  lemma HasPriority(k: string, e: Element)
    requires e in GetElementsFor(k)
    ensures e.priority == PRIORITY
  {
    if k == CALLBACKS_KEY {
      LookupCallbacks();
      TypedCallbacks();
    } else if k == MODULES_KEY {
      LookupModules();
      TypedModules();
    } else {
      LookupMapKeys();
      FunctionListTyped(k);
    }
  }

  lemma TypedCallbacks()
    ensures Typed(LOVE_CALLBACKS, CALLBACK)
  {
    CreatedTyped();
  }

  lemma TypedModules()
    ensures Typed(LOVE_MODULES, MODULE)
  {
    CreatedTyped();
  }

  lemma FunctionListsTyped()
    ensures forall k :: k in MODULE_KEYS ==> Typed(GetElementsFor(k), FUNCTION)
  {
    forall k | k in MODULE_KEYS ensures Typed(GetElementsFor(k), FUNCTION) {
      FunctionListTyped(k);
    }
  }


  /** The callbacks are exactly `load`, `update` and `draw`, in that order. */
  lemma CallbacksExact()
    ensures Names(GetElementsFor(CALLBACKS_KEY)) == ["load", "update", "draw"]
  {
    LookupCallbacks();
    CreatedNames();
  }

  /** This package's graphics list holds exactly nine functions. */
  lemma GraphicsExact()
    ensures Names(GetElementsFor(GRAPHICS_KEY)) ==
      ["arc", "circle", "clear", "discard", "draw", "line", "point", "print", "setColor"]
  {
    LookupGraphics();
    CreatedNames();
  }
}
