/**
 * The two copies of the registry side by side: the same keys, and the same
 * list under every key except `graphics`.
 */
module ElementsAgreement {
  import opened LoveTypes
  import F = FrameworkElements
  import S = SupportElements

  lemma AgreeGroup0(k: string)
    requires k == CALLBACKS_KEY || k == MODULES_KEY || k == AUDIO_KEY || k == DATA_KEY
    ensures F.GetElementsFor(k) == S.GetElementsFor(k)
  {
    F.LookupCallbacks();
    S.LookupCallbacks();
    F.LookupModules();
    S.LookupModules();
    F.LookupAudio();
    S.LookupAudio();
    F.LookupData();
    S.LookupData();
  }

  lemma AgreeGroup1(k: string)
    requires k == EVENT_KEY || k == FILESYSTEM_KEY || k == FONT_KEY || k == IMAGE_KEY
    ensures F.GetElementsFor(k) == S.GetElementsFor(k)
  {
    F.LookupEvent();
    S.LookupEvent();
    F.LookupFilesystem();
    S.LookupFilesystem();
    F.LookupFont();
    S.LookupFont();
    F.LookupImage();
    S.LookupImage();
  }

  lemma AgreeGroup2(k: string)
    requires k == JOYSTICK_KEY || k == KEYBOARD_KEY || k == MATH_KEY || k == MOUSE_KEY
    ensures F.GetElementsFor(k) == S.GetElementsFor(k)
  {
    F.LookupJoystick();
    S.LookupJoystick();
    F.LookupKeyboard();
    S.LookupKeyboard();
    F.LookupMath();
    S.LookupMath();
    F.LookupMouse();
    S.LookupMouse();
  }

  lemma AgreeGroup3(k: string)
    requires k == PHYSICS_KEY || k == SOUND_KEY || k == SYSTEM_KEY || k == THREAD_KEY
    ensures F.GetElementsFor(k) == S.GetElementsFor(k)
  {
    F.LookupPhysics();
    S.LookupPhysics();
    F.LookupSound();
    S.LookupSound();
    F.LookupSystem();
    S.LookupSystem();
    F.LookupThread();
    S.LookupThread();
  }

  lemma AgreeGroup4(k: string)
    requires k == TIMER_KEY || k == TOUCH_KEY || k == VIDEO_KEY || k == WINDOW_KEY
    ensures F.GetElementsFor(k) == S.GetElementsFor(k)
  {
    F.LookupTimer();
    S.LookupTimer();
    F.LookupTouch();
    S.LookupTouch();
    F.LookupVideo();
    S.LookupVideo();
    F.LookupWindow();
    S.LookupWindow();
  }

  /** Both maps register the same 21 keys. */
  lemma SameKeys()
    ensures F.LOVE_LOOKUP_MAP.Keys == S.LOVE_LOOKUP_MAP.Keys
  {
    F.LookupMapKeys();
    S.LookupMapKeys();
  }

  /** Under any key but `graphics`, known or not, both registries answer with the same list. */
  lemma ListsAgree(k: string)
    requires k != GRAPHICS_KEY
    ensures F.GetElementsFor(k) == S.GetElementsFor(k)
  {
    if k in S.LOVE_LOOKUP_MAP {
      S.LookupMapKeys();
      KnownKey(k);
      KnownKeysAgree(k);
    } else {
      UnknownKeyAgrees(k);
    }
  }

  lemma KnownKey(k: string)
    requires k in {CALLBACKS_KEY, MODULES_KEY} + set x | x in MODULE_KEYS
    requires k != GRAPHICS_KEY
    ensures k in {CALLBACKS_KEY, MODULES_KEY, AUDIO_KEY, DATA_KEY, EVENT_KEY, FILESYSTEM_KEY, FONT_KEY, IMAGE_KEY, JOYSTICK_KEY, KEYBOARD_KEY, MATH_KEY, MOUSE_KEY, PHYSICS_KEY, SOUND_KEY, SYSTEM_KEY, THREAD_KEY, TIMER_KEY, TOUCH_KEY, VIDEO_KEY, WINDOW_KEY}
  {
  }

  lemma UnknownKeyAgrees(k: string)
    requires k !in S.LOVE_LOOKUP_MAP
    ensures F.GetElementsFor(k) == [] && S.GetElementsFor(k) == []
  {
    SameKeys();
  }

  lemma KnownKeysAgree(k: string)
    requires k in {CALLBACKS_KEY, MODULES_KEY, AUDIO_KEY, DATA_KEY, EVENT_KEY, FILESYSTEM_KEY, FONT_KEY, IMAGE_KEY, JOYSTICK_KEY, KEYBOARD_KEY, MATH_KEY, MOUSE_KEY, PHYSICS_KEY, SOUND_KEY, SYSTEM_KEY, THREAD_KEY, TIMER_KEY, TOUCH_KEY, VIDEO_KEY, WINDOW_KEY}
    ensures F.GetElementsFor(k) == S.GetElementsFor(k)
  {
    if k == CALLBACKS_KEY || k == MODULES_KEY || k == AUDIO_KEY || k == DATA_KEY {
      AgreeGroup0(k);
    } else if k == EVENT_KEY || k == FILESYSTEM_KEY || k == FONT_KEY || k == IMAGE_KEY {
      AgreeGroup1(k);
    } else if k == JOYSTICK_KEY || k == KEYBOARD_KEY || k == MATH_KEY || k == MOUSE_KEY {
      AgreeGroup2(k);
    } else if k == PHYSICS_KEY || k == SOUND_KEY || k == SYSTEM_KEY || k == THREAD_KEY {
      AgreeGroup3(k);
    } else if k == TIMER_KEY || k == TOUCH_KEY || k == VIDEO_KEY || k == WINDOW_KEY {
      AgreeGroup4(k);
    }
  }

  /** The registries differ only in `graphics`: nine entries here, fifty-five there. */
  lemma RegistriesAgree()
    ensures F.LOVE_LOOKUP_MAP.Keys == S.LOVE_LOOKUP_MAP.Keys
    ensures forall k :: k != GRAPHICS_KEY ==> F.GetElementsFor(k) == S.GetElementsFor(k)
    ensures |F.GetElementsFor(GRAPHICS_KEY)| == 9 && |S.GetElementsFor(GRAPHICS_KEY)| == 55
  {
    SameKeys();
    forall k | k != GRAPHICS_KEY ensures F.GetElementsFor(k) == S.GetElementsFor(k) {
      ListsAgree(k);
    }
    F.LookupGraphics();
    S.LookupGraphics();
  }
}
