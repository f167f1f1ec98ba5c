/** The desktop's application store (`app.store.ts`): who authors what the
    microphone or the system hears, and three setters that write one setting
    each through the settings store's `updateDeep`. */
module Application {
  import opened Settings
  import opened Chat

  /** `inputAuthor`: the user speaks into the microphone; anything else is the
      system's audio. */
  function InputAuthor(s: AppSettings): (r: ChatAuthor)
    ensures r == User <==> s.inputMode == MicInput
    ensures r != User ==> r == SystemAuthor
  {
    if s.inputMode == MicInput then User else SystemAuthor
  }

  /** What `setMinSilenceSeconds(v)` writes before clamping:
      `Math.max(0, Math.floor(v * 1000))`. */
  function MinSilenceWrite(v: Num): (r: Num)
    ensures v.Finite? ==> r == Finite(if (v.value * 1000.0).Floor < 0 then 0.0 else (v.value * 1000.0).Floor as real)
    ensures v.NaN? ==> r.NaN?
    ensures v.PosInf? ==> r.PosInf?
    ensures v.NegInf? ==> r == Int(0)
  {
    JsMax(Int(0), JsFloor(JsScale(v, 1000.0)))
  }

  class AppStore {
    const settingsStore: SettingsStore

    constructor(settingsStore: SettingsStore)
      ensures this.settingsStore == settingsStore
    {
      this.settingsStore := settingsStore;
    }

    method SetDetectQuestions(v: bool)
      requires settingsStore.Valid()
      modifies settingsStore
      ensures settingsStore.settings == old(settingsStore.settings).(detectQuestionsAutomatically := v)
      ensures settingsStore.persisted == old(settingsStore.persisted) + [settingsStore.settings]
      ensures settingsStore.Valid()
    {
      ClampedKeepsInRange(settingsStore.settings.(detectQuestionsAutomatically := v));
      settingsStore.UpdateDeep((s: AppSettings) => s.(detectQuestionsAutomatically := v));
    }

    method SetMinSilenceSeconds(v: Num)
      modifies settingsStore
      ensures settingsStore.settings == Clamped(old(settingsStore.settings).(minSilenceMs := MinSilenceWrite(v)))
      ensures settingsStore.persisted == old(settingsStore.persisted) + [settingsStore.settings]
      ensures settingsStore.Valid()
    {
      settingsStore.UpdateDeep((s: AppSettings) => s.(minSilenceMs := JsMax(Int(0), JsFloor(JsScale(v, 1000.0)))));
    }

    method SetInputMode(mode: InputMode)
      requires settingsStore.Valid()
      modifies settingsStore
      ensures settingsStore.settings == old(settingsStore.settings).(inputMode := mode)
      ensures settingsStore.persisted == old(settingsStore.persisted) + [settingsStore.settings]
      ensures settingsStore.Valid()
    {
      ClampedKeepsInRange(settingsStore.settings.(inputMode := mode));
      settingsStore.UpdateDeep((s: AppSettings) => s.(inputMode := mode));
    }
  }

  // ------------------------------------------------------------------ lemmas

  /** The stored minimum silence for `v` seconds: `v * 1000` floored when `v`
      is within 1..10 seconds; 10000 above that; 1000 below it. NaN and both
      infinities also give 1000, because the clamp sends every non-finite
      value to its minimum. */
  lemma MinSilenceStored(s: AppSettings, v: Num)
    ensures var ms := Clamped(s.(minSilenceMs := MinSilenceWrite(v))).minSilenceMs;
      && (v.Finite? && 1.0 <= v.value <= 10.0 ==> ms == Int((v.value * 1000.0).Floor))
      && (v.Finite? && v.value > 10.0 ==> ms == Int(10000))
      && (v.Finite? && v.value < 1.0 ==> ms == Int(1000))
      && (!v.Finite? ==> ms == Int(1000))
  {
    if v.Finite? {
      var f := (v.value * 1000.0).Floor;
      if 1.0 <= v.value <= 10.0 {
        assert 1000 <= f <= 10000;
      } else if v.value > 10.0 {
        assert f >= 10000;
      } else {
        assert f < 1000;
      }
    }
  }
}
