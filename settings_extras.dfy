/** The settings "extras" panel (`settings-extras.component.ts`): the
    question-detection switch and the minimum silence, shown in whole seconds
    and stored in milliseconds. */
module SettingsExtras {
  import opened Settings

  /** `Math.round`: the nearest integer, halves rounded up. */
  function JsRound(n: Num): (r: Num)
    ensures n.Finite? ==> r == Int((n.value + 0.5).Floor)
    ensures !n.Finite? ==> r == n
  {
    if n.Finite? then Int((n.value + 0.5).Floor) else n
  }

  /** `minSilenceSeconds`: the stored milliseconds over 1000, rounded. */
  function MinSilenceSeconds(s: AppSettings): Num {
    JsRound(if s.minSilenceMs.Finite? then Finite(s.minSilenceMs.value / 1000.0) else s.minSilenceMs)
  }

  /** The whole number of seconds `setMinSilenceSeconds` settles on for a
      parsed input: its floor held within 1..10, or 1 when it is not finite. */
  function SecondsFor(parsed: Num): (r: Num)
    ensures IntIn(r, 1, 10)
    ensures parsed.Finite? && 1 <= parsed.value.Floor <= 10 ==> r == Int(parsed.value.Floor)
    ensures parsed.Finite? && parsed.value.Floor > 10 ==> r == Int(10)
    ensures parsed.Finite? && parsed.value.Floor < 1 ==> r == Int(1)
    ensures !parsed.Finite? ==> r == Int(1)
  {
    var sec := if parsed.Finite? then parsed else Int(1);
    var f := sec.value.Floor;
    Int(if f > 10 then 10 else if f < 1 then 1 else f)
  }

  class SettingsExtrasPanel {
    const settings: SettingsStore

    constructor(settings: SettingsStore)
      ensures this.settings == settings
    {
      this.settings := settings;
    }

    function Enabled(): bool
      reads settings
    {
      settings.settings.detectQuestionsAutomatically
    }

    method ToggleDetect(value: bool)
      requires settings.Valid()
      modifies settings
      ensures settings.settings == old(settings.settings).(detectQuestionsAutomatically := value)
      ensures settings.persisted == old(settings.persisted) + [settings.settings]
      ensures settings.Valid() && Enabled() == value
    {
      ClampedKeepsInRange(settings.settings.(detectQuestionsAutomatically := value));
      settings.UpdateDeep((s: AppSettings) => s.(detectQuestionsAutomatically := value));
    }

    /** `setMinSilenceSeconds`, given what `Number(value)` parsed. */
    method SetMinSilenceSeconds(parsed: Num)
      requires settings.Valid()
      modifies settings
      ensures settings.settings == old(settings.settings).(minSilenceMs := JsScale(SecondsFor(parsed), 1000.0))
      ensures settings.persisted == old(settings.persisted) + [settings.settings]
      ensures settings.Valid()
    {
      var sec := parsed;
      if !sec.Finite? {
        sec := Int(1);
      }
      sec := JsMax(Int(1), JsMin(Int(10), JsFloor(sec)));
      assert sec == SecondsFor(parsed);
      var ms := JsScale(sec, 1000.0);
      StoredSecondsInRange(sec);
      ClampedKeepsInRange(settings.settings.(minSilenceMs := ms));
      settings.UpdateDeep((s: AppSettings) => s.(minSilenceMs := ms));
    }
  }

  // ------------------------------------------------------------------ lemmas

  /** Whole seconds in 1..10 are stored as milliseconds in 1000..10000, so the
      clamp in `updateDeep` never changes what the panel writes. */
  lemma StoredSecondsInRange(sec: Num)
    requires IntIn(sec, 1, 10)
    ensures IntIn(JsScale(sec, 1000.0), 1000, 10000)
    ensures JsScale(sec, 1000.0) == Int(sec.value.Floor * 1000)
  {
    var k := sec.value.Floor;
    assert sec.value == k as real;
    assert ((k * 1000) as real).Floor == k * 1000;
  }

  /** The shown value of settings within range is a whole number of seconds
      in 1..10. */
  lemma ShownSecondsInRange(s: AppSettings)
    requires InRanges(s)
    ensures IntIn(MinSilenceSeconds(s), 1, 10)
  {
    var ms := s.minSilenceMs.value;
    assert 1000.0 <= ms <= 10000.0;
    var x := ms / 1000.0 + 0.5;
    assert 1.5 <= x <= 10.5;
    var r := x.Floor;
    assert 1 <= r <= 10;
    assert (r as real).Floor == r;
  }

  /** Setting `k` seconds, for a whole `k` in 1..10, and reading the panel back
      gives `k`. */
  lemma {:induction false} SecondsRoundTrip(s: AppSettings, k: int)
    requires 1 <= k <= 10
    ensures MinSilenceSeconds(s.(minSilenceMs := JsScale(SecondsFor(Int(k)), 1000.0))) == Int(k)
  {
    assert (k as real).Floor == k;
    assert SecondsFor(Int(k)) == Int(k);
    var ms := (k as real) * 1000.0;
    assert ms / 1000.0 == k as real;
    assert (k as real + 0.5).Floor == k;
  }
}
