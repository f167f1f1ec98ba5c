/** The desktop's settings store (`settings.store.ts`): the application
    settings, loaded once from storage (`init`) and changed only through
    `updateDeep`, which clamps the numeric fields into their ranges and persists
    what it publishes. Only the fields the modelled code reads or clamps are
    kept; numbers are JavaScript numbers. */
module Settings {
  import opened Wrappers
  import opened Text

  /** A JavaScript number: a finite value (kept exactly), NaN or an infinity. */
  datatype Num = Finite(value: real) | NaN | PosInf | NegInf

  /** `Math.floor`. */
  function JsFloor(n: Num): (r: Num)
    ensures n.Finite? <==> r.Finite?
    ensures n.Finite? ==> r.value == n.value.Floor as real
    ensures !n.Finite? ==> r == n
  {
    if n.Finite? then Finite(n.value.Floor as real) else n
  }

  /** `a <= b` for two numbers neither of which is NaN. */
  predicate NumLe(a: Num, b: Num) {
    a.NegInf? || b.PosInf? || (a.Finite? && b.Finite? && a.value <= b.value)
  }

  /** `Math.max(a, b)`: NaN when either is NaN, else the larger. */
  function JsMax(a: Num, b: Num): (r: Num)
    ensures r.NaN? <==> a.NaN? || b.NaN?
    ensures !r.NaN? ==> (r == a || r == b) && NumLe(a, r) && NumLe(b, r)
  {
    if a.NaN? || b.NaN? then NaN
    else if NumLe(a, b) then b else a
  }

  /** `Math.min(a, b)`: NaN when either is NaN, else the smaller. */
  function JsMin(a: Num, b: Num): (r: Num)
    ensures r.NaN? <==> a.NaN? || b.NaN?
    ensures !r.NaN? ==> (r == a || r == b) && NumLe(r, a) && NumLe(r, b)
  {
    if a.NaN? || b.NaN? then NaN
    else if NumLe(a, b) then a else b
  }

  /** `a * k` for a positive constant `k`: infinities and NaN are kept. */
  function JsScale(a: Num, k: real): (r: Num)
    requires k > 0.0
    ensures a.Finite? <==> r.Finite?
    ensures a.Finite? ==> r.value == a.value * k
    ensures !a.Finite? ==> r == a
  {
    if a.Finite? then Finite(a.value * k) else a
  }

  /** An integer-valued number within `lo..hi`. */
  predicate IntIn(n: Num, lo: int, hi: int) {
    n.Finite? && n.value == n.value.Floor as real && lo as real <= n.value <= hi as real
  }

  function Int(i: int): Num {
    Finite(i as real)
  }

  /** `clampInt`: the floor of `v` held within `min..max`; `min` when the floor
      is not finite. */
  function ClampInt(v: Num, min: int, max: int): (r: int)
    ensures !v.Finite? ==> r == min
    ensures min <= max ==> min <= r <= max
    ensures v.Finite? && min <= v.value.Floor <= max ==> r == v.value.Floor
    ensures v.Finite? && v.value.Floor < min ==> r == min
    ensures v.Finite? && max < v.value.Floor && min <= max ==> r == max
  {
    var n := JsFloor(v);
    if !n.Finite? then min
    else
      var f := n.value.Floor;
      var m := if max < f then max else f;
      if min > m then min else m
  }

  /** `clamp01`: `v` held within 0..1; 1 when it is not finite. */
  function Clamp01(v: Num): (r: real)
    ensures 0.0 <= r <= 1.0
    ensures v.Finite? && 0.0 <= v.value <= 1.0 ==> r == v.value
    ensures !v.Finite? ==> r == 1.0
  {
    if !v.Finite? then 1.0
    else if v.value > 1.0 then 1.0
    else if v.value < 0.0 then 0.0
    else v.value
  }

  datatype InputMode = MicInput | SystemInput

  /** The settings the modelled code reads or writes, each under its path in
      `AppSettings`. */
  datatype AppSettings = AppSettings(
    apiBaseUrl: string,                       // runtime.apiBaseUrl
    wsBaseUrl: string,                        // runtime.wsBaseUrl
    windowOpacity: Num,                       // general.windowOpacity
    selectedSttProviderId: string,
    selectedLlmProviderId: string,
    detectQuestionsAutomatically: bool,       // sttUi.detectQuestionsAutomatically
    minSilenceMs: Num,                        // sttUi.minSilenceMs
    inputMode: InputMode,                     // sttUi.inputMode
    selectedSystemSourceId: Option<string>,   // sttUi.selectedSystemSourceId
    sttLanguage: string,                      // stt.language
    sampleRate: Num,                          // stt.sampleRate
    format: string,                           // stt.format
    chunkMs: Num,                             // stt.chunkMs
    customTimeoutMs: Num,                     // stt.custom.timeoutMs
    openaiApiKey: string,                     // llm.openaiCompat.apiKey
    openaiModel: string,                      // llm.openaiCompat.model
    geminiApiKey: string,                     // llm.gemini.apiKey
    geminiModel: string,                      // llm.gemini.model
    maxTokens: Num,                           // llm.maxTokens
    appLanguage: string)                      // language.appLanguage

  /** The build environment's base URLs, which the defaults use. */
  datatype Environment = Environment(apiBaseUrl: string, wsBaseUrl: string)

  /** `DEFAULT_SETTINGS`. */
  function Defaults(env: Environment): AppSettings {
    AppSettings(env.apiBaseUrl, env.wsBaseUrl, Int(1), "cloud_stub", "gemini",
                false, Int(2000), MicInput, None,
                "auto", Int(16000), "pcm16", Int(250), Int(15000),
                "", "gpt-4o-mini", "", "gemini-2.5-flash", Int(256), "es")
  }

  /** What storage may hold: each field present (`Some`) or absent. */
  datatype SavedSettings = SavedSettings(
    apiBaseUrl: Option<string>, wsBaseUrl: Option<string>, windowOpacity: Option<Num>,
    selectedSttProviderId: Option<string>, selectedLlmProviderId: Option<string>,
    detectQuestionsAutomatically: Option<bool>, minSilenceMs: Option<Num>, inputMode: Option<InputMode>,
    selectedSystemSourceId: Option<Option<string>>,
    sttLanguage: Option<string>, sampleRate: Option<Num>, format: Option<string>, chunkMs: Option<Num>,
    customTimeoutMs: Option<Num>,
    openaiApiKey: Option<string>, openaiModel: Option<string>, geminiApiKey: Option<string>,
    geminiModel: Option<string>, maxTokens: Option<Num>, appLanguage: Option<string>)

  /** The defaults overlaid with what was saved, section by section. */
  function Merge(d: AppSettings, s: SavedSettings): AppSettings {
    AppSettings(s.apiBaseUrl.GetOr(d.apiBaseUrl), s.wsBaseUrl.GetOr(d.wsBaseUrl),
                s.windowOpacity.GetOr(d.windowOpacity),
                s.selectedSttProviderId.GetOr(d.selectedSttProviderId),
                s.selectedLlmProviderId.GetOr(d.selectedLlmProviderId),
                s.detectQuestionsAutomatically.GetOr(d.detectQuestionsAutomatically),
                s.minSilenceMs.GetOr(d.minSilenceMs), s.inputMode.GetOr(d.inputMode),
                s.selectedSystemSourceId.GetOr(d.selectedSystemSourceId),
                s.sttLanguage.GetOr(d.sttLanguage), s.sampleRate.GetOr(d.sampleRate), s.format.GetOr(d.format),
                s.chunkMs.GetOr(d.chunkMs), s.customTimeoutMs.GetOr(d.customTimeoutMs),
                s.openaiApiKey.GetOr(d.openaiApiKey), s.openaiModel.GetOr(d.openaiModel),
                s.geminiApiKey.GetOr(d.geminiApiKey), s.geminiModel.GetOr(d.geminiModel),
                s.maxTokens.GetOr(d.maxTokens), s.appLanguage.GetOr(d.appLanguage))
  }

  predicate HasHttpScheme(s: string) {
    StartsWithIgnoreCase(s, "http://") || StartsWithIgnoreCase(s, "https://")
  }

  predicate HasWsScheme(s: string) {
    StartsWithIgnoreCase(s, "ws://") || StartsWithIgnoreCase(s, "wss://")
  }

  /** `normalizeHttpBaseUrl`: the fallback for blank input; otherwise the
      trimmed input, given `http://` when it has no http(s) scheme (in any
      letter case), without trailing slashes. */
  function NormalizeHttpBaseUrl(v: string, fallback: string): (r: string)
    ensures Trim(v) == "" ==> r == fallback
    ensures Trim(v) != "" && !HasHttpScheme(Trim(v)) ==> r == StripTrailingSlashes("http://" + Trim(v))
    ensures Trim(v) != "" && HasHttpScheme(Trim(v)) ==> r == StripTrailingSlashes(Trim(v))
    ensures Trim(v) != "" ==> r == [] || r[|r| - 1] != '/'
  {
    var s := Trim(v);
    if s == "" then fallback
    else if !HasHttpScheme(s) then StripTrailingSlashes("http://" + s)
    else StripTrailingSlashes(s)
  }

  /** `normalizeWsBaseUrl`: the same rules with `ws://` and `wss://`. */
  function NormalizeWsBaseUrl(v: string, fallback: string): (r: string)
    ensures Trim(v) == "" ==> r == fallback
    ensures Trim(v) != "" && !HasWsScheme(Trim(v)) ==> r == StripTrailingSlashes("ws://" + Trim(v))
    ensures Trim(v) != "" && HasWsScheme(Trim(v)) ==> r == StripTrailingSlashes(Trim(v))
    ensures Trim(v) != "" ==> r == [] || r[|r| - 1] != '/'
  {
    var s := Trim(v);
    if s == "" then fallback
    else if !HasWsScheme(s) then StripTrailingSlashes("ws://" + s)
    else StripTrailingSlashes(s)
  }

  /** The clamps `init` and `updateDeep` apply. */
  function Clamped(d: AppSettings): AppSettings {
    d.(windowOpacity := Finite(Clamp01(d.windowOpacity)),
       minSilenceMs := Int(ClampInt(d.minSilenceMs, 1000, 10000)),
       sampleRate := Int(ClampInt(d.sampleRate, 8000, 48000)),
       chunkMs := Int(ClampInt(d.chunkMs, 50, 2000)),
       maxTokens := Int(ClampInt(d.maxTokens, 1, 8192)))
  }

  /** Every clamped field within its range. */
  predicate InRanges(d: AppSettings) {
    d.windowOpacity.Finite? && 0.0 <= d.windowOpacity.value <= 1.0
    && IntIn(d.minSilenceMs, 1000, 10000) && IntIn(d.sampleRate, 8000, 48000)
    && IntIn(d.chunkMs, 50, 2000) && IntIn(d.maxTokens, 1, 8192)
  }

  /** `init` with something saved: merge, clamp, and normalise both base URLs
      against the default ones. */
  function Loaded(env: Environment, saved: SavedSettings): AppSettings {
    var merged := Clamped(Merge(Defaults(env), saved));
    merged.(apiBaseUrl := NormalizeHttpBaseUrl(merged.apiBaseUrl, env.apiBaseUrl),
            wsBaseUrl := NormalizeWsBaseUrl(merged.wsBaseUrl, env.wsBaseUrl))
  }

  class SettingsStore {
    const env: Environment
    var settings: AppSettings
    /** Every value written to storage under `prompter.settings.v1`, in order. */
    var persisted: seq<AppSettings>

    /** The store's invariant: the published settings are clamped. */
    predicate Valid()
      reads this
    {
      InRanges(settings)
    }

    constructor(env: Environment)
      ensures this.env == env && settings == Defaults(env) && persisted == []
      ensures Valid()
    {
      this.env := env;
      settings := Defaults(env);
      persisted := [];
      DefaultsInRanges(env);
    }

    /** `init`, given what storage holds (`None` when nothing is saved). */
    method Init(saved: Option<SavedSettings>)
      modifies this
      ensures saved.None? ==> settings == old(settings)
      ensures saved.Some? ==> settings == Loaded(env, saved.value)
      ensures persisted == old(persisted)
      ensures old(Valid()) ==> Valid()
    {
      if saved.None? {
        return;
      }
      LoadedInRanges(env, saved.value);
      var merged := Clamped(Merge(Defaults(env), saved.value));
      merged := merged.(apiBaseUrl := NormalizeHttpBaseUrl(merged.apiBaseUrl, env.apiBaseUrl));
      merged := merged.(wsBaseUrl := NormalizeWsBaseUrl(merged.wsBaseUrl, env.wsBaseUrl));
      settings := merged;
    }

    /** `updateDeep(mutator)`: the mutator runs on a copy, the copy is clamped,
        published and persisted. */
    method UpdateDeep(mutator: AppSettings -> AppSettings)
      modifies this
      ensures settings == Clamped(mutator(old(settings)))
      ensures persisted == old(persisted) + [settings]
      ensures Valid()
    {
      ClampedInRanges(mutator(settings));
      var draft := mutator(settings);
      draft := draft.(windowOpacity := Finite(Clamp01(draft.windowOpacity)));
      draft := draft.(minSilenceMs := Int(ClampInt(draft.minSilenceMs, 1000, 10000)));
      draft := draft.(sampleRate := Int(ClampInt(draft.sampleRate, 8000, 48000)));
      draft := draft.(chunkMs := Int(ClampInt(draft.chunkMs, 50, 2000)));
      draft := draft.(maxTokens := Int(ClampInt(draft.maxTokens, 1, 8192)));
      settings := draft;
      persisted := persisted + [draft];
    }
  }

  // ------------------------------------------------------------------ lemmas

  lemma IntInOfClamp(v: Num, lo: int, hi: int)
    requires lo <= hi
    ensures IntIn(Int(ClampInt(v, lo, hi)), lo, hi)
  {
    var r := ClampInt(v, lo, hi);
    assert (r as real).Floor == r;
  }

  /** Whatever a mutator writes, the clamped fields end within their ranges. */
  lemma ClampedInRanges(d: AppSettings)
    ensures InRanges(Clamped(d))
  {
    IntInOfClamp(d.minSilenceMs, 1000, 10000);
    IntInOfClamp(d.sampleRate, 8000, 48000);
    IntInOfClamp(d.chunkMs, 50, 2000);
    IntInOfClamp(d.maxTokens, 1, 8192);
  }

  /** Clamping leaves settings already within range as they are; so clamping
      twice is clamping once. */
  lemma ClampedKeepsInRange(d: AppSettings)
    requires InRanges(d)
    ensures Clamped(d) == d
  {
    assert d.minSilenceMs.value.Floor as real == d.minSilenceMs.value;
    assert d.sampleRate.value.Floor as real == d.sampleRate.value;
    assert d.chunkMs.value.Floor as real == d.chunkMs.value;
    assert d.maxTokens.value.Floor as real == d.maxTokens.value;
  }

  lemma ClampedIdempotent(d: AppSettings)
    ensures Clamped(Clamped(d)) == Clamped(d)
  {
    ClampedInRanges(d);
    ClampedKeepsInRange(Clamped(d));
  }

  /** The defaults are within range, so a fresh store is already clamped. */
  lemma DefaultsInRanges(env: Environment)
    ensures InRanges(Defaults(env))
  {
    assert (2000 as real).Floor == 2000 && (16000 as real).Floor == 16000;
    assert (250 as real).Floor == 250 && (256 as real).Floor == 256;
  }

  /** After `init` with saved settings, every clamped field is within range and
      a non-blank saved URL carries no trailing slash. */
  lemma LoadedInRanges(env: Environment, saved: SavedSettings)
    ensures InRanges(Loaded(env, saved))
    ensures var u := Merge(Defaults(env), saved).apiBaseUrl;
      Trim(u) != "" ==> Loaded(env, saved).apiBaseUrl == [] || Loaded(env, saved).apiBaseUrl[|Loaded(env, saved).apiBaseUrl| - 1] != '/'
  {
    ClampedInRanges(Merge(Defaults(env), saved));
  }

  /** `clampInt` examples: NaN and the infinities give the minimum; a value in
      range is floored. */
  lemma ClampIntExamples()
    ensures ClampInt(NaN, 1000, 10000) == 1000 && ClampInt(PosInf, 1000, 10000) == 1000
    ensures ClampInt(Finite(2500.7), 1000, 10000) == 2500
    ensures ClampInt(Finite(99999.0), 8000, 48000) == 48000
  {
    assert (2500.7).Floor == 2500;
    assert (99999.0).Floor == 99999;
  }

  /** Blank input gives the fallback. */
  lemma NormalizeBlank(fallback: string)
    ensures NormalizeHttpBaseUrl(" \t ", fallback) == fallback
    ensures NormalizeWsBaseUrl("", fallback) == fallback
  {
    assert AllSpace(" \t ");
  }

  /** The scheme test ignores letter case: an upper-case scheme is kept, and
      only the trailing slashes go. */
  lemma NormalizeUpperScheme(fallback: string)
    ensures NormalizeHttpBaseUrl("HTTPS://a/", fallback) == "HTTPS://a"
  {
    var s := "HTTPS://a/";
    TrimNoop(s);
    assert StartsWithIgnoreCase(s, "https://") by {
      forall k | 0 <= k < 8 ensures LowerAscii(s[k]) == LowerAscii("https://"[k]) {
      }
    }
    StripSlashesTo(s, 9);
    assert s[..9] == "HTTPS://a";
  }

  /** A host without a scheme gets `ws://`. */
  lemma NormalizeAddsScheme(fallback: string)
    ensures NormalizeWsBaseUrl("h:1//", fallback) == "ws://h:1"
  {
    var s := "h:1//";
    TrimNoop(s);
    assert LowerAscii(s[0]) != LowerAscii('w');
    assert !HasWsScheme(s);
    var t := "ws://" + s;
    assert t == "ws://h:1//";
    StripSlashesTo(t, 8);
    assert t[..8] == "ws://h:1";
  }
}
