/** The desktop's connection store (`connection.store.ts`): whether the
    backend answers its health check, the provider lists it offers, and the
    rule that keeps the selected providers among those offered. The HTTP calls
    are inputs: each operation is given the outcome of its request. */
module Connections {
  import opened Wrappers
  import opened Settings

  datatype ProviderItem = ProviderItem(name: string)

  /** The outcome of `GET /health`: the body's `status` field and the measured
      latency already rounded, or the failure's message (`None` when the
      thrown value has none). */
  datatype HealthOutcome = HealthBody(status: Option<string>, latencyMs: int) | HealthFailed(message: Option<string>)

  /** The outcome of the two provider-list requests together: each body's
      `items` (`None` when absent), or the first failure's message. */
  datatype ProvidersOutcome =
    | ProvidersListed(stt: Option<seq<ProviderItem>>, llm: Option<seq<ProviderItem>>)
    | ProvidersFailed(message: Option<string>)

  predicate Listed(items: seq<ProviderItem>, name: string) {
    exists i :: 0 <= i < |items| && items[i].name == name
  }

  /** The selection rule: keep the current provider when the list offers it,
      else take the list's first, else the fallback. */
  function NextSelected(items: seq<ProviderItem>, current: string, fallback: string): (r: string)
    ensures Listed(items, current) ==> r == current
    ensures !Listed(items, current) && items != [] ==> r == items[0].name
    ensures items == [] ==> r == fallback
    ensures items != [] ==> Listed(items, r)
  {
    if Listed(items, current) then current
    else if items != [] then items[0].name
    else fallback
  }

  /** `isReady`. */
  predicate Ready(online: bool, stt: seq<ProviderItem>, llm: seq<ProviderItem>) {
    online && |stt| > 0 && |llm| > 0
  }

  class ConnectionStore {
    const settingsStore: SettingsStore
    var backendOnline: bool
    var latencyMs: Option<int>
    var lastError: Option<string>
    var sttProviders: seq<ProviderItem>
    var llmProviders: seq<ProviderItem>

    constructor(settingsStore: SettingsStore)
      ensures this.settingsStore == settingsStore
      ensures !backendOnline && latencyMs == None && lastError == None
      ensures sttProviders == [] && llmProviders == []
    {
      this.settingsStore := settingsStore;
      backendOnline := false;
      latencyMs := None;
      lastError := None;
      sttProviders := [];
      llmProviders := [];
    }

    function IsReady(): (r: bool)
      reads this
      ensures r <==> backendOnline && sttProviders != [] && llmProviders != []
    {
      Ready(backendOnline, sttProviders, llmProviders)
    }

    method RefreshHealth(outcome: HealthOutcome)
      modifies this
      ensures outcome.HealthBody? ==>
        backendOnline == (outcome.status == Some("ok")) && latencyMs == Some(outcome.latencyMs) && lastError == None
      ensures outcome.HealthFailed? ==>
        !backendOnline && latencyMs == None && lastError == Some(outcome.message.GetOr("Health check failed"))
      ensures sttProviders == old(sttProviders) && llmProviders == old(llmProviders)
    {
      match outcome
      case HealthBody(status, latency) =>
        latencyMs := Some(latency);
        backendOnline := status == Some("ok");
        lastError := None;
      case HealthFailed(message) =>
        backendOnline := false;
        latencyMs := None;
        lastError := Some(message.GetOr("Health check failed"));
    }

    method LoadProviders(outcome: ProvidersOutcome)
      modifies this, settingsStore
      ensures outcome.ProvidersListed? ==>
        var stt := outcome.stt.GetOr([]);
        var llm := outcome.llm.GetOr([]);
        var s := old(settingsStore.settings);
        && sttProviders == stt && llmProviders == llm && lastError == None
        && settingsStore.settings == Clamped(s.(
             selectedSttProviderId := NextSelected(stt, s.selectedSttProviderId, "cloud_stub"),
             selectedLlmProviderId := NextSelected(llm, s.selectedLlmProviderId, "openai_compat")))
        && settingsStore.persisted == old(settingsStore.persisted) + [settingsStore.settings]
      ensures outcome.ProvidersFailed? ==>
        && sttProviders == old(sttProviders) && llmProviders == old(llmProviders)
        && lastError == Some(outcome.message.GetOr("Failed to load providers"))
        && settingsStore.settings == old(settingsStore.settings)
        && settingsStore.persisted == old(settingsStore.persisted)
      ensures backendOnline == old(backendOnline) && latencyMs == old(latencyMs)
    {
      match outcome
      case ProvidersListed(stt, llm) =>
        var sttItems := stt.GetOr([]);
        var llmItems := llm.GetOr([]);
        sttProviders := sttItems;
        llmProviders := llmItems;
        var s := settingsStore.settings;
        var nextStt := NextSelected(sttItems, s.selectedSttProviderId, "cloud_stub");
        var nextLlm := NextSelected(llmItems, s.selectedLlmProviderId, "openai_compat");
        settingsStore.UpdateDeep((d: AppSettings) => d.(selectedSttProviderId := nextStt, selectedLlmProviderId := nextLlm));
        lastError := None;
      case ProvidersFailed(message) =>
        lastError := Some(message.GetOr("Failed to load providers"));
    }

    method SetSelectedSttProviderId(name: string)
      requires settingsStore.Valid()
      modifies settingsStore
      ensures settingsStore.settings == old(settingsStore.settings).(selectedSttProviderId := name)
      ensures settingsStore.persisted == old(settingsStore.persisted) + [settingsStore.settings]
      ensures settingsStore.Valid()
    {
      ClampedKeepsInRange(settingsStore.settings.(selectedSttProviderId := name));
      settingsStore.UpdateDeep((d: AppSettings) => d.(selectedSttProviderId := name));
    }

    method SetSelectedLlmProviderId(name: string)
      requires settingsStore.Valid()
      modifies settingsStore
      ensures settingsStore.settings == old(settingsStore.settings).(selectedLlmProviderId := name)
      ensures settingsStore.persisted == old(settingsStore.persisted) + [settingsStore.settings]
      ensures settingsStore.Valid()
    {
      ClampedKeepsInRange(settingsStore.settings.(selectedLlmProviderId := name));
      settingsStore.UpdateDeep((d: AppSettings) => d.(selectedLlmProviderId := name));
    }
  }

  // ------------------------------------------------------------------ lemmas

  /** After a successful load, each selected provider is one the backend
      offers whenever it offers any, and is the fallback otherwise; settings
      within range change in nothing else. */
  lemma LoadedSelectionListed(s: AppSettings, stt: seq<ProviderItem>, llm: seq<ProviderItem>)
    requires InRanges(s)
    ensures var t := Clamped(s.(
              selectedSttProviderId := NextSelected(stt, s.selectedSttProviderId, "cloud_stub"),
              selectedLlmProviderId := NextSelected(llm, s.selectedLlmProviderId, "openai_compat")));
      && (stt != [] ==> Listed(stt, t.selectedSttProviderId))
      && (stt == [] ==> t.selectedSttProviderId == "cloud_stub")
      && (llm != [] ==> Listed(llm, t.selectedLlmProviderId))
      && (llm == [] ==> t.selectedLlmProviderId == "openai_compat")
      && t == s.(selectedSttProviderId := t.selectedSttProviderId, selectedLlmProviderId := t.selectedLlmProviderId)
  {
    var u := s.(selectedSttProviderId := NextSelected(stt, s.selectedSttProviderId, "cloud_stub"),
                selectedLlmProviderId := NextSelected(llm, s.selectedLlmProviderId, "openai_compat"));
    ClampedKeepsInRange(u);
  }

  /** The selection rule is stable: applied to its own result over the same
      list, it changes nothing. */
  lemma NextSelectedStable(items: seq<ProviderItem>, current: string, fallback: string)
    ensures var r := NextSelected(items, current, fallback);
      NextSelected(items, r, fallback) == r
  {
    var r := NextSelected(items, current, fallback);
    if items != [] {
      assert Listed(items, r);
    }
  }
}
