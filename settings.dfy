/**
 * `AllLanguageModelSettings::load`: the language-model settings obtained by
 * folding an ordered sequence of settings sources (defaults first, then the
 * user's customizations) into the default settings, field by field, the
 * last source that supplies a field winning.
 */
module LanguageModelSettings {
  import opened Wrappers

  /** The providers' model descriptions, which the merge copies without looking inside. */
  type AnthropicModel(==)
  type OpenAiModel(==)
  type GoogleModel(==)
  type ZedDotDevModel(==)

  newtype u64 = x: int | 0 <= x < 0x1_0000_0000_0000_0000

  /** A `std::time::Duration` of whole seconds. */
  datatype Duration = Duration(secs: nat)

  /** `Duration::from_secs`. */
  function FromSecs(n: u64): (d: Duration)
    ensures d.secs == n as nat
  {
    Duration(n as nat)
  }

  // The content of one settings source, every field optional.

  datatype AnthropicSettingsContent = AnthropicSettingsContent(
    apiUrl: Option<string>, lowSpeedTimeoutInSeconds: Option<u64>, availableModels: Option<seq<AnthropicModel>>)

  datatype OllamaSettingsContent = OllamaSettingsContent(
    apiUrl: Option<string>, lowSpeedTimeoutInSeconds: Option<u64>)

  datatype OpenAiSettingsContent = OpenAiSettingsContent(
    apiUrl: Option<string>, lowSpeedTimeoutInSeconds: Option<u64>, availableModels: Option<seq<OpenAiModel>>)

  datatype GoogleSettingsContent = GoogleSettingsContent(
    apiUrl: Option<string>, lowSpeedTimeoutInSeconds: Option<u64>, availableModels: Option<seq<GoogleModel>>)

  datatype ZedDotDevSettingsContent = ZedDotDevSettingsContent(availableModels: Option<seq<ZedDotDevModel>>)

  datatype CopilotChatSettingsContent = CopilotChatSettingsContent(lowSpeedTimeoutInSeconds: Option<u64>)

  datatype AllLanguageModelSettingsContent = AllLanguageModelSettingsContent(
    anthropic: Option<AnthropicSettingsContent>,
    ollama: Option<OllamaSettingsContent>,
    openai: Option<OpenAiSettingsContent>,
    zedDotDev: Option<ZedDotDevSettingsContent>,
    google: Option<GoogleSettingsContent>,
    copilotChat: Option<CopilotChatSettingsContent>)

  // The resolved settings: the fields `load` writes.

  datatype AnthropicSettings = AnthropicSettings(
    apiUrl: string, lowSpeedTimeout: Option<Duration>, availableModels: seq<AnthropicModel>)

  datatype OllamaSettings = OllamaSettings(apiUrl: string, lowSpeedTimeout: Option<Duration>)

  datatype OpenAiSettings = OpenAiSettings(
    apiUrl: string, lowSpeedTimeout: Option<Duration>, availableModels: seq<OpenAiModel>)

  datatype ZedDotDevSettings = ZedDotDevSettings(availableModels: seq<ZedDotDevModel>)

  datatype GoogleSettings = GoogleSettings(
    apiUrl: string, lowSpeedTimeout: Option<Duration>, availableModels: seq<GoogleModel>)

  datatype CopilotChatSettings = CopilotChatSettings(lowSpeedTimeout: Option<Duration>)

  datatype AllLanguageModelSettings = AllLanguageModelSettings(
    anthropic: AnthropicSettings,
    ollama: OllamaSettings,
    openai: OpenAiSettings,
    zedDotDev: ZedDotDevSettings,
    google: GoogleSettings,
    copilotChat: CopilotChatSettings)

  datatype LoadError = LoadError(message: string)

  /** The `merge` helper: `Some(v)` overwrites the target with `v`, `None` leaves it alone. */
  function Merge<T>(target: T, value: Option<T>): (r: T)
    ensures value.Some? ==> r == value.value
    ensures value.None? ==> r == target
  {
    match value
    case Some(v) => v
    case None => target
  }

  // What one source supplies for each field (`value.<provider>.as_ref().and_then(...)`).

  function AnthropicApiUrl(c: AllLanguageModelSettingsContent): Option<string> {
    if c.anthropic.Some? then c.anthropic.value.apiUrl else None
  }
  function AnthropicTimeout(c: AllLanguageModelSettingsContent): Option<u64> {
    if c.anthropic.Some? then c.anthropic.value.lowSpeedTimeoutInSeconds else None
  }
  function AnthropicModels(c: AllLanguageModelSettingsContent): Option<seq<AnthropicModel>> {
    if c.anthropic.Some? then c.anthropic.value.availableModels else None
  }
  function OllamaApiUrl(c: AllLanguageModelSettingsContent): Option<string> {
    if c.ollama.Some? then c.ollama.value.apiUrl else None
  }
  function OllamaTimeout(c: AllLanguageModelSettingsContent): Option<u64> {
    if c.ollama.Some? then c.ollama.value.lowSpeedTimeoutInSeconds else None
  }
  function OpenAiApiUrl(c: AllLanguageModelSettingsContent): Option<string> {
    if c.openai.Some? then c.openai.value.apiUrl else None
  }
  function OpenAiTimeout(c: AllLanguageModelSettingsContent): Option<u64> {
    if c.openai.Some? then c.openai.value.lowSpeedTimeoutInSeconds else None
  }
  function OpenAiModels(c: AllLanguageModelSettingsContent): Option<seq<OpenAiModel>> {
    if c.openai.Some? then c.openai.value.availableModels else None
  }
  function ZedDotDevModels(c: AllLanguageModelSettingsContent): Option<seq<ZedDotDevModel>> {
    if c.zedDotDev.Some? then c.zedDotDev.value.availableModels else None
  }
  function GoogleApiUrl(c: AllLanguageModelSettingsContent): Option<string> {
    if c.google.Some? then c.google.value.apiUrl else None
  }
  function GoogleTimeout(c: AllLanguageModelSettingsContent): Option<u64> {
    if c.google.Some? then c.google.value.lowSpeedTimeoutInSeconds else None
  }
  function GoogleModels(c: AllLanguageModelSettingsContent): Option<seq<GoogleModel>> {
    if c.google.Some? then c.google.value.availableModels else None
  }
  function CopilotChatTimeout(c: AllLanguageModelSettingsContent): Option<u64> {
    if c.copilotChat.Some? then c.copilotChat.value.lowSpeedTimeoutInSeconds else None
  }

  /** The value of `field` in the last source that supplies one, if any does. */
  function LastOf<T>(sources: seq<AllLanguageModelSettingsContent>, field: AllLanguageModelSettingsContent -> Option<T>)
    : (r: Option<T>)
    ensures r.None? ==> forall i :: 0 <= i < |sources| ==> field(sources[i]).None?
    decreases |sources|
  {
    if sources == [] then None
    else if field(sources[|sources| - 1]).Some? then field(sources[|sources| - 1])
    else LastOf(sources[..|sources| - 1], field)
  }

  /** A timeout given in seconds becomes a `Duration`; without one the current timeout stays. */
  function Timeout(seconds: Option<u64>, current: Option<Duration>): Option<Duration> {
    if seconds.Some? then Some(FromSecs(seconds.value)) else current
  }

  // The settings `load` produces, provider by provider: each field from the
  // last source supplying it, else its default.

  function LoadedAnthropic(sources: seq<AllLanguageModelSettingsContent>, d: AnthropicSettings): AnthropicSettings {
    AnthropicSettings(
      LastOf(sources, AnthropicApiUrl).GetOr(d.apiUrl),
      Timeout(LastOf(sources, AnthropicTimeout), d.lowSpeedTimeout),
      LastOf(sources, AnthropicModels).GetOr(d.availableModels))
  }

  function LoadedOllama(sources: seq<AllLanguageModelSettingsContent>, d: OllamaSettings): OllamaSettings {
    OllamaSettings(
      LastOf(sources, OllamaApiUrl).GetOr(d.apiUrl),
      Timeout(LastOf(sources, OllamaTimeout), d.lowSpeedTimeout))
  }

  function LoadedOpenAi(sources: seq<AllLanguageModelSettingsContent>, d: OpenAiSettings): OpenAiSettings {
    OpenAiSettings(
      LastOf(sources, OpenAiApiUrl).GetOr(d.apiUrl),
      Timeout(LastOf(sources, OpenAiTimeout), d.lowSpeedTimeout),
      LastOf(sources, OpenAiModels).GetOr(d.availableModels))
  }

  function LoadedZedDotDev(sources: seq<AllLanguageModelSettingsContent>, d: ZedDotDevSettings): ZedDotDevSettings {
    ZedDotDevSettings(LastOf(sources, ZedDotDevModels).GetOr(d.availableModels))
  }

  function LoadedGoogle(sources: seq<AllLanguageModelSettingsContent>, d: GoogleSettings): GoogleSettings {
    GoogleSettings(
      LastOf(sources, GoogleApiUrl).GetOr(d.apiUrl),
      Timeout(LastOf(sources, GoogleTimeout), d.lowSpeedTimeout),
      LastOf(sources, GoogleModels).GetOr(d.availableModels))
  }

  function LoadedCopilotChat(sources: seq<AllLanguageModelSettingsContent>, d: CopilotChatSettings)
    : CopilotChatSettings
  {
    CopilotChatSettings(Timeout(LastOf(sources, CopilotChatTimeout), d.lowSpeedTimeout))
  }

  function Loaded(sources: seq<AllLanguageModelSettingsContent>, defaults: AllLanguageModelSettings)
    : (r: AllLanguageModelSettings)
    ensures sources == [] ==> r == defaults
  {
    AllLanguageModelSettings(
      LoadedAnthropic(sources, defaults.anthropic),
      LoadedOllama(sources, defaults.ollama),
      LoadedOpenAi(sources, defaults.openai),
      LoadedZedDotDev(sources, defaults.zedDotDev),
      LoadedGoogle(sources, defaults.google),
      LoadedCopilotChat(sources, defaults.copilotChat))
  }

  /**
   * `load`, with `defaults` standing for `AllLanguageModelSettings::default()`
   * and `sources` for `sources.defaults_and_customizations()`.
   */
  method Load(sources: seq<AllLanguageModelSettingsContent>, defaults: AllLanguageModelSettings)
    returns (r: Result<AllLanguageModelSettings, LoadError>)
    ensures r == Ok(Loaded(sources, defaults))
  {
    var settings := defaults;
    for i := 0 to |sources|
      invariant settings == Loaded(sources[..i], defaults)
    {
      var value := sources[i];
      assert sources[..i + 1][..i] == sources[..i];

      settings := settings.(anthropic := settings.anthropic.(
        apiUrl := Merge(settings.anthropic.apiUrl, AnthropicApiUrl(value))));
      if AnthropicTimeout(value).Some? {
        settings := settings.(anthropic := settings.anthropic.(
          lowSpeedTimeout := Some(FromSecs(AnthropicTimeout(value).value))));
      }
      settings := settings.(anthropic := settings.anthropic.(
        availableModels := Merge(settings.anthropic.availableModels, AnthropicModels(value))));

      settings := settings.(ollama := settings.ollama.(
        apiUrl := Merge(settings.ollama.apiUrl, OllamaApiUrl(value))));
      if OllamaTimeout(value).Some? {
        settings := settings.(ollama := settings.ollama.(
          lowSpeedTimeout := Some(FromSecs(OllamaTimeout(value).value))));
      }

      settings := settings.(openai := settings.openai.(
        apiUrl := Merge(settings.openai.apiUrl, OpenAiApiUrl(value))));
      if OpenAiTimeout(value).Some? {
        settings := settings.(openai := settings.openai.(
          lowSpeedTimeout := Some(FromSecs(OpenAiTimeout(value).value))));
      }
      settings := settings.(openai := settings.openai.(
        availableModels := Merge(settings.openai.availableModels, OpenAiModels(value))));

      settings := settings.(zedDotDev := settings.zedDotDev.(
        availableModels := Merge(settings.zedDotDev.availableModels, ZedDotDevModels(value))));

      settings := settings.(google := settings.google.(
        apiUrl := Merge(settings.google.apiUrl, GoogleApiUrl(value))));
      if GoogleTimeout(value).Some? {
        settings := settings.(google := settings.google.(
          lowSpeedTimeout := Some(FromSecs(GoogleTimeout(value).value))));
      }
      settings := settings.(google := settings.google.(
        availableModels := Merge(settings.google.availableModels, GoogleModels(value))));

      if CopilotChatTimeout(value).Some? {
        settings := settings.(copilotChat := settings.copilotChat.(
          lowSpeedTimeout := Some(FromSecs(CopilotChatTimeout(value).value))));
      }
    }
    assert sources[..|sources|] == sources;
    return Ok(settings);
  }

  // ---------------------------------------------------------------------
  // Properties
  // ---------------------------------------------------------------------

  /**
   * `LastOf` is the value of the last source that supplies the field:
   * nothing when no source does, otherwise the value at some index after
   * which no source supplies one.
   */
  lemma {:induction false} LastOfIsLastSupplied<T>(sources: seq<AllLanguageModelSettingsContent>,
                                                    field: AllLanguageModelSettingsContent -> Option<T>)
    ensures LastOf(sources, field).None? <==> forall i :: 0 <= i < |sources| ==> field(sources[i]).None?
    ensures LastOf(sources, field).Some? ==>
              exists i :: 0 <= i < |sources| && field(sources[i]) == LastOf(sources, field)
                          && forall j :: i < j < |sources| ==> field(sources[j]).None?
    decreases |sources|
  {
    if sources != [] {
      var n := |sources| - 1;
      var prefix := sources[..n];
      LastOfIsLastSupplied(prefix, field);
      assert forall i :: 0 <= i < n ==> sources[i] == prefix[i];
      if field(sources[n]).None? {
        if LastOf(sources, field).Some? {
          var i :| 0 <= i < n && field(prefix[i]) == LastOf(prefix, field)
                   && forall j :: i < j < n ==> field(prefix[j]).None?;
          assert field(sources[i]) == LastOf(sources, field);
        }
      }
    }
  }

  /** Two source sequences that agree on a field, source by source, agree on its last value. */
  lemma {:induction false} LastOfDependsOnlyOnField<T>(sources: seq<AllLanguageModelSettingsContent>,
                                                        others: seq<AllLanguageModelSettingsContent>,
                                                        field: AllLanguageModelSettingsContent -> Option<T>)
    requires |sources| == |others|
    requires forall i :: 0 <= i < |sources| ==> field(sources[i]) == field(others[i])
    ensures LastOf(sources, field) == LastOf(others, field)
    decreases |sources|
  {
    if sources != [] {
      var n := |sources| - 1;
      LastOfDependsOnlyOnField(sources[..n], others[..n], field);
    }
  }

  /** A source whose provider section is absent leaves that provider's settings as they were. */
  lemma AbsentSectionChangesNothing(sources: seq<AllLanguageModelSettingsContent>,
                                    source: AllLanguageModelSettingsContent,
                                    defaults: AllLanguageModelSettings)
    ensures source.anthropic.None? ==> Loaded(sources + [source], defaults).anthropic == Loaded(sources, defaults).anthropic
    ensures source.ollama.None? ==> Loaded(sources + [source], defaults).ollama == Loaded(sources, defaults).ollama
    ensures source.openai.None? ==> Loaded(sources + [source], defaults).openai == Loaded(sources, defaults).openai
    ensures source.zedDotDev.None? ==> Loaded(sources + [source], defaults).zedDotDev == Loaded(sources, defaults).zedDotDev
    ensures source.google.None? ==> Loaded(sources + [source], defaults).google == Loaded(sources, defaults).google
    ensures source.copilotChat.None? ==>
              Loaded(sources + [source], defaults).copilotChat == Loaded(sources, defaults).copilotChat
  {
    assert (sources + [source])[..|sources|] == sources;
  }

  // Each provider's settings are read from that provider's section only.

  lemma AnthropicReadsOwnSection(sources: seq<AllLanguageModelSettingsContent>,
                                 others: seq<AllLanguageModelSettingsContent>, d: AnthropicSettings)
    requires |sources| == |others|
    requires forall i :: 0 <= i < |sources| ==> sources[i].anthropic == others[i].anthropic
    ensures LoadedAnthropic(sources, d) == LoadedAnthropic(others, d)
  {
    LastOfDependsOnlyOnField(sources, others, AnthropicApiUrl);
    LastOfDependsOnlyOnField(sources, others, AnthropicTimeout);
    LastOfDependsOnlyOnField(sources, others, AnthropicModels);
  }

  lemma OllamaReadsOwnSection(sources: seq<AllLanguageModelSettingsContent>,
                              others: seq<AllLanguageModelSettingsContent>, d: OllamaSettings)
    requires |sources| == |others|
    requires forall i :: 0 <= i < |sources| ==> sources[i].ollama == others[i].ollama
    ensures LoadedOllama(sources, d) == LoadedOllama(others, d)
  {
    LastOfDependsOnlyOnField(sources, others, OllamaApiUrl);
    LastOfDependsOnlyOnField(sources, others, OllamaTimeout);
  }

  lemma OpenAiReadsOwnSection(sources: seq<AllLanguageModelSettingsContent>,
                              others: seq<AllLanguageModelSettingsContent>, d: OpenAiSettings)
    requires |sources| == |others|
    requires forall i :: 0 <= i < |sources| ==> sources[i].openai == others[i].openai
    ensures LoadedOpenAi(sources, d) == LoadedOpenAi(others, d)
  {
    LastOfDependsOnlyOnField(sources, others, OpenAiApiUrl);
    LastOfDependsOnlyOnField(sources, others, OpenAiTimeout);
    LastOfDependsOnlyOnField(sources, others, OpenAiModels);
  }

  lemma ZedDotDevReadsOwnSection(sources: seq<AllLanguageModelSettingsContent>,
                                 others: seq<AllLanguageModelSettingsContent>, d: ZedDotDevSettings)
    requires |sources| == |others|
    requires forall i :: 0 <= i < |sources| ==> sources[i].zedDotDev == others[i].zedDotDev
    ensures LoadedZedDotDev(sources, d) == LoadedZedDotDev(others, d)
  {
    LastOfDependsOnlyOnField(sources, others, ZedDotDevModels);
  }

  lemma GoogleReadsOwnSection(sources: seq<AllLanguageModelSettingsContent>,
                              others: seq<AllLanguageModelSettingsContent>, d: GoogleSettings)
    requires |sources| == |others|
    requires forall i :: 0 <= i < |sources| ==> sources[i].google == others[i].google
    ensures LoadedGoogle(sources, d) == LoadedGoogle(others, d)
  {
    LastOfDependsOnlyOnField(sources, others, GoogleApiUrl);
    LastOfDependsOnlyOnField(sources, others, GoogleTimeout);
    LastOfDependsOnlyOnField(sources, others, GoogleModels);
  }

  lemma CopilotChatReadsOwnSection(sources: seq<AllLanguageModelSettingsContent>,
                                   others: seq<AllLanguageModelSettingsContent>, d: CopilotChatSettings)
    requires |sources| == |others|
    requires forall i :: 0 <= i < |sources| ==> sources[i].copilotChat == others[i].copilotChat
    ensures LoadedCopilotChat(sources, d) == LoadedCopilotChat(others, d)
  {
    LastOfDependsOnlyOnField(sources, others, CopilotChatTimeout);
  }

  /** Merging one more source into a field is taking that field's last value over the longer sequence. */
  lemma MergeStepIsLastOf<T>(sources: seq<AllLanguageModelSettingsContent>, source: AllLanguageModelSettingsContent,
                             field: AllLanguageModelSettingsContent -> Option<T>, default: T)
    ensures LastOf(sources + [source], field).GetOr(default) == Merge(LastOf(sources, field).GetOr(default), field(source))
  {
    assert (sources + [source])[..|sources|] == sources;
  }

  /** The source at `k` supplies the field and none after it does: its value wins. */
  lemma LastSupplierWins<T>(sources: seq<AllLanguageModelSettingsContent>,
                            field: AllLanguageModelSettingsContent -> Option<T>, k: nat)
    requires k < |sources| && field(sources[k]).Some?
    requires forall j :: k < j < |sources| ==> field(sources[j]).None?
    ensures LastOf(sources, field) == field(sources[k])
  {
    LastOfIsLastSupplied(sources, field);
    var i :| 0 <= i < |sources| && field(sources[i]) == LastOf(sources, field)
             && forall j :: i < j < |sources| ==> field(sources[j]).None?;
    assert i == k;
  }

  /**
   * A provider's timeout (`Loaded` applies `Timeout` to the last
   * `low_speed_timeout_in_seconds` of its section) is that many seconds when
   * the source at `k` is the last to give one, and its default when none does.
   */
  lemma TimeoutFromLastSeconds(sources: seq<AllLanguageModelSettingsContent>,
                               seconds: AllLanguageModelSettingsContent -> Option<u64>,
                               default: Option<Duration>, k: nat)
    requires k < |sources| && seconds(sources[k]).Some?
    requires forall j :: k < j < |sources| ==> seconds(sources[j]).None?
    ensures Timeout(LastOf(sources, seconds), default) == Some(Duration(seconds(sources[k]).value as nat))
  {
    LastSupplierWins(sources, seconds, k);
  }

  lemma TimeoutWithoutSecondsKeepsDefault(sources: seq<AllLanguageModelSettingsContent>,
                                          seconds: AllLanguageModelSettingsContent -> Option<u64>,
                                          default: Option<Duration>)
    requires forall i :: 0 <= i < |sources| ==> seconds(sources[i]).None?
    ensures Timeout(LastOf(sources, seconds), default) == default
  {
    LastOfIsLastSupplied(sources, seconds);
  }
}
