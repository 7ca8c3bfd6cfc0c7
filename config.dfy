/** The derived settings of backend/app/config.py: which LLM endpoint to use, the model
    whitelist, and the allowed roots read from the two environment sources. Loading the settings
    from the environment and `.env` is not part of this module; a `Settings` value holds the
    loaded fields. */
module Config {
  import Py
  import Comprehension

  /** The fields of `Settings` the derived settings read. */
  datatype Settings = Settings(
    openaiApiKey: string,
    openaiBaseUrl: string,
    openaiModel: string,
    openaiTimeoutS: int,
    openaiMaxToolTurns: int,
    openrouterApiKey: string,
    openrouterBaseUrl: string,
    allowedModels: seq<string>,
    allowedRoots: seq<string>,
    agentAllowedRoots: string)

  const DefaultBaseUrl: string := "https://api.openai.com"

  /** The class-level defaults. */
  function Defaults(): (s: Settings)
    ensures s.openaiApiKey == "" && s.openrouterApiKey == "" && s.openrouterBaseUrl == ""
    ensures s.openaiBaseUrl == DefaultBaseUrl && |s.allowedModels| == 4
  {
    Settings("", DefaultBaseUrl, "gpt-4o-mini", 60, 8, "", "",
      ["openai/gpt-4o-mini", "gpt-4o-mini", "anthropic/claude-haiku-4.5", "google/gemini-2.5-flash"],
      [], "")
  }

  /** The dictionary `effective_llm_config` returns. */
  datatype LlmConfig = LlmConfig(apiKey: string, baseUrl: string, model: string, timeoutS: int, maxToolTurns: int)

  /** OpenRouter needs both its key and its base URL, and is used only when the OpenAI side
      lacks a key, lacks a base URL, or still has the default one. */
  predicate UseOpenRouter(s: Settings) {
    s.openrouterApiKey != "" && s.openrouterBaseUrl != ""
    && (s.openaiApiKey == "" || s.openaiBaseUrl == "" || s.openaiBaseUrl == DefaultBaseUrl)
  }

  /** `effective_llm_config` */
  function EffectiveLlmConfig(s: Settings): (r: LlmConfig)
    ensures r.model == s.openaiModel && r.timeoutS == s.openaiTimeoutS && r.maxToolTurns == s.openaiMaxToolTurns
    ensures r.baseUrl != ""
    ensures UseOpenRouter(s) ==> r.apiKey == s.openrouterApiKey && r.baseUrl == s.openrouterBaseUrl
    ensures !UseOpenRouter(s) ==> r.apiKey == s.openaiApiKey
    ensures !UseOpenRouter(s) && s.openaiBaseUrl != "" ==> r.baseUrl == s.openaiBaseUrl
    ensures !UseOpenRouter(s) && s.openaiBaseUrl == "" ==> r.baseUrl == DefaultBaseUrl
  {
    if UseOpenRouter(s) then
      LlmConfig(s.openrouterApiKey, s.openrouterBaseUrl, s.openaiModel, s.openaiTimeoutS, s.openaiMaxToolTurns)
    else
      LlmConfig(s.openaiApiKey, if s.openaiBaseUrl != "" then s.openaiBaseUrl else DefaultBaseUrl,
        s.openaiModel, s.openaiTimeoutS, s.openaiMaxToolTurns)
  }

  /** A complete OpenAI configuration with its own base URL always wins; without a complete
      OpenRouter configuration the OpenAI one is used; the defaults talk to the OpenAI URL. */
  lemma EndpointChoice(s: Settings)
    ensures s.openaiApiKey != "" && s.openaiBaseUrl != "" && s.openaiBaseUrl != DefaultBaseUrl ==>
      EffectiveLlmConfig(s) == LlmConfig(s.openaiApiKey, s.openaiBaseUrl, s.openaiModel, s.openaiTimeoutS, s.openaiMaxToolTurns)
    ensures s.openrouterApiKey == "" || s.openrouterBaseUrl == "" ==> EffectiveLlmConfig(s).apiKey == s.openaiApiKey
    ensures EffectiveLlmConfig(Defaults()) == LlmConfig("", DefaultBaseUrl, "gpt-4o-mini", 60, 8)
  {
  }

  /** `is_model_allowed` */
  predicate IsModelAllowed(s: Settings, model: string) {
    model in s.allowedModels
  }

  /** The default whitelist admits the plain and the OpenRouter spelling of gpt-4o-mini and
      nothing outside its four entries. */
  lemma DefaultModels(model: string)
    ensures IsModelAllowed(Defaults(), "gpt-4o-mini") && IsModelAllowed(Defaults(), "openai/gpt-4o-mini")
    ensures IsModelAllowed(Defaults(), model) <==>
      model == "openai/gpt-4o-mini" || model == "gpt-4o-mini" || model == "anthropic/claude-haiku-4.5"
      || model == "google/gemini-2.5-flash"
  {
  }

  /** The entries `get_allowed_roots` strips, before the blank ones are dropped. */
  function RawRoots(s: Settings): (r: seq<string>)
    ensures |r| >= |s.allowedRoots| && r[..|s.allowedRoots|] == s.allowedRoots
    ensures s.agentAllowedRoots == "" ==> r == s.allowedRoots
  {
    s.allowedRoots + (if s.agentAllowedRoots != "" then Py.Split(s.agentAllowedRoots, ":") else [])
  }

  /** `get_allowed_roots` */
  function GetAllowedRoots(s: Settings): (r: seq<string>)
    ensures |r| <= |RawRoots(s)|
  {
    Comprehension.NonEmptyImages(RawRoots(s), Py.Strip)
  }

  /** The list-valued roots come first, then the colon-separated ones, each source in its own
      order; every root is stripped and non-empty; every entry that is not blank is kept in
      stripped form. */
  lemma AllowedRootsFacts(s: Settings, k: nat, j: nat)
    ensures GetAllowedRoots(s) == Comprehension.NonEmptyImages(s.allowedRoots, Py.Strip)
      + (if s.agentAllowedRoots != "" then Comprehension.NonEmptyImages(Py.Split(s.agentAllowedRoots, ":"), Py.Strip) else [])
    ensures k < |GetAllowedRoots(s)| ==> GetAllowedRoots(s)[k] != "" && Py.IsStripped(GetAllowedRoots(s)[k])
    ensures k < |GetAllowedRoots(s)| ==> exists i :: 0 <= i < |RawRoots(s)| && GetAllowedRoots(s)[k] == Py.Strip(RawRoots(s)[i])
    ensures j < |RawRoots(s)| && Py.Strip(RawRoots(s)[j]) != "" ==> Py.Strip(RawRoots(s)[j]) in GetAllowedRoots(s)
  {
    var tail := if s.agentAllowedRoots != "" then Py.Split(s.agentAllowedRoots, ":") else [];
    Comprehension.NonEmptyImagesAppend(s.allowedRoots, tail, Py.Strip);
    if tail == [] {
      var n := Comprehension.NonEmptyImages(s.allowedRoots, Py.Strip);
      assert n + [] == n;
    }
    if k < |GetAllowedRoots(s)| {
      var i := Comprehension.NonEmptyImagesFrom(RawRoots(s), Py.Strip, k);
    }
    if j < |RawRoots(s)| && Py.Strip(RawRoots(s)[j]) != "" {
      Comprehension.NonEmptyImagesKeep(RawRoots(s), Py.Strip, j);
    }
  }
}
