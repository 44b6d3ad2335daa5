/**
 * Choosing a language-model backend by name (services/ai/factory/provider_factory.go).
 * The backends themselves are HTTP clients; a backend here records only what it
 * was built from.
 */
module ProviderFactory {
  import opened Results

  /** The name of a backend. */
  type ProviderType = string

  const OpenAI: ProviderType := "openai"
  const HuggingFace: ProviderType := "huggingface"
  const Llama: ProviderType := "llama"

  /** The closed set of names the factory accepts. */
  const SupportedTypes: set<ProviderType> := {OpenAI, HuggingFace, Llama}

  /** The model a HuggingFace backend uses when none is configured. */
  const DefaultHuggingFaceModel := "gpt2"

  /** A built backend and the settings it was built from. */
  datatype Backend =
    | OpenAIBackend(ApiKey: string)
    | HuggingFaceBackend(ApiKey: string, Model: string)
    | LlamaBackend(ServerUrl: string)

  /** The name of the kind of backend b is. */
  function TypeOf(b: Backend): ProviderType
  {
    match b
    case OpenAIBackend(_) => OpenAI
    case HuggingFaceBackend(_, _) => HuggingFace
    case LlamaBackend(_) => Llama
  }

  /** The configuration key a supported backend cannot do without. */
  function RequiredKey(t: ProviderType): string
  {
    if t == Llama then "server_url" else "api_key"
  }

  /**
   * The backend of the given name, built from the configuration; an error when
   * the name is unsupported or its required key is absent.
   */
  function CreateProvider(providerType: ProviderType, config: map<string, string>): Result<Backend>
  {
    if providerType == OpenAI then
      if "api_key" !in config then Err("OpenAI API key not provided")
      else Ok(OpenAIBackend(config["api_key"]))
    else if providerType == HuggingFace then
      if "api_key" !in config then Err("HuggingFace API key not provided")
      else
        var model := if "model" in config then config["model"] else DefaultHuggingFaceModel;
        Ok(HuggingFaceBackend(config["api_key"], model))
    else if providerType == Llama then
      if "server_url" !in config then Err("Llama server URL not provided")
      else Ok(LlamaBackend(config["server_url"]))
    else
      Err("unsupported provider type: " + providerType)
  }

  /**
   * Creation succeeds exactly for a supported name whose required key is present,
   * whatever that key's value (the empty string included); the backend built is
   * of the requested kind; any other name is rejected by the default branch.
   */
  lemma CreateProviderSpec(providerType: ProviderType, config: map<string, string>)
    ensures CreateProvider(providerType, config).Ok? <==>
      providerType in SupportedTypes && RequiredKey(providerType) in config
    ensures CreateProvider(providerType, config).Ok? ==> TypeOf(CreateProvider(providerType, config).value) == providerType
    ensures providerType !in SupportedTypes ==>
      CreateProvider(providerType, config) == Err("unsupported provider type: " + providerType)
  {
  }

  /** A HuggingFace backend uses the configured model, and "gpt2" when none is configured. */
  lemma HuggingFaceModel(config: map<string, string>)
    requires "api_key" in config
    ensures CreateProvider(HuggingFace, config).Ok?
    ensures CreateProvider(HuggingFace, config).value.Model ==
      (if "model" in config then config["model"] else DefaultHuggingFaceModel)
  {
  }

  /** The Claude backend is commented out: its name is rejected like any unknown name. */
  lemma ClaudeRejected(config: map<string, string>)
    ensures CreateProvider("claude", config) == Err("unsupported provider type: claude")
  {
  }

  /** An OpenAI key that is present but empty is accepted. */
  lemma EmptyApiKeyAccepted()
    ensures CreateProvider(OpenAI, map["api_key" := ""]) == Ok(OpenAIBackend(""))
  {
  }
}
