/**
 * The service object that owns the content analyzer and the recommender and
 * rebuilds both when the configuration changes (services/service.go).
 * The engines are represented by the backend they were built from.
 */
module Services {
  import opened Results
  import opened ProviderFactory
  import opened Configuration
  import opened TimeFrames

  /** A content analyzer built on a backend. */
  datatype AnalyzerHandle = NewContentAnalyzer(Provider: Backend)

  /** A recommender built on the service's database and a backend. */
  datatype RecommenderHandle = NewRecommender(Db: Database, Provider: Backend)

  /**
   * The backend settings the service passes to the factory: the OpenAI key and
   * the Llama server address from the environment (empty when unset), and the
   * configured model.
   */
  function ProviderConfig(env: Env, config: Config): (settings: map<string, string>)
    ensures settings.Keys == {"api_key", "model", "server_url"}
    ensures settings["model"] == config.Model
  {
    map["api_key" := GetEnv(env, "OPENAI_API_KEY", ""),
        "model" := config.Model,
        "server_url" := GetEnv(env, "LLAMA_SERVER_URL", "")]
  }

  /**
   * Since every key is present in the service's settings, creating the backend
   * fails exactly when the configured name is unsupported, and an OpenAI backend
   * can always be created.
   */
  lemma ProviderConfigCreates(env: Env, config: Config, providerType: ProviderType)
    ensures CreateProvider(providerType, ProviderConfig(env, config)).Ok? <==> providerType in SupportedTypes
    ensures CreateProvider(OpenAI, ProviderConfig(env, config)) == Ok(OpenAIBackend(GetEnv(env, "OPENAI_API_KEY", "")))
  {
    CreateProviderSpec(providerType, ProviderConfig(env, config));
  }

  class Service {
    const db: Database
    var analyzer: AnalyzerHandle
    var recommender: RecommenderHandle
    var config: Config

    /** Both engines run on one backend, of the configured kind, and the recommender uses the service's database. */
    ghost predicate Valid()
      reads this
    {
      analyzer.Provider == recommender.Provider &&
      recommender.Db == db &&
      TypeOf(analyzer.Provider) == config.Provider
    }

    /**
     * NewAIService: the configured backend when it can be created; otherwise the
     * configuration is switched to OpenAI and an OpenAI backend is used.
     */
    constructor (db: Database, env: Env, config: Config)
      ensures Valid()
      ensures this.db == db
      ensures CreateProvider(config.Provider, ProviderConfig(env, config)).Ok? ==>
        this.config == config &&
        analyzer == NewContentAnalyzer(CreateProvider(config.Provider, ProviderConfig(env, config)).value)
      ensures CreateProvider(config.Provider, ProviderConfig(env, config)).Err? ==>
        this.config == config.(Provider := OpenAI) &&
        analyzer == NewContentAnalyzer(OpenAIBackend(GetEnv(env, "OPENAI_API_KEY", "")))
    {
      var providerConfig := ProviderConfig(env, config);
      var provider := CreateProvider(config.Provider, providerConfig);
      var cfg := config;
      CreateProviderSpec(config.Provider, providerConfig);
      if provider.Err? {
        cfg := cfg.(Provider := OpenAI);
        provider := CreateProvider(OpenAI, providerConfig);
      }
      this.db := db;
      analyzer := NewContentAnalyzer(provider.value);
      recommender := NewRecommender(db, provider.value);
      this.config := cfg;
    }

    /**
     * Switch to a new configuration: both engines are rebuilt on the new backend
     * and the configuration replaced; when the backend cannot be created nothing
     * changes and the factory's error is returned.
     */
    method UpdateConfig(env: Env, config: Config) returns (err: Option<string>)
      requires Valid()
      modifies this
      ensures Valid()
      ensures err.Some? <==> config.Provider !in SupportedTypes
      ensures err.Some? ==>
        err.value == "unsupported provider type: " + config.Provider &&
        analyzer == old(analyzer) && recommender == old(recommender) && this.config == old(this.config)
      ensures err.None? ==>
        this.config == config &&
        analyzer == NewContentAnalyzer(CreateProvider(config.Provider, ProviderConfig(env, config)).value) &&
        recommender == NewRecommender(db, analyzer.Provider)
    {
      var providerConfig := ProviderConfig(env, config);
      var provider := CreateProvider(config.Provider, providerConfig);
      CreateProviderSpec(config.Provider, providerConfig);
      if provider.Err? {
        return Some(provider.error);
      }
      analyzer := NewContentAnalyzer(provider.value);
      recommender := NewRecommender(db, provider.value);
      this.config := config;
      return None;
    }
  }

  /**
   * A configuration produced by loading always names a supported backend, so the
   * service starts on it and never needs the OpenAI fallback.
   */
  lemma LoadedConfigNeedsNoFallback(env: Env, parseFloat: FloatParser, serviceEnv: Env)
    requires Load(env, parseFloat).Ok?
    ensures CreateProvider(Load(env, parseFloat).value.Provider,
                           ProviderConfig(serviceEnv, Load(env, parseFloat).value)).Ok?
  {
    LoadSpec(env, parseFloat);
    ProviderConfigCreates(serviceEnv, Load(env, parseFloat).value, Load(env, parseFloat).value.Provider);
  }
}
