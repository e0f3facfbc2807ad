/** The provider registry: one generation-service client per process,
    created on first use from the environment's API key. */
module Registry {
  import opened Wrappers

  /** The values of the two environment variables the registry reads; an
      unset variable is the empty string (both are falsy). */
  datatype Env = Env(nextPublicGeminiApiKey: string, geminiApiKey: string)

  /** A client of the generation service, as created by the SDK factory. */
  datatype Provider = Provider(apiKey: string)

  /** A language model handle: the provider applied to a model name. */
  datatype LanguageModel = LanguageModel(provider: Provider, modelId: string)

  const DummyKey: string := "dummy-key-for-initialization"
  const DefaultModel: string := "gemini-2.5-flash"

  /** `NEXT_PUBLIC_GEMINI_API_KEY || GEMINI_API_KEY`. */
  function ConfiguredKey(env: Env): (k: string)
    ensures env.nextPublicGeminiApiKey != "" ==> k == env.nextPublicGeminiApiKey
    ensures env.nextPublicGeminiApiKey == "" ==> k == env.geminiApiKey
  {
    if env.nextPublicGeminiApiKey != "" then env.nextPublicGeminiApiKey else env.geminiApiKey
  }

  /** The key the client is created with: the configured key, or the dummy
      key when none is configured, so that creation never fails. */
  function ProviderKey(env: Env): (k: string)
    ensures k != ""
    ensures ConfiguredKey(env) != "" ==> k == ConfiguredKey(env)
    ensures ConfiguredKey(env) == "" ==> k == DummyKey
  {
    var key := ConfiguredKey(env);
    if key == "" then DummyKey else key
  }

  /** The process-wide registry state: the module-level `googleInstance`. */
  class ProviderRegistry {
    var googleInstance: Option<Provider>
    /** How many times the SDK factory has been called. */
    ghost var creations: nat

    ghost predicate Valid()
      reads this
    {
      creations <= 1 && (googleInstance.Some? <==> creations == 1)
    }

    constructor ()
      ensures Valid() && googleInstance == None && creations == 0
    {
      googleInstance := None;
      creations := 0;
    }

    /** `getGoogleAI()`: the first call creates the client with the key the
        environment gives; every later call returns that same client. */
    method GetGoogleAI(env: Env) returns (p: Provider)
      requires Valid()
      modifies this
      ensures Valid()
      ensures googleInstance == Some(p)
      ensures old(googleInstance).Some? ==> p == old(googleInstance).value && creations == old(creations)
      ensures old(googleInstance).None? ==> p == Provider(ProviderKey(env)) && creations == old(creations) + 1
    {
      if googleInstance.None? {
        var apiKey := ConfiguredKey(env);
        if apiKey == "" {
          googleInstance := Some(Provider(DummyKey));
        } else {
          googleInstance := Some(Provider(apiKey));
        }
        creations := creations + 1;
      }
      p := googleInstance.value;
    }

    /** `getModel(model = 'gemini-2.5-flash')`: the registry's client
        applied to the model name. */
    method GetModel(env: Env, model: string := DefaultModel) returns (m: LanguageModel)
      requires Valid()
      modifies this
      ensures Valid() && googleInstance == Some(m.provider) && m.modelId == model
      ensures old(googleInstance).Some? ==> m.provider == old(googleInstance).value && creations == old(creations)
      ensures old(googleInstance).None? ==> m.provider == Provider(ProviderKey(env)) && creations == old(creations) + 1
    {
      var google := GetGoogleAI(env);
      m := LanguageModel(google, model);
    }
  }

  /** Two calls in a row return the same client, created once, with the key
      of the environment seen by the first call. */
  method TwoCalls(env1: Env, env2: Env) returns (p1: Provider, p2: Provider)
    ensures p1 == p2 == Provider(ProviderKey(env1))
  {
    var registry := new ProviderRegistry();
    p1 := registry.GetGoogleAI(env1);
    p2 := registry.GetGoogleAI(env2);
    assert registry.creations == 1;
  }
}
