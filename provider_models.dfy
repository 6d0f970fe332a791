/** The model selector of the chat-testing app: a provider name and a model name are
    checked against a fixed table, then the provider's API key is read from the
    environment variable named after the upper-cased provider.

    The environment is a map parameter; building the provider's client is left out, so a
    successful selection is the provider, the model and the key it would be built with. */
module ProviderModels {
  import opened Wrappers
  import opened Text

  /** The providers and the models each one accepts. */
  const SupportedProviders: map<string, seq<string>> :=
    map["openai" := ["gpt-3.5-turbo", "gpt-4"], "google" := ["models/gemini-1.5-pro-latest"]]

  /** The names every plain object answers for through its prototype. Looking one of them
      up in the table finds something that is not a provider entry. */
  const InheritedNames: set<string> := {
    "constructor", "__proto__", "toString", "toLocaleString", "valueOf", "hasOwnProperty",
    "isPrototypeOf", "propertyIsEnumerable", "__defineGetter__", "__defineSetter__",
    "__lookupGetter__", "__lookupSetter__"}

  datatype Selection = Selection(provider: string, model: string, apiKey: string)

  function KeyVariable(provider: string): string {
    Upper(provider) + "_API_KEY"
  }

  /** The error `models.includes` raises when the lookup found an inherited member. */
  const IncludesOnUndefined := "Cannot read properties of undefined (reading 'includes')"

  /** The selector as written: the table lookup also finds inherited members, whose missing
      model list then fails on `includes` instead of giving the provider error. */
  function GetSupportedModelAsWritten(provider: string, model: string, env: map<string, string>): (r: Result<Selection>)
    ensures provider in InheritedNames ==> r == Err(IncludesOnUndefined)
    ensures provider !in InheritedNames ==> r == GetSupportedModel(provider, model, env)
  {
    if provider in SupportedProviders then GetSupportedModel(provider, model, env)
    else if provider in InheritedNames then Err(IncludesOnUndefined)
    else Err("Unsupported provider: " + provider)
  }

  /** `toString` is not a provider, yet it is not reported as an unsupported one. */
  lemma InheritedNameIsNotReported(env: map<string, string>)
    ensures GetSupportedModelAsWritten("toString", "gpt-4", env).Err?
    ensures GetSupportedModelAsWritten("toString", "gpt-4", env).message != "Unsupported provider: toString"
    ensures GetSupportedModel("toString", "gpt-4", env) == Err("Unsupported provider: toString")
  {
  }

  /** The selector with the table's own entries only. The checks run in the order
      provider, model, key, and the first that fails decides the error. */
  function GetSupportedModel(provider: string, model: string, env: map<string, string>): (r: Result<Selection>)
    ensures provider !in SupportedProviders ==> r == Err("Unsupported provider: " + provider)
    ensures provider in SupportedProviders && model !in SupportedProviders[provider] ==>
      r == Err("Unsupported model: " + model + " for provider: " + provider)
    ensures provider in SupportedProviders && model in SupportedProviders[provider]
            && (KeyVariable(provider) !in env || env[KeyVariable(provider)] == "") ==>
      r == Err("Missing API key for provider: " + provider)
    ensures r.Ok? ==> r.value == Selection(provider, model, env[KeyVariable(provider)]) && r.value.apiKey != ""
  {
    if provider !in SupportedProviders then Err("Unsupported provider: " + provider)
    else if model !in SupportedProviders[provider] then Err("Unsupported model: " + model + " for provider: " + provider)
    else
      var key := KeyVariable(provider);
      if key !in env || env[key] == "" then Err("Missing API key for provider: " + provider)
      else Ok(Selection(provider, model, env[key]))
  }

  /** The accepted pairs are exactly the three in the table, each with its own key set. */
  lemma AcceptedPairs(provider: string, model: string, env: map<string, string>)
    ensures GetSupportedModel(provider, model, env).Ok? <==>
      && ((provider == "openai" && (model == "gpt-3.5-turbo" || model == "gpt-4"))
          || (provider == "google" && model == "models/gemini-1.5-pro-latest"))
      && KeyVariable(provider) in env && env[KeyVariable(provider)] != ""
  {
    if provider == "openai" {
      assert SupportedProviders[provider] == ["gpt-3.5-turbo", "gpt-4"];
    } else if provider == "google" {
      assert SupportedProviders[provider] == ["models/gemini-1.5-pro-latest"];
    }
  }

  /** The key variables the two providers read. */
  lemma KeyVariables()
    ensures KeyVariable("openai") == "OPENAI_API_KEY"
    ensures KeyVariable("google") == "GOOGLE_API_KEY"
  {
    assert Upper("openai") == "OPENAI";
    assert Upper("google") == "GOOGLE";
  }
}
