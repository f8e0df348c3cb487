/** The provider factory (`llm/factory.py`): a provider tag selects the
    provider to build, and any tag but `"groq"` is refused. */
module LlmFactory {
  import opened Wrappers
  import opened PyDict
  import opened JsonValue

  /** The keyword defaults of `create_llm_provider`. */
  const DefaultTemperature: real := 0.7
  const DefaultMaxTokens: int := 1024

  /** The providers the factory can build; `extra` holds the keyword
      arguments passed on unchanged. */
  datatype Provider = GroqProvider(apiKey: string, model: string, temperature: real, maxTokens: int,
                                   extra: Dict<Json>)

  /** `create_llm_provider`. The tag is `None` when the caller passed
      Python's `None`, which the error message renders as `None`; an
      omitted temperature or token limit takes its default. */
  function CreateLlmProvider(provider: Option<string>, apiKey: string, model: string,
                             temperature: Option<real>, maxTokens: Option<int>,
                             kwargs: Dict<Json>): (r: Result<Provider, string>)
    ensures r.Success? <==> provider == Some("groq")
    ensures r.Success? ==>
      r.value.apiKey == apiKey && r.value.model == model && r.value.extra == kwargs
    ensures r.Success? ==>
      r.value.temperature == (if temperature.Some? then temperature.value else DefaultTemperature) &&
      r.value.maxTokens == (if maxTokens.Some? then maxTokens.value else DefaultMaxTokens)
    ensures r.Failure? ==>
      r.error == "Unsupported LLM provider: " + (if provider.Some? then provider.value else "None")
  {
    if provider == Some("groq") then
      Success(GroqProvider(apiKey, model, temperature.GetOr(DefaultTemperature), maxTokens.GetOr(DefaultMaxTokens), kwargs))
    else
      Failure("Unsupported LLM provider: " + if provider.Some? then provider.value else "None")
  }

  /** The tags the other providers are known by are refused, and the
      defaults apply when nothing is given. */
  lemma FactoryCases(apiKey: string, model: string)
    ensures CreateLlmProvider(Some("openai"), apiKey, model, None, None, []) == Failure("Unsupported LLM provider: openai")
    ensures CreateLlmProvider(Some("anthropic"), apiKey, model, None, None, []) == Failure("Unsupported LLM provider: anthropic")
    ensures CreateLlmProvider(None, apiKey, model, None, None, []) == Failure("Unsupported LLM provider: None")
    ensures CreateLlmProvider(Some("groq"), apiKey, model, None, None, []) ==
      Success(GroqProvider(apiKey, model, 0.7, 1024, []))
  {
    assert "openai"[0] != "groq"[0] && "anthropic"[0] != "groq"[0];
    assert "Unsupported LLM provider: " + "openai" == "Unsupported LLM provider: openai";
    assert "Unsupported LLM provider: " + "anthropic" == "Unsupported LLM provider: anthropic";
    assert "Unsupported LLM provider: " + "None" == "Unsupported LLM provider: None";
  }
}
