/**
 * The model registry: the ordered list of advertised model names and the
 * map from each name to the upstream provider that serves it.
 */
module Registry {
  import opened Wrappers

  datatype Registry = Registry(models: seq<string>, providers: map<string, string>)

  /** The model used when a request names none. */
  const DefaultModel: string := "gpt-4o-mini"

  /** The registry the service ships with. */
  const Default: Registry := Registry(
    [
      "gpt-4o-mini",
      "claude-3-haiku-20240307",
      "meta-llama/Meta-Llama-3.1-70B-Instruct-Turbo",
      "mistralai/Mixtral-8x7B-Instruct-v0.1",
      "claude-sonnet-3.5",
      "gpt-4",
      "nemotron-70b",
      "command-r-plus",
      "Qwen/QwQ-32B-Preview",
      "meta-llama/Llama-3.3-70B-Instruct"
    ],
    map[
      "gpt-4o-mini" := "DDG",
      "claude-3-haiku-20240307" := "DDG",
      "meta-llama/Meta-Llama-3.1-70B-Instruct-Turbo" := "DDG",
      "mistralai/Mixtral-8x7B-Instruct-v0.1" := "DDG",
      "claude-sonnet-3.5" := "Blackbox AI",
      "gpt-4" := "Binjie",
      "nemotron-70b" := "HuggingChat",
      "command-r-plus" := "HuggingChat",
      "Qwen/QwQ-32B-Preview" := "HuggingChat",
      "meta-llama/Llama-3.3-70B-Instruct" := "HuggingChat"
    ])

  predicate Advertised(reg: Registry, model: string)
  {
    model in reg.models
  }

  /**
   * The provider for a model: a missing entry and an empty provider name
   * both count as no provider.
   */
  function ResolveProvider(reg: Registry, model: string): Option<string>
  {
    if model in reg.providers && reg.providers[model] != "" then Some(reg.providers[model]) else None
  }

  /** Every advertised model resolves to a non-empty provider. */
  ghost predicate Consistent(reg: Registry)
  {
    forall i :: 0 <= i < |reg.models| ==> ResolveProvider(reg, reg.models[i]).Some?
  }

  /** The shipped registry is consistent, and it advertises the default model. */
  lemma DefaultIsConsistent()
    ensures Consistent(Default)
    ensures Advertised(Default, DefaultModel)
    ensures ResolveProvider(Default, DefaultModel) == Some("DDG")
  {
  }

  /** The shipped registry lists each model once, and its map has no entry for an unlisted model. */
  lemma DefaultIsExact()
    ensures forall i, j :: 0 <= i < j < |Default.models| ==> Default.models[i] != Default.models[j]
    ensures Default.providers.Keys == set m | m in Default.models
  {
  }

  /**
   * In the shipped registry a model has a provider exactly when it is
   * advertised: the 400 check and the provider check accept the same names.
   */
  lemma DefaultResolvesExactlyAdvertised(model: string)
    ensures ResolveProvider(Default, model).Some? <==> Advertised(Default, model)
  {
    DefaultIsExact();
    if Advertised(Default, model) {
      DefaultIsConsistent();
      ConsistentResolves(Default, model);
    } else {
      assert model !in set m | m in Default.models;
    }
  }

  /** In a consistent registry an advertised model always resolves. */
  lemma ConsistentResolves(reg: Registry, model: string)
    requires Consistent(reg)
    requires Advertised(reg, model)
    ensures ResolveProvider(reg, model).Some?
  {
    var i :| 0 <= i < |reg.models| && reg.models[i] == model;
  }
}
