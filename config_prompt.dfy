/** Prompt lookup: a table of named prompts read lazily from the YAML
    configuration, or a prompt fetched from the Langfuse service. */
module PromptConfig {
  import opened Common

  datatype PromptProvider = Yaml | Langfuse | Unrecognized(value: string)

  /** A prompt; `metadata` stands for the optional free-form dictionary, kept as
      string pairs. */
  datatype Prompt = Prompt(name: string, text: string, metadata: Option<map<string, string>>)

  /** The `ValueError`s of the prompt configuration. */
  datatype PromptError = PromptNotFound(key: string) | InvalidProvider(provider: string)

  /** `PromptConfig[key]`: the first prompt named `key`. */
  function PromptLookup(prompts: seq<Prompt>, key: string): (r: Result<Prompt, PromptError>)
    ensures r.Ok? <==> exists i :: 0 <= i < |prompts| && prompts[i].name == key
    ensures r.Ok? ==> exists i :: 0 <= i < |prompts| && prompts[i] == r.value && r.value.name == key
                                  && forall j :: 0 <= j < i ==> prompts[j].name != key
    ensures r.Err? ==> r.error == PromptNotFound(key)
  {
    if prompts == [] then Err(PromptNotFound(key))
    else if prompts[0].name == key then Ok(prompts[0])
    else
      var r := PromptLookup(prompts[1..], key);
      assert forall i :: 1 <= i < |prompts| ==> prompts[i] == prompts[1..][i - 1];
      r
  }

  /** What the Langfuse client hands back for a prompt name: its name, its
      template in LangChain form and its configuration. */
  datatype LangfusePrompt = LangfusePrompt(name: string, langchainPrompt: string, config: Option<map<string, string>>)

  /** The prompt half of the configuration objects: the provider choice and the
      two lazily created configurations. The YAML file's prompts and the Langfuse
      service's answer are inputs of `GetPrompt`, standing for the file and
      network reads. */
  class PromptMixin {
    var provider: PromptProvider
    var promptConfig: Option<seq<Prompt>>
    var langfuseConfigLoaded: bool
    /** How many times the YAML prompt file has been loaded. */
    var promptConfigLoads: nat
    /** How many times the Langfuse configuration has been created. */
    var langfuseConfigLoads: nat

    /** Each configuration is created at most once, and exists exactly when it
        has been created. */
    ghost predicate Valid()
      reads this
    {
      && promptConfigLoads <= 1 && (promptConfig.Some? <==> promptConfigLoads == 1)
      && langfuseConfigLoads <= 1 && (langfuseConfigLoaded <==> langfuseConfigLoads == 1)
    }

    constructor(provider: PromptProvider)
      ensures Valid()
      ensures this.provider == provider
      ensures promptConfig == None && !langfuseConfigLoaded
    {
      this.provider := provider;
      promptConfig := None;
      langfuseConfigLoaded := false;
      promptConfigLoads := 0;
      langfuseConfigLoads := 0;
    }

    /** `get_prompt(name)` as the class finally defines it (the second of its
        two definitions): the YAML table, loaded on first use, or the Langfuse
        prompt, or a `ValueError` for any other provider. */
    method GetPrompt(name: string, yamlPrompts: seq<Prompt>, fetched: LangfusePrompt) returns (r: Result<Prompt, PromptError>)
      requires Valid()
      modifies this
      ensures Valid()
      ensures provider == old(provider)
      ensures provider.Yaml? ==>
                && promptConfig == (if old(promptConfig).None? then Some(yamlPrompts) else old(promptConfig))
                && r == PromptLookup(promptConfig.value, name)
                && langfuseConfigLoaded == old(langfuseConfigLoaded) && langfuseConfigLoads == old(langfuseConfigLoads)
      ensures provider.Langfuse? ==>
                && r == Ok(Prompt(fetched.name, fetched.langchainPrompt, fetched.config))
                && langfuseConfigLoaded
                && promptConfig == old(promptConfig) && promptConfigLoads == old(promptConfigLoads)
      ensures provider.Unrecognized? ==>
                && r == Err(InvalidProvider(provider.value))
                && unchanged(this)
    {
      match provider
      case Yaml =>
        if promptConfig.None? {
          promptConfig := Some(yamlPrompts);
          promptConfigLoads := promptConfigLoads + 1;
        }
        r := PromptLookup(promptConfig.value, name);
      case Langfuse =>
        if !langfuseConfigLoaded {
          langfuseConfigLoaded := true;
          langfuseConfigLoads := langfuseConfigLoads + 1;
        }
        r := Ok(Prompt(fetched.name, fetched.langchainPrompt, fetched.config));
      case Unrecognized(v) =>
        r := Err(InvalidProvider(v));
    }
  }

  /** Once the YAML prompts are loaded, a second lookup reads the same table
      even if the file would now read differently: the first load is the one
      every later call uses. */
  method TwoYamlLookups(m: PromptMixin, a: string, b: string, first: seq<Prompt>, later: seq<Prompt>, fetched: LangfusePrompt)
      returns (ra: Result<Prompt, PromptError>, rb: Result<Prompt, PromptError>)
    requires m.Valid() && m.provider.Yaml? && m.promptConfig.None?
    modifies m
    ensures ra == PromptLookup(first, a) && rb == PromptLookup(first, b)
    ensures m.promptConfigLoads == 1
  {
    ra := m.GetPrompt(a, first, fetched);
    rb := m.GetPrompt(b, later, fetched);
  }
}
