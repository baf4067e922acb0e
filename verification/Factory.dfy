/** The memoising provider factory of factory.go. */
module Factory {
  import opened Wrappers
  import opened Text
  import opened ProviderTable

  datatype Kind = Claude | OpenAI | Cohere

  /** A provider instance keeps the configuration it was built from. */
  datatype Provider = Provider(kind: Kind, config: ProviderConfig)

  function Key(c: ProviderConfig): string {
    c.name + ":" + c.model + ":" + c.baseURL + ":" + c.azureEndpoint + ":" + c.azureDeployment
  }

  function KindOf(name: string): Option<Kind> {
    if name == "claude" || name == "anthropic" then Some(Claude)
    else if name == "openai" then Some(OpenAI)
    else if name == "azure_openai" || name == "azureopenai" then Some(OpenAI)
    else if name == "cohere" then Some(Cohere)
    else if name == "google" || name == "gemini" then Some(OpenAI)
    else None
  }

  // A fresh construction, as if the memo table were empty.
  function Build(c: ProviderConfig): Option<Provider> {
    match KindOf(ToLower(c.name))
    case Some(kind) => Some(Provider(kind, c))
    case None => None
  }

  function Create(instances: map<string, Provider>, c: ProviderConfig): (map<string, Provider>, Option<Provider>) {
    if Key(c) in instances then (instances, Some(instances[Key(c)]))
    else
      match Build(c)
      case Some(p) => (instances[Key(c) := p], Some(p))
      case None => (instances, None)
  }

  // The names each kind of provider goes by.
  predicate Means(name: string, kind: Kind) {
    match kind
    case Claude => Spells(name, "claude") || Spells(name, "anthropic")
    case OpenAI =>
      || Spells(name, "openai") || Spells(name, "azure_openai") || Spells(name, "azureopenai")
      || Spells(name, "google") || Spells(name, "gemini")
    case Cohere => Spells(name, "cohere")
  }

  lemma NamesAreWords(name: string)
    ensures ToLower(name) == "claude" <==> Spells(name, "claude")
    ensures ToLower(name) == "anthropic" <==> Spells(name, "anthropic")
    ensures ToLower(name) == "openai" <==> Spells(name, "openai")
    ensures ToLower(name) == "azure_openai" <==> Spells(name, "azure_openai")
    ensures ToLower(name) == "azureopenai" <==> Spells(name, "azureopenai")
    ensures ToLower(name) == "google" <==> Spells(name, "google")
    ensures ToLower(name) == "gemini" <==> Spells(name, "gemini")
    ensures ToLower(name) == "cohere" <==> Spells(name, "cohere")
  {
    hide Spells, ToLower;
    LowerIsWord(name, "claude");
    LowerIsWord(name, "anthropic");
    LowerIsWord(name, "openai");
    LowerIsWord(name, "azure_openai");
    LowerIsWord(name, "azureopenai");
    LowerIsWord(name, "google");
    LowerIsWord(name, "gemini");
    LowerIsWord(name, "cohere");
  }

  /** What is built is an instance of the kind the name means, in any capitalisation, with the whole
      configuration; nothing is built exactly if the name means no kind. */
  lemma BuildExactly(c: ProviderConfig, kind: Kind)
    ensures Build(c) == Some(Provider(kind, c)) <==> Means(c.name, kind)
    ensures Build(c) == None <==> !Means(c.name, Claude) && !Means(c.name, OpenAI) && !Means(c.name, Cohere)
  {
    hide Spells, ToLower;
    NamesAreWords(c.name);
    KindsDiffer(ToLower(c.name));
  }

  lemma KindsDiffer(lower: string)
    ensures KindOf(lower) == Some(Claude) <==> lower == "claude" || lower == "anthropic"
    ensures KindOf(lower) == Some(Cohere) <==> lower == "cohere"
    ensures KindOf(lower) == Some(OpenAI) <==>
              || lower == "openai" || lower == "azure_openai" || lower == "azureopenai"
              || lower == "google" || lower == "gemini"
  {
  }

  // Every instance was built from a configuration with the key it is stored under.
  ghost predicate Valid(instances: map<string, Provider>) {
    forall k :: k in instances ==> Key(instances[k].config) == k && Build(instances[k].config) == Some(instances[k])
  }

  /** The result is the instance stored under the key, and no stored instance is ever replaced. */
  lemma CreateMemoises(instances: map<string, Provider>, c: ProviderConfig)
    requires Valid(instances)
    ensures var (after, p) := Create(instances, c);
            && Valid(after)
            && (forall k :: k in instances ==> k in after && after[k] == instances[k])
            && (forall k :: k in after && k !in instances ==> k == Key(c))
            && (p.Some? <==> Key(c) in after)
            && (p.Some? ==> p.value == after[Key(c)] && Create(after, c) == (after, p))
  {
  }

  lemma SupportedNameHasNoColon(name: string)
    requires KindOf(ToLower(name)).Some?
    ensures ':' !in name
  {
    var lower := ToLower(name);
    assert ':' !in lower;
    forall i | 0 <= i < |name|
      ensures name[i] != ':'
    {
      assert lower[i] == LowerChar(name[i]) && lower[i] in lower;
    }
  }

  lemma KeyFixesColonFreeName(c: ProviderConfig, d: ProviderConfig)
    requires Key(c) == Key(d) && ':' !in c.name && ':' !in d.name
    ensures c.name == d.name
  {
    var restC := c.model + ":" + c.baseURL + ":" + c.azureEndpoint + ":" + c.azureDeployment;
    var restD := d.model + ":" + d.baseURL + ":" + d.azureEndpoint + ":" + d.azureDeployment;
    assert Key(c) == c.name + [':'] + restC;
    assert Key(d) == d.name + [':'] + restD;
    SplitUnique(c.name, restC, d.name, restD, ':');
  }

  // The columns of a key, all but the last without the character that joins them.
  predicate ColonFree(c: ProviderConfig) {
    ':' !in c.name && ':' !in c.model && ':' !in c.baseURL && ':' !in c.azureEndpoint
  }

  /** Without colons in the way, two configurations share a key exactly if they agree in the five columns
      it is made of. */
  lemma KeyExactly(c: ProviderConfig, d: ProviderConfig)
    requires ColonFree(c) && ColonFree(d)
    ensures Key(c) == Key(d) <==>
              && c.name == d.name && c.model == d.model && c.baseURL == d.baseURL
              && c.azureEndpoint == d.azureEndpoint && c.azureDeployment == d.azureDeployment
  {
    if Key(c) == Key(d) {
      KeyTail(c);
      KeyTail(d);
      var c2, d2 := c.azureEndpoint + [':'] + c.azureDeployment, d.azureEndpoint + [':'] + d.azureDeployment;
      var c1, d1 := c.baseURL + [':'] + c2, d.baseURL + [':'] + d2;
      SplitUnique(c.name, c.model + [':'] + c1, d.name, d.model + [':'] + d1, ':');
      SplitUnique(c.model, c1, d.model, d1, ':');
      SplitUnique(c.baseURL, c2, d.baseURL, d2, ':');
      SplitUnique(c.azureEndpoint, c.azureDeployment, d.azureEndpoint, d.azureDeployment, ':');
    }
  }

  lemma KeyTail(c: ProviderConfig)
    ensures var tail := c.baseURL + [':'] + (c.azureEndpoint + [':'] + c.azureDeployment);
            Key(c) == c.name + [':'] + (c.model + [':'] + tail)
  {
  }

  function KindIn(p: Option<Provider>): Option<Kind> {
    if p.Some? then Some(p.value.kind) else None
  }

  /** The factory gives the provider kind a fresh construction would, exactly when it really
      constructs or the requested name has no colon. */
  lemma KindAgreement(instances: map<string, Provider>, c: ProviderConfig)
    requires Valid(instances)
    ensures KindIn(Create(instances, c).1) == KindIn(Build(c)) <==> Key(c) !in instances || ':' !in c.name
  {
    if Key(c) in instances {
      var d := instances[Key(c)].config;
      SupportedNameHasNoColon(d.name);
      if ':' !in c.name {
        KeyFixesColonFreeName(c, d);
      } else if KindOf(ToLower(c.name)).Some? {
        SupportedNameHasNoColon(c.name);
      }
    }
  }

  // The key has no room for the colon: an unsupported name is served another provider's instance.
  lemma ColonInNameExample()
    ensures var c := ProviderConfig(1, "openai", "k", "gpt:4", "", "", "", 0);
            var d := ProviderConfig(2, "openai:gpt", "k", "4", "", "", "", 0);
            && Build(d) == None
            && Create(Create(map[], c).0, d).1 == Some(Provider(OpenAI, c))
  {
    var c := ProviderConfig(1, "openai", "k", "gpt:4", "", "", "", 0);
    var d := ProviderConfig(2, "openai:gpt", "k", "4", "", "", "", 0);
    hide KindOf, ToLower;
    assert Key(c) == Key(d) == "openai:gpt:4:::";
    BuildExactly(c, OpenAI);
    assert d.name[6] == ':';
    if Build(d) != None {
      SupportedNameHasNoColon(d.name);
    }
  }

  // ---------- Runs of requests ----------

  // The factory after the first n configurations went through it.
  function InstancesAfter(instances: map<string, Provider>, configs: seq<ProviderConfig>, n: nat): map<string, Provider>
    requires n <= |configs|
  {
    if n == 0 then instances else Create(InstancesAfter(instances, configs, n - 1), configs[n - 1]).0
  }

  // A request that fills the place under this key if it is free.
  predicate Fills(c: ProviderConfig, k: string) { Key(c) == k && Build(c).Some? }

  /** After any run of requests the instance under a key is the one built from the first buildable
      configuration with that key, id, API key and settings included; and there is none exactly if
      there was no such configuration. */
  lemma {:induction false} FirstConfigWins(requests: seq<ProviderConfig>, n: nat, k: string) returns (i: nat)
    requires n <= |requests|
    ensures i <= n && forall j :: 0 <= j < i ==> !Fills(requests[j], k)
    ensures if i < n then Fills(requests[i], k) && Lookup(InstancesAfter(map[], requests, n), k) == Build(requests[i])
            else k !in InstancesAfter(map[], requests, n)
  {
    hide Key, Build;
    if n == 0 {
      i := 0;
    } else {
      i := FirstConfigWins(requests, n - 1, k);
      if i == n - 1 && !Fills(requests[n - 1], k) {
        i := n;
      }
    }
  }

  lemma BuildKeepsConfig(c: ProviderConfig)
    ensures Build(c).Some? ==> Build(c).value.config == c
  {
  }

  /** So a request is served what a fresh construction from its own row would be, exactly if the first
      buildable configuration with its key, if there was one, is the same row as it is now. */
  lemma OwnConfigExactly(requests: seq<ProviderConfig>, n: nat) returns (i: nat)
    requires n < |requests|
    ensures i <= n && forall j :: 0 <= j < i ==> !Fills(requests[j], Key(requests[n]))
    ensures i < n ==> Fills(requests[i], Key(requests[n]))
    ensures Create(InstancesAfter(map[], requests, n), requests[n]).1 == Build(requests[n]) <==>
              i == n || requests[i] == requests[n]
  {
    hide Key, Build, InstancesAfter;
    i := FirstConfigWins(requests, n, Key(requests[n]));
    BuildKeepsConfig(requests[n]);
    if i < n {
      BuildKeepsConfig(requests[i]);
    }
  }

  class ProviderFactory {
    var instances: map<string, Provider>

    constructor ()
      ensures instances == map[]
    {
      instances := map[];
    }

    method CreateProvider(config: ProviderConfig) returns (provider: Option<Provider>)
      requires Valid(instances)
      modifies this
      ensures Valid(instances)
      ensures (instances, provider) == Create(old(instances), config)
    {
      var key := config.name + ":" + config.model + ":" + config.baseURL + ":" + config.azureEndpoint + ":" +
          config.azureDeployment;
      if key in instances {
        return Some(instances[key]);
      }
      provider := Build(config);
      if provider == None {
        return;
      }
      instances := instances[key := provider.value];
    }
  }
}
