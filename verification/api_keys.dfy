/** Provider keys and switches (`useApiKeys`). The stored key map is
    `keys`; `enabled` is the map of provider switches. A JavaScript lookup
    that finds nothing or an empty string counts as "no key". */
module ApiKeys {
  import opened Util

  type Keys = map<string, string>

  const AiProviders: seq<string> := ["openai", "anthropic", "gemini", "deepseek", "qwen"]
  const TradingProviders: seq<string> := ["coinbase", "binance", "kraken", "alpaca"]

  /** The entry under which a provider's secret is stored. */
  function SecretName(provider: string): string
  {
    provider + "Secret"
  }

  /** `getApiSecret`. */
  function ApiSecret(keys: Keys, provider: string): (r: Option<string>)
    ensures r.Some? <==> SecretName(provider) in keys
    ensures r.Some? ==> r.value == keys[SecretName(provider)]
  {
    Get(keys, SecretName(provider))
  }

  /** `!!keys[name]`: present and non-empty. */
  predicate HasValue(keys: Keys, name: string)
  {
    name in keys && keys[name] != ""
  }

  /** `isProviderEnabled`: an absent switch is off. */
  function IsProviderEnabled(enabled: map<string, bool>, provider: string): (r: bool)
    ensures r <==> provider in enabled && enabled[provider]
  {
    match Get(enabled, provider)
    case Some(b) => b
    case None => false
  }

  /** `isProviderConfigured`: a key, and a secret too where one is required. */
  function IsProviderConfigured(keys: Keys, provider: string, requiresSecret: bool): (r: bool)
    ensures r <==> HasValue(keys, provider) && (requiresSecret ==> HasValue(keys, SecretName(provider)))
  {
    var hasKey := HasValue(keys, provider);
    var hasSecret := !requiresSecret || match ApiSecret(keys, provider) { case Some(s) => s != "" case None => false };
    hasKey && hasSecret
  }

  /** The providers of `candidates` that are switched on and configured, in
      list order. */
  function Usable(candidates: seq<string>, keys: Keys, enabled: map<string, bool>, requiresSecret: bool): (r: seq<string>)
    ensures |r| <= |candidates|
  {
    if |candidates| == 0 then []
    else
      var p := candidates[0];
      var rest := Usable(candidates[1..], keys, enabled, requiresSecret);
      if IsProviderEnabled(enabled, p) && IsProviderConfigured(keys, p, requiresSecret) then [p] + rest else rest
  }

  predicate UsableProvider(p: string, keys: Keys, enabled: map<string, bool>, requiresSecret: bool)
  {
    IsProviderEnabled(enabled, p) && IsProviderConfigured(keys, p, requiresSecret)
  }

  /** The usable providers are exactly the candidates that are switched on
      and configured, and they keep the candidates' order: the result is
      the candidate list with the others struck out. */
  lemma {:induction false} UsableIsOrderedSelection(candidates: seq<string>, keys: Keys, enabled: map<string, bool>, requiresSecret: bool)
    ensures forall p :: p in Usable(candidates, keys, enabled, requiresSecret) <==>
      p in candidates && UsableProvider(p, keys, enabled, requiresSecret)
    ensures Usable(candidates, keys, enabled, requiresSecret) ==
      Filter(candidates, (p: string) => UsableProvider(p, keys, enabled, requiresSecret))
  {
    if |candidates| > 0 {
      UsableIsOrderedSelection(candidates[1..], keys, enabled, requiresSecret);
      assert forall p :: p in candidates <==> p == candidates[0] || p in candidates[1..];
    }
  }

  /** `getEnabledAIProviders`: no secret is asked of an AI provider. */
  function EnabledAiProviders(keys: Keys, enabled: map<string, bool>): (r: seq<string>)
    ensures forall p :: p in r <==> p in AiProviders && IsProviderEnabled(enabled, p) && HasValue(keys, p)
  {
    UsableIsOrderedSelection(AiProviders, keys, enabled, false);
    Usable(AiProviders, keys, enabled, false)
  }

  /** `getEnabledTradingProviders`: a trading provider needs its secret. */
  function EnabledTradingProviders(keys: Keys, enabled: map<string, bool>): (r: seq<string>)
    ensures forall p :: p in r <==>
      p in TradingProviders && IsProviderEnabled(enabled, p) && HasValue(keys, p) && HasValue(keys, SecretName(p))
  {
    UsableIsOrderedSelection(TradingProviders, keys, enabled, true);
    Usable(TradingProviders, keys, enabled, true)
  }
}
