/** The state updates of the key-management screen: which keys are shown in
    clear, editing and clearing keys, the provider switches, and the status
    badge of a provider. */
module ApiKeysManager {
  import opened ApiKeys

  /** `toggleKeyVisibility`: shows a hidden key, hides a shown one. */
  function ToggleKeyVisibility(visible: set<string>, provider: string): (r: set<string>)
    ensures provider in r <==> provider !in visible
    ensures forall q :: q != provider ==> (q in r <==> q in visible)
  {
    if provider in visible then visible - {provider} else visible + {provider}
  }

  lemma {:induction false} ToggleTwiceIsIdentity(visible: set<string>, provider: string)
    ensures ToggleKeyVisibility(ToggleKeyVisibility(visible, provider), provider) == visible
  {
    var once := ToggleKeyVisibility(visible, provider);
    var twice := ToggleKeyVisibility(once, provider);
    assert forall q :: q in twice <==> q in visible;
  }

  /** The entry a key edit writes: the key itself or its secret. */
  function EntryName(provider: string, isSecret: bool): string
  {
    if isSecret then SecretName(provider) else provider
  }

  /** `handleKeyUpdate`: one entry is written, every other entry stays. */
  function HandleKeyUpdate(keys: Keys, provider: string, value: string, isSecret: bool): (r: Keys)
    ensures EntryName(provider, isSecret) in r && r[EntryName(provider, isSecret)] == value
    ensures forall k :: k != EntryName(provider, isSecret) ==> (k in r <==> k in keys) && (k in r ==> r[k] == keys[k])
  {
    keys[EntryName(provider, isSecret) := value]
  }

  /** `handleToggleProvider`: only the provider's own switch moves. */
  function HandleToggleProvider(enabled: map<string, bool>, provider: string, on: bool): (r: map<string, bool>)
    ensures IsProviderEnabled(r, provider) == on
    ensures forall q :: q != provider ==> (q in r <==> q in enabled) && (q in r ==> r[q] == enabled[q])
  {
    enabled[provider := on]
  }

  /** `handleClearKey`: drops the key, and the secret when one is required. */
  function HandleClearKey(keys: Keys, provider: string, requiresSecret: bool): (r: Keys)
    ensures provider !in r
    ensures requiresSecret ==> SecretName(provider) !in r
    ensures forall k :: k != provider && (requiresSecret ==> k != SecretName(provider)) ==>
      (k in r <==> k in keys) && (k in r ==> r[k] == keys[k])
  {
    var updated := keys - {provider};
    if requiresSecret then updated - {SecretName(provider)} else updated
  }

  /** Clearing undoes an edit of a key that was not there before. */
  lemma {:induction false} ClearUndoesFreshKey(keys: Keys, provider: string, value: string)
    requires provider !in keys
    ensures HandleClearKey(HandleKeyUpdate(keys, provider, value, false), provider, false) == keys
  {
    var r := HandleClearKey(HandleKeyUpdate(keys, provider, value, false), provider, false);
    assert forall k :: k in r <==> k in keys;
  }

  datatype KeyStatus = Configured | Partial | Missing

  /** `getKeyStatus`. A provider without a required secret counts as having
      its secret, so it is never `Missing`. */
  function GetKeyStatus(keys: Keys, provider: string, requiresSecret: bool): (s: KeyStatus)
    ensures s == Configured <==> IsProviderConfigured(keys, provider, requiresSecret)
    ensures s == Missing <==> requiresSecret && !HasValue(keys, provider) && !HasValue(keys, SecretName(provider))
    ensures !requiresSecret ==> s != Missing
    ensures !requiresSecret && !HasValue(keys, provider) ==> s == Partial
  {
    var hasKey := HasValue(keys, provider);
    var hasSecret := !requiresSecret || HasValue(keys, SecretName(provider));
    if hasKey && hasSecret then Configured
    else if hasKey || hasSecret then Partial
    else Missing
  }
}
