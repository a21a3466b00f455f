/** The per-invocation state store (`core.saveState` / `core.getState`) and the
    two state names src/cache.ts uses. */
module StateStore {

  type Store = map<string, string>

  /** `STATE_CACHE_PRIMARY_KEY`: the primary key `restore` computed. */
  const CachePrimaryKey: string := "cache-primary-key"
  /** `CACHE_MATCHED_KEY`: the key the backend restored from, if any. */
  const CacheMatchedKey: string := "cache-matched-key"

  /** `core.getState`: a name never written reads as the empty string. */
  function GetState(s: Store, name: string): (v: string)
  {
    if name in s then s[name] else ""
  }

  /** The two names differ, so recording the primary key never clobbers the
      matched key. */
  lemma NamesDistinct()
    ensures CachePrimaryKey != CacheMatchedKey
  {
  }
}
