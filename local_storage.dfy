/** The device's persistent key-value store (MMKV) as used through
    `MMKVStore`: named entries holding strings. Values are kept as the
    strings the callers store; the JSON encoding `MMKVStore` wraps around
    them is not part of this model. */
module LocalStorage {
  import opened Wrappers

  /** `Key.keyPosts`: the entry naming the remote key of the last posts save. */
  const KEY_POSTS: string := "dnt_posts_key"

  class LocalStore {
    var entries: map<string, string>

    constructor ()
      ensures entries == map[]
    {
      entries := map[];
    }

    /** `MMKVStore.set`: overwrites one entry and no other. */
    method Set(name: string, value: string)
      modifies this
      ensures entries == old(entries)[name := value]
    {
      entries := entries[name := value];
    }

    /** `MMKVStore.get`: the stored value, or null when there is none. */
    function Get(name: string): (r: Option<string>)
      reads this
      ensures r.Some? <==> name in entries
      ensures r.Some? ==> r.value == entries[name]
    {
      if name in entries then Some(entries[name]) else None
    }

    /** `MMKVStore.remove`. */
    method Remove(name: string)
      modifies this
      ensures entries == old(entries) - {name}
    {
      entries := entries - {name};
    }
  }
}
