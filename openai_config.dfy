/** The OpenAI key setting (src/config/openai.ts): read from `localStorage`
    when the module loads, replaced by `setOpenAIApiKey`. Outside a browser
    there is no store (`storage` is `null`); there the key stays at its
    default and `setOpenAIApiKey` does nothing. */
module OpenAIConfigModule {
  import opened Wrappers
  import opened Text
  import opened BrowserStorage

  /** The `localStorage` key of the setting. */
  const ApiKeyKey: string := "openai_api_key"

  /** `getLocalStorageItem(key, defaultValue)`: the default when there is no
      store, else the stored text read as in the Pinecone settings. */
  function ReadSetting(items: Option<map<string, string>>, key: string, defaultValue: string): string {
    if items.None? then defaultValue else StoredOr(Lookup(items.value, key), defaultValue)
  }

  /** What the store holds, `None` outside a browser. */
  function ItemsOf(storage: LocalStorage?): Option<map<string, string>>
    reads storage
  {
    if storage == null then None else Some(storage.items)
  }

  /** `OPENAI_CONFIG` and the store, as the module sees them. */
  class OpenAISettings {
    var apiKey: string
    const storage: LocalStorage?

    /** Module initialisation: the key is read with an empty default. */
    constructor (storage: LocalStorage?)
      ensures this.storage == storage
      ensures apiKey == ReadSetting(ItemsOf(storage), ApiKeyKey, "")
    {
      this.storage := storage;
      if storage == null {
        apiKey := "";
      } else {
        var stored := storage.GetItem(ApiKeyKey);
        apiKey := if stored.None? || stored.value == "" then "" else Trim(stored.value);
      }
    }

    /** `setOpenAIApiKey(key)`: outside a browser nothing happens; a write
        that throws is caught and leaves the key as it was; otherwise the
        trimmed key is stored and becomes the setting. */
    method SetOpenAIApiKey(key: string)
      modifies this, storage
      ensures storage != null ==> storage.failingKeys == old(storage.failingKeys)
      ensures storage == null || ApiKeyKey in storage.failingKeys ==>
        apiKey == old(apiKey) && (storage != null ==> storage.items == old(storage.items))
      ensures storage != null && ApiKeyKey !in storage.failingKeys ==>
        apiKey == Trim(key) && storage.items == old(storage.items)[ApiKeyKey := Trim(key)]
    {
      if storage == null {
        return;
      }
      var cleanKey := Trim(key);
      var ok := storage.SetItem(ApiKeyKey, cleanKey);
      if ok {
        apiKey := cleanKey;
      }
    }

    /** `getOpenAIApiKey()`. */
    method GetOpenAIApiKey() returns (key: string)
      ensures key == apiKey
    {
      key := apiKey;
    }
  }

  /** A key that was stored reads back as the setting it became: reloading
      the module after a successful `setOpenAIApiKey(key)` gives `key.trim()`. */
  lemma ReloadAfterSet(items: map<string, string>, key: string)
    ensures ReadSetting(Some(items[ApiKeyKey := Trim(key)]), ApiKeyKey, "") == Trim(key)
  {
    TrimIdempotent(key);
  }

  /** The setting never carries surrounding whitespace. */
  lemma SettingTrimmed(items: Option<map<string, string>>)
    ensures Trim(ReadSetting(items, ApiKeyKey, "")) == ReadSetting(items, ApiKeyKey, "")
  {
    TrimUntouched("");
    if items.Some? {
      StoredOrTrimmedValue(Lookup(items.value, ApiKeyKey), "");
    }
  }
}
