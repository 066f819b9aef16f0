/** The browser's `localStorage`, as the two configuration files use it: a
    string-to-string store whose writes can throw (a full quota, storage
    switched off). Which keys refuse a write is part of the store's state
    and is chosen by the caller. */
module BrowserStorage {
  import opened Wrappers
  import opened Text

  class LocalStorage {
    var items: map<string, string>
    /** Keys whose `setItem` throws. */
    var failingKeys: set<string>

    constructor (items: map<string, string>, failingKeys: set<string>)
      ensures this.items == items && this.failingKeys == failingKeys
    {
      this.items := items;
      this.failingKeys := failingKeys;
    }

    /** `getItem(key)`: the stored text, or `null` for a missing key. */
    method GetItem(key: string) returns (value: Option<string>)
      ensures value == Lookup(items, key)
      ensures value.Some? <==> key in items
    {
      if key in items {
        value := Some(items[key]);
      } else {
        value := None;
      }
    }

    /** `setItem(key, value)`: stores the text, or throws (`ok` false) and
        leaves the store as it was. */
    method SetItem(key: string, value: string) returns (ok: bool)
      modifies this
      ensures failingKeys == old(failingKeys)
      ensures ok <==> key !in failingKeys
      ensures items == if ok then old(items)[key := value] else old(items)
    {
      if key in failingKeys {
        ok := false;
      } else {
        items := items[key := value];
        ok := true;
      }
    }
  }

  /** What `getItem` returns for a store holding `items`. */
  function Lookup(items: map<string, string>, key: string): (value: Option<string>)
    ensures value.Some? <==> key in items
    ensures value.Some? ==> value.value == items[key]
  {
    if key in items then Some(items[key]) else None
  }

  /** `value ? value.trim() : defaultValue`: a missing or empty text gives
      the default, anything else is trimmed (so a text of blanks gives ""). */
  function StoredOr(value: Option<string>, defaultValue: string): string {
    if value.None? || value.value == "" then defaultValue else Trim(value.value)
  }

  /** The three outcomes of reading a setting. */
  lemma StoredOrCases(value: Option<string>, defaultValue: string)
    ensures value.None? ==> StoredOr(value, defaultValue) == defaultValue
    ensures value == Some("") ==> StoredOr(value, defaultValue) == defaultValue
    ensures value.Some? && value.value != "" ==>
      StoredOr(value, defaultValue) == Trim(value.value)
      && (StoredOr(value, defaultValue) == "" <==> AllWhitespace(value.value))
  {
    if value.Some? {
      TrimEmptyIff(value.value);
    }
  }

  /** With a default free of surrounding whitespace, what is read is free
      of it too. */
  lemma StoredOrTrimmedValue(value: Option<string>, defaultValue: string)
    requires Trim(defaultValue) == defaultValue
    ensures Trim(StoredOr(value, defaultValue)) == StoredOr(value, defaultValue)
  {
    if value.Some? && value.value != "" {
      TrimIdempotent(value.value);
    }
  }

  /** Reading back a trimmed text gives the text itself, except that an
      empty text reads back as the default. */
  lemma StoredOrTrimmed(text: string, defaultValue: string)
    ensures StoredOr(Some(Trim(text)), defaultValue) == if Trim(text) == "" then defaultValue else Trim(text)
  {
    TrimIdempotent(text);
  }
}
