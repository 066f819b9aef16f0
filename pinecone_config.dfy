/** The Pinecone settings (src/config/pinecone.ts): five text fields read
    from `localStorage` when the module loads, updated field by field by
    `setPineconeConfig`, and checked by `isPineconeConfigValid` and
    `getPineconeConfigError`. */
module PineconeConfigModule {
  import opened Wrappers
  import opened Types
  import opened Text
  import opened BrowserStorage

  /** The default of `environment` when nothing usable is stored. */
  const DefaultEnvironment: string := "gcp-starter"

  const ApiKeyMissing: string := "Pinecone API key is missing. " + "Please configure it in settings."
  const IndexNameMissing: string := "Pinecone index name is missing. " + "Please configure it in settings."
  const ProjectIdMissing: string := "Pinecone project ID is missing. " + "Please configure it in settings."

  /** The five settings, in the order `setPineconeConfig` handles them. */
  datatype Field = ApiKey | Environment | IndexName | ProjectId | Namespace

  const Fields: seq<Field> := [ApiKey, Environment, IndexName, ProjectId, Namespace]

  /** The `localStorage` key each setting is mirrored under. */
  function StorageKey(f: Field): string {
    match f
    case ApiKey => "pinecone_api_key"
    case Environment => "pinecone_environment"
    case IndexName => "pinecone_index_name"
    case ProjectId => "pinecone_project_id"
    case Namespace => "pinecone_namespace"
  }

  /** Different settings live under different keys. */
  lemma StorageKeyInjective(f: Field, g: Field)
    requires f != g
    ensures StorageKey(f) != StorageKey(g)
  {
    // The keys differ at their tenth character.
    assert StorageKey(f)[9] != StorageKey(g)[9];
  }

  function DefaultFor(f: Field): string {
    if f == Environment then DefaultEnvironment else ""
  }

  function Get(c: PineconeConfig, f: Field): string {
    match f
    case ApiKey => c.apiKey
    case Environment => c.environment
    case IndexName => c.indexName
    case ProjectId => c.projectId
    case Namespace => c.namespace
  }

  function With(c: PineconeConfig, f: Field, value: string): (r: PineconeConfig)
    ensures Get(r, f) == value
    ensures forall g :: g != f ==> Get(r, g) == Get(c, g)
  {
    match f
    case ApiKey => c.(apiKey := value)
    case Environment => c.(environment := value)
    case IndexName => c.(indexName := value)
    case ProjectId => c.(projectId := value)
    case Namespace => c.(namespace := value)
  }

  function Supplied(update: PineconeConfigUpdate, f: Field): Option<string> {
    match f
    case ApiKey => update.apiKey
    case Environment => update.environment
    case IndexName => update.indexName
    case ProjectId => update.projectId
    case Namespace => update.namespace
  }

  /** `PINECONE_CONFIG` as the module computes it from the stored items. */
  function LoadPineconeConfig(items: map<string, string>): PineconeConfig {
    PineconeConfig(
      StoredOr(Lookup(items, StorageKey(ApiKey)), DefaultFor(ApiKey)),
      StoredOr(Lookup(items, StorageKey(Environment)), DefaultFor(Environment)),
      StoredOr(Lookup(items, StorageKey(IndexName)), DefaultFor(IndexName)),
      StoredOr(Lookup(items, StorageKey(ProjectId)), DefaultFor(ProjectId)),
      StoredOr(Lookup(items, StorageKey(Namespace)), DefaultFor(Namespace)))
  }

  /** Reading one setting of the loaded configuration. */
  lemma LoadGet(items: map<string, string>, f: Field)
    ensures Get(LoadPineconeConfig(items), f) == StoredOr(Lookup(items, StorageKey(f)), DefaultFor(f))
  {
  }

  /** Each loaded setting is its default when the key is missing or empty,
      and otherwise the stored text trimmed. */
  lemma LoadedField(items: map<string, string>, f: Field)
    ensures StorageKey(f) !in items || items[StorageKey(f)] == "" ==> Get(LoadPineconeConfig(items), f) == DefaultFor(f)
    ensures StorageKey(f) in items && items[StorageKey(f)] != "" ==> Get(LoadPineconeConfig(items), f) == Trim(items[StorageKey(f)])
  {
    LoadGet(items, f);
  }

  /** Either way a loaded setting has no surrounding whitespace. */
  lemma LoadedFieldTrimmed(items: map<string, string>, f: Field)
    ensures Trim(Get(LoadPineconeConfig(items), f)) == Get(LoadPineconeConfig(items), f)
  {
    LoadGet(items, f);
    DefaultTrimmed(f);
    StoredOrTrimmedValue(Lookup(items, StorageKey(f)), DefaultFor(f));
  }

  /** The defaults carry no surrounding whitespace. */
  lemma DefaultTrimmed(f: Field)
    ensures Trim(DefaultFor(f)) == DefaultFor(f)
  {
    if f == Environment {
      TrimUntouched(DefaultEnvironment);
    } else {
      TrimUntouched("");
    }
  }

  /** With nothing stored, the settings are blank except the environment. */
  lemma LoadEmpty()
    ensures LoadPineconeConfig(map[]) == PineconeConfig("", DefaultEnvironment, "", "", "")
  {
  }

  /** The settings and the stored items while an update runs; `ok` turns
      false when a write throws, and nothing happens after that. */
  datatype Progress = Progress(config: PineconeConfig, items: map<string, string>, ok: bool)

  /** One `if (config.x !== undefined)` block: trim, store, then set the
      field; a refused write throws before the field is set. */
  function Step(p: Progress, failingKeys: set<string>, f: Field, value: Option<string>): Progress {
    if !p.ok || value.None? then p
    else if StorageKey(f) in failingKeys then p.(ok := false)
    else
      var trimmed := Trim(value.value);
      Progress(With(p.config, f, trimmed), p.items[StorageKey(f) := trimmed], true)
  }

  /** The blocks for `fields`, in order. */
  function Apply(p: Progress, failingKeys: set<string>, update: PineconeConfigUpdate, fields: seq<Field>): Progress
    decreases |fields|
  {
    if fields == [] then p
    else Apply(Step(p, failingKeys, fields[0], Supplied(update, fields[0])), failingKeys, update, fields[1..])
  }

  /** A write is attempted for `f` and refused. */
  predicate Refused(failingKeys: set<string>, update: PineconeConfigUpdate, f: Field) {
    Supplied(update, f).Some? && StorageKey(f) in failingKeys
  }

  /** A stopped update stays stopped. */
  lemma {:induction false} ApplyStopped(p: Progress, failingKeys: set<string>, update: PineconeConfigUpdate, fields: seq<Field>)
    requires !p.ok
    ensures Apply(p, failingKeys, update, fields) == p
    decreases |fields|
  {
    if fields != [] {
      ApplyStopped(Step(p, failingKeys, fields[0], Supplied(update, fields[0])), failingKeys, update, fields[1..]);
    }
  }

  /** The update completes exactly when none of the writes it attempts is
      refused. */
  lemma {:induction false} ApplyOk(p: Progress, failingKeys: set<string>, update: PineconeConfigUpdate, fields: seq<Field>)
    requires p.ok
    ensures Apply(p, failingKeys, update, fields).ok
        <==> forall i :: 0 <= i < |fields| ==> !Refused(failingKeys, update, fields[i])
    decreases |fields|
  {
    if fields != [] {
      var q := Step(p, failingKeys, fields[0], Supplied(update, fields[0]));
      if q.ok {
        ApplyOk(q, failingKeys, update, fields[1..]);
        assert forall i :: 1 <= i < |fields| ==> fields[i] == fields[1..][i - 1];
      } else {
        ApplyStopped(q, failingKeys, update, fields[1..]);
      }
    }
  }

  /** When the write for `fields[j]` is the first one refused, the update
      stops there: the settings before it keep their new values and the
      ones after it are not touched. */
  lemma {:induction false} ApplyRefused(p: Progress, failingKeys: set<string>, update: PineconeConfigUpdate,
                                        fields: seq<Field>, j: nat)
    requires p.ok && j < |fields| && Refused(failingKeys, update, fields[j])
    requires forall i :: 0 <= i < j ==> !Refused(failingKeys, update, fields[i])
    ensures Apply(p, failingKeys, update, fields) == Apply(p, failingKeys, update, fields[..j]).(ok := false)
    decreases j
  {
    var q := Step(p, failingKeys, fields[0], Supplied(update, fields[0]));
    if j == 0 {
      ApplyStopped(q, failingKeys, update, fields[1..]);
    } else {
      assert !Refused(failingKeys, update, fields[0]);
      var rest := fields[1..];
      assert q.ok;
      assert rest[j - 1] == fields[j];
      forall i | 0 <= i < j - 1 ensures !Refused(failingKeys, update, rest[i]) {
        assert rest[i] == fields[i + 1];
      }
      ApplyRefused(q, failingKeys, update, rest, j - 1);
      var before := fields[..j];
      assert before[0] == fields[0] && before[1..] == rest[..j - 1];
      assert Apply(p, failingKeys, update, before) == Apply(q, failingKeys, update, rest[..j - 1]);
    }
  }

  /** What the progress holds for one setting: its value in the settings
      and what its key reads in the store. */
  function View(p: Progress, f: Field): (string, Option<string>) {
    (Get(p.config, f), Lookup(p.items, StorageKey(f)))
  }

  /** A completed block for `g` leaves every other setting as it was and
      puts the trimmed value in `g` and under `g`'s key. */
  lemma StepView(p: Progress, failingKeys: set<string>, g: Field, value: Option<string>, f: Field)
    requires Step(p, failingKeys, g, value).ok
    ensures View(Step(p, failingKeys, g, value), f)
         == if g == f && value.Some? then (Trim(value.value), Some(Trim(value.value))) else View(p, f)
  {
    if g != f && value.Some? {
      StorageKeyInjective(g, f);
    }
  }

  /** When the update completes, every supplied setting holds its trimmed
      value, in the settings and under its key, and every other setting
      and key is untouched. */
  lemma {:induction false} ApplyCompleted(p: Progress, failingKeys: set<string>, update: PineconeConfigUpdate,
                                          fields: seq<Field>, f: Field)
    requires Apply(p, failingKeys, update, fields).ok
    ensures View(Apply(p, failingKeys, update, fields), f)
         == if f in fields && Supplied(update, f).Some?
            then (Trim(Supplied(update, f).value), Some(Trim(Supplied(update, f).value)))
            else View(p, f)
    decreases |fields|
  {
    if fields == [] {
    } else {
      var q := Step(p, failingKeys, fields[0], Supplied(update, fields[0]));
      if !q.ok {
        ApplyStopped(q, failingKeys, update, fields[1..]);
      } else {
        ApplyCompleted(q, failingKeys, update, fields[1..], f);
        StepView(p, failingKeys, fields[0], Supplied(update, fields[0]), f);
        assert f in fields <==> f == fields[0] || f in fields[1..];
      }
    }
  }

  /** `PINECONE_CONFIG` and `localStorage`, as the module sees them. */
  class PineconeSettings {
    var config: PineconeConfig
    const storage: LocalStorage

    /** Module initialisation. */
    constructor (storage: LocalStorage)
      ensures this.storage == storage
      ensures config == LoadPineconeConfig(storage.items)
    {
      this.storage := storage;
      config := LoadPineconeConfig(storage.items);
    }

    /** One block of `setPineconeConfig`. */
    method SetField(f: Field, value: Option<string>) returns (ok: bool)
      modifies this, storage
      ensures storage.failingKeys == old(storage.failingKeys)
      ensures Progress(config, storage.items, ok)
           == Step(Progress(old(config), old(storage.items), true), storage.failingKeys, f, value)
    {
      ok := true;
      if value.Some? {
        var trimmed := Trim(value.value);
        ok := storage.SetItem(StorageKey(f), trimmed);
        if ok {
          config := With(config, f, trimmed);
        }
      }
    }

    /** `setPineconeConfig(update)`; `ok` is false when a write threw, and
        the settings handled before it keep their new values. */
    method SetPineconeConfig(update: PineconeConfigUpdate) returns (ok: bool)
      modifies this, storage
      ensures storage.failingKeys == old(storage.failingKeys)
      ensures Progress(config, storage.items, ok)
           == Apply(Progress(old(config), old(storage.items), true), storage.failingKeys, update, Fields)
    {
      ghost var p0 := Progress(config, storage.items, true);
      ok := SetField(ApiKey, update.apiKey);
      if ok {
        ok := SetField(Environment, update.environment);
      }
      if ok {
        ok := SetField(IndexName, update.indexName);
      }
      if ok {
        ok := SetField(ProjectId, update.projectId);
      }
      if ok {
        ok := SetField(Namespace, update.namespace);
      }
      ApplyUnfold(p0, storage.failingKeys, update);
    }
  }

  /** `Apply` over the five settings is the five blocks in a row. */
  lemma ApplyUnfold(p: Progress, failingKeys: set<string>, update: PineconeConfigUpdate)
    ensures Apply(p, failingKeys, update, Fields)
         == Step(Step(Step(Step(Step(p, failingKeys, ApiKey, update.apiKey),
                                failingKeys, Environment, update.environment),
                           failingKeys, IndexName, update.indexName),
                      failingKeys, ProjectId, update.projectId),
                 failingKeys, Namespace, update.namespace)
  {
    assert Fields[1..][1..][1..][1..][1..] == [];
  }

  /** When the update completes and the settings agreed with the stored
      items before it, reloading the module from the store gives the new
      settings back, except that an environment set to blanks reloads as
      the default. */
  lemma ReloadAfterUpdate(config: PineconeConfig, items: map<string, string>, failingKeys: set<string>,
                          update: PineconeConfigUpdate)
    requires config == LoadPineconeConfig(items)
    requires Apply(Progress(config, items, true), failingKeys, update, Fields).ok
    ensures var r := Apply(Progress(config, items, true), failingKeys, update, Fields);
      LoadPineconeConfig(r.items)
        == if Supplied(update, Environment).Some? && Trim(Supplied(update, Environment).value) == ""
           then r.config.(environment := DefaultEnvironment)
           else r.config
  {
    var p := Progress(config, items, true);
    var r := Apply(p, failingKeys, update, Fields);
    forall f: Field
      ensures Get(LoadPineconeConfig(r.items), f)
           == if f == Environment && Supplied(update, f).Some? && Trim(Supplied(update, f).value) == ""
              then DefaultEnvironment else Get(r.config, f)
    {
      EveryField(f);
      ApplyCompleted(p, failingKeys, update, Fields, f);
      LoadGet(r.items, f);
      if Supplied(update, f).Some? {
        StoredOrTrimmed(Supplied(update, f).value, DefaultFor(f));
      } else {
        LoadGet(items, f);
      }
    }
    // `Get` of every field determines the whole record.
    var l := LoadPineconeConfig(r.items);
    assert Get(l, ApiKey) == l.apiKey && Get(l, Environment) == l.environment && Get(l, IndexName) == l.indexName;
    assert Get(l, ProjectId) == l.projectId && Get(l, Namespace) == l.namespace;
  }

  /** `setPineconeConfig` handles every setting. */
  lemma EveryField(f: Field)
    ensures f in Fields
  {
    match f
    case ApiKey => assert Fields[0] == f;
    case Environment => assert Fields[1] == f;
    case IndexName => assert Fields[2] == f;
    case ProjectId => assert Fields[3] == f;
    case Namespace => assert Fields[4] == f;
  }

  /** `!!s && s.trim() !== ''`. */
  predicate Present(s: string) {
    s != "" && Trim(s) != ""
  }

  /** A setting is present exactly when it is not all whitespace; the
      emptiness test is subsumed by the trim test. */
  lemma PresentIff(s: string)
    ensures Present(s) <==> Trim(s) != ""
    ensures Present(s) <==> !AllWhitespace(s)
  {
    TrimEmptyIff(s);
  }

  /** `isPineconeConfigValid()` for the settings `c`. */
  predicate IsPineconeConfigValid(c: PineconeConfig) {
    Present(c.apiKey) && Present(c.indexName) && Present(c.projectId)
  }

  /** `getPineconeConfigError()` for the settings `c`: the first missing
      setting, checked in the order API key, index name, project ID. */
  function GetPineconeConfigError(c: PineconeConfig): Option<string> {
    if !Present(c.apiKey) then Some(ApiKeyMissing)
    else if !Present(c.indexName) then Some(IndexNameMissing)
    else if !Present(c.projectId) then Some(ProjectIdMissing)
    else None
  }

  /** There is an error message exactly when the settings are not valid,
      and it names the first missing setting. */
  lemma ConfigErrorMatchesValidity(c: PineconeConfig)
    ensures GetPineconeConfigError(c).None? <==> IsPineconeConfigValid(c)
    ensures GetPineconeConfigError(c) == Some(ApiKeyMissing) <==> !Present(c.apiKey)
    ensures GetPineconeConfigError(c) == Some(IndexNameMissing) <==> Present(c.apiKey) && !Present(c.indexName)
    ensures GetPineconeConfigError(c) == Some(ProjectIdMissing)
        <==> Present(c.apiKey) && Present(c.indexName) && !Present(c.projectId)
  {
    MessagesDistinct();
  }

  /** The three messages differ. */
  lemma MessagesDistinct()
    ensures ApiKeyMissing != IndexNameMissing
    ensures ApiKeyMissing != ProjectIdMissing
    ensures IndexNameMissing != ProjectIdMissing
  {
    assert ApiKeyMissing[9] == 'A' && IndexNameMissing[9] == 'i' && ProjectIdMissing[9] == 'p';
  }

  /** The environment and the namespace play no part in the checks. */
  lemma ValidityIgnoresEnvironment(c: PineconeConfig, environment: string, namespace: string)
    ensures IsPineconeConfigValid(c.(environment := environment, namespace := namespace)) == IsPineconeConfigValid(c)
    ensures GetPineconeConfigError(c.(environment := environment, namespace := namespace)) == GetPineconeConfigError(c)
  {
  }
}
