/** The integration's lifecycle hooks in `__init__.py`: migrating a version-1
    config entry, and keeping the per-domain map of entry data in `hass.data`. */
module Integration {
  import opened Wrappers

  const Domain := "azure_ai_tasks"
  const ChatModelKey := "chat_model"
  const DeprecatedChatModel := "gpt-35-turbo"

  /** A config entry: its id, its schema version, and its `data` and `options` maps. */
  class ConfigEntry {
    const entryId: string
    var version: int
    var data: map<string, string>
    var options: map<string, string>

    constructor(entryId: string, version: int, data: map<string, string>, options: map<string, string>)
      ensures this.entryId == entryId && this.version == version
      ensures this.data == data && this.options == options
    {
      this.entryId := entryId;
      this.version := version;
      this.data := data;
      this.options := options;
    }
  }

  /** A settings map with a `chat_model` of exactly `gpt-35-turbo` blanked. */
  function WithoutDeprecatedChatModel(m: map<string, string>): (r: map<string, string>)
    ensures r.Keys == m.Keys
    ensures forall k :: k in m && (k != ChatModelKey || m[k] != DeprecatedChatModel) ==> r[k] == m[k]
    ensures ChatModelKey in m && m[ChatModelKey] == DeprecatedChatModel ==> r[ChatModelKey] == ""
  {
    if ChatModelKey in m && m[ChatModelKey] == DeprecatedChatModel then m[ChatModelKey := ""] else m
  }

  /** Cleaning twice is cleaning once, and a cleaned map never names the deprecated model. */
  lemma CleaningIdempotent(m: map<string, string>)
    ensures WithoutDeprecatedChatModel(WithoutDeprecatedChatModel(m)) == WithoutDeprecatedChatModel(m)
    ensures var r := WithoutDeprecatedChatModel(m); ChatModelKey in r ==> r[ChatModelKey] != DeprecatedChatModel
  {
  }

  /** Whether cleaning changes a map: exactly when it names the deprecated model. */
  function NamesDeprecatedModel(m: map<string, string>): (b: bool)
    ensures b <==> WithoutDeprecatedChatModel(m) != m
  {
    assert ChatModelKey in m && m[ChatModelKey] == DeprecatedChatModel ==>
      WithoutDeprecatedChatModel(m)[ChatModelKey] != m[ChatModelKey];
    ChatModelKey in m && m[ChatModelKey] == DeprecatedChatModel
  }

  /** `async_migrate_entry`: a version-1 entry gets copies of its maps with the
      deprecated chat model blanked in each independently, and moves to version 2
      whether or not anything was blanked; an entry of any other version is left
      alone. It always reports success. `migrated` is the flag the source logs. */
  method MigrateEntry(entry: ConfigEntry) returns (ok: bool, migrated: bool)
    modifies entry
    ensures ok
    ensures old(entry.version) == 1 ==>
      && entry.version == 2
      && entry.data == WithoutDeprecatedChatModel(old(entry.data))
      && entry.options == WithoutDeprecatedChatModel(old(entry.options))
      && (migrated <==> NamesDeprecatedModel(old(entry.data)) || NamesDeprecatedModel(old(entry.options)))
    ensures old(entry.version) != 1 ==>
      entry.version == old(entry.version) && entry.data == old(entry.data)
      && entry.options == old(entry.options) && !migrated
  {
    migrated := false;
    if entry.version == 1 {
      var newData := entry.data;
      var newOptions := entry.options;
      if ChatModelKey in newData && newData[ChatModelKey] == DeprecatedChatModel {
        newData := newData[ChatModelKey := ""];
        migrated := true;
      }
      if ChatModelKey in newOptions && newOptions[ChatModelKey] == DeprecatedChatModel {
        newOptions := newOptions[ChatModelKey := ""];
        migrated := true;
      }
      entry.data := newData;
      entry.options := newOptions;
      entry.version := 2;
    }
    ok := true;
  }

  /** The per-entry data stored for each domain. */
  type DomainMap = map<string, map<string, map<string, string>>>

  /** `hass.data.setdefault(DOMAIN, {})` followed by `hass.data[DOMAIN][id] = data`. */
  function Stored(domains: DomainMap, id: string, data: map<string, string>): (r: DomainMap)
    ensures Domain in r && id in r[Domain] && r[Domain][id] == data
    ensures Domain in domains ==> r[Domain].Keys == domains[Domain].Keys + {id}
    ensures Domain !in domains ==> r[Domain].Keys == {id}
    ensures forall k :: k in r[Domain] && k != id ==> Domain in domains && r[Domain][k] == domains[Domain][k]
    ensures r.Keys == domains.Keys + {Domain}
    ensures forall d :: d in domains && d != Domain ==> r[d] == domains[d]
  {
    var entries := if Domain in domains then domains[Domain] else map[];
    domains[Domain := entries[id := data]]
  }

  /** `hass.data[DOMAIN].pop(id)`; `None` where the pop raises `KeyError`. */
  function Removed(domains: DomainMap, id: string): (r: Option<DomainMap>)
    ensures r.Some? <==> Domain in domains && id in domains[Domain]
    ensures r.Some? ==> Domain in r.value && r.value[Domain] == domains[Domain] - {id}
    ensures r.Some? ==> forall d :: d != Domain ==> (d in r.value <==> d in domains)
    ensures r.Some? ==> forall d :: d in domains && d != Domain ==> r.value[d] == domains[d]
  {
    if Domain in domains && id in domains[Domain] then Some(domains[Domain := domains[Domain] - {id}]) else None
  }

  /** Unloading right after setting up removes exactly what setup stored: the
      domain map is as before, and other entries are untouched. */
  lemma SetupThenUnload(domains: DomainMap, id: string, data: map<string, string>)
    requires Domain in domains && id !in domains[Domain]
    ensures Removed(Stored(domains, id, data), id) == Some(domains)
  {
    var r := Removed(Stored(domains, id, data), id).value;
    assert r[Domain] == domains[Domain];
    assert r == domains;
  }

  /** Setting up the first entry of the domain and unloading it leaves an empty domain map. */
  lemma FirstSetupThenUnload(domains: DomainMap, id: string, data: map<string, string>)
    requires Domain !in domains
    ensures Removed(Stored(domains, id, data), id) == Some(domains[Domain := map[]])
  {
    var r := Removed(Stored(domains, id, data), id).value;
    assert r[Domain] == map[];
    assert r == domains[Domain := map[]];
  }

  /** `hass.data`, as far as this integration touches it. */
  class HassData {
    var domains: DomainMap

    constructor(domains: DomainMap)
      ensures this.domains == domains
    {
      this.domains := domains;
    }

    /** `async_setup_entry` of the integration: store the entry's data under its id.
        Forwarding to the `ai_task` platform is the host's. */
    method SetupEntry(entry: ConfigEntry) returns (ok: bool)
      modifies this
      ensures ok
      ensures domains == Stored(old(domains), entry.entryId, entry.data)
    {
      if Domain !in domains {
        domains := domains[Domain := map[]];
      }
      domains := domains[Domain := domains[Domain][entry.entryId := entry.data]];
      ok := true;
    }

    /** `async_unload_entry`: the entry's data is dropped only when the platforms
        unloaded, and the platforms' result is returned; `None` where the pop
        raises `KeyError`. */
    method UnloadEntry(entry: ConfigEntry, platformsUnloaded: bool) returns (r: Option<bool>)
      modifies this
      ensures !platformsUnloaded ==> r == Some(false) && domains == old(domains)
      ensures platformsUnloaded && Removed(old(domains), entry.entryId).Some? ==>
        r == Some(true) && domains == Removed(old(domains), entry.entryId).value
      ensures platformsUnloaded && Removed(old(domains), entry.entryId).None? ==>
        r.None? && domains == old(domains)
    {
      if platformsUnloaded {
        if Domain in domains && entry.entryId in domains[Domain] {
          domains := domains[Domain := domains[Domain] - {entry.entryId}];
          r := Some(true);
        } else {
          r := None;
        }
      } else {
        r := Some(false);
      }
    }
  }
}
