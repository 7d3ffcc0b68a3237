/**
 * Configuration documents, the recursive merge `_deep_update` and the defaulting
 * accessors (extensions/attention_alert/config.py). Documents are values; reading
 * the YAML file and the environment is not part of this model.
 */
module Config {
  import opened Wrappers

  /** A configuration value, as YAML produces it. */
  datatype Value =
    | Bool(b: bool)
    | Int(i: int)
    | Str(s: string)
    | List(items: seq<Value>)
    | Dict(entries: map<string, Value>)

  /** A mapping at one level of a configuration document. */
  type Doc = map<string, Value>

  /** `d.get(k, {})`. */
  function Lookup(d: Doc, k: string): Value {
    if k in d then d[k] else Dict(map[])
  }

  /** `_deep_update(d, u)` runs to completion: wherever `u` holds a non-empty mapping, the
      target at that place is itself a mapping (or absent). Otherwise Python raises a
      `TypeError`/`AttributeError` on the item assignment or on `.get`. */
  predicate Mergeable(d: Value, u: Doc)
    decreases Dict(u)
  {
    if d.Dict? then
      forall k :: k in u && u[k].Dict? ==> Mergeable(Lookup(d.entries, k), u[k].entries)
    else
      u == map[]
  }

  /** The document `_deep_update(d, u)` returns: every key of `u` overrides, mappings
      recursively, and every other key of `d` stays. */
  function Merged(d: Value, u: Doc): Value
    requires Mergeable(d, u)
    decreases Dict(u), 1
  {
    if !d.Dict? then d
    else Dict(map k | k in d.entries.Keys + u.Keys :: MergedEntry(d.entries, u, k))
  }

  /** The entry for key `k` after merging `u` into the mapping `d`. */
  function MergedEntry(d: Doc, u: Doc, k: string): Value
    requires k in d || k in u
    requires Mergeable(Dict(d), u)
    decreases Dict(u), 0
  {
    if k !in u then d[k]
    else if u[k].Dict? then Merged(Lookup(d, k), u[k].entries)
    else u[k]
  }

  /** `Config._deep_update(d, u)`: merges `u` into `d` key by key and returns the
      result, or fails where Python raises. */
  method DeepUpdate(d: Value, u: Doc) returns (r: Result<Value>)
    ensures Mergeable(d, u) ==> r == Ok(Merged(d, u))
    ensures !Mergeable(d, u) ==> r.Err?
    decreases Dict(u)
  {
    if !d.Dict? {
      if u == map[] {
        return Ok(d);
      }
      return Err("TypeError: object does not support item assignment");
    }
    var acc := d.entries;
    var todo := u.Keys;
    while todo != {}
      invariant todo <= u.Keys
      invariant forall k :: k in u.Keys - todo && u[k].Dict? ==> Mergeable(Lookup(d.entries, k), u[k].entries)
      invariant acc.Keys == d.entries.Keys + (u.Keys - todo)
      invariant forall k :: k in acc ==>
                  acc[k] == if k in u.Keys - todo then DoneEntry(d.entries, u, k) else d.entries[k]
      decreases todo
    {
      var k :| k in todo;
      var v := u[k];
      if v.Dict? {
        assert Lookup(acc, k) == Lookup(d.entries, k);
        var sub := DeepUpdate(Lookup(acc, k), v.entries);
        if sub.Err? {
          return Err(sub.error);
        }
        acc := acc[k := sub.value];
      } else {
        acc := acc[k := v];
      }
      todo := todo - {k};
    }
    assert Mergeable(d, u);
    assert acc == Merged(d, u).entries;
    return Ok(Dict(acc));
  }

  /** The entry a finished key `k` ends up with (the loop's view of `MergedEntry`). */
  ghost function DoneEntry(d: Doc, u: Doc, k: string): Value
    requires k in u
    requires u[k].Dict? ==> Mergeable(Lookup(d, k), u[k].entries)
  {
    if u[k].Dict? then Merged(Lookup(d, k), u[k].entries) else u[k]
  }

  /** Keys of `d` that `u` does not mention are unchanged; every non-mapping value of
      `u` overwrites; the merged key set is the union of both key sets. */
  lemma MergedEntries(d: Value, u: Doc)
    requires d.Dict? && Mergeable(d, u)
    ensures Merged(d, u).Dict?
    ensures Merged(d, u).entries.Keys == d.entries.Keys + u.Keys
    ensures forall k :: k in d.entries && k !in u ==> Merged(d, u).entries[k] == d.entries[k]
    ensures forall k :: k in u && !u[k].Dict? ==> Merged(d, u).entries[k] == u[k]
    ensures forall k :: k in u && u[k].Dict? ==> Merged(d, u).entries[k] == Merged(Lookup(d.entries, k), u[k].entries)
  {
  }

  /** Mappings of `u` are merged recursively into `d.get(k, {})`, so the key set is the
      union of both key sets at the next level too. */
  lemma {:induction false} MergedNestedKeys(d: Value, u: Doc, k: string)
    requires d.Dict? && Mergeable(d, u)
    requires k in u && u[k].Dict? && Lookup(d.entries, k).Dict?
    ensures Merged(d, u).entries[k].Dict?
    ensures Merged(d, u).entries[k].entries.Keys == Lookup(d.entries, k).entries.Keys + u[k].entries.Keys
  {
    MergedEntries(d, u);
    MergedEntries(Lookup(d.entries, k), u[k].entries);
  }

  /** A target that is not a mapping survives an empty mapping unchanged and makes any
      non-empty one fail. */
  lemma MergeIntoNonMapping(d: Value, u: Doc)
    requires !d.Dict?
    ensures Mergeable(d, u) <==> u == map[]
    ensures u == map[] ==> Merged(d, u) == d
  {
  }

  /** Merging twice with the same update equals merging once. */
  lemma {:induction false} MergeIdempotent(d: Value, u: Doc)
    requires Mergeable(d, u)
    ensures Mergeable(Merged(d, u), u)
    ensures Merged(Merged(d, u), u) == Merged(d, u)
    decreases Dict(u)
  {
    if d.Dict? {
      var m := Merged(d, u);
      MergedEntries(d, u);
      forall k | k in u && u[k].Dict?
        ensures Mergeable(Lookup(m.entries, k), u[k].entries)
        ensures Merged(Lookup(m.entries, k), u[k].entries) == m.entries[k]
      {
        MergeIdempotent(Lookup(d.entries, k), u[k].entries);
        assert Lookup(m.entries, k) == m.entries[k] == Merged(Lookup(d.entries, k), u[k].entries);
      }
      assert Mergeable(m, u);
      MergedEntries(m, u);
      var m2 := Merged(m, u);
      assert m2.entries.Keys == m.entries.Keys;
      forall k | k in m.entries ensures m2.entries[k] == m.entries[k] {
      }
      assert m2.entries == m.entries;
    }
  }

  /** `self._data.get(key, default)`. */
  function Get(cfg: Doc, key: string, default: Value): Value {
    if key in cfg then cfg[key] else default
  }

  /** The property accessors of `Config`, each with its default. */
  function Enabled(cfg: Doc): Value { Get(cfg, "enabled", Bool(true)) }
  function CooldownSeconds(cfg: Doc): Value { Get(cfg, "cooldown_seconds", Int(10)) }
  function StallTimeoutSeconds(cfg: Doc): Value { Get(cfg, "stall_timeout_seconds", Int(30)) }
  function BackendsSection(cfg: Doc): Value { Get(cfg, "backends", Dict(map[])) }
  function EscalationSection(cfg: Doc): Value { Get(cfg, "escalation", List([])) }
  function HistorySection(cfg: Doc): Value { Get(cfg, "history", Dict(map[])) }

  /** On a document that lacks the keys, the accessors give their defaults. */
  lemma AccessorDefaults(cfg: Doc)
    requires cfg.Keys !! {"enabled", "cooldown_seconds", "stall_timeout_seconds", "backends", "escalation", "history"}
    ensures Enabled(cfg) == Bool(true)
    ensures CooldownSeconds(cfg) == Int(10)
    ensures StallTimeoutSeconds(cfg) == Int(30)
    ensures BackendsSection(cfg) == Dict(map[])
    ensures EscalationSection(cfg) == List([])
    ensures HistorySection(cfg) == Dict(map[])
  {
    assert "enabled" !in cfg && "cooldown_seconds" !in cfg && "stall_timeout_seconds" !in cfg;
    assert "backends" !in cfg && "escalation" !in cfg && "history" !in cfg;
  }

  /** One escalation rule of the default document. */
  function RuleEntry(delay: int, key: string, target: string): Value {
    Dict(map["delay_seconds" := Int(delay), key := Str(target)])
  }

  /** `DEFAULT_CONFIG`. */
  const DefaultConfig: Doc := map[
    "enabled" := Bool(true),
    "cooldown_seconds" := Int(10),
    "stall_timeout_seconds" := Int(30),
    "backends" := Dict(map[
      "audio" := Dict(map["enabled" := Bool(true)]),
      "desktop" := Dict(map["enabled" := Bool(true)]),
      "webhook" := Dict(map["enabled" := Bool(false), "url" := Str(""), "secret" := Str("")])
    ]),
    "escalation" := List([
      RuleEntry(0, "backend", "audio"),
      RuleEntry(30, "backend", "desktop"),
      RuleEntry(120, "backend", "webhook"),
      RuleEntry(600, "action", "auto_pause")
    ]),
    "history" := Dict(map[
      "enabled" := Bool(true),
      "db_path" := Str("notifications.db"),
      "retention_days" := Int(30)
    ])
  ]

  /** A user document merged over the defaults keeps each default it does not mention;
      a scalar or a list it gives replaces the default outright; a mapping it gives for a
      section (`backends`, `history`) keeps the section's defaults it does not mention
      and replaces those it gives as scalars or lists. The named accessors are instances. */
  lemma {:induction false} OverridesKeepDefaults(u: Doc)
    requires Mergeable(Dict(DefaultConfig), u)
    ensures Merged(Dict(DefaultConfig), u).Dict?
    ensures Merged(Dict(DefaultConfig), u).entries.Keys == DefaultConfig.Keys + u.Keys
    ensures forall k :: k in DefaultConfig && k !in u ==> Merged(Dict(DefaultConfig), u).entries[k] == DefaultConfig[k]
    ensures forall k :: k in u && !u[k].Dict? ==> Merged(Dict(DefaultConfig), u).entries[k] == u[k]
    ensures forall k, j :: k in DefaultConfig && DefaultConfig[k].Dict? && k in u && u[k].Dict? &&
                           j in DefaultConfig[k].entries && j !in u[k].entries ==>
              Merged(Dict(DefaultConfig), u).entries[k].Dict? &&
              j in Merged(Dict(DefaultConfig), u).entries[k].entries &&
              Merged(Dict(DefaultConfig), u).entries[k].entries[j] == DefaultConfig[k].entries[j]
    ensures forall k, j :: k in DefaultConfig && DefaultConfig[k].Dict? && k in u && u[k].Dict? &&
                           j in u[k].entries && !u[k].entries[j].Dict? ==>
              Merged(Dict(DefaultConfig), u).entries[k].Dict? &&
              j in Merged(Dict(DefaultConfig), u).entries[k].entries &&
              Merged(Dict(DefaultConfig), u).entries[k].entries[j] == u[k].entries[j]
    ensures "cooldown_seconds" !in u ==> CooldownSeconds(Merged(Dict(DefaultConfig), u).entries) == Int(10)
    ensures "stall_timeout_seconds" !in u ==> StallTimeoutSeconds(Merged(Dict(DefaultConfig), u).entries) == Int(30)
    ensures "enabled" !in u ==> Enabled(Merged(Dict(DefaultConfig), u).entries) == Bool(true)
    ensures "escalation" !in u ==> EscalationSection(Merged(Dict(DefaultConfig), u).entries) == DefaultConfig["escalation"]
    ensures "cooldown_seconds" in u && !u["cooldown_seconds"].Dict? ==>
              CooldownSeconds(Merged(Dict(DefaultConfig), u).entries) == u["cooldown_seconds"]
    ensures "escalation" in u && u["escalation"].List? ==>
              EscalationSection(Merged(Dict(DefaultConfig), u).entries) == u["escalation"]
  {
    MergedEntries(Dict(DefaultConfig), u);
    forall k | k in DefaultConfig && DefaultConfig[k].Dict? && k in u && u[k].Dict?
      ensures Merged(Dict(DefaultConfig), u).entries[k] == Merged(DefaultConfig[k], u[k].entries)
      ensures Merged(DefaultConfig[k], u[k].entries).Dict?
      ensures forall j :: j in DefaultConfig[k].entries && j !in u[k].entries ==>
                j in Merged(DefaultConfig[k], u[k].entries).entries &&
                Merged(DefaultConfig[k], u[k].entries).entries[j] == DefaultConfig[k].entries[j]
      ensures forall j :: j in u[k].entries && !u[k].entries[j].Dict? ==>
                j in Merged(DefaultConfig[k], u[k].entries).entries &&
                Merged(DefaultConfig[k], u[k].entries).entries[j] == u[k].entries[j]
    {
      assert Lookup(DefaultConfig, k) == DefaultConfig[k];
      MergedEntries(DefaultConfig[k], u[k].entries);
    }
  }
}
