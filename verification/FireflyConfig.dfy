/** Firefly settings: flat keys and their namespace, the migration between them, and the settings update. */
module FireflyConfig {
  import opened Sequences

  /** A configuration value: an object or anything else, written as text. */
  datatype Value = Plain(text: string) | Object(fields: map<string, Value>)

  type Root = map<string, Value>

  const PREFIX := "firefly_"

  const FLAT_KEYS: seq<string> := [
    "firefly_enabled", "firefly_poll_interval_sec", "firefly_gen_timeout_sec", "firefly_retry_max_attempts",
    "firefly_refresh_interval_hours", "firefly_default_model", "firefly_video_enabled",
    "firefly_video_poll_interval_sec", "firefly_video_timeout_sec", "firefly_video_default_model"]

  /** The name of a key inside the namespace: without the prefix. */
  function Name(key: string): string {
    if PREFIX <= key then key[|PREFIX|..] else key
  }

  lemma FlatKeysHavePrefix(key: string)
    requires key in FLAT_KEYS
    ensures PREFIX <= key
  {
    var i :| 0 <= i < |FLAT_KEYS| && FLAT_KEYS[i] == key;
    assert PREFIX <= FLAT_KEYS[i];
  }

  lemma NamesDiffer(a: string, b: string)
    requires a in FLAT_KEYS && b in FLAT_KEYS && Name(a) == Name(b)
    ensures a == b
  {
    FlatKeysHavePrefix(a);
    FlatKeysHavePrefix(b);
    assert a == PREFIX + Name(a) && b == PREFIX + Name(b);
  }

  function FieldsOf(v: Option<Value>): map<string, Value> {
    if v.Some? && v.value.Object? then v.value.fields else map[]
  }

  function Get(m: map<string, Value>, key: string): Option<Value> {
    if key in m then Some(m[key]) else None
  }

  function Channels(root: Root): map<string, Value> {
    FieldsOf(Get(root, "channels"))
  }

  /** `_channels_firefly_dict`. */
  function Nested(root: Root): map<string, Value> {
    FieldsOf(Get(Channels(root), "firefly"))
  }

  /** `_firefly_config_value`: the namespace, then the flat key, then the default. */
  function Effective(root: Root, key: string, default: Value): Value {
    if Name(key) in Nested(root) then Nested(root)[Name(key)]
    else if key in root then root[key]
    else default
  }

  function WithNested(root: Root, nested: map<string, Value>): Root {
    root["channels" := Object(Channels(root)["firefly" := Object(nested)])]
  }

  lemma NestedOfWith(root: Root, nested: map<string, Value>)
    ensures Nested(WithNested(root, nested)) == nested
    ensures forall k :: k != "channels" ==> Get(WithNested(root, nested), k) == Get(root, k)
    ensures forall k :: k != "firefly" ==> Get(Channels(WithNested(root, nested)), k) == Get(Channels(root), k)
  {
  }

  // ---- Migration ----

  predicate HasFlat(root: Root) {
    exists k :: k in FLAT_KEYS && k in root
  }

  /** The namespace after the first `n` flat keys are taken over; fields that exist are not overwritten. */
  function Filled(root: Root, nested: map<string, Value>, n: nat): map<string, Value>
    requires n <= |FLAT_KEYS|
  {
    if n == 0 then nested
    else
      var so := Filled(root, nested, n - 1);
      var key := FLAT_KEYS[n - 1];
      if key in root && Name(key) !in so then so[Name(key) := root[key]] else so
  }

  function AllFilled(root: Root): map<string, Value> {
    Filled(root, Nested(root), |FLAT_KEYS|)
  }

  function Dropped(root: Root): Root {
    map k | k in root && k !in FLAT_KEYS :: root[k]
  }

  /** `migrate_firefly_flat_keys_to_namespace`. */
  function Migrated(root: Root, drop: bool): Root {
    if !HasFlat(root) && Nested(root) == map[] then root
    else
      var next := if AllFilled(root) != Nested(root) then WithNested(root, AllFilled(root)) else root;
      if drop then Dropped(next) else next
  }

  lemma {:induction false} FilledKeepsNested(root: Root, nested: map<string, Value>, n: nat, k: string)
    requires n <= |FLAT_KEYS| && k in nested
    ensures k in Filled(root, nested, n) && Filled(root, nested, n)[k] == nested[k]
  {
    if n > 0 {
      FilledKeepsNested(root, nested, n - 1, k);
    }
  }

  /** What the loop puts into the namespace comes from the flat key of that name. */
  lemma {:induction false} FilledFromFlat(root: Root, nested: map<string, Value>, n: nat, key: string)
    requires n <= |FLAT_KEYS| && key in FLAT_KEYS && Name(key) !in nested && Name(key) in Filled(root, nested, n)
    ensures key in root && Filled(root, nested, n)[Name(key)] == root[key]
  {
    var last := FLAT_KEYS[n - 1];
    if Name(key) in Filled(root, nested, n - 1) {
      FilledFromFlat(root, nested, n - 1, key);
    } else {
      NamesDiffer(last, key);
    }
  }

  lemma {:induction false} FilledHasFlat(root: Root, nested: map<string, Value>, n: nat, i: nat)
    requires i < n <= |FLAT_KEYS| && FLAT_KEYS[i] in root
    ensures Name(FLAT_KEYS[i]) in Filled(root, nested, n)
  {
    if i < n - 1 {
      FilledHasFlat(root, nested, n - 1, i);
    }
  }

  lemma FilledExactly(root: Root, nested: map<string, Value>, key: string)
    requires key in FLAT_KEYS
    ensures var all := Filled(root, nested, |FLAT_KEYS|);
            Get(all, Name(key)) == if Name(key) in nested then Some(nested[Name(key)]) else Get(root, key)
  {
    var i :| 0 <= i < |FLAT_KEYS| && FLAT_KEYS[i] == key;
    if Name(key) in nested {
      FilledKeepsNested(root, nested, |FLAT_KEYS|, Name(key));
    } else {
      if key in root {
        FilledHasFlat(root, nested, |FLAT_KEYS|, i);
      }
      if Name(key) in Filled(root, nested, |FLAT_KEYS|) {
        FilledFromFlat(root, nested, |FLAT_KEYS|, key);
      }
    }
  }

  lemma MigratedNested(root: Root, drop: bool)
    ensures Nested(Migrated(root, drop)) == AllFilled(root)
  {
    if !HasFlat(root) {
      NothingToFill(root, Nested(root), |FLAT_KEYS|);
    }
    NestedOfWith(root, AllFilled(root));
    assert "channels" !in FLAT_KEYS;
  }

  lemma {:induction false} NothingToFill(root: Root, nested: map<string, Value>, n: nat)
    requires n <= |FLAT_KEYS| && forall k :: k in FLAT_KEYS && k in root ==> Name(k) in nested
    ensures Filled(root, nested, n) == nested
  {
    if n > 0 {
      NothingToFill(root, nested, n - 1);
      assert FLAT_KEYS[n - 1] in FLAT_KEYS;
    }
  }

  /** Migration changes no effective value, whether or not the flat keys are dropped. */
  lemma MigrationKeepsMeaning(root: Root, drop: bool, key: string, default: Value)
    requires key in FLAT_KEYS
    ensures Effective(Migrated(root, drop), key, default) == Effective(root, key, default)
  {
    MigratedNested(root, drop);
    FilledExactly(root, Nested(root), key);
    NestedOfWith(root, AllFilled(root));
    assert "channels" !in FLAT_KEYS;
  }

  lemma MigratedRest(root: Root, drop: bool, key: string)
    ensures key != "channels" ==>
              Get(Migrated(root, drop), key) ==
              (if drop && key in FLAT_KEYS && (HasFlat(root) || Nested(root) != map[]) then None else Get(root, key))
  {
    NestedOfWith(root, AllFilled(root));
  }

  /** A name of the namespace that no flat key has. */
  predicate IsOwnName(name: string) {
    forall k :: k in FLAT_KEYS ==> Name(k) != name
  }

  lemma {:induction false} FilledKeepsOwn(root: Root, nested: map<string, Value>, n: nat, name: string)
    requires n <= |FLAT_KEYS| && IsOwnName(name)
    ensures Get(Filled(root, nested, n), name) == Get(nested, name)
  {
    if n > 0 {
      FilledKeepsOwn(root, nested, n - 1, name);
      assert FLAT_KEYS[n - 1] in FLAT_KEYS;
    }
  }

  /** Migration touches nothing else: neither another channel, nor a name of the namespace that no flat key has,
      nor a setting outside, flat keys that are dropped excepted. */
  lemma MigrationKeepsOthers(root: Root, drop: bool, key: string, channel: string, name: string)
    requires key != "channels" && (drop ==> key !in FLAT_KEYS) && channel != "firefly" && IsOwnName(name)
    ensures Get(Migrated(root, drop), key) == Get(root, key)
    ensures Get(Channels(Migrated(root, drop)), channel) == Get(Channels(root), channel)
    ensures Get(Nested(Migrated(root, drop)), name) == Get(Nested(root), name)
  {
    MigratedRest(root, drop, key);
    MigratedNested(root, drop);
    FilledKeepsOwn(root, Nested(root), |FLAT_KEYS|, name);
    NestedOfWith(root, AllFilled(root));
    assert "channels" !in FLAT_KEYS;
  }

  lemma AllFilledTwice(root: Root, next: Root)
    requires Nested(next) == AllFilled(root) && forall k :: k in FLAT_KEYS && k in next ==> k in root
    ensures AllFilled(next) == Nested(next)
  {
    forall k | k in FLAT_KEYS && k in next ensures Name(k) in Nested(next) {
      FilledExactly(root, Nested(root), k);
    }
    NothingToFill(next, Nested(next), |FLAT_KEYS|);
  }

  /** Migrating twice is migrating once, and dropping the flat keys later is dropping them at once. */
  lemma MigrationTwice(root: Root, first: bool, second: bool)
    requires first ==> second
    ensures Migrated(Migrated(root, first), second) == Migrated(root, second)
  {
    var next := Migrated(root, first);
    MigratedNested(root, first);
    assert "channels" !in FLAT_KEYS;
    forall k | k in FLAT_KEYS && k in next ensures k in root {
      MigratedRest(root, first, k);
    }
    AllFilledTwice(root, next);
    if !HasFlat(root) && Nested(root) == map[] {
      NothingToFill(root, Nested(root), |FLAT_KEYS|);
    }
  }

  lemma {:induction false} FilledGrows(root: Root, nested: map<string, Value>, n: nat)
    requires n < |FLAT_KEYS|
    ensures Filled(root, nested, n).Keys >= nested.Keys
    ensures Filled(root, nested, n + 1) != nested <==> Filled(root, nested, n) != nested || Filled(root, nested, n + 1) != Filled(root, nested, n)
  {
    forall k | k in nested ensures k in Filled(root, nested, n) && k in Filled(root, nested, n + 1) {
      FilledKeepsNested(root, nested, n, k);
      FilledKeepsNested(root, nested, n + 1, k);
    }
  }

  method Fill(root: Root) returns (nested: map<string, Value>, changed: bool)
    ensures nested == AllFilled(root) && (changed <==> nested != Nested(root))
  {
    nested, changed := Nested(root), false;
    for i := 0 to |FLAT_KEYS|
      invariant nested == Filled(root, Nested(root), i)
      invariant changed <==> nested != Nested(root)
    {
      FilledGrows(root, Nested(root), i);
      var key := FLAT_KEYS[i];
      if key in root && Name(key) !in nested {
        nested := nested[Name(key) := root[key]];
        changed := true;
      }
    }
  }

  method Drop(root: Root) returns (next: Root, changed: bool)
    ensures next == Dropped(root) && (changed <==> HasFlat(root))
  {
    next, changed := root, false;
    for i := 0 to |FLAT_KEYS|
      invariant forall k :: k in next <==> k in root && k !in FLAT_KEYS[..i]
      invariant forall k :: k in next ==> next[k] == root[k]
      invariant changed <==> exists k :: k in FLAT_KEYS[..i] && k in root
    {
      assert FLAT_KEYS[..i + 1] == FLAT_KEYS[..i] + [FLAT_KEYS[i]];
      if FLAT_KEYS[i] in next {
        next := next - {FLAT_KEYS[i]};
        changed := true;
      }
    }
    assert FLAT_KEYS[..|FLAT_KEYS|] == FLAT_KEYS;
  }

  /** The migration itself; it reports a change if and only if there is one. */
  method Migrate(root: Root, drop: bool) returns (next: Root, changed: bool)
    ensures next == Migrated(root, drop) && (changed <==> next != root)
  {
    if !HasFlat(root) && Nested(root) == map[] {
      return root, false;
    }
    var nested;
    nested, changed := Fill(root);
    next := if changed then WithNested(root, nested) else root;
    NestedOfWith(root, nested);
    if drop {
      MigrationReports(root, next, nested);
      var dropped;
      next, dropped := Drop(next);
      changed := changed || dropped;
    }
  }

  /** Dropping the flat keys undoes no change of the namespace. */
  lemma MigrationReports(root: Root, next: Root, nested: map<string, Value>)
    requires next == if nested != Nested(root) then WithNested(root, nested) else root
    ensures HasFlat(next) <==> HasFlat(root)
    ensures Nested(Dropped(next)) == nested
    ensures HasFlat(root) ==> Dropped(next) != root
    ensures !HasFlat(root) ==> Dropped(next) == next
  {
    NestedOfWith(root, nested);
    assert "channels" !in FLAT_KEYS;
    if HasFlat(root) {
      var k :| k in FLAT_KEYS && k in root;
      assert Get(next, k) == Get(root, k) && k !in Dropped(next);
    }
    forall k | k in FLAT_KEYS ensures Get(next, k) == Get(root, k) {
    }
  }

  // ---- Settings update ----

  predicate IsSubmitted(payload: Root, key: string) {
    key in FLAT_KEYS && key in payload
  }

  function NamesOf(payload: Root): set<string> {
    set k | k in payload && k in FLAT_KEYS :: Name(k)
  }

  lemma NamesExact(payload: Root, n: string)
    ensures n in NamesOf(payload) <==> IsSubmitted(payload, PREFIX + n)
  {
    assert Name(PREFIX + n) == n;
    if n in NamesOf(payload) {
      var k :| k in payload && k in FLAT_KEYS && Name(k) == n;
      FlatKeysHavePrefix(k);
      assert k == PREFIX + n;
    }
  }

  /** The namespace with the submitted flat keys written over it. */
  function Overlaid(nested: map<string, Value>, payload: Root): map<string, Value> {
    map n | n in nested.Keys + NamesOf(payload) ::
      if IsSubmitted(payload, PREFIX + n) then payload[PREFIX + n] else if n in nested then nested[n] else Plain("")
  }

  lemma OverlaidHas(nested: map<string, Value>, payload: Root, n: string)
    ensures Get(Overlaid(nested, payload), n) == if IsSubmitted(payload, PREFIX + n) then Some(payload[PREFIX + n]) else Get(nested, n)
  {
    NamesExact(payload, n);
  }

  lemma OverlaidAt(nested: map<string, Value>, payload: Root, key: string)
    requires key in FLAT_KEYS
    ensures Get(Overlaid(nested, payload), Name(key)) == if key in payload then Some(payload[key]) else Get(nested, Name(key))
  {
    FlatKeysHavePrefix(key);
    assert key == PREFIX + Name(key);
    OverlaidHas(nested, payload, Name(key));
  }

  predicate IsObject(v: Option<Value>) {
    v.None? || v.value.Object?
  }

  /** `_sync_firefly_flat_into_namespace`: an object that is not there is created, one that is something
      else is left alone. */
  function Synced(root: Root, payload: Root): Root {
    if !IsObject(Get(root, "channels")) then root
    else if !IsObject(Get(Channels(root), "firefly")) then root
    else WithNested(root, Overlaid(Nested(root), payload))
  }

  /** The settings after an update, as far as Firefly goes. */
  function AfterUpdate(data: Root, payload: Root): Root {
    Migrated(Synced(data + payload, payload), false)
  }

  /** After an update every submitted flat key reads back as submitted, also when the payload carries
      channels of its own or the stored channels are no object; any other flat key reads as in the merged
      settings. */
  lemma UpdateReads(data: Root, payload: Root, key: string, default: Value)
    requires key in FLAT_KEYS
    ensures Effective(AfterUpdate(data, payload), key, default) ==
            if key in payload then payload[key] else Effective(data + payload, key, default)
  {
    var merged := data + payload;
    MigrationKeepsMeaning(Synced(merged, payload), false, key, default);
    OverlaidAt(Nested(merged), payload, key);
    NestedOfWith(merged, Overlaid(Nested(merged), payload));
    assert "channels" !in FLAT_KEYS;
  }

  /** An update without channels leaves the other keys as they were. */
  lemma UpdateLeavesOthers(data: Root, payload: Root, key: string, default: Value)
    requires key in FLAT_KEYS && key !in payload && "channels" !in payload
    ensures Effective(AfterUpdate(data, payload), key, default) == Effective(data, key, default)
  {
    UpdateReads(data, payload, key, default);
    assert Get(data + payload, "channels") == Get(data, "channels");
  }

  lemma OwnNameIsNotSubmitted(payload: Root, name: string)
    requires IsOwnName(name)
    ensures name !in NamesOf(payload)
  {
  }

  lemma SyncedKeepsOthers(root: Root, payload: Root, key: string, channel: string, name: string)
    requires key != "channels" && channel != "firefly" && IsOwnName(name)
    ensures Get(Synced(root, payload), key) == Get(root, key)
    ensures Get(Channels(Synced(root, payload)), channel) == Get(Channels(root), channel)
    ensures Get(Nested(Synced(root, payload)), name) == Get(Nested(root), name)
  {
    OwnNameIsNotSubmitted(payload, name);
    NamesExact(payload, name);
    OverlaidHas(Nested(root), payload, name);
    NestedOfWith(root, Overlaid(Nested(root), payload));
  }

  /** An update writes what it was given and nothing else: a setting reads as submitted or as stored, every other
      channel and every name of the namespace without a flat key as in the submitted or the stored channels. */
  lemma UpdateKeepsOthers(data: Root, payload: Root, key: string, channel: string, name: string)
    requires key != "channels" && channel != "firefly" && IsOwnName(name)
    ensures Get(AfterUpdate(data, payload), key) == if key in payload then Get(payload, key) else Get(data, key)
    ensures var given := if "channels" in payload then payload else data;
            && Get(Channels(AfterUpdate(data, payload)), channel) == Get(Channels(given), channel)
            && Get(Nested(AfterUpdate(data, payload)), name) == Get(Nested(given), name)
  {
    SyncedKeepsOthers(data + payload, payload, key, channel, name);
    MigrationKeepsOthers(Synced(data + payload, payload), false, key, channel, name);
    assert Get(data + payload, "channels") == Get(if "channels" in payload then payload else data, "channels");
  }

  /** Channels or a namespace that are no object are only replaced to take over flat keys; without any they stay
      as they are stored. */
  lemma UnreadableStays(data: Root, payload: Root)
    requires !HasFlat(data + payload)
    requires !IsObject(Get(data + payload, "channels")) || !IsObject(Get(Channels(data + payload), "firefly"))
    ensures AfterUpdate(data, payload) == data + payload
  {
  }

  class ConfigStore {
    var data: Root

    constructor (d: Root)
      ensures data == d
    {
      data := d;
    }

    /** The loop over the submitted keys, in any order. */
    method Overlay(nested: map<string, Value>, payload: Root) returns (r: map<string, Value>)
      ensures r == Overlaid(nested, payload)
    {
      r := nested;
      var todo := payload.Keys;
      while todo != {}
        invariant todo <= payload.Keys
        invariant r == Overlaid(nested, map k | k in payload && k !in todo :: payload[k])
        decreases todo
      {
        var key :| key in todo;
        OverlayStep(nested, payload, todo, key);
        todo := todo - {key};
        if key in FLAT_KEYS {
          r := r[Name(key) := payload[key]];
        }
      }
      assert (map k | k in payload && k !in todo :: payload[k]) == payload;
    }

    /** `update`, as far as Firefly goes. */
    method Update(payload: Root)
      modifies this
      ensures data == AfterUpdate(old(data), payload)
    {
      var next := data + payload;
      if IsObject(Get(next, "channels")) && IsObject(Get(Channels(next), "firefly")) {
        var nested := Overlay(Nested(next), payload);
        next := WithNested(next, nested);
      }
      var changed;
      next, changed := Migrate(next, false);
      data := next;
    }
  }

  lemma OverlayStep(nested: map<string, Value>, payload: Root, todo: set<string>, key: string)
    requires key in todo && todo <= payload.Keys
    ensures var before, after := (map k | k in payload && k !in todo :: payload[k]), (map k | k in payload && k !in todo - {key} :: payload[k]);
            Overlaid(nested, after) ==
            if key in FLAT_KEYS then Overlaid(nested, before)[Name(key) := payload[key]] else Overlaid(nested, before)
  {
    var before, after := (map k | k in payload && k !in todo :: payload[k]), (map k | k in payload && k !in todo - {key} :: payload[k]);
    assert after == before[key := payload[key]];
    OneMoreSubmitted(nested, before, key, payload[key]);
  }

  lemma OneMoreSubmitted(nested: map<string, Value>, payload: Root, key: string, v: Value)
    requires key !in payload
    ensures Overlaid(nested, payload[key := v]) ==
            if key in FLAT_KEYS then Overlaid(nested, payload)[Name(key) := v] else Overlaid(nested, payload)
  {
    var more := payload[key := v];
    var all := Overlaid(nested, payload);
    forall n ensures Get(Overlaid(nested, more), n) == Get(if key in FLAT_KEYS then all[Name(key) := v] else all, n) {
      OverlaidHas(nested, payload, n);
      OverlaidHas(nested, more, n);
      if key in FLAT_KEYS {
        FlatKeysHavePrefix(key);
        assert key == PREFIX + Name(key);
        assert (PREFIX + n)[|PREFIX|..] == n;
      }
    }
    SameFields(Overlaid(nested, more), if key in FLAT_KEYS then all[Name(key) := v] else all);
  }

  lemma SameFields(a: map<string, Value>, b: map<string, Value>)
    requires forall n :: Get(a, n) == Get(b, n)
    ensures a == b
  {
    forall n ensures n in a <==> n in b {
      assert Get(a, n) == Get(b, n);
    }
    forall n | n in a ensures a[n] == b[n] {
      assert Get(a, n) == Get(b, n);
    }
  }
}
