/**
 * The persisted blob: what `_save_to_store` writes and what `_load_from_payload`
 * reads back, and the proof that reading back what was written restores the table.
 */
module Payload {
  import opened Wrappers
  import opened Json
  import opened Numerals
  import opened TagTypeRecord

  /** `STORAGE_VERSION`. */
  const StorageVersion: int := 1

  /** `CACHE_DURATION`: 48 hours, in seconds. */
  const CacheDuration: int := 48 * 60 * 60

  /** `if stored_data:`: a blob is there and is a non-empty dict. */
  predicate Present(blob: Option<Dict>) {
    blob.Some? && blob.value.entries != map[]
  }

  /** A blob that is loaded: present, and `stored_data.get("version") == STORAGE_VERSION`. */
  predicate Current(blob: Option<Dict>) {
    Present(blob) && EqualsOne(GetOr(blob.value, "version", JNull))
  }

  /**
   * `_last_update` after loading `stored`: its `last_update` read back; `now` when it is
   * missing or falsy, when it is not a string (TypeError) or unreadable (ValueError).
   * A timestamp is whole seconds, so `datetime.fromisoformat` is `ParseDecimal`.
   */
  function LoadedLastUpdate(stored: Dict, now: nat): nat {
    var v := GetOr(stored, "last_update", JNull);
    if !Truthy(v) then now
    else
      match v
      case JStr(s) => ParseDecimal(s).GetOr(now)
      case _ => now
  }

  /**
   * `stored_data.get("tag_types", {})` as a dict. None: it is something else, and
   * calling `.items()` on it raises out of `_load_from_payload`.
   */
  function StoredTagTypes(stored: Dict): Option<Dict> {
    match GetOr(stored, "tag_types", JObj(EmptyDict))
    case JObj(d) => Some(d)
    case _ => None
  }

  /**
   * The table after loading the entries of `tagTypes` under `keys`, in order: a key
   * that `int()` cannot read, or whose value is not a dict, is skipped (the loop
   * catches the error); a later key for the same ID replaces an earlier one.
   */
  function LoadedEntries(tagTypes: Dict, keys: seq<string>): map<int, TagType> {
    if keys == [] then map[]
    else
      var k := keys[|keys| - 1];
      var m := LoadedEntries(tagTypes, keys[..|keys| - 1]);
      match (ParseDecimal(k), Lookup(tagTypes, k))
      case (Some(id), Some(JObj(data))) => m[id := FromDict(id, data)]
      case _ => m
  }

  /** Every loaded record sits under its own ID. */
  lemma {:induction false} LoadedEntriesWellKeyed(tagTypes: Dict, keys: seq<string>)
    ensures WellKeyed(LoadedEntries(tagTypes, keys))
  {
    if keys != [] {
      var init := keys[..|keys| - 1];
      LoadedEntriesWellKeyed(tagTypes, init);
      var k := keys[|keys| - 1];
      match (ParseDecimal(k), Lookup(tagTypes, k))
      case (Some(id), Some(JObj(data))) =>
        assert LoadedEntries(tagTypes, keys) == LoadedEntries(tagTypes, init)[id := FromDict(id, data)];
      case _ =>
    }
  }

  /** Whether the entry under `k` is loaded: `int()` reads the key and its value is a dict. */
  predicate Loadable(tagTypes: Dict, k: string) {
    ParseDecimal(k).Some? && Lookup(tagTypes, k).Some? && Lookup(tagTypes, k).value.JObj?
  }

  /**
   * Whatever dict is stored, an ID is loaded exactly when some key among `keys` reads
   * as that ID and holds a dict; every other key is skipped.
   */
  lemma {:induction false} LoadedEntriesKeys(tagTypes: Dict, keys: seq<string>, id: int)
    ensures id in LoadedEntries(tagTypes, keys) <==>
      exists i :: 0 <= i < |keys| && Loadable(tagTypes, keys[i]) && ParseDecimal(keys[i]).value == id
  {
    if keys != [] {
      var init := keys[..|keys| - 1];
      LoadedEntriesKeys(tagTypes, init, id);
      assert forall i :: 0 <= i < |init| ==> init[i] == keys[i];
    }
  }

  /** The record for an ID comes from the LAST loadable key that reads as that ID. */
  lemma {:induction false} LoadedEntriesLastWins(tagTypes: Dict, keys: seq<string>, i: nat)
    requires i < |keys| && Loadable(tagTypes, keys[i])
    requires forall j :: i < j < |keys| && Loadable(tagTypes, keys[j]) ==>
      ParseDecimal(keys[j]).value != ParseDecimal(keys[i]).value
    ensures ParseDecimal(keys[i]).value in LoadedEntries(tagTypes, keys)
    ensures LoadedEntries(tagTypes, keys)[ParseDecimal(keys[i]).value] ==
      FromDict(ParseDecimal(keys[i]).value, Lookup(tagTypes, keys[i]).value.obj)
  {
    if i < |keys| - 1 {
      var init := keys[..|keys| - 1];
      assert init[i] == keys[i];
      LoadedEntriesLastWins(tagTypes, init, i);
    }
  }

  /**
   * A stored dict with keys "7" and then "07" (as a hand-edited or foreign blob could
   * have): both read as 7, and the record is built from the entry under "07".
   */
  lemma LeadingZeroKeyWins(a: Dict, b: Dict)
    ensures var d := Dict(["7", "07"], map["7" := JObj(a), "07" := JObj(b)]);
      LoadedEntries(d, d.keys).Keys == {7} && LoadedEntries(d, d.keys)[7] == FromDict(7, b)
  {
    var d := Dict(["7", "07"], map["7" := JObj(a), "07" := JObj(b)]);
    assert ParseDecimal("7") == Some(7);
    assert ParseDecimal("07") == Some(7);
    LoadedEntriesLastWins(d, d.keys, 1);
    forall id | id in LoadedEntries(d, d.keys)
      ensures id == 7
    {
      LoadedEntriesKeys(d, d.keys, id);
    }
  }

  /** The blob `_save_to_store` writes; `isoformat()` of whole seconds is `NatToString`. */
  function SavedBlob(lastUpdate: nat, tagTypes: Dict): Dict {
    Dict(["version", "last_update", "tag_types"], map[
      "version" := JInt(StorageVersion),
      "last_update" := JStr(NatToString(lastUpdate)),
      "tag_types" := JObj(tagTypes)])
  }

  /** Every record of the table survives `to_dict()` without raising. */
  predicate Storable(table: map<int, TagType>) {
    forall id :: id in table ==> ToDict(table[id]).Some?
  }

  /** The storage form of every record of a table, under its ID. */
  function StorageForms(table: map<int, TagType>): (forms: map<int, Dict>)
    requires Storable(table)
    ensures forms.Keys == table.Keys
    ensures forall id :: id in forms ==> Some(forms[id]) == ToDict(table[id])
  {
    map id | id in table :: ToDict(table[id]).value
  }

  /**
   * `d` holds, under the decimal numeral of each ID of `forms`, that ID's dict, and
   * nothing else.
   */
  ghost predicate EncodesForms(d: Dict, forms: map<int, Dict>) {
    && WellFormed(d)
    && (forall id :: id in forms ==> id >= 0)
    && (forall id :: id in forms && id >= 0 ==> NatToString(id) in d.entries && d.entries[NatToString(id)] == JObj(forms[id]))
    && (forall k :: k in d.entries ==>
          ParseDecimal(k).Some? && ParseDecimal(k).value in forms && NatToString(ParseDecimal(k).value) == k)
  }

  /** `{str(type_id): tag_type.to_dict() for ...}`: `d` is the table's storage forms keyed by numeral. */
  ghost predicate EncodesTable(d: Dict, table: map<int, TagType>) {
    Storable(table) && EncodesForms(d, StorageForms(table))
  }

  /** Extending an encoding by one more ID's dict, under that ID's numeral, encodes the extended forms. */
  lemma EncodesFormsAdd(d: Dict, forms: map<int, Dict>, id: int, form: Dict)
    requires EncodesForms(d, forms) && id >= 0 && id !in forms
    ensures NatToString(id) !in d.entries
    ensures EncodesForms(Dict(d.keys + [NatToString(id)], d.entries[NatToString(id) := JObj(form)]), forms[id := form])
  {
    var k := NatToString(id);
    if k in d.entries {
      var other := ParseDecimal(k).value;
      NatToStringInjective(other, id);
      assert false;
    }
    DecimalRoundTrip(id);
    var d' := Dict(d.keys + [k], d.entries[k := JObj(form)]);
    var forms' := forms[id := form];
    forall j | j in forms' ensures j >= 0 && NatToString(j) in d'.entries && d'.entries[NatToString(j)] == JObj(forms'[j]) {
      if j != id {
        assert j in forms;
        if NatToString(j) == k {
          NatToStringInjective(j, id);
        }
      }
    }
    forall j | j in d'.keys ensures j in d'.entries {
      if j != k {
        assert j in d.keys;
      }
    }
  }

  /** Per-ID storage forms that agree with `to_dict()` on every record are the table's storage forms. */
  lemma FormsOfTable(forms: map<int, Dict>, table: map<int, TagType>)
    requires forall id :: id in table <==> id in forms
    requires forall id :: id in forms ==> Some(forms[id]) == ToDict(table[id])
    ensures Storable(table) && forms == StorageForms(table)
  {
    var expected := StorageForms(table);
    assert forall id :: id in forms <==> id in expected;
    forall id | id in forms ensures forms[id] == expected[id] {
      assert Some(expected[id]) == ToDict(table[id]);
    }
    assert forall id :: id in forms ==> forms[id] == expected[id];
  }

  /** What a record becomes once stored and read back. */
  function Stored(t: TagType): TagType
    requires ToDict(t).Some?
  {
    FromDict(t.typeId, ToDict(t).value)
  }

  /** What a table becomes once stored and read back. */
  function Persisted(table: map<int, TagType>): map<int, TagType>
    requires Storable(table)
  {
    map id | id in table :: Stored(table[id])
  }

  /** Loading keys of an encoding of `forms` loads exactly the IDs whose numerals are among them. */
  lemma EncodedPrefixKeys(d: Dict, forms: map<int, Dict>, keys: seq<string>, id: int)
    requires EncodesForms(d, forms)
    requires forall k :: k in keys ==> k in d.entries
    ensures id in LoadedEntries(d, keys) <==> id in forms && NatToString(id) in keys
  {
    LoadedEntriesKeys(d, keys, id);
    if id in forms && NatToString(id) in keys {
      var i :| 0 <= i < |keys| && keys[i] == NatToString(id);
      DecimalRoundTrip(id);
      assert Loadable(d, keys[i]) && ParseDecimal(keys[i]).value == id;
    }
    if id in LoadedEntries(d, keys) {
      var i :| 0 <= i < |keys| && Loadable(d, keys[i]) && ParseDecimal(keys[i]).value == id;
      assert keys[i] in d.entries;
    }
  }

  /** Every ID loaded from keys of an encoding of `forms` gets `from_dict` of its own form. */
  lemma {:induction false} EncodedPrefixValues(d: Dict, forms: map<int, Dict>, keys: seq<string>)
    requires EncodesForms(d, forms)
    requires forall k :: k in keys ==> k in d.entries
    ensures forall id :: id in LoadedEntries(d, keys) ==> id in forms && LoadedEntries(d, keys)[id] == FromDict(id, forms[id])
  {
    if keys != [] {
      var init := keys[..|keys| - 1];
      var k := keys[|keys| - 1];
      assert forall j :: 0 <= j < |init| ==> init[j] == keys[j];
      EncodedPrefixValues(d, forms, init);
      var id := ParseDecimal(k).value;
      assert id in forms && d.entries[k] == JObj(forms[id]);
      assert LoadedEntries(d, keys) == LoadedEntries(d, init)[id := FromDict(id, forms[id])];
    }
  }

  /**
   * Loading the keys `keys` of an encoding of `forms` gives, for each ID whose numeral
   * is among `keys`, the record `from_dict` makes of that ID's dict, and nothing else.
   */
  lemma LoadedEncodedPrefix(d: Dict, forms: map<int, Dict>, keys: seq<string>)
    requires EncodesForms(d, forms)
    requires forall k :: k in keys ==> k in d.entries
    ensures forall id :: id in forms && NatToString(id) in keys ==> id in LoadedEntries(d, keys)
    ensures forall id :: id in LoadedEntries(d, keys) ==>
      id in forms && id >= 0 && NatToString(id) in keys && LoadedEntries(d, keys)[id] == FromDict(id, forms[id])
  {
    forall id | id in forms && NatToString(id) in keys
      ensures id in LoadedEntries(d, keys)
    {
      EncodedPrefixKeys(d, forms, keys, id);
    }
    forall id | id in LoadedEntries(d, keys)
      ensures id in forms && NatToString(id) in keys
    {
      EncodedPrefixKeys(d, forms, keys, id);
    }
    EncodedPrefixValues(d, forms, keys);
  }

  /**
   * The blob `_save_to_store` writes is accepted by the loader, gives back its
   * timestamp and hands the table dict to the entry loop.
   */
  lemma SavedBlobHeader(lastUpdate: nat, d: Dict, now: nat)
    ensures Current(Some(SavedBlob(lastUpdate, d)))
    ensures LoadedLastUpdate(SavedBlob(lastUpdate, d), now) == lastUpdate
    ensures StoredTagTypes(SavedBlob(lastUpdate, d)) == Some(d)
  {
    var blob := SavedBlob(lastUpdate, d);
    assert blob.entries["version"] == JInt(1);
    assert GetOr(blob, "last_update", JNull) == JStr(NatToString(lastUpdate));
    assert GetOr(blob, "tag_types", JObj(EmptyDict)) == JObj(d);
    DecimalRoundTrip(lastUpdate);
  }

  /** Load after save: the entry loop gives back every record of the table as storage keeps it, and nothing else. */
  lemma SavedTableLoads(d: Dict, table: map<int, TagType>)
    requires WellKeyed(table) && EncodesTable(d, table)
    ensures LoadedEntries(d, d.keys) == Persisted(table)
  {
    var forms := StorageForms(table);
    LoadedEncodedPrefix(d, forms, d.keys);
    var loaded := LoadedEntries(d, d.keys);
    forall id | id in table ensures id in loaded {
      assert NatToString(id) in d.entries;
    }
    forall id | id in table ensures loaded[id] == Stored(table[id]) {
      assert table[id].typeId == id;
      assert forms[id] == ToDict(table[id]).value;
    }
    var persisted := Persisted(table);
    SameEntries(loaded, persisted);
  }

  /** Two tables with the same IDs and the same record under each ID are equal. */
  lemma SameEntries(a: map<int, TagType>, b: map<int, TagType>)
    requires forall id :: id in a <==> id in b
    requires forall id :: id in a ==> a[id] == b[id]
    ensures a == b
  {
    assert forall id :: id in a <==> id in b;
    assert forall id :: id in a ==> a[id] == b[id];
  }

  /** `blob` is what `_save_to_store` writes for `table` with timestamp `lastUpdate`. */
  ghost predicate IsSavedBlob(blob: Dict, lastUpdate: nat, table: map<int, TagType>) {
    && "tag_types" in blob.entries && blob.entries["tag_types"].JObj?
    && blob == SavedBlob(lastUpdate, blob.entries["tag_types"].obj)
    && EncodesTable(blob.entries["tag_types"].obj, table)
  }

  /** The table `_load_from_payload` builds from `stored`; None: `.items()` raised. */
  function LoadedTable(stored: Dict): (r: Option<map<int, TagType>>)
    ensures r.Some? <==> StoredTagTypes(stored).Some?
    ensures r.Some? ==> WellKeyed(r.value)
  {
    match StoredTagTypes(stored)
    case Some(d) => LoadedEntriesWellKeyed(d, d.keys); Some(LoadedEntries(d, d.keys))
    case None => None
  }

  /**
   * Load after save: a blob written by `_save_to_store` is accepted by the loader,
   * which gives back its timestamp and every record as storage keeps it.
   */
  lemma LoadAfterSave(blob: Dict, lastUpdate: nat, table: map<int, TagType>, now: nat)
    requires WellKeyed(table) && IsSavedBlob(blob, lastUpdate, table)
    ensures Current(Some(blob))
    ensures LoadedLastUpdate(blob, now) == lastUpdate
    ensures LoadedTable(blob) == Some(Persisted(table))
  {
    var d := blob.entries["tag_types"].obj;
    SavedBlobHeader(lastUpdate, d, now);
    SavedTableLoads(d, table);
  }

  /** A table whose records keep `options` and `contentids` as lists is restored exactly. */
  lemma PersistedListTable(table: map<int, TagType>)
    requires forall id :: id in table ==> table[id].options.JList? && table[id].contentIds.JList?
    ensures Storable(table) && Persisted(table) == table
  {
    forall id | id in table ensures ToDict(table[id]).Some? && Stored(table[id]) == table[id] {
      StorageRoundTripOfLists(table[id]);
    }
  }
}
