/**
 * `TagTypesManager`: the table of known tag types, its timestamp, and the steps that
 * fill it from Home Assistant storage, from the definition repository or from the
 * built-in definitions, plus the lookups the rest of the integration uses.
 *
 * Time is a parameter `now` (seconds); the remote repository is a parameter
 * `listing` (see `Remote`); the two storage files and the legacy config file are a
 * `Disk` object that outlives every manager.
 */
module Manager {
  import opened Wrappers
  import opened Json
  import opened Numerals
  import opened TagTypeRecord
  import opened Remote
  import opened Payload
  import opened Fallback

  /**
   * What Home Assistant keeps on disk for the integration: the current store
   * (`opendisplay_tagtypes`), the legacy store (`open_display_tagtypes`) and whether
   * the legacy `open_display_tagtypes.json` file exists in the config directory.
   */
  class Disk {
    var current: Option<Dict>
    var legacy: Option<Dict>
    var legacyFile: bool

    constructor(current: Option<Dict>, legacy: Option<Dict>, legacyFile: bool)
      ensures this.current == current && this.legacy == legacy && this.legacyFile == legacyFile
    {
      this.current := current;
      this.legacy := legacy;
      this.legacyFile := legacyFile;
    }
  }

  /** `not self._last_update or now - self._last_update > CACHE_DURATION`. */
  predicate Stale(lastUpdate: Option<nat>, now: nat) {
    lastUpdate.None? || now - lastUpdate.value > CacheDuration
  }

  /** What `load_stored_data` does with the stores it finds. */
  datatype Source = FromCurrent | FromLegacy | FromRemote

  /**
   * The current store is used when it holds a current blob; the legacy store only
   * when the current one is absent or empty; otherwise the definitions are fetched.
   */
  function SourceOf(current: Option<Dict>, legacy: Option<Dict>): Source {
    if Current(current) then FromCurrent
    else if !Present(current) && Current(legacy) then FromLegacy
    else FromRemote
  }

  /** The table after a failed refresh: kept if there is one, else the built-in definitions. */
  function AfterFailedFetch(table: map<int, TagType>): map<int, TagType> {
    if table != map[] then table else FallbackTable()
  }

  /** Whether a refresh from `listing` installs a table and saves it (`_save_to_store` does not raise). */
  predicate RefreshSaves(listing: Option<seq<ListingItem>>) {
    Fetched(listing) != map[] && Storable(Fetched(listing))
  }

  /**
   * The current store after a refresh attempt that found it holding `current`: the
   * saved blob of the fetched table when the refresh saved, else as it was.
   */
  ghost predicate StoreAfterRefresh(store: Option<Dict>, current: Option<Dict>, listing: Option<seq<ListingItem>>, now: nat) {
    if RefreshSaves(listing) then store.Some? && IsSavedBlob(store.value, now, Fetched(listing))
    else store == current
  }

  /**
   * The current store after `load_stored_data` read a blob: unchanged after a load from
   * it, or the saved blob of the loaded table, stamped `stamp`, after a migration.
   */
  ghost predicate StoreAfterLoad(store: Option<Dict>, current: Option<Dict>, migrated: bool, stamp: nat, loaded: map<int, TagType>) {
    if migrated then store.Some? && IsSavedBlob(store.value, stamp, loaded)
    else store == current
  }

  /** A non-empty set has a member. */
  lemma HasMember(s: set<int>)
    requires s != {}
    ensures exists x :: x in s
  {
    if forall x :: x !in s {
      assert false;
    }
  }

  /**
   * `{str(type_id): tag_type.to_dict() for type_id, tag_type in ...items()}`: the
   * records' storage forms under their decimal IDs, in whatever order the table is
   * walked. None: some record's `to_dict()` raised.
   */
  method EncodeTable(table: map<int, TagType>) returns (encoded: Option<Dict>)
    requires WellKeyed(table)
    ensures encoded.None? <==> !Storable(table)
    ensures encoded.Some? ==> EncodesTable(encoded.value, table)
  {
    var remaining := table.Keys;
    var d := EmptyDict;
    ghost var forms: map<int, Dict> := map[];
    while remaining != {}
      invariant remaining <= table.Keys
      invariant forall id :: id in table ==> (id in forms <==> id !in remaining)
      invariant forall id :: id in forms ==> id in table && Some(forms[id]) == ToDict(table[id])
      invariant EncodesForms(d, forms)
      decreases |remaining|
    {
      HasMember(remaining);
      var id :| id in remaining;
      match ToDict(table[id]) {
        case None =>
          return None;
        case Some(form) =>
          EncodesFormsAdd(d, forms, id, form);
          d := Dict(d.keys + [NatToString(id)], d.entries[NatToString(id) := JObj(form)]);
          forms := forms[id := form];
          remaining := remaining - {id};
      }
    }
    FormsOfTable(forms, table);
    return Some(d);
  }

  /**
   * The download half of `_fetch_tag_types`: the listing's JSON files whose names parse
   * as IDs, then every definition that downloads and validates, as records.
   */
  method FetchListing(listing: Option<seq<ListingItem>>) returns (newTypes: map<int, TagType>)
    ensures newTypes == Fetched(listing)
  {
    if listing.None? {
      return map[];
    }
    var items := listing.value;
    var typeFiles: seq<(nat, Download)> := [];
    var i := 0;
    while i < |items|
      invariant 0 <= i <= |items|
      invariant typeFiles == TypeFiles(items[..i])
    {
      var item := items[i];
      assert items[..i + 1][..i] == items[..i];
      match TypeIdFromFilename(item.name) {
        case Some(id) =>
          typeFiles := typeFiles + [(id, item.download)];
        case None =>
      }
      i := i + 1;
    }
    assert items[..i] == items;
    newTypes := map[];
    var j := 0;
    while j < |typeFiles|
      invariant 0 <= j <= |typeFiles|
      invariant newTypes == NewTypes(typeFiles[..j])
    {
      var (hwType, download) := typeFiles[j];
      assert typeFiles[..j + 1][..j] == typeFiles[..j];
      match Definition(download) {
        case Some(data) =>
          newTypes := newTypes[hwType := New(hwType, data)];
        case None =>
      }
      j := j + 1;
    }
    assert typeFiles[..j] == typeFiles;
    assert newTypes == Fetched(listing);
  }

  /**
   * The state a manager and its storage are in: the table, its timestamp, the current
   * store, the legacy store and whether the legacy file exists.
   */
  datatype Snapshot = Snapshot(table: map<int, TagType>, stamp: Option<nat>, current: Option<Dict>,
                               legacy: Option<Dict>, legacyFile: bool)

  /**
   * `_fetch_tag_types` from `s0` leaves `s`: the fetched table stamped `now` when the
   * repository yields one (saved when it can be), otherwise everything as it was.
   */
  ghost predicate Refreshed(s0: Snapshot, s: Snapshot, listing: Option<seq<ListingItem>>, now: nat) {
    var refreshed := Fetched(listing) != map[];
    && s.table == (if refreshed then Fetched(listing) else s0.table)
    && s.stamp == (if refreshed then Some(now) else s0.stamp)
    && StoreAfterRefresh(s.current, s0.current, listing, now)
    && s.legacy == s0.legacy && s.legacyFile == s0.legacyFile
  }

  /**
   * The tail of `ensure_types_loaded` from `s1` leaves `s`: the built-in table stamped
   * `now` when there are no types (fresh, so no refresh follows); otherwise a refresh
   * when the timestamp is stale, and nothing when it is not.
   */
  ghost predicate Finished(s1: Snapshot, s: Snapshot, listing: Option<seq<ListingItem>>, now: nat) {
    if s1.table == map[] then s == s1.(table := FallbackTable(), stamp := Some(now))
    else if Stale(s1.stamp, now) then Refreshed(s1, s, listing, now)
    else s == s1
  }

  /**
   * `load_stored_data` from `s0` leaves `s1`, `raised` telling whether an error escaped.
   *  - Current blob stored: its records and timestamp; storage untouched.
   *  - Else a current legacy blob: the same, then saved to the current store (stamped
   *    with its own timestamp) and the legacy store dropped.
   *  - Else a refresh; without one the table is kept, or the built-in table stamped
   *    `now` when there was none; the legacy file is removed.
   */
  ghost predicate StoredDataLoaded(s0: Snapshot, s1: Snapshot, listing: Option<seq<ListingItem>>, now: nat, raised: bool) {
    var source := SourceOf(s0.current, s0.legacy);
    if source == FromRemote then
      var refreshed := Fetched(listing) != map[];
      && !raised && !s1.legacyFile && s1.legacy == s0.legacy
      && s1.table == (if refreshed then Fetched(listing) else AfterFailedFetch(s0.table))
      && s1.stamp == (if refreshed || s0.table == map[] then Some(now) else s0.stamp)
      && StoreAfterRefresh(s1.current, s0.current, listing, now)
    else
      var migrated := source == FromLegacy;
      var stored := if migrated then s0.legacy.value else s0.current.value;
      var loaded := LoadedTable(stored).GetOr(map[]);
      var stamp := LoadedLastUpdate(stored, now);
      && s1.table == loaded && s1.stamp == Some(stamp) && s1.legacyFile == s0.legacyFile
      && (raised <==> LoadedTable(stored).None? || (migrated && !Storable(loaded)))
      && (raised ==> s1.current == s0.current && s1.legacy == s0.legacy)
      && (!raised ==>
            StoreAfterLoad(s1.current, s0.current, migrated, stamp, loaded)
            && s1.legacy == (if migrated then None else s0.legacy))
  }

  /**
   * The state `ensure_types_loaded` leaves, `s`, given the one it started from, `s0`.
   *  - With types: kept while fresh; when stale, a refresh replaces them (and saves)
   *    if it finds any.
   *  - Without types, nothing usable stored: a refresh, else the built-in table, both
   *    stamped `now`; the legacy file is removed.
   *  - Without types, a blob stored (current store, else legacy store migrated): its
   *    records and timestamp, the built-in table stamped `now` if it held none, and a
   *    refresh when its timestamp is stale. `raised`: reading it, or saving the
   *    migrated table, raised; the state is then as the error left it.
   */
  ghost predicate Ensured(s0: Snapshot, s: Snapshot, listing: Option<seq<ListingItem>>, now: nat, raised: bool) {
    var refreshed := Fetched(listing) != map[];
    if s0.table != map[] then
      && !raised && s.legacy == s0.legacy && s.legacyFile == s0.legacyFile
      && if !Stale(s0.stamp, now) then
           s.table == s0.table && s.stamp == s0.stamp && s.current == s0.current
         else
           && s.table == (if refreshed then Fetched(listing) else s0.table)
           && s.stamp == (if refreshed then Some(now) else s0.stamp)
           && StoreAfterRefresh(s.current, s0.current, listing, now)
    else if SourceOf(s0.current, s0.legacy) == FromRemote then
      && !raised && s.legacy == s0.legacy && !s.legacyFile
      && s.table == (if refreshed then Fetched(listing) else FallbackTable())
      && s.stamp == Some(now)
      && StoreAfterRefresh(s.current, s0.current, listing, now)
    else
      var migrated := SourceOf(s0.current, s0.legacy) == FromLegacy;
      var stored := if migrated then s0.legacy.value else s0.current.value;
      var stamp := LoadedLastUpdate(stored, now);
      var loaded := LoadedTable(stored).GetOr(map[]);
      && s.legacyFile == s0.legacyFile
      && (raised <==> LoadedTable(stored).None? || (migrated && !Storable(loaded)))
      && (raised ==>
            s.table == loaded && s.stamp == Some(stamp) && s.current == s0.current && s.legacy == s0.legacy)
      && (!raised ==>
            && s.legacy == (if migrated then None else s0.legacy)
            && if loaded != map[] && Stale(Some(stamp), now) then
                 && s.table == (if refreshed then Fetched(listing) else loaded)
                 && s.stamp == Some(if refreshed then now else stamp)
                 && if RefreshSaves(listing) then s.current.Some? && IsSavedBlob(s.current.value, now, Fetched(listing))
                    else StoreAfterLoad(s.current, s0.current, migrated, stamp, loaded)
               else
                 && s.table == (if loaded == map[] then FallbackTable() else loaded)
                 && s.stamp == Some(if loaded == map[] then now else stamp)
                 && StoreAfterLoad(s.current, s0.current, migrated, stamp, loaded))
  }

  /**
   * How many refreshes `ensure_types_loaded` runs from `s0` when no error escapes:
   * with types held, one exactly when they are stale; with none, one exactly when
   * neither a current blob nor a migratable legacy blob is stored, or the loaded types
   * are non-empty and stale. A stored blob that yields no records gives the built-in
   * table, stamped `now`, and no refresh.
   */
  ghost function RefreshCount(s0: Snapshot, now: nat): (n: nat)
    ensures n <= 1
  {
    if s0.table != map[] then (if Stale(s0.stamp, now) then 1 else 0)
    else if SourceOf(s0.current, s0.legacy) == FromRemote then 1
    else
      var stored := if SourceOf(s0.current, s0.legacy) == FromCurrent then s0.current.value else s0.legacy.value;
      if LoadedTable(stored).GetOr(map[]) != map[] && Stale(Some(LoadedLastUpdate(stored, now)), now) then 1 else 0
  }

  /** Starting with types, `ensure_types_loaded` is its tail alone. */
  lemma WarmStart(s0: Snapshot, s: Snapshot, listing: Option<seq<ListingItem>>, now: nat)
    requires s0.table != map[] && Finished(s0, s, listing, now)
    ensures Ensured(s0, s, listing, now, false)
  {
  }

  /**
   * Starting without types and nothing usable stored, `ensure_types_loaded` is
   * `load_stored_data` (to `s1`, refreshed or built-in and stamped `now`) and a tail
   * that, the types being fresh, does nothing: one refresh in all.
   */
  lemma ColdStartRemote(s0: Snapshot, s1: Snapshot, s: Snapshot, listing: Option<seq<ListingItem>>, now: nat)
    requires s0.table == map[] && SourceOf(s0.current, s0.legacy) == FromRemote
    requires StoredDataLoaded(s0, s1, listing, now, false) && Finished(s1, s, listing, now)
    ensures Ensured(s0, s, listing, now, false)
    ensures RefreshCount(s0, now) == 1 && !(s1.table != map[] && Stale(s1.stamp, now))
  {
  }

  /**
   * Starting without types and a blob stored, `ensure_types_loaded` is
   * `load_stored_data` (to `s1`) followed, unless that raised, by its tail, which
   * refreshes exactly when the loaded types are stale.
   */
  lemma ColdStartStored(s0: Snapshot, s1: Snapshot, s: Snapshot, listing: Option<seq<ListingItem>>, now: nat, raised: bool)
    requires s0.table == map[] && SourceOf(s0.current, s0.legacy) != FromRemote
    requires StoredDataLoaded(s0, s1, listing, now, raised)
    requires raised ==> s == s1
    requires !raised ==> Finished(s1, s, listing, now)
    ensures Ensured(s0, s, listing, now, raised)
    ensures RefreshCount(s0, now) == (if s1.table != map[] && Stale(s1.stamp, now) then 1 else 0)
  {
  }

  /**
   * A current blob whose `tag_types` holds no records (say, a migrated legacy blob that
   * loaded none) gives, however stale its timestamp, the built-in table stamped `now`
   * and no refresh: the fallback's fresh stamp hides the stale one.
   */
  lemma EmptyBlobNoRefresh(stamp: nat, now: nat, s: Snapshot, listing: Option<seq<ListingItem>>)
    requires Ensured(Snapshot(map[], None, Some(SavedBlob(stamp, EmptyDict)), None, false), s, listing, now, false)
    ensures RefreshCount(Snapshot(map[], None, Some(SavedBlob(stamp, EmptyDict)), None, false), now) == 0
    ensures s.table == FallbackTable() && s.stamp == Some(now)
    ensures s.current == Some(SavedBlob(stamp, EmptyDict))
  {
    SavedBlobHeader(stamp, EmptyDict, now);
    assert LoadedTable(SavedBlob(stamp, EmptyDict)) == Some(map[]);
  }

  class TagTypesManager {
    var tagTypes: map<int, TagType>
    var lastUpdate: Option<nat>
    const disk: Disk

    /** Every record sits under its own, non-negative, ID; a non-empty table has a timestamp. */
    ghost predicate Valid()
      reads this
    {
      WellKeyed(tagTypes) && (tagTypes != map[] ==> lastUpdate.Some?)
    }

    /** The manager's state together with its storage's. */
    ghost function Snap(): Snapshot
      reads this, disk
    {
      Snapshot(tagTypes, lastUpdate, disk.current, disk.legacy, disk.legacyFile)
    }

    /** A new manager: no types, no timestamp, attached to the given storage. */
    constructor(disk: Disk)
      ensures this.disk == disk && tagTypes == map[] && lastUpdate == None && Valid()
    {
      this.disk := disk;
      tagTypes := map[];
      lastUpdate := None;
    }

    /**
     * `_save_to_store`: stamps the table with `now` if it has no timestamp, then writes
     * every record's storage form under its decimal ID. When some record's `to_dict()`
     * raises, nothing is written and the error escapes (`raised`).
     */
    method SaveToStore(now: nat) returns (raised: bool)
      requires Valid()
      modifies this, disk
      ensures Valid() && tagTypes == old(tagTypes)
      ensures lastUpdate == Some(old(lastUpdate).GetOr(now))
      ensures raised <==> !Storable(tagTypes)
      ensures raised ==> disk.current == old(disk.current)
      ensures !raised ==> disk.current.Some? && IsSavedBlob(disk.current.value, lastUpdate.value, tagTypes)
      ensures disk.legacy == old(disk.legacy) && disk.legacyFile == old(disk.legacyFile)
    {
      if lastUpdate.None? {
        lastUpdate := Some(now);
      }
      var encoded := EncodeTable(tagTypes);
      if encoded.None? {
        return true;
      }
      var d := encoded.value;
      var blob := SavedBlob(lastUpdate.value, d);
      assert blob.entries["tag_types"] == JObj(d);
      disk.current := Some(blob);
      return false;
    }

    /**
     * `_load_from_payload`: reads the timestamp (falling back to `now`), empties the
     * table and loads every entry of `tag_types` that can be read. When `tag_types`
     * is not a dict, `.items()` raises: the table stays empty (`raised`).
     */
    method LoadFromPayload(stored: Dict, now: nat) returns (raised: bool)
      modifies this
      ensures lastUpdate == Some(LoadedLastUpdate(stored, now))
      ensures raised <==> LoadedTable(stored).None?
      ensures tagTypes == LoadedTable(stored).GetOr(map[])
      ensures Valid()
    {
      lastUpdate := Some(LoadedLastUpdate(stored, now));
      tagTypes := map[];
      match StoredTagTypes(stored)
      case None =>
        return true;
      case Some(d) =>
        var i := 0;
        while i < |d.keys|
          invariant 0 <= i <= |d.keys|
          invariant tagTypes == LoadedEntries(d, d.keys[..i])
          invariant lastUpdate == Some(LoadedLastUpdate(stored, now))
        {
          var k := d.keys[i];
          assert d.keys[..i + 1][..i] == d.keys[..i];
          match (ParseDecimal(k), Lookup(d, k)) {
            case (Some(id), Some(JObj(data))) =>
              tagTypes := tagTypes[id := FromDict(id, data)];
            case _ =>
          }
          i := i + 1;
        }
        assert d.keys[..i] == d.keys;
        assert LoadedTable(stored) == Some(LoadedEntries(d, d.keys));
        return false;
    }

    /** `_cleanup_legacy_file`: the legacy file is gone afterwards; nothing else changes. */
    method CleanupLegacyFile()
      modifies disk
      ensures !disk.legacyFile
      ensures disk.current == old(disk.current) && disk.legacy == old(disk.legacy)
    {
      if disk.legacyFile {
        disk.legacyFile := false;
      }
    }

    /**
     * `_fetch_tag_types`: lists the definition files, downloads each usable one and
     * builds a new table. An empty result changes nothing and fails. A non-empty one
     * replaces the table, stamps it `now` and saves it; the call succeeds only if the
     * save does not raise (the error is caught, but the table stays replaced).
     */
    method FetchTagTypes(listing: Option<seq<ListingItem>>, now: nat) returns (success: bool)
      requires Valid()
      modifies this, disk
      ensures Valid()
      ensures Fetched(listing) == map[] ==>
        !success && tagTypes == old(tagTypes) && lastUpdate == old(lastUpdate) && disk.current == old(disk.current)
      ensures Fetched(listing) != map[] ==>
        tagTypes == Fetched(listing) && lastUpdate == Some(now) && (success <==> Storable(tagTypes))
      ensures success ==> disk.current.Some? && IsSavedBlob(disk.current.value, now, tagTypes)
      ensures !success ==> disk.current == old(disk.current)
      ensures disk.legacy == old(disk.legacy) && disk.legacyFile == old(disk.legacyFile)
      ensures Refreshed(old(Snap()), Snap(), listing, now)
    {
      var newTypes := FetchListing(listing);
      if newTypes == map[] {
        return false;
      }
      tagTypes := newTypes;
      lastUpdate := Some(now);
      var raised := SaveToStore(now);
      return !raised;
    }

    /** `_load_fallback_types`: the built-in table, stamped `now`. */
    method LoadFallbackTypes(now: nat)
      modifies this
      ensures tagTypes == FallbackTable() && lastUpdate == Some(now)
      ensures Valid() && tagTypes != map[]
    {
      FallbackWellKeyed();
      FallbackConfigMode();
      tagTypes := FallbackTable();
      lastUpdate := Some(now);
    }

    /**
     * `load_stored_data`: loads the current store when it holds a current blob; else,
     * when the current store is absent or empty, migrates a current legacy blob (load,
     * save, drop the legacy store); otherwise refreshes from the repository, falls back
     * to the built-in table if that leaves no types, and removes the legacy file.
     * `raised`: an error escaped from loading or saving; `fetched`: a refresh ran.
     */
    method LoadStoredData(listing: Option<seq<ListingItem>>, now: nat) returns (raised: bool, fetched: bool)
      requires Valid()
      modifies this, disk
      ensures Valid()
      ensures fetched <==> SourceOf(old(disk.current), old(disk.legacy)) == FromRemote
      ensures StoredDataLoaded(old(Snap()), Snap(), listing, now, raised)
    {
      var stored := disk.current;
      var legacy := disk.legacy;
      if Current(stored) {
        raised := LoadFromPayload(stored.value, now);
        return raised, false;
      }
      if !Present(stored) && Current(legacy) {
        raised := LoadFromPayload(legacy.value, now);
        if raised {
          return true, false;
        }
        raised := SaveToStore(now);
        if raised {
          return true, false;
        }
        disk.legacy := None;
        return false, false;
      }
      var success := FetchTagTypes(listing, now);
      if !success && tagTypes == map[] {
        LoadFallbackTypes(now);
      }
      CleanupLegacyFile();
      return false, true;
    }

    /**
     * The tail of `ensure_types_loaded`: the built-in table as a last resort when there
     * are no types, then a refresh when the timestamp is missing or more than 48 hours
     * old. Afterwards there are types. `refreshed`: a refresh ran.
     */
    method FinishLoading(listing: Option<seq<ListingItem>>, now: nat) returns (refreshed: bool)
      requires Valid()
      modifies this, disk
      ensures Valid() && tagTypes != map[] && lastUpdate.Some?
      ensures Finished(old(Snap()), Snap(), listing, now)
      ensures refreshed <==> old(tagTypes) != map[] && Stale(old(lastUpdate), now)
    {
      if tagTypes == map[] {
        LoadFallbackTypes(now);
      }
      refreshed := Stale(lastUpdate, now);
      if refreshed {
        var _ := FetchTagTypes(listing, now);
      }
    }

    /**
     * `ensure_types_loaded`: loads the types when there are none, then `FinishLoading`.
     * After it, unless an error escaped, there are types; the state is the one
     * `Ensured` describes, and at most one refresh runs per call.
     */
    method EnsureTypesLoaded(listing: Option<seq<ListingItem>>, now: nat) returns (raised: bool, fetches: nat)
      requires Valid()
      modifies this, disk
      ensures Valid()
      ensures fetches <= 1
      ensures !raised ==> tagTypes != map[] && lastUpdate.Some?
      ensures Ensured(old(Snap()), Snap(), listing, now, raised)
      ensures fetches == (if raised then 0 else RefreshCount(old(Snap()), now))
    {
      ghost var s0 := Snap();
      ghost var s1 := s0;
      raised, fetches := false, 0;
      if tagTypes == map[] {
        var fetched;
        raised, fetched := LoadStoredData(listing, now);
        if raised {
          ColdStartStored(s0, Snap(), Snap(), listing, now, true);
          return;
        }
        s1 := Snap();
        if fetched {
          fetches := 1;
        }
      }
      var refreshed := FinishLoading(listing, now);
      if refreshed {
        fetches := fetches + 1;
      }
      if s0.table != map[] {
        WarmStart(s0, Snap(), listing, now);
      } else if SourceOf(s0.current, s0.legacy) == FromRemote {
        ColdStartRemote(s0, s1, Snap(), listing, now);
      } else {
        ColdStartStored(s0, s1, Snap(), listing, now, false);
      }
    }

    /**
     * `get_tag_info`: ensures the types are loaded, then the record for `hwType`.
     * None: an error escaped from loading (`raised`), or the ID is unknown (KeyError).
     */
    method GetTagInfo(hwType: int, listing: Option<seq<ListingItem>>, now: nat)
      returns (raised: bool, info: Option<TagType>)
      requires Valid()
      modifies this, disk
      ensures Valid()
      ensures Ensured(old(Snap()), Snap(), listing, now, raised)
      ensures !raised ==> tagTypes != map[]
      ensures raised ==> info.None?
      ensures !raised ==> (info.Some? <==> hwType in tagTypes)
      ensures info.Some? ==> info.value == tagTypes[hwType] && info.value.typeId == hwType
    {
      var fetches;
      raised, fetches := EnsureTypesLoaded(listing, now);
      if raised {
        return true, None;
      }
      if hwType !in tagTypes {
        return false, None;
      }
      return false, Some(tagTypes[hwType]);
    }

    /** `get_hw_dimensions`: the record's width and height, or 296 x 128 for an unknown ID. */
    function GetHwDimensions(hwType: int): (dims: (Value, Value))
      reads this
      ensures hwType in tagTypes ==> dims == (tagTypes[hwType].width, tagTypes[hwType].height)
      ensures hwType !in tagTypes ==> dims == (JInt(296), JInt(128))
    {
      if hwType !in tagTypes then (JInt(296), JInt(128))
      else (tagTypes[hwType].width, tagTypes[hwType].height)
    }

    /** `get_hw_string`: the record's `name` attribute, or "Unknown Type <ID>" for an unknown ID. */
    function GetHwString(hwType: int): (name: Value)
      reads this
      ensures hwType in tagTypes ==> name == tagTypes[hwType].name
      ensures hwType !in tagTypes ==> name == JStr(UnknownName(hwType))
    {
      if hwType !in tagTypes then JStr(UnknownName(hwType))
      else Get(tagTypes[hwType], "name", JStr(UnknownName(hwType)))
    }

    /** `is_in_hw_map`: whether the table has a record for the ID. */
    function IsInHwMap(hwType: int): (known: bool)
      reads this
      ensures known <==> hwType in tagTypes
    {
      hwType in tagTypes
    }

    /** `get_all_types`: a copy of the table; a map is a value, so the caller cannot alter the manager's. */
    function GetAllTypes(): (types: map<int, TagType>)
      reads this
      ensures types.Keys == tagTypes.Keys
      ensures forall id :: id in types ==> types[id] == tagTypes[id]
    {
      tagTypes
    }

    /**
     * For an unknown ID the lookups answer what a record built from an empty
     * definition would hold: the safe defaults are the constructor's defaults.
     */
    lemma UnknownTypeDefaults(hwType: int)
      requires !IsInHwMap(hwType)
      ensures GetHwDimensions(hwType) == (New(hwType, EmptyDict).width, New(hwType, EmptyDict).height)
      ensures GetHwString(hwType) == New(hwType, EmptyDict).name
    {
      ConstructorDefaults(hwType);
    }

    /** A known ID answers from its record: the one `get_tag_info` and `get_all_types` return. */
    lemma KnownTypeLookups(hwType: int)
      requires IsInHwMap(hwType)
      ensures hwType in GetAllTypes()
      ensures GetHwDimensions(hwType) == (GetAllTypes()[hwType].width, GetAllTypes()[hwType].height)
      ensures GetHwString(hwType) == Get(GetAllTypes()[hwType], "name", JNull)
    {
    }

    /** With the built-in table the configuration-mode type is known, has its name and no display. */
    lemma FallbackLookups()
      requires tagTypes == FallbackTable()
      ensures IsInHwMap(250) && GetHwString(250) == JStr("ConfigMode")
      ensures GetHwDimensions(250) == (JInt(0), JInt(0))
    {
      FallbackConfigMode();
    }
  }
}
