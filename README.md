# OpenDisplay tag types, modelled in Dafny

The OpenDisplay Home Assistant integration keeps a table of the e-paper tag hardware
types it knows (`custom_components/opendisplay/tag_types.py`). The table maps a
hardware-type ID to a `TagType` record: name, display size, colour table, and so on.

The table is filled in tiers:

- the current Home Assistant store;
- else a legacy store, migrated into the current one;
- else the definition files of the OpenEPaperLink repository on GitHub;
- else a built-in table of 93 definitions.

The table is refreshed from GitHub when its timestamp is missing or more than 48 hours
old.

This project models that file in Dafny and proves what it promises.

- **`TagTypeRecord`** (`tag_type.dfy`) covers the record.
  - The constructor's per-key defaults.
  - The storage form `to_dict`.
  - `from_dict`, with its two key spellings and its explicit nulls.
  - The by-name accessor `get`.
  - The definition validator.
  - The proof that storing a record and reading it back restores it.
- **`Remote`** (`remote.dfy`) models a refresh as a function of its inputs: the
  directory listing and what each download yields.
  - Filename parsing: hexadecimal first, then decimal.
  - Per-file validation.
  - A later file for the same ID replaces an earlier one.
- **`Payload`** (`payload.dfy`) covers the saved blob: its version, timestamp and
  records keyed by decimal ID. It proves that loading a saved blob gives back the
  timestamp and every record as storage keeps it.
- **`Fallback`** (`fallback.dfy`) holds the built-in definitions and the table built
  from them.
- **`Manager`** (`manager.dfy`) models the `TagTypesManager` object.
  - It is a class whose fields `tagTypes` and `lastUpdate` its methods update in place.
  - A `Disk` object holds the two stores and the legacy file. The disk outlives every
    manager.
  - The loops of `_load_from_payload`, `_save_to_store` and `_fetch_tag_types` are
    `while` loops, each proved against the functions above.
  - Each step's new state is a function of the old one (`Snapshot` values): `Refreshed`
    for `_fetch_tag_types`, `StoredDataLoaded` for `load_stored_data`, `Finished` for the
    tail of `ensure_types_loaded` and `Ensured` for the whole of it.
  - `ensure_types_loaded` is proved to:
    - leave types and a timestamp unless an error escaped;
    - leave exactly the table, timestamp and stores that `Ensured` gives, for each start;
    - with types held, refresh exactly when they are stale;
    - with none, refresh exactly when neither a current blob nor a migratable legacy
      blob is stored, or the loaded types are non-empty and stale; a stored blob that
      yields no records gives the built-in table and no refresh;
    - refresh at most once per call.
- **`ManagerRegistry`** (`registry.dfy`) holds the module-level `_INSTANCE` slot and the
  synchronous wrappers, which answer defaults while no manager exists.
- `Json`, `Numerals` and `Wrappers` supply support definitions:
  - JSON values, with dicts kept in insertion order;
  - decimal and hexadecimal numerals;
  - `Option`.

These inputs become parameters:

- the clock: `now`, in whole seconds;
- the GitHub listing: `Option<seq<ListingItem>>`, where None means the listing request
  failed, and each item carries its file name and download result;
- Home Assistant storage: the `Disk` object.

An exception that escapes a method is a `raised` result. One escapes when a stored
`tag_types` is not a dict, or when `to_dict` meets `options` or `contentids` that
`list()` rejects. One that the model cannot express is listed under "Left out":
a stored timestamp with a UTC offset.

The model follows the code where its behaviour is easy to misread:

- The legacy file is removed only on the refresh path of `load_stored_data`, after either
  refresh outcome (`tag_types.py:238-249`). It is not removed after a load from the current
  store or after a legacy migration.
- A stored blob that yields no records never leads to a refresh. The fallback table
  installed at `tag_types.py:327-333` is stamped `now`, so the staleness check at line 336
  passes, whatever the blob's own timestamp (`Manager.EmptyBlobNoRefresh`). A legacy blob
  without records is migrated as an empty `tag_types`, so later starts take this path
  until a refresh, 48 hours into one running session, saves fetched types.
- The decimal branch of the filename parse can never be reached. Every decimal-digit
  name is also valid hexadecimal, so `10.json` is type 16 (`Remote.DecimalLookingNameIsHex`).

## Model

| member | source | states |
|---|---|---|
| Json.PyList | custom_components/opendisplay/tag_types.py:107-108 | `list()` succeeds exactly on lists, strings and dicts, always yields a list, and leaves a list as it is |
| Numerals.ParseHex | custom_components/opendisplay/tag_types.py:383 | on the plain ASCII digit strings the model reads, `int(s, 16)` succeeds exactly on non-empty strings of hex digits |
| Numerals.ParseDecimal | custom_components/opendisplay/tag_types.py:283 | on the plain ASCII digit strings the model reads, `int(s)` succeeds exactly on non-empty strings of decimal digits |
| Numerals.NatToString | custom_components/opendisplay/tag_types.py:260 | `str(type_id)` is a non-empty decimal numeral without a leading zero |
| Numerals.IntToString | custom_components/opendisplay/tag_types.py:71 | the ID in an f-string is its decimal numeral; a negative ID is a minus sign followed by the numeral of its absolute value |
| Numerals.DecimalRoundTrip | custom_components/opendisplay/tag_types.py:260-283 | `int(str(n)) == n` for every ID a table can hold, and a saved timestamp reads back as itself |
| Numerals.NatToStringInjective | custom_components/opendisplay/tag_types.py:259-262 | distinct IDs are saved under distinct keys |
| Numerals.DecimalIsHex | custom_components/opendisplay/tag_types.py:381-397 | every string `int()` reads as decimal is also read by `int(s, 16)` |
| TagTypeRecord.New | custom_components/opendisplay/tag_types.py:69-86 | the constructor; what it promises is stated by the two rows below it |
| TagTypeRecord.MissingKeysTakeDefaults | custom_components/opendisplay/tag_types.py:69-86 | for every definition, each of the thirteen keys it lacks takes the constructor's default for that key, and the record carries the given ID |
| TagTypeRecord.PresentKeysAreCopied | custom_components/opendisplay/tag_types.py:69-86 | for every definition, each of the thirteen keys it has is copied into the record unchanged |
| TagTypeRecord.ConstructorDefaults | custom_components/opendisplay/tag_types.py:69-86 | a definition without keys gives: version 1; name "Unknown Type <id>"; 296 x 128; rotatebuffer 0; bpp 2; white/black/red colour table; shortlut 2; empty options, contentids and template; no usetemplate or zlib_compression |
| TagTypeRecord.NewOfCompleteDict | custom_components/opendisplay/tag_types.py:69-86 | the constructor copies every key the definition has; no default applies |
| TagTypeRecord.ValidDefinitionKeepsRequired | custom_components/opendisplay/tag_types.py:69-73 | a validated definition's version, name, width and height reach the record unchanged |
| TagTypeRecord.ValidTagDefinition | custom_components/opendisplay/tag_types.py:463-464 | `_validate_tag_definition`: version, name, width and height are all present; `ValidDefinitionKeepsRequired` states what that gives the record |
| TagTypeRecord.ToDict | custom_components/opendisplay/tag_types.py:98-112 | `to_dict` succeeds exactly when `list()` accepts both `options` and `content_ids` |
| TagTypeRecord.StorageFormHead | custom_components/opendisplay/tag_types.py:99-104 | the storage form holds version, name, width, height, rotatebuffer and bpp from the record |
| TagTypeRecord.StorageFormTail | custom_components/opendisplay/tag_types.py:105-111 | the storage form holds the colour table, short LUT, the listed options and content IDs, template, usetemplate and zlib_compression |
| TagTypeRecord.StorageFormOmitsOldSpellings | custom_components/opendisplay/tag_types.py:98-112 | the storage form has no `short_lut` or `content_ids` key |
| TagTypeRecord.FromDictRaw | custom_components/opendisplay/tag_types.py:128-142 | the dict `from_dict` hands to the constructor; its keys are stated by the four `FromDictRaw…` rows below |
| TagTypeRecord.FromDict | custom_components/opendisplay/tag_types.py:128-143 | `from_dict`; `FromDictViaConstructor` states that it is the constructor applied to `FromDictRaw` |
| TagTypeRecord.FromDictViaConstructor | custom_components/opendisplay/tag_types.py:128-143 | `from_dict` is the constructor applied to a dict holding all thirteen keys |
| TagTypeRecord.FromDictRawFirst | custom_components/opendisplay/tag_types.py:129-130 | that dict's version defaults to 1; its name is null when absent |
| TagTypeRecord.FromDictRawSize | custom_components/opendisplay/tag_types.py:131-132 | its width and height are null when absent |
| TagTypeRecord.FromDictRawPixels | custom_components/opendisplay/tag_types.py:133-134 | its rotatebuffer and bpp are null when absent |
| TagTypeRecord.FromDictRawTail | custom_components/opendisplay/tag_types.py:135-141 | its shortlut prefers `short_lut`; its colortable is null when absent; its options, contentids and template keep their defaults, with contentids falling back to `content_ids` |
| TagTypeRecord.FromDictOfEmpty | custom_components/opendisplay/tag_types.py:128-143 | from an empty dict, only version, options, contentids and template get the constructor's defaults; the rest are null |
| TagTypeRecord.FromDictKeySpellings | custom_components/opendisplay/tag_types.py:135-138 | `short_lut` wins over `shortlut`; `content_ids` is read only when `contentids` is absent; with neither, contentids is empty |
| TagTypeRecord.StorageRoundTrip | custom_components/opendisplay/tag_types.py:89-143 | `from_dict(t.type_id, t.to_dict())` restores every attribute, with options and content IDs as the lists `list()` made |
| TagTypeRecord.StorageRoundTripOfLists | custom_components/opendisplay/tag_types.py:89-143 | a record whose options and content IDs are lists survives storage exactly |
| TagTypeRecord.Get | custom_components/opendisplay/tag_types.py:145-158 | `get`: the attribute of that name, or the default; stated by the two rows below |
| TagTypeRecord.GetMatchesStorageForm | custom_components/opendisplay/tag_types.py:145-158 | for version, name, width, height, rotatebuffer, bpp, template and zlib_compression, `get` answers what the storage form holds under that key (not for `options`, which is stored as `list(self.options)`) |
| TagTypeRecord.GetIgnoresStorageOnlyKeys | custom_components/opendisplay/tag_types.py:158 | `get` returns the default for the storage-only names colortable, shortlut, contentids and usetemplate |
| Remote.TypeIdFromFilename | custom_components/opendisplay/tag_types.py:377-398 | only `.json` names give an ID, and that ID is always the hexadecimal reading of the base name |
| Remote.DecimalLookingNameIsHex | custom_components/opendisplay/tag_types.py:381-397 | `10.json` is type 16, `0a.json` is type 10, and `notes.json` and `10.txt` are skipped |
| Remote.TypeFiles | custom_components/opendisplay/tag_types.py:376-401 | the usable files of a listing, in order, never more than the listing |
| Remote.TypeFilesMembers | custom_components/opendisplay/tag_types.py:376-401 | an (ID, download) pair is among the usable files exactly when some listing item ends in `.json`, its name parses to that ID, and it carries that download |
| Remote.TypeFilesAppend | custom_components/opendisplay/tag_types.py:376-401 | the filename loop handles each item on its own: the usable files of two listings one after the other are theirs concatenated |
| Remote.Definition | custom_components/opendisplay/tag_types.py:406-416 | a download contributes a definition exactly when its status is 200, its body is a JSON object and `_validate_tag_definition` accepts it; the definition is that object |
| Remote.NewTypes | custom_components/opendisplay/tag_types.py:404-413 | the table the download loop builds; stated by the three rows below |
| Remote.NewTypesKeys | custom_components/opendisplay/tag_types.py:404-418 | an ID is in the new table exactly when some file for it gave a usable definition |
| Remote.NewTypesLastWins | custom_components/opendisplay/tag_types.py:405-413 | the record for an ID is built from the last usable file for that ID |
| Remote.NewTypesWellKeyed | custom_components/opendisplay/tag_types.py:413 | every record of the new table sits under its own ID |
| Remote.Fetched | custom_components/opendisplay/tag_types.py:359-418 | a failed listing yields no types; every table a refresh builds is keyed by the records' own IDs |
| Remote.FetchedKeys | custom_components/opendisplay/tag_types.py:359-418 | an ID is in the refreshed table exactly when some listing item's name parses to that ID and its download gives a valid definition |
| Payload.Present | custom_components/opendisplay/tag_types.py:216-222 | `if stored_data:`: a blob that exists and is non-empty; used by `Manager.SourceOf` |
| Payload.Current | custom_components/opendisplay/tag_types.py:217 | a present blob whose `version` is the storage version; used by `Manager.SourceOf` |
| Payload.LoadedLastUpdate | custom_components/opendisplay/tag_types.py:272-278 | the blob's `last_update` read back, or `now` when it is absent or unreadable; `SavedBlobHeader` and `LoadAfterSave` state what a saved blob gives |
| Payload.StoredTagTypes | custom_components/opendisplay/tag_types.py:281 | the blob's `tag_types` when it is a dict; `LoadedTable` states the raising case |
| Payload.LoadedEntries | custom_components/opendisplay/tag_types.py:280-289 | the records of the keys walked so far, from any stored dict; `LoadedEntriesKeys` and `LoadedEntriesLastWins` state which IDs load and from which entry |
| Payload.LoadedEntriesKeys | custom_components/opendisplay/tag_types.py:280-289 | for any stored dict, an ID is loaded exactly when some key reads as that ID under `int()` and holds a dict; every other key is skipped |
| Payload.LoadedEntriesLastWins | custom_components/opendisplay/tag_types.py:280-289 | the record for an ID is `from_dict` of the last loadable entry whose key reads as that ID |
| Payload.LeadingZeroKeyWins | custom_components/opendisplay/tag_types.py:283-284 | with keys "7" then "07", only type 7 is loaded, from the entry under "07" |
| Payload.StorageForms | custom_components/opendisplay/tag_types.py:259-262 | one storage form per record of the table, each the record's `to_dict()` |
| Payload.EncodesFormsAdd | custom_components/opendisplay/tag_types.py:259-262 | adding one record's storage form under its numeral keeps the saved dict an exact encoding of the forms so far |
| Payload.FormsOfTable | custom_components/opendisplay/tag_types.py:259-262 | forms that match every record's `to_dict()` are exactly the table's storage forms |
| Payload.LoadedTable | custom_components/opendisplay/tag_types.py:280-289 | loading raises exactly when `tag_types` is not a dict; otherwise each record sits under its own ID |
| Payload.EncodedPrefixKeys | custom_components/opendisplay/tag_types.py:280-289 | loading keys of a saved dict loads exactly the IDs whose numerals are among them |
| Payload.EncodedPrefixValues | custom_components/opendisplay/tag_types.py:280-289 | each ID loaded from a saved dict gets `from_dict` of its own stored form |
| Payload.LoadedEncodedPrefix | custom_components/opendisplay/tag_types.py:280-289 | loading a run of keys of a saved dict gives the `from_dict` record of each ID among them, and nothing else |
| Payload.SavedBlob | custom_components/opendisplay/tag_types.py:256-263 | the blob `_save_to_store` writes; `SavedBlobHeader` states its contents |
| Payload.SavedBlobHeader | custom_components/opendisplay/tag_types.py:256-263 | a saved blob has the current version, its timestamp reads back, and its `tag_types` is the saved dict |
| Payload.SavedTableLoads | custom_components/opendisplay/tag_types.py:259-289 | loading a saved table gives each record as storage keeps it, and nothing else |
| Payload.LoadAfterSave | custom_components/opendisplay/tag_types.py:251-291 | a blob `_save_to_store` wrote is accepted by `load_stored_data`, and `_load_from_payload` restores its timestamp and every record |
| Payload.PersistedListTable | custom_components/opendisplay/tag_types.py:251-291 | a table whose records hold lists is restored exactly by save then load |
| Fallback.Definitions | custom_components/opendisplay/tag_types.py:478-572 | the 93 built-in definitions; `FallbackTable`, `FallbackRecord` and `FallbackConfigMode` state what they give |
| Fallback.DefinitionDict | custom_components/opendisplay/tag_types.py:478-572 | every built-in definition passes `_validate_tag_definition` |
| Fallback.FallbackTable | custom_components/opendisplay/tag_types.py:573-575 | the fallback table has exactly the built-in IDs |
| Fallback.NewOfDefinition | custom_components/opendisplay/tag_types.py:69-86 | a built-in record takes its version, name and size from the definition and every other attribute from the constructor's defaults |
| Fallback.FallbackRecord | custom_components/opendisplay/tag_types.py:478-575 | the fallback record of an ID carries that ID's built-in version, name, width and height |
| Fallback.FallbackWellKeyed | custom_components/opendisplay/tag_types.py:573-575 | every fallback record sits under its own ID |
| Fallback.FallbackConfigMode | custom_components/opendisplay/tag_types.py:571 | type 250 is "ConfigMode", with a 0 x 0 display |
| Manager.Stale | custom_components/opendisplay/tag_types.py:336 | the cache is stale when there is no timestamp or it is more than 48 hours before `now` |
| Manager.SourceOf | custom_components/opendisplay/tag_types.py:216-238 | which branch `load_stored_data` takes: the current store when it holds a current blob; the legacy store only when the current one is absent or empty and the legacy blob is current; otherwise a refresh |
| Manager.EncodeTable | custom_components/opendisplay/tag_types.py:259-262 | the comprehension raises exactly when some record cannot be stored; otherwise it yields an exact numeral-keyed encoding of the table |
| Manager.FetchListing | custom_components/opendisplay/tag_types.py:376-418 | the two loops of `_fetch_tag_types` build exactly the table `Remote.Fetched` describes |
| Manager.Refreshed | custom_components/opendisplay/tag_types.py:420-428 | `_fetch_tag_types` from one state to the next: a fetched table replaces the table, is stamped `now` and is saved when it can be; with none, nothing changes |
| Manager.Finished | custom_components/opendisplay/tag_types.py:327-344 | the tail of `ensure_types_loaded`: the built-in table stamped `now` when there are no types; otherwise a refresh exactly when the timestamp is stale |
| Manager.StoredDataLoaded | custom_components/opendisplay/tag_types.py:200-249 | `load_stored_data` from one state to the next, for each of its three branches, including where an error escapes and what each store then holds |
| Manager.Ensured | custom_components/opendisplay/tag_types.py:309-344 | `ensure_types_loaded` from one state to the next: fresh types are kept; stale types are refreshed; with no types, the stored blob, its migration, the refresh or the built-in table, and what each store and the legacy file then hold |
| Manager.RefreshCount | custom_components/opendisplay/tag_types.py:309-344 | at most one refresh per call; with types held, one exactly when they are stale; with none, one exactly when neither a current blob nor a migratable legacy blob is stored, or the loaded types are non-empty and stale |
| Manager.WarmStart | custom_components/opendisplay/tag_types.py:322-344 | starting with types, `ensure_types_loaded` leaves what its tail does |
| Manager.ColdStartRemote | custom_components/opendisplay/tag_types.py:322-344 | starting with no types and nothing usable stored, the types are fresh after `load_stored_data`, so exactly one refresh runs |
| Manager.ColdStartStored | custom_components/opendisplay/tag_types.py:322-344 | starting with no types and a blob stored, the tail refreshes exactly when the loaded types are non-empty and stale |
| Manager.EmptyBlobNoRefresh | custom_components/opendisplay/tag_types.py:216-219 | a current blob with no records, however old its timestamp, gives the built-in table stamped `now`, keeps the store, and runs no refresh |
| Manager.TagTypesManager.constructor | custom_components/opendisplay/tag_types.py:174-198 | a new manager has no types and no timestamp |
| Manager.TagTypesManager.SaveToStore | custom_components/opendisplay/tag_types.py:251-268 | stamps `now` only when unset; raises exactly when the table cannot be stored, leaving storage as it was; otherwise writes the saved blob of the unchanged table |
| Manager.TagTypesManager.LoadFromPayload | custom_components/opendisplay/tag_types.py:270-291 | sets the loaded timestamp; replaces the table with the loaded records; raises exactly when `tag_types` is not a dict, leaving the table empty |
| Manager.TagTypesManager.CleanupLegacyFile | custom_components/opendisplay/tag_types.py:293-307 | the legacy file is gone; both stores are untouched |
| Manager.TagTypesManager.FetchTagTypes | custom_components/opendisplay/tag_types.py:346-444 | with no usable definition, fails and changes nothing; otherwise installs the fetched table stamped `now`, and succeeds exactly when it saves (`Refreshed`) |
| Manager.TagTypesManager.LoadFallbackTypes | custom_components/opendisplay/tag_types.py:466-577 | installs the fallback table stamped `now`; the table is non-empty |
| Manager.TagTypesManager.LoadStoredData | custom_components/opendisplay/tag_types.py:200-249 | the new state is `StoredDataLoaded` of the old: a current blob is loaded and storage is untouched; else a current legacy blob is loaded, saved and dropped; else a refresh runs, the fallback fills an empty table after a failed refresh, and the legacy file is removed; a refresh runs exactly on that last branch |
| Manager.TagTypesManager.FinishLoading | custom_components/opendisplay/tag_types.py:327-344 | afterwards there are types; the new state is `Finished` of the old; a refresh runs exactly when there were types and they were stale |
| Manager.TagTypesManager.EnsureTypesLoaded | custom_components/opendisplay/tag_types.py:309-344 | the new state is `Ensured` of the old. Unless an error escaped, the table is non-empty and has a timestamp. Refreshes number `RefreshCount`: with types held, one exactly when they are stale; with none, one exactly when neither a current blob nor a migratable legacy blob is stored, or the loaded types are non-empty and stale; none otherwise, so a stored blob that yields no records gives the built-in table and no refresh; never two |
| Manager.TagTypesManager.GetTagInfo | custom_components/opendisplay/tag_types.py:579-599 | the state `ensure_types_loaded` leaves (`Ensured`), then the record for the ID when known; None on KeyError or when loading raised |
| Manager.TagTypesManager.GetHwDimensions | custom_components/opendisplay/tag_types.py:601-615 | the record's width and height, or 296 x 128 for an unknown ID |
| Manager.TagTypesManager.GetHwString | custom_components/opendisplay/tag_types.py:617-630 | the record's name, or "Unknown Type <id>" for an unknown ID |
| Manager.TagTypesManager.IsInHwMap | custom_components/opendisplay/tag_types.py:632-644 | true exactly for IDs in the table |
| Manager.TagTypesManager.GetAllTypes | custom_components/opendisplay/tag_types.py:646-656 | a copy holding the same IDs and records |
| Manager.TagTypesManager.UnknownTypeDefaults | custom_components/opendisplay/tag_types.py:613-630 | for an unknown ID, the lookups answer the constructor's defaults for an empty definition |
| Manager.TagTypesManager.KnownTypeLookups | custom_components/opendisplay/tag_types.py:601-656 | for a known ID, the lookups answer from the record `get_all_types` holds |
| Manager.TagTypesManager.FallbackLookups | custom_components/opendisplay/tag_types.py:571-575 | with the fallback table, type 250 is known as "ConfigMode", 0 x 0 |
| ManagerRegistry.Registry.constructor | custom_components/opendisplay/tag_types.py:660 | the slot starts empty |
| ManagerRegistry.Registry.GetTagTypesManager | custom_components/opendisplay/tag_types.py:663-680 | an existing manager is returned untouched; otherwise a fresh one is stored in the slot and loaded from an empty table (`Ensured`), and has types unless loading raised |
| ManagerRegistry.Registry.Reset | custom_components/opendisplay/tag_types.py:683-690 | the slot is empty |
| ManagerRegistry.Registry.HwDimensions | custom_components/opendisplay/tag_types.py:693-708 | 296 x 128 without a manager, else the manager's answer |
| ManagerRegistry.Registry.HwString | custom_components/opendisplay/tag_types.py:711-726 | "Unknown Type <id>" without a manager, else the manager's answer |
| ManagerRegistry.Registry.IsInHwMap | custom_components/opendisplay/tag_types.py:729-744 | false without a manager, else the manager's answer |
| ManagerRegistry.Registry.NoManagerActsAsEmpty | custom_components/opendisplay/tag_types.py:601-744 | without a manager, the wrappers answer exactly what a manager with no types would |
| ManagerRegistry.Registry.UnknownIdDefaults | custom_components/opendisplay/tag_types.py:693-744 | for an ID the wrappers do not know, they answer the constructor's defaults |

## Left out

- HTTP transport: the aiohttp session, the GitHub API headers and URLs. The listing and
  each download are inputs.
- Response text: decoding and JSON parsing are not modelled. A download is its status
  plus an already-parsed JSON value, or None for invalid JSON.
- Floating-point JSON numbers are left out.
- Malformed listing entries are left out. In the source, an item without `name` raises
  out of the filename loop and fails the whole refresh. An item without `download_url`
  is skipped. Every modelled item has both.
- Numerals.ParseHex, Numerals.ParseDecimal, Remote.TypeIdFromFilename,
  Payload.LoadedEntries: `int()` also accepts a sign, surrounding whitespace, underscores
  between digits, a `0x` prefix for base 16 and non-ASCII digits. The model reads only plain ASCII digit strings, so negative IDs
  never arise.
- Home Assistant storage internals are left out: `Store` versions and migration, write
  atomicity and delayed saves. A load error is treated as a missing blob, and a failed
  `async_save` is not modelled. A stored blob is always a dict.
- The saved dict's key order is left out. `_save_to_store` writes the records in the
  table's insertion order. Manager.EncodeTable writes them in an arbitrary order and
  proves only that the encoding is exact, which is all loading depends on.
- The `asyncio.Lock` and the async structure are left out. Each method runs as one
  sequential step.
- Clock resolution is left out. A timestamp is whole seconds, and `isoformat` /
  `fromisoformat` are `Numerals.NatToString` and `Numerals.ParseDecimal` of that number.
  Text `fromisoformat` rejects is any non-numeral.
- Payload.LoadedLastUpdate: a stored `last_update` with a UTC offset is not modelled.
  `fromisoformat("2024-01-01T00:00:00+00:00")` gives an offset-aware datetime.
  `datetime.now() - self._last_update` at `tag_types.py:336` then raises TypeError, and
  every `ensure_types_loaded` call fails while that timestamp stays. The model's timestamps
  are whole seconds with no offset, so this error path never arises. The integration
  itself always writes naive timestamps.
- The `_raw_data` attribute is left out, and so is `get` on method names or on
  attributes other than the record's fields.
- All logging is left out.
- Manager.TagTypesManager.GetAllTypes: Dafny maps are values, so the copy is the table
  itself. Aliasing of the returned dict is not an issue in the model.
