/**
 * The refresh from the definition repository, as data: the directory listing and
 * each download are inputs, and what the refresh installs is a function of them.
 */
module Remote {
  import opened Wrappers
  import opened Json
  import opened Numerals
  import opened TagTypeRecord

  /**
   * What downloading one definition file yields: a transport error, or a response
   * with its status and its text parsed as JSON (None: `json.loads` raised).
   */
  datatype Download = TransportError | Response(status: int, body: Option<Value>)

  /** One entry of the directory listing: the file name and what downloading it yields. */
  datatype ListingItem = ListingItem(name: string, download: Download)

  predicate EndsWithJson(name: string) {
    |name| >= 5 && name[|name| - 5..] == ".json"
  }

  /**
   * The type ID a listed file stands for: only `.json` files count, and the name
   * without its extension is read as hexadecimal, then as decimal. None: skipped.
   */
  function TypeIdFromFilename(name: string): (r: Option<nat>)
    ensures r.Some? ==> EndsWithJson(name)
    ensures EndsWithJson(name) ==> r == ParseHex(name[..|name| - 5])
  {
    if !EndsWithJson(name) then None
    else
      var base := name[..|name| - 5];
      match ParseHex(base)
      case Some(id) => Some(id)
      case None =>
        if ParseDecimal(base).Some? then DecimalIsHex(base); ParseDecimal(base)
        else ParseDecimal(base)
  }

  /** `"10.json"` is type 16: the decimal reading is never reached. */
  lemma DecimalLookingNameIsHex()
    ensures TypeIdFromFilename("10.json") == Some(16)
    ensures TypeIdFromFilename("0a.json") == Some(10)
    ensures TypeIdFromFilename("notes.json") == None
    ensures TypeIdFromFilename("10.txt") == None
  {
    assert "10.json"[..2] == "10" && "10"[..1] == "1" && "1"[..0] == "";
    assert HexValue("10") == 16;
    assert "0a.json"[..2] == "0a" && "0a"[..1] == "0" && "0"[..0] == "";
    assert HexValue("0a") == 10;
    assert "notes.json"[..5] == "notes";
    assert !IsHexDigit('n');
  }

  /** `type_files`: the (ID, download) pairs of the listing, in listing order, skipping unusable names. */
  function TypeFiles(items: seq<ListingItem>): (files: seq<(nat, Download)>)
    ensures |files| <= |items|
  {
    if items == [] then []
    else
      var last := items[|items| - 1];
      TypeFiles(items[..|items| - 1]) +
        match TypeIdFromFilename(last.name)
        case Some(id) => [(id, last.download)]
        case None => []
  }

  /** A pair is among the type files exactly when some listed item has that ID and that download. */
  lemma {:induction false} TypeFilesMembers(items: seq<ListingItem>, p: (nat, Download))
    ensures p in TypeFiles(items) <==>
      exists i :: 0 <= i < |items| && TypeIdFromFilename(items[i].name) == Some(p.0) && items[i].download == p.1
  {
    if items != [] {
      var init := items[..|items| - 1];
      TypeFilesMembers(init, p);
      assert forall i :: 0 <= i < |init| ==> init[i] == items[i];
      assert items == init + [items[|items| - 1]];
    }
  }

  /** The type files keep the listing's order: those of a concatenation are concatenated. */
  lemma {:induction false} TypeFilesAppend(a: seq<ListingItem>, b: seq<ListingItem>)
    ensures TypeFiles(a + b) == TypeFiles(a) + TypeFiles(b)
  {
    if b == [] {
      assert a + b == a;
    } else {
      var init := b[..|b| - 1];
      TypeFilesAppend(a, init);
      assert (a + b)[..|a + b| - 1] == a + init;
      assert (a + b)[|a + b| - 1] == b[|b| - 1];
    }
  }

  /**
   * The definition a download contributes: status 200, a body that is a JSON object
   * and passes validation. Anything else is skipped (a body that is not an object
   * makes the constructor raise, which the loop catches).
   */
  function Definition(d: Download): (r: Option<Dict>)
    ensures r.Some? <==>
      d.Response? && d.status == 200 && d.body.Some? && d.body.value.JObj? && ValidTagDefinition(d.body.value.obj)
    ensures r.Some? ==> d.body == Some(JObj(r.value))
  {
    match d
    case Response(200, Some(JObj(data))) => if ValidTagDefinition(data) then Some(data) else None
    case _ => None
  }

  /** `new_types`: each usable download becomes a record; a later file for the same ID replaces an earlier one. */
  function NewTypes(files: seq<(nat, Download)>): map<int, TagType> {
    if files == [] then map[]
    else
      var (id, d) := files[|files| - 1];
      var m := NewTypes(files[..|files| - 1]);
      match Definition(d)
      case Some(data) => m[id := New(id, data)]
      case None => m
  }

  /** An ID is in the new table exactly when some file for it had a usable definition. */
  lemma {:induction false} NewTypesKeys(files: seq<(nat, Download)>, id: int)
    ensures id in NewTypes(files) <==>
      exists i :: 0 <= i < |files| && files[i].0 == id && Definition(files[i].1).Some?
  {
    if files != [] {
      var init := files[..|files| - 1];
      NewTypesKeys(init, id);
      assert forall i :: 0 <= i < |init| ==> init[i] == files[i];
    }
  }

  /** The record for an ID is built from the LAST usable file for that ID. */
  lemma {:induction false} NewTypesLastWins(files: seq<(nat, Download)>, i: nat)
    requires i < |files| && Definition(files[i].1).Some?
    requires forall j :: i < j < |files| && files[j].0 == files[i].0 ==> Definition(files[j].1).None?
    ensures files[i].0 in NewTypes(files)
    ensures NewTypes(files)[files[i].0] == New(files[i].0, Definition(files[i].1).value)
  {
    if i < |files| - 1 {
      var init := files[..|files| - 1];
      assert init[i] == files[i];
      NewTypesLastWins(init, i);
    }
  }

  /** Every record of the new table sits under its own ID. */
  lemma {:induction false} NewTypesWellKeyed(files: seq<(nat, Download)>)
    ensures WellKeyed(NewTypes(files))
  {
    if files != [] {
      var init := files[..|files| - 1];
      NewTypesWellKeyed(init);
      var (id, d) := files[|files| - 1];
      if Definition(d).Some? {
        assert NewTypes(files) == NewTypes(init)[id := New(id, Definition(d).value)];
      }
    }
  }

  /**
   * The table a refresh builds from a listing: None stands for a listing request that
   * failed (status other than 200, transport error), which yields nothing.
   */
  function Fetched(listing: Option<seq<ListingItem>>): (table: map<int, TagType>)
    ensures WellKeyed(table)
  {
    match listing
    case None => map[]
    case Some(items) => NewTypesWellKeyed(TypeFiles(items)); NewTypes(TypeFiles(items))
  }

  /**
   * End to end: a refresh from a listing has a record for `id` exactly when some listed
   * file's name reads as `id` and its download yields a valid definition.
   */
  lemma FetchedKeys(items: seq<ListingItem>, id: int)
    ensures id in Fetched(Some(items)) <==>
      exists i :: 0 <= i < |items| && TypeIdFromFilename(items[i].name).Some?
        && TypeIdFromFilename(items[i].name).value == id && Definition(items[i].download).Some?
  {
    var files := TypeFiles(items);
    NewTypesKeys(files, id);
    if id in Fetched(Some(items)) {
      var j :| 0 <= j < |files| && files[j].0 == id && Definition(files[j].1).Some?;
      TypeFilesMembers(items, files[j]);
    }
    if exists i :: 0 <= i < |items| && TypeIdFromFilename(items[i].name).Some?
        && TypeIdFromFilename(items[i].name).value == id && Definition(items[i].download).Some? {
      var i :| 0 <= i < |items| && TypeIdFromFilename(items[i].name).Some?
        && TypeIdFromFilename(items[i].name).value == id && Definition(items[i].download).Some?;
      var p := (TypeIdFromFilename(items[i].name).value, items[i].download);
      TypeFilesMembers(items, p);
      var j :| 0 <= j < |files| && files[j] == p;
    }
  }
}
