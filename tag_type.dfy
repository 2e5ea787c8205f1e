/**
 * One hardware-type definition (`TagType`): a value built from a dict with a
 * default for every missing key, its storage form (`to_dict`), the reconstruction
 * from storage (`from_dict`) and the by-name attribute accessor (`get`).
 */
module TagTypeRecord {
  import opened Wrappers
  import opened Json
  import opened Numerals

  /**
   * The attributes of a tag type. Python keeps whatever JSON value the input dict
   * held, so every attribute but the ID is a JSON value.
   */
  datatype TagType = TagType(
    typeId: int,
    version: Value,
    name: Value,
    width: Value,
    height: Value,
    rotateBuffer: Value,
    bpp: Value,
    colorTable: Value,
    shortLut: Value,
    options: Value,
    contentIds: Value,
    template: Value,
    useTemplate: Value,
    zlibCompression: Value)

  /** The name an unknown type is given: `f"Unknown Type {type_id}"`. */
  function UnknownName(typeId: int): string {
    "Unknown Type " + IntToString(typeId)
  }

  function Rgb(r: int, g: int, b: int): Value {
    JList([JInt(r), JInt(g), JInt(b)])
  }

  /** The colour table a definition without `colortable` gets. */
  const DefaultColorTable: Value := JObj(Dict(
    ["white", "black", "red"],
    map["white" := Rgb(255, 255, 255), "black" := Rgb(0, 0, 0), "red" := Rgb(255, 0, 0)]))

  /** `TagType(type_id, data)`: every attribute read from its key of `data`, or its default. */
  function New(typeId: int, data: Dict): TagType {
    TagType(
      typeId,
      GetOr(data, "version", JInt(1)),
      GetOr(data, "name", JStr(UnknownName(typeId))),
      GetOr(data, "width", JInt(296)),
      GetOr(data, "height", JInt(128)),
      GetOr(data, "rotatebuffer", JInt(0)),
      GetOr(data, "bpp", JInt(2)),
      GetOr(data, "colortable", DefaultColorTable),
      GetOr(data, "shortlut", JInt(2)),
      GetOr(data, "options", JList([])),
      GetOr(data, "contentids", JList([])),
      GetOr(data, "template", JObj(EmptyDict)),
      GetOr(data, "usetemplate", JNull),
      GetOr(data, "zlib_compression", JNull))
  }

  /** The keys of the storage form, in the order `to_dict()` writes them. */
  const StorageKeys: seq<string> := [
    "version", "name", "width", "height", "rotatebuffer", "bpp", "colortable",
    "shortlut", "options", "contentids", "template", "usetemplate", "zlib_compression"]

  /** The dict `to_dict()` returns, given the lists `list()` made of `options` and `contentids`. */
  function StorageForm(t: TagType, options: Value, contentIds: Value): Dict {
    Dict(StorageKeys, map[
      "version" := t.version,
      "name" := t.name,
      "width" := t.width,
      "height" := t.height,
      "rotatebuffer" := t.rotateBuffer,
      "bpp" := t.bpp,
      "colortable" := t.colorTable,
      "shortlut" := t.shortLut,
      "options" := options,
      "contentids" := contentIds,
      "template" := t.template,
      "usetemplate" := t.useTemplate,
      "zlib_compression" := t.zlibCompression])
  }

  /**
   * `to_dict()`: the storage form. `options` and `contentids` go through Python's
   * `list()`, which raises TypeError (None) on a value that is not iterable.
   */
  function ToDict(t: TagType): (r: Option<Dict>)
    ensures r.Some? <==> PyList(t.options).Some? && PyList(t.contentIds).Some?
  {
    match (PyList(t.options), PyList(t.contentIds))
    case (Some(options), Some(contentIds)) => Some(StorageForm(t, options, contentIds))
    case _ => None
  }

  /** The keys of the dict `from_dict` builds, in its order. */
  const RawKeys: seq<string> := [
    "version", "name", "width", "height", "rotatebuffer", "bpp", "shortlut",
    "colortable", "options", "contentids", "template", "usetemplate", "zlib_compression"]

  /**
   * The dict `from_dict` hands to the constructor: every key present, absent ones
   * as null except `version`, `options`, `contentids` and `template`; `short_lut` is
   * read before `shortlut`, `content_ids` only when `contentids` is absent.
   */
  function FromDictRaw(data: Dict): Dict {
    Dict(RawKeys, map[
      "version" := GetOr(data, "version", JInt(1)),
      "name" := GetOr(data, "name", JNull),
      "width" := GetOr(data, "width", JNull),
      "height" := GetOr(data, "height", JNull),
      "rotatebuffer" := GetOr(data, "rotatebuffer", JNull),
      "bpp" := GetOr(data, "bpp", JNull),
      "shortlut" := GetOr(data, "short_lut", GetOr(data, "shortlut", JNull)),
      "colortable" := GetOr(data, "colortable", JNull),
      "options" := GetOr(data, "options", JList([])),
      "contentids" := GetOr(data, "contentids", GetOr(data, "content_ids", JList([]))),
      "template" := GetOr(data, "template", JObj(EmptyDict)),
      "usetemplate" := GetOr(data, "usetemplate", JNull),
      "zlib_compression" := GetOr(data, "zlib_compression", JNull)])
  }

  /**
   * `TagType.from_dict(type_id, data)`: each attribute read from its storage key,
   * with null where `from_dict` passes an explicit null. `FromDictViaConstructor`
   * proves this is the constructor run on `FromDictRaw(data)`.
   */
  function FromDict(typeId: int, data: Dict): TagType {
    TagType(
      typeId,
      GetOr(data, "version", JInt(1)),
      GetOr(data, "name", JNull),
      GetOr(data, "width", JNull),
      GetOr(data, "height", JNull),
      GetOr(data, "rotatebuffer", JNull),
      GetOr(data, "bpp", JNull),
      GetOr(data, "colortable", JNull),
      GetOr(data, "short_lut", GetOr(data, "shortlut", JNull)),
      GetOr(data, "options", JList([])),
      GetOr(data, "contentids", GetOr(data, "content_ids", JList([]))),
      GetOr(data, "template", JObj(EmptyDict)),
      GetOr(data, "usetemplate", JNull),
      GetOr(data, "zlib_compression", JNull))
  }

  /**
   * `get(attr, default)`: the attribute called `attr`, or `default` for a name that
   * is not one of the record's attributes.
   */
  function Get(t: TagType, attr: string, default: Value): Value {
    match attr
    case "type_id" => JInt(t.typeId)
    case "version" => t.version
    case "name" => t.name
    case "width" => t.width
    case "height" => t.height
    case "rotatebuffer" => t.rotateBuffer
    case "bpp" => t.bpp
    case "color_table" => t.colorTable
    case "short_lut" => t.shortLut
    case "options" => t.options
    case "content_ids" => t.contentIds
    case "template" => t.template
    case "use_template" => t.useTemplate
    case "zlib_compression" => t.zlibCompression
    case _ => default
  }

  /** `_validate_tag_definition`: all of version, name, width and height are keys of `data`. */
  predicate ValidTagDefinition(data: Dict) {
    Has(data, "version") && Has(data, "name") && Has(data, "width") && Has(data, "height")
  }

  /** A table in which every record sits under its own, non-negative, ID. */
  ghost predicate WellKeyed(table: map<int, TagType>) {
    forall id :: id in table ==> id >= 0 && table[id].typeId == id
  }

  /** On a dict that has every constructor key, the constructor copies each of them. */
  lemma NewOfCompleteDict(typeId: int, d: Dict)
    requires Has(d, "version") && Has(d, "name") && Has(d, "width") && Has(d, "height")
    requires Has(d, "rotatebuffer") && Has(d, "bpp") && Has(d, "colortable") && Has(d, "shortlut")
    requires Has(d, "options") && Has(d, "contentids") && Has(d, "template")
    requires Has(d, "usetemplate") && Has(d, "zlib_compression")
    ensures New(typeId, d) == TagType(
      typeId,
      d.entries["version"], d.entries["name"], d.entries["width"], d.entries["height"],
      d.entries["rotatebuffer"], d.entries["bpp"], d.entries["colortable"], d.entries["shortlut"],
      d.entries["options"], d.entries["contentids"], d.entries["template"],
      d.entries["usetemplate"], d.entries["zlib_compression"])
  {
  }

  /**
   * `from_dict` builds a dict holding every constructor key and runs the
   * constructor on it, so none of the constructor's own defaults applies.
   */
  lemma FromDictViaConstructor(typeId: int, data: Dict)
    ensures New(typeId, FromDictRaw(data)) == FromDict(typeId, data)
  {
    FromDictRawFirst(data);
    FromDictRawSize(data);
    FromDictRawPixels(data);
    FromDictRawTail(data);
    NewOfCompleteDict(typeId, FromDictRaw(data));
  }

  /** The first two keys of the dict `from_dict` builds. */
  lemma FromDictRawFirst(data: Dict)
    ensures var raw := FromDictRaw(data);
      && Lookup(raw, "version") == Some(GetOr(data, "version", JInt(1)))
      && Lookup(raw, "name") == Some(GetOr(data, "name", JNull))
  {
  }

  /** The third and fourth keys of the dict `from_dict` builds. */
  lemma FromDictRawSize(data: Dict)
    ensures var raw := FromDictRaw(data);
      && Lookup(raw, "width") == Some(GetOr(data, "width", JNull))
      && Lookup(raw, "height") == Some(GetOr(data, "height", JNull))
  {
  }

  /** The fifth and sixth keys of the dict `from_dict` builds. */
  lemma FromDictRawPixels(data: Dict)
    ensures var raw := FromDictRaw(data);
      && Lookup(raw, "rotatebuffer") == Some(GetOr(data, "rotatebuffer", JNull))
      && Lookup(raw, "bpp") == Some(GetOr(data, "bpp", JNull))
  {
  }

  /** The last seven keys of the dict `from_dict` builds. */
  lemma FromDictRawTail(data: Dict)
    ensures var raw := FromDictRaw(data);
      && Lookup(raw, "shortlut") == Some(GetOr(data, "short_lut", GetOr(data, "shortlut", JNull)))
      && Lookup(raw, "colortable") == Some(GetOr(data, "colortable", JNull))
      && Lookup(raw, "options") == Some(GetOr(data, "options", JList([])))
      && Lookup(raw, "contentids") == Some(GetOr(data, "contentids", GetOr(data, "content_ids", JList([]))))
      && Lookup(raw, "template") == Some(GetOr(data, "template", JObj(EmptyDict)))
      && Lookup(raw, "usetemplate") == Some(GetOr(data, "usetemplate", JNull))
      && Lookup(raw, "zlib_compression") == Some(GetOr(data, "zlib_compression", JNull))
  {
  }

  /** The constructor's rule, key by key: a key the definition lacks gives that attribute's default. */
  lemma MissingKeysTakeDefaults(typeId: int, d: Dict)
    ensures var t := New(typeId, d);
      && t.typeId == typeId
      && (!Has(d, "version") ==> t.version == JInt(1))
      && (!Has(d, "name") ==> t.name == JStr(UnknownName(typeId)))
      && (!Has(d, "width") ==> t.width == JInt(296))
      && (!Has(d, "height") ==> t.height == JInt(128))
      && (!Has(d, "rotatebuffer") ==> t.rotateBuffer == JInt(0))
      && (!Has(d, "bpp") ==> t.bpp == JInt(2))
      && (!Has(d, "colortable") ==> t.colorTable == DefaultColorTable)
      && (!Has(d, "shortlut") ==> t.shortLut == JInt(2))
      && (!Has(d, "options") ==> t.options == JList([]))
      && (!Has(d, "contentids") ==> t.contentIds == JList([]))
      && (!Has(d, "template") ==> t.template == JObj(EmptyDict))
      && (!Has(d, "usetemplate") ==> t.useTemplate == JNull)
      && (!Has(d, "zlib_compression") ==> t.zlibCompression == JNull)
  {
  }

  /** The other half of the rule: a key the definition has is copied, whatever its value (null included). */
  lemma PresentKeysAreCopied(typeId: int, d: Dict)
    ensures var t := New(typeId, d);
      && (Has(d, "version") ==> t.version == d.entries["version"])
      && (Has(d, "name") ==> t.name == d.entries["name"])
      && (Has(d, "width") ==> t.width == d.entries["width"])
      && (Has(d, "height") ==> t.height == d.entries["height"])
      && (Has(d, "rotatebuffer") ==> t.rotateBuffer == d.entries["rotatebuffer"])
      && (Has(d, "bpp") ==> t.bpp == d.entries["bpp"])
      && (Has(d, "colortable") ==> t.colorTable == d.entries["colortable"])
      && (Has(d, "shortlut") ==> t.shortLut == d.entries["shortlut"])
      && (Has(d, "options") ==> t.options == d.entries["options"])
      && (Has(d, "contentids") ==> t.contentIds == d.entries["contentids"])
      && (Has(d, "template") ==> t.template == d.entries["template"])
      && (Has(d, "usetemplate") ==> t.useTemplate == d.entries["usetemplate"])
      && (Has(d, "zlib_compression") ==> t.zlibCompression == d.entries["zlib_compression"])
  {
  }

  /** A definition with no keys at all: every attribute takes its constructor default. */
  lemma ConstructorDefaults(typeId: int)
    ensures New(typeId, EmptyDict) == TagType(
      typeId, JInt(1), JStr(UnknownName(typeId)), JInt(296), JInt(128), JInt(0), JInt(2),
      DefaultColorTable, JInt(2), JList([]), JList([]), JObj(EmptyDict), JNull, JNull)
  {
  }

  /**
   * Storage form with no keys at all: `from_dict` passes explicit nulls, so only
   * `version`, `options`, `contentids` and `template` keep the constructor's defaults.
   */
  lemma FromDictOfEmpty(typeId: int)
    ensures FromDict(typeId, EmptyDict) == TagType(
      typeId, JInt(1), JNull, JNull, JNull, JNull, JNull,
      JNull, JNull, JList([]), JList([]), JObj(EmptyDict), JNull, JNull)
  {
  }

  /** `from_dict` reads `short_lut` before `shortlut`, and `content_ids` only when `contentids` is absent. */
  lemma FromDictKeySpellings(typeId: int, data: Dict)
    ensures Has(data, "short_lut") ==> FromDict(typeId, data).shortLut == Lookup(data, "short_lut").value
    ensures !Has(data, "short_lut") && Has(data, "shortlut") ==>
      FromDict(typeId, data).shortLut == Lookup(data, "shortlut").value
    ensures Has(data, "contentids") ==> FromDict(typeId, data).contentIds == Lookup(data, "contentids").value
    ensures !Has(data, "contentids") && Has(data, "content_ids") ==>
      FromDict(typeId, data).contentIds == Lookup(data, "content_ids").value
    ensures !Has(data, "contentids") && !Has(data, "content_ids") ==>
      FromDict(typeId, data).contentIds == JList([])
  {
  }

  /**
   * Storing a record and reading it back under the same ID gives every attribute
   * back, except that `options` and `contentids` return as the lists `list()` made of them.
   */
  lemma StorageRoundTrip(t: TagType)
    requires ToDict(t).Some?
    ensures FromDict(t.typeId, ToDict(t).value) ==
      t.(options := PyList(t.options).value, contentIds := PyList(t.contentIds).value)
  {
    var options, contentIds := PyList(t.options).value, PyList(t.contentIds).value;
    var d := StorageForm(t, options, contentIds);
    assert ToDict(t).value == d;
    StorageFormHead(t, options, contentIds);
    StorageFormTail(t, options, contentIds);
    StorageFormOmitsOldSpellings(t, options, contentIds);
  }

  /** The first six keys of the storage form. */
  lemma StorageFormHead(t: TagType, options: Value, contentIds: Value)
    ensures var d := StorageForm(t, options, contentIds);
      && Lookup(d, "version") == Some(t.version)
      && Lookup(d, "name") == Some(t.name)
      && Lookup(d, "width") == Some(t.width)
      && Lookup(d, "height") == Some(t.height)
      && Lookup(d, "rotatebuffer") == Some(t.rotateBuffer)
      && Lookup(d, "bpp") == Some(t.bpp)
  {
  }

  /** The last seven keys of the storage form. */
  lemma StorageFormTail(t: TagType, options: Value, contentIds: Value)
    ensures var d := StorageForm(t, options, contentIds);
      && Lookup(d, "colortable") == Some(t.colorTable)
      && Lookup(d, "shortlut") == Some(t.shortLut)
      && Lookup(d, "options") == Some(options)
      && Lookup(d, "contentids") == Some(contentIds)
      && Lookup(d, "template") == Some(t.template)
      && Lookup(d, "usetemplate") == Some(t.useTemplate)
      && Lookup(d, "zlib_compression") == Some(t.zlibCompression)
  {
  }

  /** The storage form carries neither older spelling. */
  lemma StorageFormOmitsOldSpellings(t: TagType, options: Value, contentIds: Value)
    ensures Lookup(StorageForm(t, options, contentIds), "short_lut") == None
    ensures Lookup(StorageForm(t, options, contentIds), "content_ids") == None
  {
  }

  /** A record whose `options` and `contentids` are lists survives storage unchanged. */
  lemma StorageRoundTripOfLists(t: TagType)
    requires t.options.JList? && t.contentIds.JList?
    ensures ToDict(t).Some? && FromDict(t.typeId, ToDict(t).value) == t
  {
    StorageRoundTrip(t);
  }

  /** A definition that passes validation gives a record whose four required attributes come from it, not from defaults. */
  lemma ValidDefinitionKeepsRequired(typeId: int, data: Dict)
    requires ValidTagDefinition(data)
    ensures var t := New(typeId, data);
      && t.typeId == typeId
      && t.version == data.entries["version"] && t.name == data.entries["name"]
      && t.width == data.entries["width"] && t.height == data.entries["height"]
  {
  }

  /**
   * `get` reads attributes by their Python names. For the eight names whose storage
   * value is the attribute itself, it answers what the storage form holds; `options`
   * is not among them, since `to_dict` stores `list(self.options)`.
   */
  lemma GetMatchesStorageForm(t: TagType, options: Value, contentIds: Value, default: Value)
    ensures var d := StorageForm(t, options, contentIds);
      && Some(Get(t, "version", default)) == Lookup(d, "version")
      && Some(Get(t, "name", default)) == Lookup(d, "name")
      && Some(Get(t, "width", default)) == Lookup(d, "width")
      && Some(Get(t, "height", default)) == Lookup(d, "height")
      && Some(Get(t, "rotatebuffer", default)) == Lookup(d, "rotatebuffer")
      && Some(Get(t, "bpp", default)) == Lookup(d, "bpp")
      && Some(Get(t, "template", default)) == Lookup(d, "template")
      && Some(Get(t, "zlib_compression", default)) == Lookup(d, "zlib_compression")
  {
    StorageFormHead(t, options, contentIds);
    StorageFormTail(t, options, contentIds);
  }

  /** The storage keys that are not attribute names are unknown to `get`. */
  lemma GetIgnoresStorageOnlyKeys(t: TagType, default: Value)
    ensures Get(t, "colortable", default) == default && Get(t, "shortlut", default) == default
    ensures Get(t, "contentids", default) == default && Get(t, "usetemplate", default) == default
  {
  }
}
