/**
 * The built-in definitions `_load_fallback_types` installs when neither storage
 * nor the definition repository yields any: ID, version, name and dimensions of
 * every known tag model, each completed by the record constructor's defaults.
 */
module Fallback {
  import opened Wrappers
  import opened Json
  import opened TagTypeRecord

  /** The four keys a built-in definition gives. */
  datatype BuiltinDefinition = Def(version: int, name: string, width: int, height: int)

  /** A built-in definition as the dict the constructor reads. */
  function DefinitionDict(def: BuiltinDefinition): (d: Dict)
    ensures ValidTagDefinition(d)
  {
    Dict(["version", "name", "width", "height"], map[
      "version" := JInt(def.version),
      "name" := JStr(def.name),
      "width" := JInt(def.width),
      "height" := JInt(def.height)])
  }

  /** `fallback_definitions`: the built-in definitions by type ID. */
  const Definitions: map<nat, BuiltinDefinition> := map[
    0 := Def(4, "M2 1.54\"", 152, 152),
    1 := Def(5, "M2 2.9\"", 296, 128),
    2 := Def(5, "M2 4.2\"", 400, 300),
    3 := Def(6, "M2 2.2\"", 212, 104),
    4 := Def(4, "M2 2.6\"", 296, 152),
    5 := Def(4, "M2 7.4\"", 640, 384),
    6 := Def(4, "Opticon 2.2\"", 250, 128),
    7 := Def(4, "Opticon 2.9\"", 296, 128),
    8 := Def(2, "Opticon 4.2\"", 400, 300),
    9 := Def(2, "Opticon 7.5\"", 640, 384),
    17 := Def(3, "M2 2.9\" (UC8151)", 296, 128),
    18 := Def(3, "M2 4.2\" UC", 400, 300),
    33 := Def(2, "ST\U{2010}GM29XXF 2.9\"", 296, 128),
    34 := Def(2, "M2 2.7\"", 264, 176),
    38 := Def(1, "M2 7.5\" BW", 640, 384),
    39 := Def(3, "ST\U{2010}GM29MT1 2.9\"", 296, 128),
    40 := Def(2, "M3 1.6\" BWRY", 168, 168),
    41 := Def(1, "M3 2.4\" BWRY", 296, 168),
    42 := Def(1, "M3 3.0\" BWRY", 400, 168),
    43 := Def(1, "M3 2.9\" BWRY", 384, 168),
    44 := Def(1, "M3 4.3\" BWRY", 522, 152),
    45 := Def(2, "M3 12.2\"", 960, 768),
    46 := Def(5, "M3 9.7\"", 960, 672),
    47 := Def(4, "M3 4.3\"", 522, 152),
    48 := Def(2, "M3 1.6\"", 200, 200),
    49 := Def(1, "M3 2.2\"", 296, 160),
    50 := Def(1, "M3 2.6\"", 360, 184),
    51 := Def(3, "M3 2.9\"", 384, 168),
    52 := Def(2, "M3 4.2\"", 400, 300),
    53 := Def(2, "M3 6.0\"", 600, 448),
    54 := Def(5, "M3 7.5\"", 800, 480),
    55 := Def(3, "M3 11.6\"", 960, 640),
    60 := Def(3, "M3 4.2\" BWY", 400, 300),
    64 := Def(1, "M3 2.9\" BW", 384, 168),
    65 := Def(1, "M3 5.85\"", 792, 272),
    66 := Def(1, "M3 5.85\" BW", 792, 272),
    67 := Def(2, "M3 1.3\" Peghook", 144, 200),
    68 := Def(2, "M3 5.81\" BW", 720, 256),
    69 := Def(3, "M3 2.2 Lite\"", 250, 128),
    70 := Def(1, "M3 2.2\" BW", 296, 160),
    71 := Def(4, "M3 2.7\"", 300, 200),
    72 := Def(1, "M3 5.81\" BWR", 720, 256),
    73 := Def(2, "M3 5.81\" V2 BWR", 720, 256),
    74 := Def(1, "M3 1.6\" 200px BWRY", 200, 200),
    75 := Def(1, "M3 2.2\" BWRY", 296, 160),
    76 := Def(1, "M3 7.5\" BWRY", 800, 480),
    77 := Def(3, "M3 11.6\" BWRY", 960, 640),
    78 := Def(2, "M3 2.6\" BW", 360, 184),
    80 := Def(2, "HD150 5.83\" BWR", 648, 480),
    84 := Def(4, "HS BW 2.13\"", 256, 128),
    85 := Def(5, "HS BWR 2.13\"", 256, 128),
    86 := Def(6, "HS BWR 2.66\"", 296, 152),
    87 := Def(3, "TLSR BWR 1.54\"", 200, 200),
    88 := Def(3, "TLSR BW 2.13\"", 256, 128),
    89 := Def(3, "TLSR BWR 2.13\"", 264, 136),
    90 := Def(1, "HS BW 2.13\" LowRes", 212, 104),
    96 := Def(6, "HS BWY 3.5\"", 384, 184),
    97 := Def(4, "HS BWR 3.5\"", 384, 184),
    98 := Def(4, "HS BW 3.5\"", 384, 184),
    99 := Def(6, "TLSR BWR 4.2\"", 400, 300),
    102 := Def(2, "HS BWY 7,5\"", 800, 480),
    103 := Def(3, "HS 2.00\" BWY", 152, 200),
    104 := Def(4, "HS BWY 3.46\"", 480, 176),
    105 := Def(4, "TLSR BW 2.13\"", 250, 136),
    106 := Def(1, "HS BWR 5,83\"", 648, 480),
    107 := Def(3, "HS BWRY 7,5\"", 800, 480),
    108 := Def(3, "HS BWRY 2,00\"", 152, 200),
    109 := Def(3, "HS BWRY 3,5\"", 384, 184),
    110 := Def(3, "HS BWRY 2,9\"", 296, 128),
    111 := Def(2, "HS BWRY 2,60\"", 296, 152),
    128 := Def(1, "Chroma 7.4\"", 640, 384),
    129 := Def(2, "Chroma Aeon 74 7.4\"", 800, 480),
    130 := Def(2, "Chroma29 2.9\"", 296, 128),
    131 := Def(2, "Chroma42 4.2\"", 400, 300),
    176 := Def(5, "Gicisky BLE EPD BW 2.13\"", 250, 128),
    177 := Def(5, "Gicisky BLE EPD BWR 2.13\"", 250, 128),
    178 := Def(2, "Gicisky BLE EPD BW 2.9\"", 296, 128),
    179 := Def(2, "Gicisky BLE EPD BWR 2.9\"", 296, 128),
    181 := Def(2, "Gicisky BLE EPD BWR 4.2\"", 400, 300),
    186 := Def(5, "Gicisky BLE TFT 2.13\"", 250, 136),
    189 := Def(2, "BLE EPD BWR 2.9\" Silabs", 384, 168),
    190 := Def(1, "ATC MiThermometer BLE", 6, 8),
    192 := Def(2, "BWRY example", 360, 184),
    193 := Def(1, "ACeP 4.01", 640, 400),
    194 := Def(1, "Spectra 7.3", 800, 480),
    224 := Def(2, "TFT 320x172", 320, 172),
    225 := Def(2, "TFT 160x80", 160, 80),
    226 := Def(1, "LILYGO TPANEL 4\"", 480, 480),
    227 := Def(1, "GDEM1085Z51 10.85\"", 1360, 480),
    228 := Def(1, "BLE TFT 128x128", 128, 128),
    229 := Def(1, "TFT 240x320", 320, 172),
    240 := Def(2, "SLT\U{2010}EM007 Segmented", 0, 0),
    250 := Def(1, "ConfigMode", 0, 0)
  ]

  /** `{type_id: TagType(type_id, data) for ...}`: the table the fallback installs. */
  function FallbackTable(): (table: map<int, TagType>)
    ensures table.Keys == Definitions.Keys
  {
    map id: nat | id in Definitions :: New(id, DefinitionDict(Definitions[id]))
  }

  /** A record built from a built-in definition: its four attributes, and the constructor's defaults for the rest. */
  lemma NewOfDefinition(id: int, def: BuiltinDefinition)
    ensures New(id, DefinitionDict(def)) == TagType(
      id, JInt(def.version), JStr(def.name), JInt(def.width), JInt(def.height),
      JInt(0), JInt(2), DefaultColorTable, JInt(2), JList([]), JList([]),
      JObj(EmptyDict), JNull, JNull)
  {
    var d := DefinitionDict(def);
    assert Lookup(d, "version") == Some(JInt(def.version));
    assert Lookup(d, "name") == Some(JStr(def.name));
  }

  /** Every built-in record has its definition's four attributes and the constructor's defaults for the rest. */
  lemma FallbackRecord(id: int)
    requires id in Definitions
    ensures var def := Definitions[id];
      FallbackTable()[id] == TagType(
        id, JInt(def.version), JStr(def.name), JInt(def.width), JInt(def.height),
        JInt(0), JInt(2), DefaultColorTable, JInt(2), JList([]), JList([]),
        JObj(EmptyDict), JNull, JNull)
  {
    NewOfDefinition(id, Definitions[id]);
  }

  /** Every built-in ID is non-negative, so the table is keyed by its records' own IDs. */
  lemma FallbackWellKeyed()
    ensures WellKeyed(FallbackTable())
  {
    forall id | id in FallbackTable() ensures id >= 0 && FallbackTable()[id].typeId == id {
      assert id in Definitions;
    }
  }

  /** The table is not empty: it holds, for instance, the configuration-mode pseudo type 250 with no display. */
  lemma FallbackConfigMode()
    ensures 250 in FallbackTable()
    ensures FallbackTable()[250].name == JStr("ConfigMode")
    ensures FallbackTable()[250].width == JInt(0) && FallbackTable()[250].height == JInt(0)
  {
    assert Definitions[250] == Def(1, "ConfigMode", 0, 0);
    FallbackRecord(250);
  }
}
