/**
 * What the spreadsheet host hands the widgets: one record (column id to cell value) and
 * the widget's column mapping (logical column name to the chosen column id). Also the
 * request the widgets hand back when saving.
 */
module Grist {
  import opened Wrappers
  import opened Values
  import Pdf

  type Record = map<string, RawValue>

  /**
   * The widget column mapping: an absent key reads as `undefined`, `None` is an
   * explicit `null` (a column the user has not chosen).
   */
  type ColumnMap = map<string, Option<string>>

  /**
   * The property key `record[mappings[name]]` ends up using: JavaScript turns an
   * undefined or null key into the strings "undefined" and "null".
   */
  function ColumnKey(mappings: ColumnMap, name: string): (key: string)
    ensures name in mappings && mappings[name].Some? ==> key == mappings[name].value
    ensures name !in mappings ==> key == "undefined"
    ensures name in mappings && mappings[name].None? ==> key == "null"
  {
    if name !in mappings then "undefined"
    else match mappings[name]
      case None => "null"
      case Some(c) => c
  }

  /** `record[mappings[name]]`: the cell behind a logical column, `undefined` when there is none. */
  function ValueFor(record: Record, mappings: ColumnMap, name: string): (v: RawValue)
    ensures name in mappings && mappings[name].Some? && mappings[name].value in record
            ==> v == record[mappings[name].value]
    ensures ColumnKey(mappings, name) !in record ==> v == Undefined
  {
    var key := ColumnKey(mappings, name);
    if key in record then record[key] else Undefined
  }

  /** `mappings[name]` is truthy: mapped to a non-empty column id. */
  predicate Mapped(mappings: ColumnMap, name: string)
  {
    name in mappings && mappings[name].Some? && mappings[name].value != ""
  }

  /** No logical column of the table is mapped to `null` (an absent key passes, as `!== null` does). */
  predicate Ready(names: seq<string>, mappings: ColumnMap)
  {
    forall i :: 0 <= i < |names| ==> !(names[i] in mappings && mappings[names[i]].None?)
  }

  /** `Object.values(COLUMN_MAPPING_NAMES).every(config => mappings[config.name] !== null)`. */
  method MappingsIsReady(names: seq<string>, mappings: ColumnMap) returns (ready: bool)
    ensures ready <==> Ready(names, mappings)
    ensures ready ==> forall i :: 0 <= i < |names| && names[i] in mappings ==> mappings[names[i]].Some?
  {
    var i := 0;
    while i < |names|
      invariant 0 <= i <= |names|
      invariant forall j :: 0 <= j < i ==> !(names[j] in mappings && mappings[names[j]].None?)
    {
      if names[i] in mappings && mappings[names[i]].None? {
        return false;
      }
      i := i + 1;
    }
    return true;
  }

  /** What `savePdfToGrist` is asked to do: upload these bytes and link them into this column. */
  datatype SaveRequest = SaveRequest(document: Pdf.Document, column: string, prefix: string)
}
