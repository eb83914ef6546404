/**
 * The run history the main window keeps for the whole session. The window
 * owns one list object and every home view holds a reference to that same
 * object, so the entries outlive the view that shows them.
 */
module History {

  /** One history entry: a dictionary from field names (`ts`, `task`, ...) to text. */
  datatype HistoryRecord = HistoryRecord(fields: map<string, string>)

  /** `it.get(key, '')`. */
  function Field(r: HistoryRecord, key: string): string {
    if key in r.fields then r.fields[key] else ""
  }

  /** The listbox line of one entry: its timestamp and its task, joined by a dash. */
  function HistoryLine(r: HistoryRecord): string {
    Field(r, "ts") + " — " + Field(r, "task")
  }

  /** The listbox contents: one line per entry, in insertion order. */
  function HistoryLines(items: seq<HistoryRecord>): (lines: seq<string>)
    ensures |lines| == |items|
    ensures forall i :: 0 <= i < |items| ==> lines[i] == HistoryLine(items[i])
  {
    if items == [] then [] else [HistoryLine(items[0])] + HistoryLines(items[1..])
  }

  /** Appending an entry appends exactly its line: no reordering, no deduplication. */
  lemma {:induction false} HistoryLinesAppend(items: seq<HistoryRecord>, r: HistoryRecord)
    ensures HistoryLines(items + [r]) == HistoryLines(items) + [HistoryLine(r)]
  {
    if items != [] {
      assert (items + [r])[1..] == items[1..] + [r];
      HistoryLinesAppend(items[1..], r);
    }
  }

  /** The shared, mutable history list (`history_items`). */
  class HistoryList {
    var items: seq<HistoryRecord>

    constructor ()
      ensures items == []
    {
      items := [];
    }
  }
}
