/** The download history file: `_read_history` and `_append_history_entry`. */
module History {
  import opened Metadata

  /** What the history file holds, as far as reading it can tell. */
  datatype Stored =
    | NoFile                               // the file does not exist
    | Unparsable                           // its text is not JSON
    | NotAList                             // it is JSON, but not a list
    | Records(entries: seq<HistoryEntry>)  // a JSON list of records

  /** `_read_history`: the stored list, or an empty list for a missing, malformed or non-list file. */
  function ReadStored(s: Stored): (entries: seq<HistoryEntry>)
    ensures s.Records? ==> entries == s.entries
    ensures !s.Records? ==> entries == []
  {
    if s.Records? then s.entries else []
  }

  /** The history file, updated in place by each append. */
  class HistoryFile {
    var stored: Stored

    constructor (initial: Stored)
      ensures stored == initial
    {
      stored := initial;
    }

    /** The list `_read_history` returns for the file as it is now. */
    function Read(): seq<HistoryEntry>
      reads this
    {
      ReadStored(stored)
    }

    /** `_append_history_entry`: read the list, add the entry at its end, and write the whole list back. */
    method Append(entry: HistoryEntry)
      modifies this
      ensures stored == Records(old(Read()) + [entry])
      ensures Read() == old(Read()) + [entry]
    {
      var history := Read();
      history := history + [entry];
      stored := Records(history);
    }
  }

  /** Appending to an unreadable file starts a fresh list: the earlier content is lost, not kept. */
  lemma AppendReplacesUnreadable(s: Stored, entry: HistoryEntry)
    requires !s.Records?
    ensures ReadStored(Records(ReadStored(s) + [entry])) == [entry]
  {}

  /** What the file reads as after a run of appends. */
  function AfterAppends(s: Stored, entries: seq<HistoryEntry>): Stored
    decreases |entries|
  {
    if entries == [] then s else AfterAppends(Records(ReadStored(s) + [entries[0]]), entries[1..])
  }

  /** A run of appends leaves the earlier list followed by the new entries, in order. */
  lemma {:induction false} AppendsAccumulate(s: Stored, entries: seq<HistoryEntry>)
    ensures ReadStored(AfterAppends(s, entries)) == ReadStored(s) + entries
    decreases |entries|
  {
    if entries == [] {
      assert ReadStored(s) + entries == ReadStored(s);
    } else {
      AppendsAccumulate(Records(ReadStored(s) + [entries[0]]), entries[1..]);
      assert ReadStored(s) + [entries[0]] + entries[1..] == ReadStored(s) + entries;
    }
  }
}
