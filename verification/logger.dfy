/**
  The server log: a bounded first-in first-out buffer of timestamped
  entries. The timestamp text is a parameter.
*/
module Logger {
  const Capacity := 300

  /** `"[" + timestamp + "] " + msg`. */
  function LogEntry(timestamp: string, msg: string): (e: string)
    ensures |e| == |timestamp| + |msg| + 3
  {
    "[" + timestamp + "] " + msg
  }

  /** An entry can be read back: the timestamp sits between the brackets and the message follows the space. */
  lemma LogEntryFields(timestamp: string, msg: string)
    ensures var e := LogEntry(timestamp, msg);
      e[0] == '[' && e[1..|timestamp| + 1] == timestamp && e[|timestamp| + 1..|timestamp| + 3] == "] "
      && e[|timestamp| + 3..] == msg
  {
    var e := LogEntry(timestamp, msg);
    assert e == ['['] + timestamp + [']', ' '] + msg;
  }

  /** The last `n` entries of a sequence (all of them when it is shorter). */
  function LastN<T>(s: seq<T>, n: nat): (r: seq<T>)
    ensures |r| <= n && |r| <= |s|
    ensures |s| <= n ==> r == s
    ensures |s| > n ==> |r| == n
  {
    if |s| <= n then s else s[|s| - n..]
  }

  /** Keeping the last `n` of a sequence extended by one is appending and then dropping the oldest while too long. */
  lemma LastNSnoc<T>(s: seq<T>, x: T, n: nat)
    requires n > 0
    ensures var kept := LastN(s, n) + [x];
      LastN(s + [x], n) == if |kept| > n then kept[1..] else kept
  {
  }

  class LogBuffer {
    var entries: seq<string>
    /** Every entry ever logged. */
    ghost var history: seq<string>
    /** The entries pushed to an attached UI. */
    var uiSent: seq<string>

    /** The buffer holds the newest entries, at most `Capacity` of them, in the order they were logged. */
    ghost predicate Valid()
      reads this
    {
      entries == LastN(history, Capacity)
    }

    constructor ()
      ensures Valid() && entries == [] && history == [] && uiSent == []
    {
      entries, history, uiSent := [], [], [];
    }

    /**
      `emit_log(msg)` at `timestamp`, with `ui` telling whether a UI is
      attached: appends the entry, drops the oldest once the buffer passes
      its capacity, and pushes the entry to the UI.
    */
    method EmitLog(msg: string, timestamp: string, ui: bool)
      requires Valid()
      modifies this
      ensures Valid()
      ensures history == old(history) + [LogEntry(timestamp, msg)]
      ensures |entries| <= Capacity
      ensures entries[|entries| - 1] == LogEntry(timestamp, msg)
      ensures |old(entries)| < Capacity ==> entries == old(entries) + [LogEntry(timestamp, msg)]
      ensures |old(entries)| == Capacity ==> entries == old(entries)[1..] + [LogEntry(timestamp, msg)]
      ensures uiSent == old(uiSent) + (if ui then [LogEntry(timestamp, msg)] else [])
    {
      var full := LogEntry(timestamp, msg);
      LastNSnoc(history, full, Capacity);
      entries := entries + [full];
      history := history + [full];
      if |entries| > Capacity {
        entries := entries[1..];
      }
      if ui {
        uiSent := uiSent + [full];
      }
    }

    /** `get_log_history()`: the buffer, oldest first. */
    method GetLogHistory() returns (h: seq<string>)
      requires Valid()
      ensures h == entries
      ensures h == LastN(history, Capacity)
    {
      h := entries;
    }
  }
}
