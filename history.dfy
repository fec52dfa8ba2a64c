/** The editor's own snapshot history (`src/views/main/App.tsx`): a bounded,
    branch-truncating list of timestamped texts with a current index, fed by
    the debounced change effect and moved by the history panel's restore. */
module History {

  import opened Wrappers

  /** One snapshot (`HistoryState` in the source). */
  datatype Entry = Entry(timestamp: int, code: string)

  /** The two state cells `history` and `historyIndex`, as one value. */
  datatype Timeline = Timeline(entries: seq<Entry>, index: int)

  /** The size the prefix kept on a new edit may reach before its oldest
      entry is dropped. */
  const HISTORY_LIMIT := 50

  /** What every reachable timeline satisfies: never empty, the index points
      at an entry, and at most one entry more than the limit. */
  predicate Consistent(t: Timeline) {
    1 <= |t.entries| <= HISTORY_LIMIT + 1 && 0 <= t.index < |t.entries|
  }

  /** The timeline the editor starts with: the initial document at index 0. */
  function Initial(now: int, code: string): Timeline {
    Timeline([Entry(now, code)], 0)
  }

  /** The body of the debounced effect: nothing when the text equals the
      current entry's; otherwise keep entries `0..index`, drop the oldest of
      those if there are more than the limit, append the new entry, and point
      at it.  The timestamp `now` stands for `Date.now()`. */
  function AfterRecord(t: Timeline, code: string, now: int): (r: Timeline)
    requires Consistent(t)
    ensures Consistent(r)
    ensures r.entries[r.index].code == code
  {
    if t.entries[t.index].code == code then t
    else
      var kept := t.entries[..t.index + 1];
      var kept := if |kept| > HISTORY_LIMIT then kept[1..] else kept;
      Timeline(kept + [Entry(now, code)], |kept|)
  }

  /** `handleRestoreHistory`'s effect on the timeline: an index outside the
      buffer changes nothing; otherwise only the index moves. */
  function AfterRestore(t: Timeline, target: int): Timeline {
    if 0 <= target < |t.entries| then Timeline(t.entries, target) else t
  }

  /** The text `handleRestoreHistory` hands to the editor, if any. */
  function RestoredText(t: Timeline, target: int): Option<string> {
    if 0 <= target < |t.entries| then Some(t.entries[target].code) else None
  }

  /** The history as an object: `Record` is the debounced effect's update and
      `Restore` is `handleRestoreHistory`. */
  class HistoryBuffer {
    var entries: seq<Entry>
    var index: int

    function Current(): Timeline
      reads this
    {
      Timeline(entries, index)
    }

    ghost predicate Valid()
      reads this
    {
      Consistent(Current())
    }

    constructor (now: int, initial: string)
      ensures Valid() && Current() == Initial(now, initial)
    {
      entries := [Entry(now, initial)];
      index := 0;
    }

    /** The debounced effect's update, step by step; `AfterRecord` is its
        specification. */
    method Record(code: string, now: int)
      requires Valid()
      modifies this
      ensures Valid() && Current() == AfterRecord(old(Current()), code, now)
    {
      if entries[index].code != code {
        var newEntry := Entry(now, code);
        var newHistory := entries[..index + 1];
        if |newHistory| > HISTORY_LIMIT {
          newHistory := newHistory[1..];   // `newHistory.shift()`
        }
        entries := newHistory + [newEntry];
        index := |newHistory|;
      }
    }

    method Restore(target: int) returns (restored: Option<string>)
      requires Valid()
      modifies this
      ensures Valid() && Current() == AfterRestore(old(Current()), target)
      ensures restored == RestoredText(old(Current()), target)
    {
      restored := None;
      if target >= 0 && target < |entries| {
        restored := Some(entries[target].code);
        index := target;
      }
    }
  }

  // ---------------------------------------------------------------------
  // Properties of the history

  /** Recording the text of the current entry changes neither the buffer nor
      the index. */
  lemma RecordUnchangedTextIsNoOp(t: Timeline, now: int)
    requires Consistent(t)
    ensures AfterRecord(t, t.entries[t.index].code, now) == t
  {
  }

  /** Recording a new text keeps exactly the entries up to the index (less the
      oldest when that prefix is longer than the limit), discards everything
      after the index, appends the new entry last and points at it. */
  lemma RecordNewText(t: Timeline, code: string, now: int)
    requires Consistent(t) && t.entries[t.index].code != code
    ensures var r := AfterRecord(t, code, now);
      && r.index == |r.entries| - 1
      && r.entries[r.index] == Entry(now, code)
      && (t.index + 1 <= HISTORY_LIMIT ==> r.entries == t.entries[..t.index + 1] + [Entry(now, code)])
      && (t.index + 1 > HISTORY_LIMIT ==> r.entries == t.entries[1..t.index + 1] + [Entry(now, code)])
  {
  }

  /** At the cap the oldest entry is evicted and every surviving entry moves
      down one place: what was at 1 is now at 0.  The buffer then holds 51
      entries, since eviction runs on the kept prefix before the append. */
  lemma EvictionShiftsDown(t: Timeline, code: string, now: int)
    requires Consistent(t) && |t.entries| == HISTORY_LIMIT + 1 && t.index == HISTORY_LIMIT
    requires t.entries[t.index].code != code
    ensures var r := AfterRecord(t, code, now);
      && |r.entries| == HISTORY_LIMIT + 1
      && r.index == HISTORY_LIMIT
      && (forall i | 0 <= i < HISTORY_LIMIT :: r.entries[i] == t.entries[i + 1])
      && r.entries[HISTORY_LIMIT] == Entry(now, code)
  {
  }

  /** A restore inside the buffer moves the index there, hands back that
      entry's text and leaves the buffer as it was; outside it, nothing
      changes and nothing is handed back. */
  lemma RestoreOnlyMovesIndex(t: Timeline, target: int)
    requires Consistent(t)
    ensures AfterRestore(t, target).entries == t.entries
    ensures 0 <= target < |t.entries| ==>
      AfterRestore(t, target).index == target && RestoredText(t, target) == Some(t.entries[target].code)
    ensures !(0 <= target < |t.entries|) ==> AfterRestore(t, target) == t && RestoredText(t, target).None?
    ensures Consistent(AfterRestore(t, target))
  {
  }

  /** The debounced record that follows a restore sees the restored text,
      which equals the current entry's, so restoring never starts a branch. */
  lemma RestoreThenRecordIsNoOp(t: Timeline, target: int, now: int)
    requires Consistent(t) && 0 <= target < |t.entries|
    ensures AfterRecord(AfterRestore(t, target), RestoredText(t, target).value, now) == AfterRestore(t, target)
  {
  }

  /** A new edit after a restore starts a new branch: with entries [0, 1, 2, 3]
      at index 3, restoring 1 and recording a new text leaves [0, 1, new] at
      index 2. */
  lemma BranchTruncation(t: Timeline, code: string, now: int)
    requires Consistent(t) && |t.entries| == 4 && t.index == 3
    requires t.entries[1].code != code
    ensures AfterRecord(AfterRestore(t, 1), code, now) ==
      Timeline([t.entries[0], t.entries[1], Entry(now, code)], 2)
  {
  }

  /** Records `codes` one after another, the `i`-th at time `times[i]` (each
      run of the effect reads `Date.now()` afresh). */
  function RecordAll(t: Timeline, codes: seq<string>, times: seq<int>): (r: Timeline)
    requires Consistent(t) && |times| == |codes|
    ensures Consistent(r)
    decreases |codes|
  {
    if codes == [] then t else RecordAll(AfterRecord(t, codes[0], times[0]), codes[1..], times[1..])
  }

  /** Each text differs from the one before it, the first from `current`. */
  predicate ChangesEachTime(current: string, codes: seq<string>) {
    && (|codes| > 0 ==> codes[0] != current)
    && forall i | 1 <= i < |codes| :: codes[i] != codes[i - 1]
  }

  /** Below the cap, recording texts that each change the document appends
      one entry per text, with its own timestamp, and leaves the index on the
      last one. */
  lemma {:induction false} RecordAllAppends(t: Timeline, codes: seq<string>, times: seq<int>)
    requires Consistent(t) && t.index == |t.entries| - 1 && |times| == |codes|
    requires |t.entries| + |codes| <= HISTORY_LIMIT + 1
    requires ChangesEachTime(t.entries[t.index].code, codes)
    ensures var r := RecordAll(t, codes, times);
      && |r.entries| == |t.entries| + |codes|
      && r.index == |r.entries| - 1
      && r.entries[..|t.entries|] == t.entries
      && forall i | 0 <= i < |codes| :: r.entries[|t.entries| + i] == Entry(times[i], codes[i])
    decreases |codes|
  {
    if codes != [] {
      var t' := AfterRecord(t, codes[0], times[0]);
      assert codes[0] != t.entries[t.index].code;
      assert t.entries[..t.index + 1] == t.entries;
      assert t'.entries == t.entries + [Entry(times[0], codes[0])];
      assert ChangesEachTime(t'.entries[t'.index].code, codes[1..]) by {
        if |codes| > 1 {
          assert codes[1] != codes[0];
        }
        forall i | 1 <= i < |codes[1..]| ensures codes[1..][i] != codes[1..][i - 1] {
          assert codes[1..][i] == codes[i + 1];
        }
      }
      RecordAllAppends(t', codes[1..], times[1..]);
      var r := RecordAll(t', codes[1..], times[1..]);
      assert r.entries[..|t'.entries|] == t'.entries;
      assert r.entries[..|t.entries|] == r.entries[..|t'.entries|][..|t.entries|];
      forall i | 0 <= i < |codes|
        ensures r.entries[|t.entries| + i] == Entry(times[i], codes[i])
      {
        if i == 0 {
          assert r.entries[|t.entries|] == r.entries[..|t'.entries|][|t.entries|];
        } else {
          assert codes[i] == codes[1..][i - 1] && times[i] == times[1..][i - 1];
        }
      }
    }
  }

  /** From the initial single entry, N texts that each change the document,
      N at most 50, leave N + 1 entries and the index at N. */
  lemma RecordFromInitial(initial: string, codes: seq<string>, start: int, times: seq<int>)
    requires |codes| <= HISTORY_LIMIT && |times| == |codes| && ChangesEachTime(initial, codes)
    ensures var r := RecordAll(Initial(start, initial), codes, times);
      |r.entries| == |codes| + 1 && r.index == |codes|
  {
    RecordAllAppends(Initial(start, initial), codes, times);
  }

}
