/** The Raft log: entries, the operations of `RaftLog`, and the merge loop that
    `AppendEntries` runs on it together with the simple form that loop refines. */
module RaftLogs {

  import opened Basics

  // A command type is one byte on the wire; only these two mean something.
  const COMMAND_SET: byte := 0
  const COMMAND_DELETE: byte := 1

  datatype Command = Command(kind: byte, key: Bytes, value: Bytes)

  // Indices and terms are uint64 in the program and unbounded here.
  datatype LogEntry = LogEntry(index: nat, term: nat, command: Command)

  // ----- Reading a log -----

  // The index stored in the last entry, not the length.
  function LastIndex(log: seq<LogEntry>): (index: nat) {
    if |log| == 0 then 0 else log[|log| - 1].index
  }

  // A position lookup: it does not look at the stored index.
  function Get(log: seq<LogEntry>, index: nat): (entry: Option<LogEntry>) {
    if index == 0 || index > |log| then None else Some(log[index - 1])
  }

  function EntriesFrom(log: seq<LogEntry>, index: nat): (entries: seq<LogEntry>) {
    if index == 0 || index > |log| then [] else log[index - 1..]
  }

  function TruncateFrom(log: seq<LogEntry>, index: nat): (log': seq<LogEntry>) {
    if index == 0 || index > |log| then log else log[..index - 1]
  }

  // The term of the last entry as elections read it: zero for an empty log, and
  // zero too when the stored last index points past the end.
  function LastTerm(log: seq<LogEntry>): (term: nat) {
    if LastIndex(log) == 0 then 0
    else match Get(log, LastIndex(log)) case Some(entry) => entry.term case None => 0
  }

  function Commands(log: seq<LogEntry>): (commands: seq<Command>) {
    seq(|log|, i requires 0 <= i < |log| => log[i].command)
  }

  // Entries start + 1, start + 2, ... in order; a log is WellIndexed from zero.
  predicate IndexedFrom(start: nat, entries: seq<LogEntry>) {
    forall i :: 0 <= i < |entries| ==> entries[i].index == start + i + 1
  }

  predicate WellIndexed(log: seq<LogEntry>) {
    IndexedFrom(0, log)
  }

  // ----- The merge loop -----

  // One turn of the loop.
  function MergeOne(log: seq<LogEntry>, entry: LogEntry): (log': seq<LogEntry>) {
    match Get(log, entry.index)
    case Some(existing) =>
      if existing.term != entry.term then TruncateFrom(log, entry.index) + [entry] else log
    case None => log + [entry]
  }

  // All turns, the last entry last.
  function Merge(log: seq<LogEntry>, entries: seq<LogEntry>): (log': seq<LogEntry>) {
    if |entries| == 0 then log
    else MergeOne(Merge(log, entries[..|entries| - 1]), entries[|entries| - 1])
  }

  // The first position at or after `from` where the overlapping parts disagree on the term.
  function FirstConflict(log: seq<LogEntry>, prev: nat, entries: seq<LogEntry>, from: nat): (at: Option<nat>)
    ensures at.None? ==> forall j :: from <= j < |entries| && prev + j < |log| ==> log[prev + j].term == entries[j].term
    ensures at.Some? ==>
      && from <= at.value < |entries| && prev + at.value < |log|
      && log[prev + at.value].term != entries[at.value].term
      && forall j :: from <= j < at.value ==> log[prev + j].term == entries[j].term
    decreases |entries| - from
  {
    if from >= |entries| || prev + from >= |log| then None
    else if log[prev + from].term != entries[from].term then Some(from)
    else FirstConflict(log, prev, entries, from + 1)
  }

  // What the loop is for: keep the log while the terms agree, extend it past its
  // end, and from the first conflict on take the message's entries.
  function MergeSpec(log: seq<LogEntry>, prev: nat, entries: seq<LogEntry>): (log': seq<LogEntry>)
    requires prev <= |log|
  {
    match FirstConflict(log, prev, entries, 0)
    case Some(c) => log[..prev + c] + entries[c..]
    case None => if prev + |entries| <= |log| then log else log + entries[|log| - prev..]
  }

  lemma {:induction false} FirstConflictOfPrefix(log: seq<LogEntry>, prev: nat, entries: seq<LogEntry>, from: nat)
    requires |entries| > 0 && from <= |entries| - 1
    ensures FirstConflict(log, prev, entries[..|entries| - 1], from).Some? ==>
      FirstConflict(log, prev, entries, from) == FirstConflict(log, prev, entries[..|entries| - 1], from)
    ensures FirstConflict(log, prev, entries[..|entries| - 1], from).None? ==>
      FirstConflict(log, prev, entries, from) ==
        if prev + |entries| - 1 < |log| && log[prev + |entries| - 1].term != entries[|entries| - 1].term
        then Some(|entries| - 1) else None
    decreases |entries| - from
  {
    var init := entries[..|entries| - 1];
    if from == |init| {
      assert FirstConflict(log, prev, init, from) == None;
      if prev + from < |log| && log[prev + from].term == entries[from].term {
        assert FirstConflict(log, prev, entries, from + 1) == None;
      }
    } else if prev + from < |log| && log[prev + from].term == entries[from].term {
      FirstConflictOfPrefix(log, prev, entries, from + 1);
    }
  }

  // One turn of the loop, after a conflict and before one.
  lemma MergeOneAfterConflict(log: seq<LogEntry>, prev: nat, entries: seq<LogEntry>, c: nat)
    requires |entries| > 0 && c < |entries| - 1 && prev + c < |log|
    requires entries[|entries| - 1].index == prev + |entries|
    ensures MergeOne(log[..prev + c] + entries[..|entries| - 1][c..], entries[|entries| - 1])
         == log[..prev + c] + entries[c..]
  {
    var k := |entries| - 1;
    assert |log[..prev + c] + entries[..k][c..]| == prev + k;
    assert entries[c..] == entries[..k][c..] + [entries[k]];
  }

  lemma MergeOneBeforeConflict(log: seq<LogEntry>, prev: nat, entries: seq<LogEntry>)
    requires |entries| > 0 && prev <= |log|
    requires entries[|entries| - 1].index == prev + |entries|
    ensures var k := |entries| - 1;
      var sofar := if prev + k <= |log| then log else log + entries[..k][|log| - prev..];
      MergeOne(sofar, entries[k]) ==
        if prev + k >= |log| then log + entries[|log| - prev..]
        else if log[prev + k].term != entries[k].term then log[..prev + k] + entries[k..]
        else log
  {
    var k := |entries| - 1;
    if prev + k >= |log| {
      assert entries[|log| - prev..] == entries[..k][|log| - prev..] + [entries[k]];
      if prev + k == |log| {
        assert entries[..k][|log| - prev..] == [];
      }
    } else {
      assert entries[k..] == [entries[k]];
    }
  }

  // The loop computes the simple form, on any log and message a run can produce.
  lemma {:induction false} MergeRefinesSpec(log: seq<LogEntry>, prev: nat, entries: seq<LogEntry>)
    requires prev <= |log| && IndexedFrom(prev, entries)
    ensures Merge(log, entries) == MergeSpec(log, prev, entries)
  {
    if |entries| == 0 {
    } else {
      var k := |entries| - 1;
      var init := entries[..k];
      MergeRefinesSpec(log, prev, init);
      FirstConflictOfPrefix(log, prev, entries, 0);
      assert entries[k].index == prev + |entries|;
      match FirstConflict(log, prev, init, 0) {
        case Some(c) => MergeOneAfterConflict(log, prev, entries, c);
        case None => MergeOneBeforeConflict(log, prev, entries);
      }
    }
  }

  // Indices stay contiguous from one.
  lemma MergeKeepsIndices(log: seq<LogEntry>, prev: nat, entries: seq<LogEntry>)
    requires WellIndexed(log) && prev <= |log| && IndexedFrom(prev, entries)
    ensures WellIndexed(Merge(log, entries))
  {
    MergeRefinesSpec(log, prev, entries);
  }

  lemma NothingNewKeeps(log: seq<LogEntry>, prev: nat, entries: seq<LogEntry>)
    requires prev + |entries| <= |log| && IndexedFrom(prev, entries)
    requires forall j :: 0 <= j < |entries| ==> log[prev + j].term == entries[j].term
    ensures Merge(log, entries) == log
  {
    MergeRefinesSpec(log, prev, entries);
  }

  // A second delivery of the same message changes nothing.
  lemma RedeliveryIsIdempotent(log: seq<LogEntry>, prev: nat, entries: seq<LogEntry>)
    requires prev <= |log| && IndexedFrom(prev, entries)
    ensures Merge(Merge(log, entries), entries) == Merge(log, entries)
  {
    var merged := MergeSpec(log, prev, entries);
    MergeRefinesSpec(log, prev, entries);
    forall j | 0 <= j < |entries|
      ensures merged[prev + j].term == entries[j].term
    {
    }
    NothingNewKeeps(merged, prev, entries);
  }

  // ----- Two logs that agree on a prefix -----

  predicate Contains(a: seq<LogEntry>, b: seq<LogEntry>, i: nat) {
    i <= |a| && i <= |b| && a[..i] == b[..i]
  }

  lemma ContainsMonotone(a: seq<LogEntry>, b: seq<LogEntry>, i: nat, j: nat)
    requires Contains(a, b, i) && j <= i
    ensures Contains(a, b, j)
  {
    assert a[..j] == a[..i][..j] && b[..j] == b[..i][..j];
  }

  lemma ContainsAt(a: seq<LogEntry>, b: seq<LogEntry>, i: nat, k: nat)
    requires Contains(a, b, i) && k < i
    ensures a[k] == b[k]
  {
    assert a[k] == a[..i][k] && b[k] == b[..i][k];
  }

  // Log L matches R: an entry of R's term at its place means R's prefix.
  predicate Matches(L: seq<LogEntry>, R: seq<LogEntry>) {
    forall i :: 0 <= i < |L| && i < |R| && L[i].term == R[i].term ==> Contains(L, R, i + 1)
  }

  // Merging a part of log R into a log that matches R: the result holds R
  // through the message, keeps every prefix already shared with R, and is either
  // the old log or a prefix of R.
  ghost predicate MovedTowards(log: seq<LogEntry>, merged: seq<LogEntry>, R: seq<LogEntry>, m: nat) {
    && Contains(merged, R, m)
    && (merged == log || merged == R[..m])
    && (forall i: nat :: Contains(log, R, i) ==> Contains(merged, R, i))
  }

  lemma MovedToPrefix(log: seq<LogEntry>, R: seq<LogEntry>, m: nat)
    requires m <= |R|
    requires forall i: nat :: Contains(log, R, i) ==> i <= m
    ensures MovedTowards(log, R[..m], R, m)
  {
    forall i: nat | Contains(log, R, i)
      ensures Contains(R[..m], R, i)
    {
      assert R[..m][..i] == R[..i];
    }
  }

  lemma ConflictReplaces(log: seq<LogEntry>, prev: nat, c: nat, R: seq<LogEntry>, m: nat)
    requires prev + c < m <= |R| && prev + c < |log|
    requires Contains(log, R, prev + c) && log[prev + c].term != R[prev + c].term
    ensures MovedTowards(log, log[..prev + c] + R[prev + c..m], R, m)
  {
    forall i: nat | Contains(log, R, i)
      ensures i <= m
    {
      if i > prev + c {
        ContainsAt(log, R, i, prev + c);
        assert false;
      }
    }
    assert log[..prev + c] + R[prev + c..m] == R[..m];
    MovedToPrefix(log, R, m);
  }

  lemma ExtensionReplaces(log: seq<LogEntry>, R: seq<LogEntry>, m: nat)
    requires |log| < m <= |R| && Contains(log, R, |log|)
    ensures MovedTowards(log, log + R[|log|..m], R, m)
  {
    assert log + R[|log|..m] == R[..m];
    MovedToPrefix(log, R, m);
  }

  lemma MergeSpecTowards(log: seq<LogEntry>, prev: nat, R: seq<LogEntry>, m: nat)
    requires Matches(log, R) && prev <= m <= |R| && Contains(log, R, prev)
    ensures MovedTowards(log, MergeSpec(log, prev, R[prev..m]), R, m)
  {
    match FirstConflict(log, prev, R[prev..m], 0) {
      case Some(c) => ConflictTowards(log, prev, R, m, c);
      case None => NoConflictTowards(log, prev, R, m);
    }
  }

  lemma ConflictTowards(log: seq<LogEntry>, prev: nat, R: seq<LogEntry>, m: nat, c: nat)
    requires Matches(log, R) && prev <= m <= |R| && Contains(log, R, prev)
    requires c < m - prev && prev + c < |log| && log[prev + c].term != R[prev + c].term
    requires forall j :: 0 <= j < c ==> log[prev + j].term == R[prev..m][j].term
    ensures MovedTowards(log, log[..prev + c] + R[prev..m][c..], R, m)
  {
    SharedUpTo(log, prev, R[prev..m], R, c);
    assert R[prev..m][c..] == R[prev + c..m];
    ConflictReplaces(log, prev, c, R, m);
  }

  lemma NoConflictTowards(log: seq<LogEntry>, prev: nat, R: seq<LogEntry>, m: nat)
    requires Matches(log, R) && prev <= m <= |R| && Contains(log, R, prev)
    requires forall j :: 0 <= j < m - prev && prev + j < |log| ==> log[prev + j].term == R[prev..m][j].term
    ensures MovedTowards(log, if m <= |log| then log else log + R[prev..m][|log| - prev..], R, m)
  {
    if m <= |log| {
      SharedUpTo(log, prev, R[prev..m], R, m - prev);
    } else {
      SharedUpTo(log, prev, R[prev..m], R, |log| - prev);
      assert R[prev..m][|log| - prev..] == R[|log|..m];
      ExtensionReplaces(log, R, m);
    }
  }

  lemma MergeTowards(log: seq<LogEntry>, prev: nat, entries: seq<LogEntry>, R: seq<LogEntry>)
    requires IndexedFrom(prev, entries) && Matches(log, R)
    requires prev + |entries| <= |R| && entries == R[prev..prev + |entries|]
    requires Contains(log, R, prev)
    ensures MovedTowards(log, Merge(log, entries), R, prev + |entries|)
  {
    var m := prev + |entries|;
    assert MovedTowards(log, Merge(log, entries), R, m) by {
      assert Merge(log, entries) == MergeSpec(log, prev, R[prev..m]) by {
        MergeRefinesSpec(log, prev, entries);
      }
      MergeSpecTowards(log, prev, R, m);
    }
  }

  // A log that holds a leader's through the message's last entry, whatever comes behind
  // it, loses nothing to an older message of that leader.
  lemma OlderMessageNeverShortens(log: seq<LogEntry>, prev: nat, entries: seq<LogEntry>, R: seq<LogEntry>)
    requires WellIndexed(R) && Contains(log, R, prev + |entries|) && entries == R[prev..prev + |entries|]
    ensures Merge(log, entries) == log
  {
    forall j | 0 <= j < |entries|
      ensures log[prev + j] == entries[j]
    {
      ContainsAt(log, R, prev + |entries|, prev + j);
    }
    NothingNewKeeps(log, prev, entries);
  }

  lemma SharedUpTo(log: seq<LogEntry>, prev: nat, entries: seq<LogEntry>, R: seq<LogEntry>, c: nat)
    requires Matches(log, R) && Contains(log, R, prev)
    requires prev + |entries| <= |R| && entries == R[prev..prev + |entries|]
    requires c <= |entries| && prev + c <= |log|
    requires forall j :: 0 <= j < c ==> log[prev + j].term == entries[j].term
    ensures Contains(log, R, prev + c)
  {
    if c > 0 {
      assert log[prev + (c - 1)].term == entries[c - 1].term == R[prev + c - 1].term;
      assert Contains(log, R, prev + c - 1 + 1);
    }
  }

  // ----- The mutable log -----

  class RaftLog {
    var entries: seq<LogEntry>

    constructor ()
      ensures entries == []
    {
      entries := [];
    }

    method Append(term: nat, command: Command) returns (entry: LogEntry)
      modifies this
      ensures entry == LogEntry(LastIndex(old(entries)) + 1, term, command)
      ensures entries == old(entries) + [entry]
    {
      entry := LogEntry(LastIndex(entries) + 1, term, command);
      entries := entries + [entry];
    }

    method Truncate(index: nat)
      modifies this
      ensures entries == TruncateFrom(old(entries), index)
    {
      if index == 0 || index > |entries| {
        return;
      }
      entries := entries[..index - 1];
    }

    // The merge loop, one entry of the message at a time.
    method MergeEntries(news: seq<LogEntry>)
      modifies this
      ensures entries == Merge(old(entries), news)
    {
      for k := 0 to |news|
        invariant entries == Merge(old(entries), news[..k])
      {
        var entry := news[k];
        assert news[..k + 1][..k] == news[..k];
        match Get(entries, entry.index) {
          case Some(existing) =>
            if existing.term != entry.term {
              Truncate(entry.index);
              entries := entries + [entry];
            }
          case None =>
            entries := entries + [entry];
        }
      }
      assert news[..|news|] == news;
    }
  }
}
