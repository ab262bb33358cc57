/** Where log entries come from. Every entry of every log was put there by one client
    call at a node that led the entry's term, so the index and term that call returned
    name its command wherever it turns up. */
module Provenance {
  import opened RaftLogs
  import opened RaftHandlers
  import opened Cluster
  import opened History
  import opened Invariant
  import opened Steps
  import opened Safety

  // Event j is a client call at a leader, and the entry is the one it appends.
  predicate Starts(peers: set<int>, run: Run, j: nat, entry: LogEntry)
    requires ValidPeers(peers)
  {
    && j < |run| && run[j].ClientStart? && run[j].node in peers
    && var n := NodeAt(peers, run, j, run[j].node);
      n.role == Leader && entry == LogEntry(LastIndex(n.log) + 1, n.term, run[j].command)
  }

  ghost predicate Started(peers: set<int>, run: Run, entry: LogEntry)
    requires ValidPeers(peers)
  {
    exists j: nat :: Starts(peers, run, j, entry)
  }

  ghost predicate AllStarted(peers: set<int>, run: Run, log: seq<LogEntry>)
    requires ValidPeers(peers)
  {
    forall x :: 0 <= x < |log| ==> Started(peers, run, log[x])
  }

  ghost predicate OriginsOk(peers: set<int>, run: Run, s: State)
    requires ValidPeers(peers)
  {
    && s.nodes.Keys == peers
    && (forall i :: i in s.nodes ==> AllStarted(peers, run, s.nodes[i].log))
    && (forall m :: m in s.net && m.AppendRequest? ==> AllStarted(peers, run, m.app.entries))
  }

  // ----- Entries only move -----

  predicate OnlyFrom(log': seq<LogEntry>, log: seq<LogEntry>, more: seq<LogEntry>) {
    forall x :: 0 <= x < |log'| ==> log'[x] in log || log'[x] in more
  }

  lemma {:induction false} MergeOnlyMoves(log: seq<LogEntry>, entries: seq<LogEntry>)
    ensures OnlyFrom(Merge(log, entries), log, entries)
  {
    if |entries| == 0 {
    } else {
      MergeOnlyMoves(log, entries[..|entries| - 1]);
    }
  }

  // What an event can add to the log of its node.
  function NewEntries(s: State, e: Event): (entries: seq<LogEntry>)
    requires Enabled(s, e)
  {
    match e
    case Deliver(AppendRequest(_, app)) => app.entries
    case ClientStart(i, command) =>
      if s.nodes[i].role == Leader then [LogEntry(LastIndex(s.nodes[i].log) + 1, s.nodes[i].term, command)] else []
    case _ => []
  }

  lemma EventOnlyMoves(s: State, e: Event)
    requires Enabled(s, e)
    ensures var i, s' := Site(e), Step(s, e);
      && s'.nodes == s.nodes[i := s'.nodes[i]]
      && OnlyFrom(s'.nodes[i].log, s.nodes[i].log, NewEntries(s, e))
  {
    if e.Deliver? && e.message.AppendRequest? {
      FollowerOnlyMoves(s.nodes[e.message.to], e.message.app);
    } else if e.Deliver? && e.message.AppendResponse? {
      var m := e.message;
      CommitCore(RecordMatch(s.nodes[m.app.leaderId], m.from, m.app.prevLogIndex + |m.app.entries|), s.peers);
    }
  }

  lemma FollowerOnlyMoves(n: Node, args: AppendArgs)
    ensures OnlyFrom(HandleAppendEntries(n, args).0.log, n.log, args.entries)
  {
    MergesOrKeeps(n, args);
    MergeOnlyMoves(n.log, args.entries);
  }

  lemma NewRequestOnlyMoves(s: State, e: Event, m: Message)
    requires m in Step(s, e).net && m !in s.net && m.AppendRequest?
    ensures e.Heartbeat? && e.node in s.nodes && OnlyFrom(m.app.entries, s.nodes[e.node].log, [])
  {
  }

  // ----- Runs -----

  lemma StartedStays(peers: set<int>, run: Run, e: Event, entry: LogEntry)
    requires ValidPeers(peers) && Started(peers, run, entry)
    ensures Started(peers, run + [e], entry)
  {
    var j: nat :| Starts(peers, run, j, entry);
    assert (run + [e])[..j] == run[..j];
    assert Starts(peers, run + [e], j, entry);
  }

  lemma OnlyFromStarted(peers: set<int>, run: Run, log': seq<LogEntry>, log: seq<LogEntry>, more: seq<LogEntry>)
    requires ValidPeers(peers) && OnlyFrom(log', log, more)
    requires AllStarted(peers, run, log) && AllStarted(peers, run, more)
    ensures AllStarted(peers, run, log')
  {
    forall x | 0 <= x < |log'|
      ensures Started(peers, run, log'[x])
    {
      if log'[x] in log {
        var k :| 0 <= k < |log| && log[k] == log'[x];
      } else {
        var k :| 0 <= k < |more| && more[k] == log'[x];
      }
    }
  }

  lemma AllStartedStays(peers: set<int>, run: Run, e: Event, log: seq<LogEntry>)
    requires ValidPeers(peers) && AllStarted(peers, run, log)
    ensures AllStarted(peers, run + [e], log)
  {
    forall x | 0 <= x < |log|
      ensures Started(peers, run + [e], log[x])
    {
      StartedStays(peers, run, e, log[x]);
    }
  }

  lemma NewEntriesStarted(peers: set<int>, run: Run, e: Event)
    requires ValidPeers(peers) && OriginsOk(peers, run, After(peers, run)) && Enabled(After(peers, run), e)
    ensures AllStarted(peers, run + [e], NewEntries(After(peers, run), e))
  {
    var s, run' := After(peers, run), run + [e];
    if e.Deliver? && e.message.AppendRequest? {
      AllStartedStays(peers, run, e, e.message.app.entries);
    } else if e.ClientStart? && s.nodes[e.node].role == Leader {
      assert run'[..|run|] == run;
      assert Starts(peers, run', |run|, NewEntries(s, e)[0]);
    }
  }

  lemma StepKeepsOrigins(peers: set<int>, run: Run, e: Event)
    requires ValidPeers(peers) && OriginsOk(peers, run, After(peers, run))
    ensures OriginsOk(peers, run + [e], Step(After(peers, run), e))
  {
    var s, run' := After(peers, run), run + [e];
    var s' := Step(s, e);
    forall i | i in s'.nodes
      ensures AllStarted(peers, run', s'.nodes[i].log)
    {
      AllStartedStays(peers, run, e, s.nodes[i].log);
      if Enabled(s, e) {
        EventOnlyMoves(s, e);
        NewEntriesStarted(peers, run, e);
        if i == Site(e) { OnlyFromStarted(peers, run', s'.nodes[i].log, s.nodes[i].log, NewEntries(s, e)); }
      }
    }
    forall m | m in s'.net && m.AppendRequest?
      ensures AllStarted(peers, run', m.app.entries)
    {
      if m in s.net {
        AllStartedStays(peers, run, e, m.app.entries);
      } else {
        NewRequestOnlyMoves(s, e, m);
        AllStartedStays(peers, run, e, s.nodes[e.node].log);
        OnlyFromStarted(peers, run', m.app.entries, s.nodes[e.node].log, []);
      }
    }
  }

  lemma {:induction false} RunsKeepOrigins(peers: set<int>, run: Run)
    requires ValidPeers(peers)
    ensures OriginsOk(peers, run, After(peers, run))
  {
    if |run| == 0 {
    } else {
      var k := |run| - 1;
      RunsKeepOrigins(peers, run[..k]);
      StepKeepsOrigins(peers, run[..k], run[k]);
      assert run[..k] + [run[k]] == run;
    }
  }

  // Every entry of every log comes from an earlier client call. This needs no R1.
  lemma EntriesComeFromStart(peers: set<int>, run: Run, k: nat, i: int, x: nat) returns (j: nat)
    requires ValidPeers(peers) && i in peers && k <= |run| && x < |NodeAt(peers, run, k, i).log|
    ensures j < k && Starts(peers, run, j, NodeAt(peers, run, k, i).log[x])
  {
    RunsKeepOrigins(peers, run[..k]);
    var entry := NodeAt(peers, run, k, i).log[x];
    assert Started(peers, run[..k], entry);
    j :| Starts(peers, run[..k], j, entry);
    assert run[..k][..j] == run[..j];
  }

  // No two client calls get the same index and term.
  lemma StartsOnce(peers: set<int>, run: Run, j: nat, j': nat, a: LogEntry, b: LogEntry)
    requires ValidPeers(peers) && R1(peers, run) && j <= j'
    requires Starts(peers, run, j, a) && Starts(peers, run, j', b) && a.index == b.index && a.term == b.term
    ensures j == j' && a == b
  {
    var l := run[j].node;
    ElectionSafety(peers, run, j, j', l, run[j'].node);
    if j < j' {
      AfterStart(peers, run, j, a);
      LeaderAppendOnly(peers, run, j + 1, j', l);
      LogIndexed(peers, run, j, l);
      LogIndexed(peers, run, j', l);
    }
  }

  lemma AfterStart(peers: set<int>, run: Run, j: nat, entry: LogEntry)
    requires ValidPeers(peers) && Starts(peers, run, j, entry)
    ensures var n := NodeAt(peers, run, j, run[j].node);
      NodeAt(peers, run, j + 1, run[j].node) == n.(log := n.log + [entry])
  {
    assert run[..j + 1][..j] == run[..j] && run[..j + 1][j] == run[j];
    RunsAreWellFormed(peers, run[..j]);
    StartStep(After(peers, run[..j]), run[j].node, run[j].command);
  }

  lemma StartStep(s: State, i: int, command: Command)
    requires i in s.nodes
    ensures Step(s, ClientStart(i, command)) == Put(s, i, Start(s.nodes[i], command).0)
  {
  }

  lemma LogIndexed(peers: set<int>, run: Run, k: nat, i: int)
    requires ValidPeers(peers) && R1(peers, run) && i in peers && k <= |run|
    ensures WellIndexed(NodeAt(peers, run, k, i).log)
    ensures LastIndex(NodeAt(peers, run, k, i).log) == |NodeAt(peers, run, k, i).log|
  {
    RootedInPast(peers, run, k, i);
    RootedIndices(PastOf(peers, run).reigns, NodeAt(peers, run, k, i).log);
  }

  // The index and term a client call returned name its command: whatever log has an
  // entry of that term at that index has this one, and whoever applied it applied this.
  lemma StartNamesCommand(peers: set<int>, run: Run, j: nat, entry: LogEntry, k: nat, i: int)
    requires ValidPeers(peers) && R1(peers, run) && Starts(peers, run, j, entry)
    requires k <= |run| && i in peers
    ensures var caller := NodeAt(peers, run, j, run[j].node);
      Start(caller, run[j].command) == (caller.(log := caller.log + [entry]), entry.index, entry.term, true)
    ensures var n := NodeAt(peers, run, k, i);
      entry.index <= |n.log| && n.log[entry.index - 1].term == entry.term ==> n.log[entry.index - 1] == entry
  {
    var n := NodeAt(peers, run, k, i);
    if entry.index <= |n.log| && n.log[entry.index - 1].term == entry.term {
      var j' := EntriesComeFromStart(peers, run, k, i, entry.index - 1);
      LogIndexed(peers, run, k, i);
      if j <= j' {
        StartsOnce(peers, run, j, j', entry, n.log[entry.index - 1]);
      } else {
        StartsOnce(peers, run, j', j, n.log[entry.index - 1], entry);
      }
    }
  }

  // Every applied command is the command of a client call, applied at the index that
  // call returned.
  lemma AppliedComesFromStart(peers: set<int>, run: Run, k: nat, i: int, x: nat) returns (j: nat)
    requires ValidPeers(peers) && R1(peers, run) && R2(peers, run)
    requires i in peers && k <= |run| && x < |NodeAt(peers, run, k, i).applied|
    ensures j < k && run[j].ClientStart? && run[j].node in peers
    ensures var n := NodeAt(peers, run, k, i);
      && x < |n.log| && Starts(peers, run, j, n.log[x]) && n.log[x].index == x + 1
      && n.applied[x] == run[j].command
  {
    CommittedInPast(peers, run, k, i);
    j := EntriesComeFromStart(peers, run, k, i, x);
    LogIndexed(peers, run, k, i);
  }
}
