/** The safety theorems of the Raft core, each over every run of any cluster and
    any two moments of it. */
module Safety {
  import opened Basics
  import opened RaftLogs
  import opened RaftHandlers
  import opened Cluster
  import opened History
  import opened Invariant
  import opened Preservation
  import opened Steps
  import opened Commitment

  // Node i after the first k events.
  function NodeAt(peers: set<int>, run: Run, k: nat, i: int): (n: Node)
    requires ValidPeers(peers) && i in peers && k <= |run|
  {
    RunsAreWellFormed(peers, run[..k]);
    After(peers, run[..k]).nodes[i]
  }

  // The moment after k events, seen from the end of the run.
  lemma Moment(peers: set<int>, run: Run, k: nat, i: int)
    requires ValidPeers(peers) && R1(peers, run) && i in peers && k <= |run|
    ensures var s, h := After(peers, run[..k]), PastOf(peers, run[..k]);
      && s.peers == peers && i in s.nodes && NodeAt(peers, run, k, i) == s.nodes[i]
      && Inv(s, h) && NodeOk(s, h, i) && Advances(h, PastOf(peers, run))
  {
    RunsAreWellFormed(peers, run[..k]);
    R1Prefix(peers, run, k);
    RunsKeep(peers, run[..k]);
    RunsAdvance(peers, run, k);
  }

  // The last moment.
  lemma LastMoment(peers: set<int>, run: Run, i: int)
    requires ValidPeers(peers) && R1(peers, run) && i in peers
    ensures var s, h := After(peers, run), PastOf(peers, run);
      && s.peers == peers && i in s.nodes && NodeAt(peers, run, |run|, i) == s.nodes[i]
      && Inv(s, h) && NodeOk(s, h, i)
  {
    assert run[..|run|] == run;
    Moment(peers, run, |run|, i);
  }

  // Whoever leads at some moment is the leader of the reign the whole run records,
  // and its log then is where that reign's log had got to.
  predicate LedIn(reigns: Reigns, n: Node) {
    && n.term in reigns && reigns[n.term].leader == n.id
    && Contains(reigns[n.term].log, n.log, |n.log|)
    && forall x :: |n.log| <= x < |reigns[n.term].log| ==> reigns[n.term].log[x].term == n.term
  }

  lemma LeaderLed(s: State, h: Past, i: int, h': Past)
    requires i in s.nodes && NodeOk(s, h, i) && s.nodes[i].role == Leader && Advances(h, h')
    ensures s.nodes[i].id == i && LedIn(h'.reigns, s.nodes[i])
  {
    var n := s.nodes[i];
    assert GrewTo(h.reigns[n.term], h'.reigns[n.term], n.term);
  }

  lemma LeaderInPast(peers: set<int>, run: Run, k: nat, i: int)
    requires ValidPeers(peers) && R1(peers, run) && i in peers && k <= |run|
    requires NodeAt(peers, run, k, i).role == Leader
    ensures NodeAt(peers, run, k, i).id == i && LedIn(PastOf(peers, run).reigns, NodeAt(peers, run, k, i))
  {
    Moment(peers, run, k, i);
    LeaderLed(After(peers, run[..k]), PastOf(peers, run[..k]), i, PastOf(peers, run));
  }

  // Election safety: one leader a term, over the whole run.
  lemma ElectionSafety(peers: set<int>, run: Run, j: nat, k: nat, a: int, b: int)
    requires ValidPeers(peers) && R1(peers, run) && j <= |run| && k <= |run| && a in peers && b in peers
    requires NodeAt(peers, run, j, a).role == Leader && NodeAt(peers, run, k, b).role == Leader
    requires NodeAt(peers, run, j, a).term == NodeAt(peers, run, k, b).term
    ensures a == b
  {
    LeaderInPast(peers, run, j, a);
    LeaderInPast(peers, run, k, b);
  }

  // The integer counter of an election is one plus a number of distinct peers, each
  // of which granted its vote of that term to the candidate and to nobody else.
  lemma VotesCountDistinctGranters(peers: set<int>, run: Run, c: int, term: nat)
    requires ValidPeers(peers) && R1(peers, run) && (c, term) in After(peers, run).tallies
    ensures var s, h := After(peers, run), PastOf(peers, run);
      exists q ::
        && q <= peers - {c} - s.tallies[(c, term)].waiting
        && s.tallies[(c, term)].votes == 1 + |q|
        && forall p :: p in q ==> Granted(h.voted, p, term, c)
  {
    RunsAreWellFormed(peers, run);
    RunsKeep(peers, run);
    assert TallyOk(After(peers, run), PastOf(peers, run), (c, term));
    var q := PastOf(peers, run).counted[(c, term)];
    assert forall p :: p in q ==> Granted(PastOf(peers, run).voted, p, term, c);
  }

  // A leader only extends its log while it leads.
  lemma LeaderAppendOnly(peers: set<int>, run: Run, j: nat, k: nat, i: int)
    requires ValidPeers(peers) && R1(peers, run) && i in peers && j <= k <= |run|
    requires NodeAt(peers, run, j, i).role == Leader && NodeAt(peers, run, k, i).role == Leader
    requires NodeAt(peers, run, j, i).term == NodeAt(peers, run, k, i).term
    ensures NodeAt(peers, run, j, i).log <= NodeAt(peers, run, k, i).log
  {
    assert run[..k][..j] == run[..j];
    R1Prefix(peers, run, k);
    var earlier := NodeAt(peers, run[..k], j, i);
    LeaderInPast(peers, run[..k], j, i);
    Moment(peers, run, k, i);
    LeaderExtended(After(peers, run[..k]), PastOf(peers, run[..k]), i, earlier);
  }

  lemma LeaderExtended(s: State, h: Past, i: int, earlier: Node)
    requires i in s.nodes && NodeOk(s, h, i) && s.nodes[i].role == Leader
    requires LedIn(h.reigns, earlier) && earlier.term == s.nodes[i].term
    ensures earlier.log <= s.nodes[i].log
  {
    var log := s.nodes[i].log;
    assert log[..|earlier.log|] == earlier.log;
  }

  lemma RootedInPast(peers: set<int>, run: Run, k: nat, i: int)
    requires ValidPeers(peers) && R1(peers, run) && i in peers && k <= |run|
    ensures Rooted(PastOf(peers, run).reigns, NodeAt(peers, run, k, i).log)
  {
    Moment(peers, run, k, i);
    RootedGrows(PastOf(peers, run[..k]).reigns, PastOf(peers, run).reigns, NodeAt(peers, run, k, i).log);
  }

  // Log matching, at any two moments: an index with the same term in two logs
  // carries the same entry, and so does every index before it.
  lemma LogMatching(peers: set<int>, run: Run, j: nat, k: nat, a: int, b: int, i: nat)
    requires ValidPeers(peers) && R1(peers, run) && j <= |run| && k <= |run| && a in peers && b in peers
    requires i < |NodeAt(peers, run, j, a).log| && i < |NodeAt(peers, run, k, b).log|
    requires NodeAt(peers, run, j, a).log[i].term == NodeAt(peers, run, k, b).log[i].term
    ensures NodeAt(peers, run, j, a).log[..i + 1] == NodeAt(peers, run, k, b).log[..i + 1]
    ensures forall x :: 0 <= x <= i ==> NodeAt(peers, run, j, a).log[x].index == x + 1
  {
    RootedInPast(peers, run, j, a);
    RootedInPast(peers, run, k, b);
    RootedMatches(PastOf(peers, run).reigns, NodeAt(peers, run, j, a).log, NodeAt(peers, run, k, b).log);
    assert Contains(NodeAt(peers, run, j, a).log, NodeAt(peers, run, k, b).log, i + 1);
  }

  // Log matching between a log and a message in flight, through the message's
  // previous entry.
  lemma MessageMatching(peers: set<int>, run: Run, m: Message, k: nat, a: int, x: nat)
    requires ValidPeers(peers) && R1(peers, run) && k <= |run| && a in peers
    requires m in After(peers, run).net && m.AppendRequest? && 0 <= x < |m.app.entries|
    ensures m.app.prevLogIndex >= 0
    ensures var i, log := m.app.prevLogIndex + x, NodeAt(peers, run, k, a).log;
      i < |log| && log[i].term == m.app.entries[x].term ==>
        && log[m.app.prevLogIndex..i + 1] == m.app.entries[..x + 1]
        && (m.app.prevLogIndex > 0 ==> log[m.app.prevLogIndex - 1].term == m.app.prevLogTerm)
  {
    RunsKeep(peers, run);
    RootedInPast(peers, run, k, a);
    MessageMatchesLog(After(peers, run), PastOf(peers, run), m, NodeAt(peers, run, k, a).log, x);
  }

  lemma MessageMatchesLog(s: State, h: Past, m: Message, log: seq<LogEntry>, x: nat)
    requires Inv(s, h) && m in s.net && m.AppendRequest? && x < |m.app.entries| && Rooted(h.reigns, log)
    ensures m.app.prevLogIndex >= 0
    ensures var i := m.app.prevLogIndex + x;
      i < |log| && log[i].term == m.app.entries[x].term ==>
        && log[m.app.prevLogIndex..i + 1] == m.app.entries[..x + 1]
        && (m.app.prevLogIndex > 0 ==> log[m.app.prevLogIndex - 1].term == m.app.prevLogTerm)
  {
    var prev := m.app.prevLogIndex;
    assert MessageOk(s, h, m) && ReignOk(s, h, m.app.term);
    var R := h.reigns[m.app.term].log;
    var i := prev + x;
    if i < |log| && log[i].term == m.app.entries[x].term {
      RootedMatches(h.reigns, log, R);
      assert m.app.entries[x] == R[i];
      assert Contains(log, R, i + 1);
      assert log[prev..i + 1] == log[..i + 1][prev..];
      assert m.app.entries[..x + 1] == R[..i + 1][prev..];
      if prev > 0 { ContainsAt(log, R, i + 1, prev - 1); }
    }
  }

  // matchIndex, although it can move backwards, never claims too much of a peer
  // that is still in the leader's term.
  lemma MatchIndexSound(peers: set<int>, run: Run, l: int, p: int)
    requires ValidPeers(peers) && R1(peers, run) && l in peers && p in peers && l != p
    requires NodeAt(peers, run, |run|, l).role == Leader
    requires NodeAt(peers, run, |run|, p).term == NodeAt(peers, run, |run|, l).term
    ensures var leader, peer := NodeAt(peers, run, |run|, l), NodeAt(peers, run, |run|, p);
      var m := At(leader.matchIndex, p);
      m <= |leader.log| && m <= |peer.log| && peer.log[..m] == leader.log[..m]
  {
    LastMoment(peers, run, l);
    LastMoment(peers, run, p);
    MatchIndexSoundIn(After(peers, run), PastOf(peers, run), l, p);
  }

  lemma MatchIndexSoundIn(s: State, h: Past, l: int, p: int)
    requires Inv(s, h) && l in s.nodes && p in s.nodes && l != p
    requires s.nodes[l].role == Leader && s.nodes[p].term == s.nodes[l].term
    ensures Contains(s.nodes[p].log, s.nodes[l].log, At(s.nodes[l].matchIndex, p))
  {
    var leader := s.nodes[l];
    assert NodeOk(s, h, l) && PeerIndexOk(leader, h.acks, p);
    var m := At(leader.matchIndex, p);
    if m > 0 { AcknowledgedIsHeld(s, h, p, leader.term, m); }
  }

  // An older message never shortens a log: once a node has answered a message of some
  // leader with success, no message of that leader that reaches less far changes its log.
  lemma OlderMessageKeepsLog(peers: set<int>, run: Run, v: int, m: Message, done: Message)
    requires ValidPeers(peers) && R1(peers, run) && v in peers
    requires m in After(peers, run).net && m.AppendRequest?
    requires done in After(peers, run).net && done.AppendResponse? && done.from == v && done.appReply.success
    requires done.app.term == m.app.term
    requires m.app.prevLogIndex + |m.app.entries| <= done.app.prevLogIndex + |done.app.entries|
    ensures HandleAppendEntries(NodeAt(peers, run, |run|, v), m.app).0.log == NodeAt(peers, run, |run|, v).log
  {
    LastMoment(peers, run, v);
    OlderMessageKeeps(After(peers, run), PastOf(peers, run), v, m, done);
  }

  lemma OlderMessageKeeps(s: State, h: Past, v: int, m: Message, done: Message)
    requires Inv(s, h) && v in s.nodes && m in s.net && m.AppendRequest?
    requires done in s.net && done.AppendResponse? && done.from == v && done.appReply.success
    requires done.app.term == m.app.term
    requires m.app.prevLogIndex + |m.app.entries| <= done.app.prevLogIndex + |done.app.entries|
    ensures HandleAppendEntries(s.nodes[v], m.app).0.log == s.nodes[v].log
  {
    assert MessageOk(s, h, m) && MessageOk(s, h, done);
    AcknowledgedPieceKeeps(s, h, v, m.app);
  }

  lemma AcknowledgedPieceKeeps(s: State, h: Past, v: int, args: AppendArgs)
    requires AcksOk(s, h) && ReignsOk(s, h) && v in s.nodes && AppOk(h.reigns, args)
    requires args.prevLogIndex + |args.entries| <= AckOf(h.acks, v, args.term)
    ensures HandleAppendEntries(s.nodes[v], args).0.log == s.nodes[v].log
  {
    MergesOrKeeps(s.nodes[v], args);
    if args.term >= s.nodes[v].term && |args.entries| > 0 {
      var R := h.reigns[args.term].log;
      AcknowledgedIsHeld(s, h, v, args.term, args.prevLogIndex + |args.entries|);
      assert WellIndexed(R) by {
        assert ReignOk(s, h, args.term);
        RootedMatches(h.reigns, R, R);
      }
      OlderMessageNeverShortens(s.nodes[v].log, args.prevLogIndex, args.entries, R);
    }
  }

  // What v acknowledged to the leader of a term it has not passed is in its log.
  lemma AcknowledgedIsHeld(s: State, h: Past, v: int, term: nat, i: nat)
    requires AcksOk(s, h) && v in s.nodes && term in h.reigns
    requires term >= s.nodes[v].term && 0 < i <= AckOf(h.acks, v, term)
    ensures Contains(s.nodes[v].log, h.reigns[term].log, i)
  {
    assert AckOk(s, h, (v, term));
    assert AckKept(s, h, v, term, i);
  }

  lemma MergesOrKeeps(n: Node, args: AppendArgs)
    ensures var log := HandleAppendEntries(n, args).0.log;
      log == n.log || (args.term >= n.term && |args.entries| > 0 && log == Merge(n.log, args.entries))
  {
  }

  // ----- Commitment -----

  // Event j is a leader's commit index moving, by counting replicas.
  predicate CommitsAt(peers: set<int>, run: Run, j: nat, i: int)
    requires ValidPeers(peers) && j < |run| && i in peers
  {
    && run[j].Deliver? && run[j].message.AppendResponse? && Enabled(After(peers, run[..j]), run[j]) && Site(run[j]) == i
    && NodeAt(peers, run, j + 1, i).commitIndex > NodeAt(peers, run, j, i).commitIndex
  }

  lemma CommitIsSealed(peers: set<int>, run: Run, j: nat, i: int)
    requires ValidPeers(peers) && j < |run| && i in peers && CommitsAt(peers, run, j, i)
    ensures var n := NodeAt(peers, run, j + 1, i);
      exists seal :: seal in PastOf(peers, run[..j + 1]).seals && seal.term == n.term && seal.index == n.commitIndex
  {
    assert run[..j + 1][..j] == run[..j];
    assert run[..j + 1][j] == run[j];
    var s, h, m := After(peers, run[..j]), PastOf(peers, run[..j]), run[j].message;
    var n' := HandleAppendReply(s.nodes[i], s.peers, m.from, m.app, m.appReply);
    assert NodeAt(peers, run, j + 1, i) == n';
    assert SealOf(n', s.peers) in PastOf(peers, run[..j + 1]).seals;
  }

  // Leader completeness: what a leader commits is in the log of every leader of a
  // later term, at any moment of the run, before the commit as well as after it.
  lemma LeaderCompleteness(peers: set<int>, run: Run, j: nat, c: int, k: nat, l: int)
    requires ValidPeers(peers) && R1(peers, run) && R2(peers, run)
    requires j < |run| && c in peers && CommitsAt(peers, run, j, c)
    requires k <= |run| && l in peers && NodeAt(peers, run, k, l).role == Leader
    requires NodeAt(peers, run, k, l).term > NodeAt(peers, run, j + 1, c).term
    ensures var committer, leader := NodeAt(peers, run, j + 1, c), NodeAt(peers, run, k, l);
      Contains(leader.log, committer.log, committer.commitIndex)
  {
    var seal := CommitterSeals(peers, run, j, c);
    RunsCommit(peers, run);
    LeaderInPast(peers, run, k, l);
    SealedInLeader(After(peers, run), PastOf(peers, run), seal, NodeAt(peers, run, j + 1, c), NodeAt(peers, run, k, l));
  }

  // The committer leads, and its commit is on record at the end of the run.
  lemma CommitterSeals(peers: set<int>, run: Run, j: nat, c: int) returns (seal: Seal)
    requires ValidPeers(peers) && R1(peers, run) && R2(peers, run)
    requires j < |run| && c in peers && CommitsAt(peers, run, j, c)
    ensures var n := NodeAt(peers, run, j + 1, c);
      && seal in PastOf(peers, run).seals && seal.term == n.term && seal.index == n.commitIndex <= |n.log|
      && LedIn(PastOf(peers, run).reigns, n)
  {
    CommitIsSealed(peers, run, j, c);
    var n := NodeAt(peers, run, j + 1, c);
    seal :| seal in PastOf(peers, run[..j + 1]).seals && seal.term == n.term && seal.index == n.commitIndex;
    Moment(peers, run, j + 1, c);
    CommitterLeads(peers, run, j, c);
    LeaderInPast(peers, run, j + 1, c);
  }

  lemma SealedInLeader(s: State, h: Past, seal: Seal, committer: Node, leader: Node)
    requires Inv(s, h) && SealOk(s, h, seal)
    requires seal.term == committer.term < leader.term && seal.index == committer.commitIndex <= |committer.log|
    requires LedIn(h.reigns, committer) && LedIn(h.reigns, leader)
    ensures Contains(leader.log, committer.log, seal.index)
  {
    LaterLeadersHold(s, h, seal, leader.term);
    assert ReignOk(s, h, seal.term);
    HeldSoFar(h.reigns, seal, committer.log, leader.log, leader.term);
  }

  lemma CommitterLeads(peers: set<int>, run: Run, j: nat, i: int)
    requires ValidPeers(peers) && R1(peers, run) && R2(peers, run)
    requires j < |run| && i in peers && CommitsAt(peers, run, j, i)
    ensures var n := NodeAt(peers, run, j + 1, i);
      n.role == Leader && n.commitIndex <= |n.log|
  {
    var s, m := After(peers, run[..j]), run[j].message;
    assert run[..j + 1][..j] == run[..j];
    assert NodeAt(peers, run, j + 1, i) == HandleAppendReply(s.nodes[i], s.peers, m.from, m.app, m.appReply);
    CountingReply(s.nodes[i], s.peers, m.from, m.app, m.appReply);
    CommittedInPast(peers, run, j + 1, i);
  }

  // The sealed entry is older than the leader's term, so it was there when the
  // leader was elected.
  lemma HeldSoFar(reigns: Reigns, seal: Seal, C: seq<LogEntry>, L: seq<LogEntry>, term: nat)
    requires seal.term in reigns && term in reigns && seal.term < term
    requires 1 <= seal.index <= |reigns[seal.term].log| && TermsUpTo(reigns[seal.term].log, seal.term)
    requires Contains(reigns[term].log, reigns[seal.term].log, seal.index)
    requires Contains(reigns[seal.term].log, C, |C|) && seal.index <= |C|
    requires Contains(reigns[term].log, L, |L|)
    requires forall x :: |L| <= x < |reigns[term].log| ==> reigns[term].log[x].term == term
    ensures Contains(L, C, seal.index)
  {
    ContainsAt(reigns[term].log, reigns[seal.term].log, seal.index, seal.index - 1);
    ContainsMonotone(reigns[term].log, L, |L|, seal.index);
    ContainsMonotone(reigns[seal.term].log, C, |C|, seal.index);
  }

  // State machine safety: of what any two nodes have applied at any two moments,
  // one is a prefix of the other.
  lemma StateMachineSafety(peers: set<int>, run: Run, j: nat, k: nat, a: int, b: int)
    requires ValidPeers(peers) && R1(peers, run) && R2(peers, run)
    requires j <= |run| && k <= |run| && a in peers && b in peers
    ensures var A, B := NodeAt(peers, run, j, a).applied, NodeAt(peers, run, k, b).applied;
      A <= B || B <= A
  {
    var na, nb := NodeAt(peers, run, j, a), NodeAt(peers, run, k, b);
    CommittedInPast(peers, run, j, a);
    CommittedInPast(peers, run, k, b);
    RunsCommit(peers, run);
    if na.commitIndex <= nb.commitIndex {
      AppliedAgrees(After(peers, run), PastOf(peers, run), na, nb);
    } else {
      AppliedAgrees(After(peers, run), PastOf(peers, run), nb, na);
    }
  }

  lemma AppliedAgrees(s: State, h: Past, a: Node, b: Node)
    requires Inv(s, h) && (forall seal :: seal in h.seals ==> SealOk(s, h, seal))
    requires CommitWithinLog(a) && CommitWithinLog(b) && a.commitIndex <= b.commitIndex
    requires Sealed(h, a.log[..a.commitIndex], a.term) && Sealed(h, b.log[..b.commitIndex], b.term)
    ensures a.applied <= b.applied
  {
    SealedLogsAgree(s, h, a.log[..a.commitIndex], a.term, b.log[..b.commitIndex], b.term);
  }

  lemma CommittedInPast(peers: set<int>, run: Run, k: nat, i: int)
    requires ValidPeers(peers) && R1(peers, run) && R2(peers, run) && k <= |run| && i in peers
    ensures var n := NodeAt(peers, run, k, i);
      CommitWithinLog(n) && Sealed(PastOf(peers, run), n.log[..n.commitIndex], n.term)
  {
    Moment(peers, run, k, i);
    R1Prefix(peers, run, k);
    RunsCommit(peers, run[..k]);
    CommittedIn(After(peers, run[..k]), PastOf(peers, run[..k]), i, PastOf(peers, run));
  }

  lemma CommittedIn(s: State, h: Past, i: int, h': Past)
    requires CommitInv(s, h) && i in s.nodes && Advances(h, h')
    ensures var n := s.nodes[i];
      CommitWithinLog(n) && Sealed(h', n.log[..n.commitIndex], n.term)
  {
  }

  // Everything committed is applied, in log order, and nothing else.
  lemma AppliedIsCommittedLog(peers: set<int>, run: Run, i: int)
    requires ValidPeers(peers) && R1(peers, run) && R2(peers, run) && i in peers
    ensures var n := NodeAt(peers, run, |run|, i);
      && n.lastApplied == n.commitIndex <= |n.log| == LastIndex(n.log)
      && n.applied == Commands(n.log[..n.lastApplied])
  {
    CommittedInPast(peers, run, |run|, i);
    RootedInPast(peers, run, |run|, i);
    RootedIndices(PastOf(peers, run).reigns, NodeAt(peers, run, |run|, i).log);
  }

  // A node's commit index never decreases, and what it committed stays in its log.
  lemma CommitNeverDecreases(peers: set<int>, run: Run, j: nat, k: nat, i: int)
    requires ValidPeers(peers) && R1(peers, run) && R2(peers, run) && i in peers && j <= k <= |run|
    ensures NodeAt(peers, run, j, i).commitIndex <= NodeAt(peers, run, k, i).commitIndex
    ensures NodeAt(peers, run, j, i).applied <= NodeAt(peers, run, k, i).applied
    decreases k - j
  {
    if j < k {
      CommitNeverDecreases(peers, run, j, k - 1, i);
      var s, e := After(peers, run[..k - 1]), run[k - 1];
      assert run[..k][..k - 1] == run[..k - 1];
      CommittedInPast(peers, run, k - 1, i);
      CommittedInPast(peers, run, k, i);
      StateMachineSafety(peers, run, k - 1, k, i, i);
      StepKeepsCommitIndex(peers, run, k - 1, i);
    }
  }

  lemma StepKeepsCommitIndex(peers: set<int>, run: Run, k: nat, i: int)
    requires ValidPeers(peers) && R1(peers, run) && R2(peers, run) && i in peers && k < |run|
    ensures NodeAt(peers, run, k, i).commitIndex <= NodeAt(peers, run, k + 1, i).commitIndex
  {
    assert run[..k + 1][..k] == run[..k] && run[..k + 1][k] == run[k];
    Moment(peers, run, k, i);
    R1Prefix(peers, run, k);
    RunsCommit(peers, run[..k]);
    EventKeepsCommitIndex(After(peers, run[..k]), PastOf(peers, run[..k]), run[k], i);
  }

  lemma EventKeepsCommitIndex(s: State, h: Past, e: Event, i: int)
    requires Inv(s, h) && CommitInv(s, h) && i in s.nodes
    ensures i in Step(s, e).nodes && s.nodes[i].commitIndex <= Step(s, e).nodes[i].commitIndex
  {
    if Enabled(s, e) && Site(e) == i && VotingEvent(e) {
      VotingIsQuiet(s, h, e);
    } else if Enabled(s, e) && Site(e) == i && e.Deliver? {
      DeliveryKeepsCommitIndex(s, h, e.message, i);
    } else {
      OthersKeepCommitIndex(s, e, i);
    }
  }

  lemma OthersKeepCommitIndex(s: State, e: Event, i: int)
    requires i in s.nodes
    requires !Enabled(s, e) || Site(e) != i || (!VotingEvent(e) && !e.Deliver?)
    ensures Step(s, e).nodes[i].commitIndex == s.nodes[i].commitIndex
  {
  }

  lemma DeliveryKeepsCommitIndex(s: State, h: Past, m: Message, i: int)
    requires Inv(s, h) && CommitInv(s, h) && i in s.nodes && Enabled(s, Deliver(m)) && Site(Deliver(m)) == i
    requires m.AppendRequest? || m.AppendResponse?
    ensures s.nodes[i].commitIndex <= Step(s, Deliver(m)).nodes[i].commitIndex
  {
    if m.AppendRequest? {
      RequestKeepsCommitIndex(s, h, i, m);
    } else {
      assert NodeCommitOk(h, s.nodes[i]);
      ReplyKeepsCommitIndex(s.nodes[i], s.peers, m.from, m.app, m.appReply);
    }
  }

  lemma RequestKeepsCommitIndex(s: State, h: Past, i: int, m: Message)
    requires Inv(s, h) && CommitInv(s, h) && i in s.nodes && m in s.net && m.AppendRequest?
    ensures s.nodes[i].commitIndex <= HandleAppendEntries(s.nodes[i], m.app).0.commitIndex
  {
    CapIsLastNewEntry(s, h, i, m);
  }

  lemma ReplyKeepsCommitIndex(n: Node, peers: set<int>, peer: int, args: AppendArgs, reply: AppendReply)
    requires 0 <= args.prevLogIndex && CommitWithinLog(n)
    ensures n.commitIndex <= HandleAppendReply(n, peers, peer, args, reply).commitIndex
  {
    if HandleAppendReply(n, peers, peer, args, reply).commitIndex < n.commitIndex {
      ResponseIsQuiet(n, peers, peer, args, reply);
    }
  }

  // Capping the commit index by the follower's last index is capping it by the last
  // new entry, as section 5.3 and figure 2 of the Raft paper ask.
  lemma CapIsLastNewEntry(s: State, h: Past, v: int, m: Message)
    requires Inv(s, h) && CommitInv(s, h) && v in s.nodes && m in s.net && m.AppendRequest?
    ensures 0 <= m.app.leaderCommit <= m.app.prevLogIndex + |m.app.entries|
    ensures var n, args := s.nodes[v], m.app;
      var (n', reply) := HandleAppendEntries(n, args);
      n'.commitIndex == if reply.success && args.leaderCommit > n.commitIndex
                        then Min(args.leaderCommit, args.prevLogIndex + |args.entries|) else n.commitIndex
  {
    var n, args := s.nodes[v], m.app;
    assert MessageOk(s, h, m) && MessageCommitOk(h, args);
    if args.term >= n.term && PrevMatches(n.log, args) {
      MergedReaches(s, h, v, args);
      CapReaches(n, args);
    }
  }

  // The merged log reaches the message's last entry.
  lemma MergedReaches(s: State, h: Past, v: int, args: AppendArgs)
    requires NodesOk(s, h) && ReignsOk(s, h) && v in s.nodes
    requires AppOk(h.reigns, args) && PrevMatches(s.nodes[v].log, args)
    ensures LastIndex(Merge(s.nodes[v].log, args.entries)) >= args.prevLogIndex + |args.entries|
  {
    assert NodeOk(s, h, v) && ReignOk(s, h, args.term);
    AcceptMoves(h.reigns, s.nodes[v].log, args);
    RootedIndices(h.reigns, Merge(s.nodes[v].log, args.entries));
  }

  lemma CapReaches(n: Node, args: AppendArgs)
    requires args.term >= n.term && PrevMatches(n.log, args) && args.leaderCommit <= args.prevLogIndex + |args.entries|
    requires LastIndex(Merge(n.log, args.entries)) >= args.prevLogIndex + |args.entries|
    ensures HandleAppendEntries(n, args).1.success
    ensures HandleAppendEntries(n, args).0.commitIndex ==
      if args.leaderCommit > n.commitIndex then args.leaderCommit else n.commitIndex
  {
  }

  lemma CommitCapIsSafe(peers: set<int>, run: Run, v: int, m: Message)
    requires ValidPeers(peers) && R1(peers, run) && R2(peers, run) && v in peers
    requires m in After(peers, run).net && m.AppendRequest?
    ensures 0 <= m.app.leaderCommit <= m.app.prevLogIndex + |m.app.entries|
    ensures var n, args := NodeAt(peers, run, |run|, v), m.app;
      var (n', reply) := HandleAppendEntries(n, args);
      n'.commitIndex == if reply.success && args.leaderCommit > n.commitIndex
                        then Min(args.leaderCommit, args.prevLogIndex + |args.entries|) else n.commitIndex
  {
    LastMoment(peers, run, v);
    RunsCommit(peers, run);
    CapIsLastNewEntry(After(peers, run), PastOf(peers, run), v, m);
  }
}
