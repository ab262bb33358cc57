/** Commitment: what counting replicas establishes when the counted entry is of the
    leader's own term (R2), and the invariant on commit indices that follows. */
module Commitment {
  import opened RaftLogs
  import opened RaftHandlers
  import opened Cluster
  import opened History
  import opened Invariant
  import opened Preservation
  import opened Steps

  // ----- The past only advances -----

  ghost predicate Advances(h: Past, h': Past) {
    && Grows(h.reigns, h'.reigns)
    && (forall v, t :: AckOf(h.acks, v, t) <= AckOf(h'.acks, v, t))
    && h.seals <= h'.seals
  }

  lemma AdvancesTransitive(h: Past, h': Past, h'': Past)
    requires Advances(h, h') && Advances(h', h'')
    ensures Advances(h, h'')
  {
    forall t | t in h.reigns
      ensures GrewTo(h.reigns[t], h''.reigns[t], t)
    {
      assert GrewTo(h.reigns[t], h'.reigns[t], t) && GrewTo(h'.reigns[t], h''.reigns[t], t);
      var A, B, C := h.reigns[t].log, h'.reigns[t].log, h''.reigns[t].log;
      ContainsMonotone(C, B, |B|, |A|);
      forall k | |A| <= k < |C|
        ensures C[k].term == t
      {
        if k < |B| { ContainsAt(C, B, |B|, k); }
      }
    }
  }

  lemma ReignAdvances(s: State, h: Past, c: int, voters: set<int>)
    requires AcksOk(s, h) && ReignsOk(s, h) && c in s.nodes && s.nodes[c].term !in h.reigns
    ensures Advances(h, RecordReign(h, c, s.nodes[c].term, voters, s.nodes[c].log))
  {
  }

  lemma VoteResponseAdvances(s: State, h: Past, m: Message)
    requires Inv(s, h) && m.VoteResponse? && Enabled(s, Deliver(m))
    ensures Advances(h, Record(h, s, Deliver(m)))
  {
    var c, term, from, reply := m.vote.candidateId, m.vote.term, m.from, m.voteReply;
    var n, tally := s.nodes[c], s.tallies[(c, term)];
    NothingLost(h);
    if n.role == Candidate && n.term == term && reply.term <= n.term && reply.granted {
      CountStep(s, h, m);
      if tally.votes + 1 >= |s.peers| / 2 + 1 {
        WinningVoteAdvances(s, h, m);
      }
    }
  }

  lemma WinningVoteAdvances(s: State, h: Past, m: Message)
    requires Inv(s, h) && m.VoteResponse? && Enabled(s, Deliver(m))
    requires var n := s.nodes[m.vote.candidateId];
      n.role == Candidate && n.term == m.vote.term && m.voteReply.term <= n.term && m.voteReply.granted
    requires Counted(s, m).tallies[(m.vote.candidateId, m.vote.term)].votes >= |s.peers| / 2 + 1
    ensures var c, term := m.vote.candidateId, m.vote.term;
      var h1 := RecordCount(h, c, term, m.from);
      Advances(h, RecordReign(h1, c, term, h1.counted[(c, term)] + {c}, s.nodes[c].log))
  {
    var c, term := m.vote.candidateId, m.vote.term;
    var h1 := RecordCount(h, c, term, m.from);
    VoteCounted(s, h, m);
    WinnerAdvances(Counted(s, m), h1, c, term, h1.counted[(c, term)] + {c});
  }

  lemma WinnerAdvances(s: State, h: Past, c: int, term: nat, voters: set<int>)
    requires Inv(s, h) && (c, term) in s.tallies && voters == h.counted[(c, term)] + {c}
    requires s.nodes[c].role == Candidate && s.nodes[c].term == term
    requires s.tallies[(c, term)].votes >= |s.peers| / 2 + 1
    ensures Advances(h, RecordReign(h, c, term, voters, s.nodes[c].log))
  {
    WinnersHaveMajority(s, h, c, term);
    NoReignYet(s, h, c, voters);
    ReignAdvances(s, h, c, voters);
  }

  lemma AckAdvances(h: Past, v: int, term: nat, index: nat)
    ensures Advances(h, RecordAck(h, v, term, index))
  {
    NothingLost(h);
  }

  lemma AppendRequestAdvances(s: State, h: Past, m: Message)
    requires m.AppendRequest? && Enabled(s, Deliver(m))
    ensures Advances(h, Record(h, s, Deliver(m)))
  {
    if HandleAppendEntries(s.nodes[m.to], m.app).1.success && m.app.prevLogIndex >= 0 {
      AckAdvances(h, m.to, m.app.term, m.app.prevLogIndex + |m.app.entries|);
    } else {
      NothingLost(h);
    }
  }

  lemma ClientAdvances(s: State, h: Past, i: int, command: Command)
    requires NodesOk(s, h) && AcksOk(s, h) && ReignsOk(s, h) && i in s.nodes
    ensures Advances(h, Record(h, s, ClientStart(i, command)))
  {
    assert NodeOk(s, h, i);
    if s.nodes[i].role == Leader {
      StartGrows(s, h, i, command);
      GrownAdvances(s, h, i, NextEntry(s.nodes[i], command));
    } else {
      NothingLost(h);
    }
  }

  lemma StepAdvances(s: State, h: Past, e: Event)
    requires Inv(s, h)
    ensures Advances(h, Record(h, s, e))
  {
    NothingLost(h);
    if Enabled(s, e) {
      if e.Deliver? {
        if e.message.VoteResponse? { VoteResponseAdvances(s, h, e.message); }
        if e.message.AppendRequest? { AppendRequestAdvances(s, h, e.message); }
      } else if e.ClientStart? {
        ClientAdvances(s, h, e.node, e.command);
      }
    }
  }

  // ----- Leader completeness -----

  // A majority had acknowledged the entry; and it was of the leader's own term, or
  // everybody had.
  ghost predicate SealOk(s: State, h: Past, seal: Seal) {
    && seal.term in h.reigns
    && 1 <= seal.index <= |h.reigns[seal.term].log|
    && (h.reigns[seal.term].log[seal.index - 1].term == seal.term || seal.quorum == s.peers)
    && Majority(seal.quorum, s.peers)
    && forall v :: v in seal.quorum ==> seal.index <= AckOf(h.acks, v, seal.term)
  }

  // An elector of the later term that had acknowledged the sealed entry: one that both
  // quorums share, or the later leader itself.
  lemma SealMeetsElectors(s: State, h: Past, seal: Seal, term: nat) returns (v: int)
    requires WellFormed(s) && ReignsOk(s, h) && SealOk(s, h, seal) && term in h.reigns
    ensures v in h.reigns[term].voters && seal.index <= AckOf(h.acks, v, seal.term)
    ensures v == h.reigns[term].leader || Own(h.reigns, seal.term, seal.index)
  {
    var r := h.reigns[term];
    assert r.leader in s.peers && r.leader in r.voters && Majority(r.voters, s.peers) by {
      assert ReignOk(s, h, term);
    }
    if h.reigns[seal.term].log[seal.index - 1].term == seal.term {
      v := MajoritiesMeet(seal.quorum, r.voters, s.peers);
    } else {
      v := r.leader;
    }
  }

  // Every leader of a later term has the entries up to a sealed index: by induction
  // on the term, through an elector that had acknowledged the sealed entry.
  lemma {:induction false} LaterLeadersHold(s: State, h: Past, seal: Seal, term: nat)
    requires Inv(s, h) && SealOk(s, h, seal) && term in h.reigns && seal.term <= term
    ensures Contains(h.reigns[term].log, h.reigns[seal.term].log, seal.index)
    decreases term
  {
    if term > seal.term {
      forall t | t in h.reigns && seal.term < t < term
        ensures Contains(h.reigns[t].log, h.reigns[seal.term].log, seal.index)
      {
        LaterLeadersHold(s, h, seal, t);
      }
      var v := SealMeetsElectors(s, h, seal, term);
      assert Heeds(h.reigns, h.acks, v, h.reigns[term].leader, term, h.reigns[term].log);
    }
  }

  // ----- Committed prefixes -----

  // Log P lies within what some leader up to `term` sealed.
  ghost predicate Sealed(h: Past, P: seq<LogEntry>, term: nat) {
    |P| > 0 ==> exists seal :: seal in h.seals && SealsPrefix(h, seal, P, term)
  }

  predicate SealsPrefix(h: Past, seal: Seal, P: seq<LogEntry>, term: nat) {
    && seal.term <= term && seal.term in h.reigns
    && |P| <= seal.index <= |h.reigns[seal.term].log|
    && Contains(P, h.reigns[seal.term].log, |P|)
  }

  predicate CommitWithinLog(n: Node) {
    && n.commitIndex <= |n.log|
    && n.lastApplied == n.commitIndex
    && n.applied == Commands(n.log[..n.commitIndex])
  }

  ghost predicate NodeCommitOk(h: Past, n: Node) {
    CommitWithinLog(n) && Sealed(h, n.log[..n.commitIndex], n.term)
  }

  // The commit index a leader sends lies within the entries the follower will hold.
  ghost predicate MessageCommitOk(h: Past, a: AppendArgs) {
    && a.term in h.reigns
    && 0 <= a.leaderCommit <= a.prevLogIndex + |a.entries| <= |h.reigns[a.term].log|
    && Sealed(h, h.reigns[a.term].log[..a.leaderCommit], a.term)
  }

  ghost predicate CommitInv(s: State, h: Past) {
    && (forall seal :: seal in h.seals ==> SealOk(s, h, seal))
    && (forall i :: i in s.nodes ==> NodeCommitOk(h, s.nodes[i]))
    && (forall m :: m in s.net && m.AppendRequest? ==> MessageCommitOk(h, m.app))
  }

  lemma SealedAdvances(h: Past, h': Past, P: seq<LogEntry>, term: nat, term': nat)
    requires Sealed(h, P, term) && Advances(h, h') && term <= term'
    ensures Sealed(h', P, term')
  {
    if |P| > 0 {
      var seal :| seal in h.seals && SealsPrefix(h, seal, P, term);
      var R, R' := h.reigns[seal.term].log, h'.reigns[seal.term].log;
      ContainsMonotone(R', R, |R|, |P|);
      assert SealsPrefix(h', seal, P, term');
    }
  }

  // A sealed log is a prefix of every leader's log from its term on.
  lemma SealedIsHeld(s: State, h: Past, P: seq<LogEntry>, term: nat)
    requires Inv(s, h) && (forall seal :: seal in h.seals ==> SealOk(s, h, seal))
    requires Sealed(h, P, term) && term in h.reigns
    ensures Contains(P, h.reigns[term].log, |P|)
  {
    if |P| > 0 {
      var seal :| seal in h.seals && SealsPrefix(h, seal, P, term);
      LaterLeadersHold(s, h, seal, term);
      ContainsMonotone(h.reigns[term].log, h.reigns[seal.term].log, seal.index, |P|);
    }
  }

  // Two sealed logs: the shorter is a prefix of the longer.
  lemma SealedLogsAgree(s: State, h: Past, P: seq<LogEntry>, p: nat, Q: seq<LogEntry>, q: nat)
    requires Inv(s, h) && (forall seal :: seal in h.seals ==> SealOk(s, h, seal))
    requires Sealed(h, P, p) && Sealed(h, Q, q) && |P| <= |Q|
    ensures P <= Q
  {
    if |P| > 0 {
      var term := SharedReign(s, h, P, p, Q, q);
      ContainsMonotone(Q, h.reigns[term].log, |Q|, |P|);
    }
  }

  lemma SharedReign(s: State, h: Past, P: seq<LogEntry>, p: nat, Q: seq<LogEntry>, q: nat) returns (term: nat)
    requires Inv(s, h) && (forall seal :: seal in h.seals ==> SealOk(s, h, seal))
    requires Sealed(h, P, p) && Sealed(h, Q, q) && |P| > 0 && |Q| > 0
    ensures term in h.reigns
    ensures Contains(P, h.reigns[term].log, |P|) && Contains(Q, h.reigns[term].log, |Q|)
  {
    var sp :| sp in h.seals && SealsPrefix(h, sp, P, p);
    var sq :| sq in h.seals && SealsPrefix(h, sq, Q, q);
    if sp.term <= sq.term {
      term := sq.term;
      assert Sealed(h, P, term);
      SealedIsHeld(s, h, P, term);
    } else {
      term := sp.term;
      assert Sealed(h, Q, term);
      SealedIsHeld(s, h, Q, term);
    }
  }

  // ----- Commit invariant, event by event -----

  lemma AdvanceKeepsSeals(s: State, h: Past, s': State, h': Past)
    requires CommitInv(s, h) && Advances(h, h') && s'.peers == s.peers
    ensures forall seal :: seal in h.seals ==> SealOk(s', h', seal)
    ensures forall i :: i in s.nodes ==> NodeCommitOk(h', s.nodes[i])
    ensures forall m :: m in s.net && m.AppendRequest? ==> MessageCommitOk(h', m.app)
  {
    forall seal | seal in h.seals
      ensures SealOk(s', h', seal)
    {
      assert SealOk(s, h, seal);
      var R, R' := h.reigns[seal.term].log, h'.reigns[seal.term].log;
      ContainsAt(R', R, |R|, seal.index - 1);
      forall v | v in seal.quorum
        ensures seal.index <= AckOf(h'.acks, v, seal.term)
      {
        assert AckOf(h.acks, v, seal.term) <= AckOf(h'.acks, v, seal.term);
      }
    }
    forall i | i in s.nodes
      ensures NodeCommitOk(h', s.nodes[i])
    {
      CommitOkAdvances(h, h', s.nodes[i]);
    }
    forall m | m in s.net && m.AppendRequest?
      ensures MessageCommitOk(h', m.app)
    {
      var a := m.app;
      assert MessageCommitOk(h, a);
      var R, R' := h.reigns[a.term].log, h'.reigns[a.term].log;
      ContainsMonotone(R', R, |R|, a.leaderCommit);
      SealedAdvances(h, h', R[..a.leaderCommit], a.term, a.term);
    }
  }

  // Terms may grow and the log may be extended.
  predicate Quiet(n: Node, n': Node) {
    && n.term <= n'.term && Contains(n'.log, n.log, |n.log|)
    && n'.commitIndex == n.commitIndex && n'.lastApplied == n.lastApplied && n'.applied == n.applied
  }

  lemma QuietNodeKeeps(h: Past, n: Node, n': Node)
    requires NodeCommitOk(h, n) && Quiet(n, n')
    ensures NodeCommitOk(h, n')
  {
    NothingLost(h);
    assert n'.log[..n.commitIndex] == n'.log[..|n.log|][..n.commitIndex] == n.log[..n.commitIndex];
    SealedAdvances(h, h, n.log[..n.commitIndex], n.term, n'.term);
  }

  // AppendEntries keeps everything committed, and commits within the message.
  lemma MoveKeepsCommitted(L: seq<LogEntry>, L': seq<LogEntry>, R: seq<LogEntry>, m: nat, committed: nat,
      leaderCommit: nat)
    requires MovedTowards(L, L', R, m) && Contains(L, R, committed) && leaderCommit <= m
    ensures Contains(L', L, committed) && Contains(L', R, leaderCommit) && leaderCommit <= |L'|
  {
    assert Contains(L', R, committed);
    ContainsMonotone(L', R, m, leaderCommit);
  }

  lemma AcceptedNodeCommitOk(h: Past, n: Node, merged: seq<LogEntry>, args: AppendArgs)
    requires CommitWithinLog(n) && Sealed(h, n.log[..n.commitIndex], args.term)
    requires MessageCommitOk(h, args) && n.term == args.term
    requires Contains(merged, n.log, n.commitIndex)
    requires args.leaderCommit <= |merged| == LastIndex(merged)
    requires Contains(merged, h.reigns[args.term].log, args.leaderCommit)
    ensures NodeCommitOk(h, ApplyCommitted(AdvanceCommit(n.(log := merged), args.leaderCommit)))
  {
    var n' := ApplyCommitted(AdvanceCommit(n.(log := merged), args.leaderCommit));
    assert merged[..n.commitIndex] == n.log[..n.commitIndex];
    if args.leaderCommit > n.commitIndex {
      assert n'.applied == Commands(n.log[..n.commitIndex]) + Commands(merged[n.commitIndex..args.leaderCommit]);
      assert n'.applied == Commands(merged[..args.leaderCommit]);
      assert merged[..args.leaderCommit] == h.reigns[args.term].log[..args.leaderCommit];
    }
  }

  // One node changes, no AppendEntries request is sent, nothing is sealed.
  lemma NodeStepKeeps(s: State, h: Past, s': State, h': Past, i: int)
    requires CommitInv(s, h) && Advances(h, h') && s'.peers == s.peers && h'.seals == h.seals
    requires i in s.nodes && s'.nodes.Keys == s.nodes.Keys && s'.nodes == s.nodes[i := s'.nodes[i]]
    requires forall m :: m in s'.net && m.AppendRequest? ==> m in s.net
    requires NodeCommitOk(h', s'.nodes[i])
    ensures CommitInv(s', h')
  {
    AdvanceKeepsSeals(s, h, s', h');
    forall j | j in s'.nodes
      ensures NodeCommitOk(h', s'.nodes[j])
    {
      if j != i { assert NodeCommitOk(h', s.nodes[j]); }
    }
  }

  lemma QuietStepKeeps(s: State, h: Past, s': State, h': Past, i: int)
    requires CommitInv(s, h) && Advances(h, h') && s'.peers == s.peers && h'.seals == h.seals
    requires i in s.nodes && s'.nodes.Keys == s.nodes.Keys && s'.nodes == s.nodes[i := s'.nodes[i]]
    requires forall m :: m in s'.net && m.AppendRequest? ==> m in s.net
    requires Quiet(s.nodes[i], s'.nodes[i])
    ensures CommitInv(s', h')
  {
    var n := s.nodes[i];
    CommitOkAdvances(h, h', n);
    QuietNodeKeeps(h', n, s'.nodes[i]);
    NodeStepKeeps(s, h, s', h', i);
  }

  lemma HeartbeatCommits(s: State, h: Past, i: int)
    requires Inv(s, h) && CommitInv(s, h) && i in s.nodes && s.nodes[i].role == Leader
    ensures CommitInv(Step(s, Heartbeat(i)), h)
  {
    var n, s' := s.nodes[i], Step(s, Heartbeat(i));
    assert NodeOk(s, h, i) && NodeCommitOk(h, n);
    forall seal | seal in h.seals
      ensures SealOk(s', h, seal)
    {
      assert SealOk(s, h, seal);
    }
    forall m | m in s'.net && m.AppendRequest?
      ensures MessageCommitOk(h, m.app)
    {
      if m !in s.net { HeartbeatIsSuffix(s, h, i, m.to); }
    }
  }

  lemma AppendRequestCommits(s: State, h: Past, m: Message)
    requires Inv(s, h) && CommitInv(s, h) && m.AppendRequest? && Enabled(s, Deliver(m))
    ensures CommitInv(Step(s, Deliver(m)), Record(h, s, Deliver(m)))
  {
    var h' := Record(h, s, Deliver(m));
    AppendRequestFrame(s, h, m);
    AppendRequestAdvances(s, h, m);
    HandledCommitOk(s, h, m.to, m);
    CommitOkAdvances(h, h', HandleAppendEntries(s.nodes[m.to], m.app).0);
    NodeStepKeeps(s, h, Step(s, Deliver(m)), h', m.to);
  }

  lemma AppendRequestFrame(s: State, h: Past, m: Message)
    requires m.AppendRequest? && Enabled(s, Deliver(m))
    ensures var s' := Step(s, Deliver(m));
      && s'.nodes == s.nodes[m.to := HandleAppendEntries(s.nodes[m.to], m.app).0]
      && (forall q :: q in s'.net && q.AppendRequest? ==> q in s.net)
      && Record(h, s, Deliver(m)).seals == h.seals
  {
    AppendRequestStep(s, h, m);
  }

  lemma CommitOkAdvances(h: Past, h': Past, n: Node)
    requires NodeCommitOk(h, n) && Advances(h, h')
    ensures NodeCommitOk(h', n)
  {
  }

  lemma HandledCommitOk(s: State, h: Past, v: int, m: Message)
    requires Inv(s, h) && CommitInv(s, h) && m.AppendRequest? && m in s.net && v in s.nodes
    ensures NodeCommitOk(h, HandleAppendEntries(s.nodes[v], m.app).0)
  {
    var n, args := s.nodes[v], m.app;
    assert MessageOk(s, h, m) && MessageCommitOk(h, args) && NodeCommitOk(h, n);
    if args.term < n.term || !PrevMatches(n.log, args) {
      RejectIsQuiet(n, args);
      QuietNodeKeeps(h, n, HandleAppendEntries(n, args).0);
    } else {
      CommittedIsHeld(s, h, n, args.term);
      assert NodeOk(s, h, v) && ReignOk(s, h, args.term);
      AcceptedCommitOk(h, n, args);
    }
  }

  lemma RejectIsQuiet(n: Node, args: AppendArgs)
    requires args.term < n.term || !PrevMatches(n.log, args)
    ensures Quiet(n, HandleAppendEntries(n, args).0)
  {
  }

  // A node's committed entries are in the log of every leader from its term on.
  lemma CommittedIsHeld(s: State, h: Past, n: Node, term: nat)
    requires Inv(s, h) && (forall seal :: seal in h.seals ==> SealOk(s, h, seal))
    requires NodeCommitOk(h, n) && n.term <= term && term in h.reigns
    ensures Sealed(h, n.log[..n.commitIndex], term)
    ensures Contains(n.log, h.reigns[term].log, n.commitIndex)
  {
    var P := n.log[..n.commitIndex];
    NothingLost(h);
    SealedAdvances(h, h, P, n.term, term);
    SealedIsHeld(s, h, P, term);
  }

  lemma AcceptedCommitOk(h: Past, n: Node, args: AppendArgs)
    requires CommitWithinLog(n) && Sealed(h, n.log[..n.commitIndex], args.term)
    requires AppOk(h.reigns, args) && MessageCommitOk(h, args)
    requires Rooted(h.reigns, n.log) && Rooted(h.reigns, h.reigns[args.term].log)
    requires Contains(n.log, h.reigns[args.term].log, n.commitIndex)
    requires args.term >= n.term && PrevMatches(n.log, args)
    ensures NodeCommitOk(h, HandleAppendEntries(n, args).0)
  {
    var R, merged := h.reigns[args.term].log, Merge(n.log, args.entries);
    AcceptMoves(h.reigns, n.log, args);
    RootedIndices(h.reigns, merged);
    MoveKeepsCommitted(n.log, merged, R, args.prevLogIndex + |args.entries|, n.commitIndex, args.leaderCommit);
    AcceptedNodeCommitOk(h, Follow(n, args), merged, args);
  }

  lemma NothingLost(h: Past)
    ensures Advances(h, h)
  {
  }

  // A commit index advanced by counting, where that is safe.
  lemma CountingSeals(s: State, h: Past, n: Node)
    requires WellFormed(s) && n.id in s.nodes && LeaderOk(s.peers, h, n)
    requires var k := HighestHeld(n, s.peers, LastIndex(n.log));
      n.commitIndex < k <= |n.log| && SafeToCount(n, s.peers, k)
    ensures var k := HighestHeld(n, s.peers, LastIndex(n.log));
      SealOk(s, h, Seal(n.term, k, Holders(n, s.peers, k) + {n.id}))
  {
    var k := HighestHeld(n, s.peers, LastIndex(n.log));
    HighestHeldIsOrderStatistic(n, s.peers, LastIndex(n.log));
    assert HeldByMajority(n, s.peers, k);
    CountedMajority(n, s.peers, k);
    CountedAcknowledged(s.peers, h, n, k);
  }

  lemma CountedMajority(n: Node, peers: set<int>, k: nat)
    requires n.id in peers && HeldByMajority(n, peers, k)
    ensures Majority(Holders(n, peers, k) + {n.id}, peers)
  {
    assert |Holders(n, peers, k) + {n.id}| == |Holders(n, peers, k)| + 1;
  }

  lemma CountedAcknowledged(peers: set<int>, h: Past, n: Node, k: nat)
    requires LeaderOk(peers, h, n) && k <= |n.log|
    ensures forall v :: v in Holders(n, peers, k) + {n.id} ==> k <= AckOf(h.acks, v, n.term)
  {
    forall v | v in Holders(n, peers, k)
      ensures k <= AckOf(h.acks, v, n.term)
    {
      assert PeerIndexOk(n, h.acks, v);
    }
  }

  // The new commit index lies within the leader's log, and everything is applied.
  lemma AdvancedNodeCommitOk(h: Past, n: Node, k: nat, seal: Seal)
    requires CommitWithinLog(n) && n.commitIndex < k <= |n.log|
    requires seal in h.seals && seal.term == n.term && seal.index == k
    requires n.term in h.reigns && n.log == h.reigns[n.term].log
    ensures NodeCommitOk(h, ApplyCommitted(n.(commitIndex := k)))
  {
    var n' := ApplyCommitted(n.(commitIndex := k));
    assert n'.applied == Commands(n.log[..n.commitIndex]) + Commands(n.log[n.commitIndex..k]);
    assert n'.applied == Commands(n.log[..k]);
    assert SealsPrefix(h, seal, n.log[..k], n.term);
  }

  lemma CommitCounted(s: State, h: Past, n: Node)
    requires WellFormed(s) && n.id in s.nodes && LeaderOk(s.peers, h, n) && CommitWithinLog(n)
    requires var k := HighestHeld(n, s.peers, LastIndex(n.log));
      n.commitIndex < k <= |n.log| && SafeToCount(n, s.peers, k)
    ensures var n' := ApplyCommitted(UpdateCommitIndex(n, s.peers));
      var seal := SealOf(n', s.peers);
      SealOk(s, h, seal) && NodeCommitOk(h.(seals := h.seals + {seal}), n')
  {
    var k := HighestHeld(n, s.peers, LastIndex(n.log));
    var n' := ApplyCommitted(UpdateCommitIndex(n, s.peers));
    CountingSeals(s, h, n);
    assert n'.matchIndex == n.matchIndex && n'.id == n.id;
    assert Holders(n', s.peers, k) == Holders(n, s.peers, k);
    var seal := Seal(n.term, k, Holders(n, s.peers, k) + {n.id});
    AdvancedNodeCommitOk(h.(seals := h.seals + {seal}), n, k, seal);
  }

  lemma SealAdded(s: State, h: Past, i: int, n: Node, seal: Seal)
    requires CommitInv(s, h) && SealOk(s, h, seal) && i in s.nodes
    requires NodeCommitOk(h.(seals := h.seals + {seal}), n)
    ensures CommitInv(Put(s, i, n), h.(seals := h.seals + {seal}))
  {
    var s', h' := Put(s, i, n), h.(seals := h.seals + {seal});
    NothingLost(h);
    AdvanceKeepsSeals(s, h, s', h');
    forall j | j in s'.nodes
      ensures NodeCommitOk(h', s'.nodes[j])
    {
      if j != i { assert NodeCommitOk(h', s.nodes[j]); }
    }
    assert SealOk(s', h', seal);
  }

  // What the reply handler does apart from counting.
  lemma ResponseIsQuiet(n: Node, peers: set<int>, peer: int, args: AppendArgs, reply: AppendReply)
    requires 0 <= args.prevLogIndex
    requires HandleAppendReply(n, peers, peer, args, reply).commitIndex <= n.commitIndex
    requires CommitWithinLog(n)
    ensures Quiet(n, HandleAppendReply(n, peers, peer, args, reply))
  {
    if n.role == Leader && n.term == args.term && reply.term <= n.term && reply.success {
      var n1 := RecordMatch(n, peer, args.prevLogIndex + |args.entries|);
      HighestHeldIsOrderStatistic(n1, peers, LastIndex(n1.log));
    }
  }

  // R2, said of the node that counts.
  lemma OwnTermAdvance(s: State, m: Message)
    requires m.AppendResponse? && Enabled(s, Deliver(m)) && CommitsSafely(s, Deliver(m))
    requires var n := s.nodes[m.app.leaderId];
      HandleAppendReply(n, s.peers, m.from, m.app, m.appReply).commitIndex > n.commitIndex
    ensures var n := s.nodes[m.app.leaderId];
      var n1 := RecordMatch(n, m.from, m.app.prevLogIndex + |m.app.entries|);
      var k := HighestHeld(n1, s.peers, LastIndex(n1.log));
      && n.role == Leader && n.term == m.app.term && m.appReply.term <= n.term && m.appReply.success
      && HandleAppendReply(n, s.peers, m.from, m.app, m.appReply) == ApplyCommitted(UpdateCommitIndex(n1, s.peers))
      && n1.commitIndex < k <= |n1.log| && SafeToCount(n1, s.peers, k)
  {
    var n := s.nodes[m.app.leaderId];
    assert CommitsSafely(s, Deliver(m));
    ReplyStep(s, NoPast(), m);
    CountingReply(n, s.peers, m.from, m.app, m.appReply);
    SafeBefore(RecordMatch(n, m.from, m.app.prevLogIndex + |m.app.entries|), s.peers);
  }

  lemma CountingReply(n: Node, peers: set<int>, peer: int, args: AppendArgs, reply: AppendReply)
    requires 0 <= args.prevLogIndex
    requires HandleAppendReply(n, peers, peer, args, reply).commitIndex > n.commitIndex
    ensures n.role == Leader && n.term == args.term && reply.term <= n.term && reply.success
    ensures HandleAppendReply(n, peers, peer, args, reply)
         == ApplyCommitted(UpdateCommitIndex(RecordMatch(n, peer, args.prevLogIndex + |args.entries|), peers))
  {
  }

  // What is safe of the node that has counted was so when it counted.
  lemma SafeBefore(n: Node, peers: set<int>)
    requires var n' := ApplyCommitted(UpdateCommitIndex(n, peers));
      1 <= n'.commitIndex <= |n'.log| && SafeToCount(n', peers, n'.commitIndex)
    ensures var k := HighestHeld(n, peers, LastIndex(n.log));
      && ApplyCommitted(UpdateCommitIndex(n, peers)).commitIndex == k
      && 1 <= k <= |n.log| && SafeToCount(n, peers, k)
  {
    var n', k := ApplyCommitted(UpdateCommitIndex(n, peers)), HighestHeld(n, peers, LastIndex(n.log));
    assert Holders(n', peers, k) == Holders(n, peers, k);
  }

  lemma MatchLeaderOk(s: State, h: Past, m: Message)
    requires Inv(s, h) && m.AppendResponse? && Enabled(s, Deliver(m)) && m.appReply.success
    requires s.nodes[m.app.leaderId].role == Leader && s.nodes[m.app.leaderId].term == m.app.term
    ensures var n1 := RecordMatch(s.nodes[m.app.leaderId], m.from, m.app.prevLogIndex + |m.app.entries|);
      n1.id == m.app.leaderId && LeaderOk(s.peers, h, n1)
  {
    assert NodeOk(s, h, m.app.leaderId);
    MatchIsAcknowledged(s, h, m);
  }

  lemma CountingCommits(s: State, h: Past, m: Message)
    requires Inv(s, h) && CommitInv(s, h) && m.AppendResponse? && Enabled(s, Deliver(m))
    requires CommitsSafely(s, Deliver(m))
    requires var n := s.nodes[m.app.leaderId];
      HandleAppendReply(n, s.peers, m.from, m.app, m.appReply).commitIndex > n.commitIndex
    ensures CommitInv(Step(s, Deliver(m)), Record(h, s, Deliver(m)))
  {
    var i := m.app.leaderId;
    var n' := HandleAppendReply(s.nodes[i], s.peers, m.from, m.app, m.appReply);
    CountedNodeOk(s, h, m);
    SealAdded(s, h, i, n', SealOf(n', s.peers));
    ReplyStep(s, h, m);
  }

  lemma CountedNodeOk(s: State, h: Past, m: Message)
    requires Inv(s, h) && m.AppendResponse? && Enabled(s, Deliver(m)) && CommitsSafely(s, Deliver(m))
    requires var n := s.nodes[m.app.leaderId];
      NodeCommitOk(h, n) && HandleAppendReply(n, s.peers, m.from, m.app, m.appReply).commitIndex > n.commitIndex
    ensures var n' := HandleAppendReply(s.nodes[m.app.leaderId], s.peers, m.from, m.app, m.appReply);
      var seal := SealOf(n', s.peers);
      SealOk(s, h, seal) && NodeCommitOk(h.(seals := h.seals + {seal}), n')
  {
    OwnTermAdvance(s, m);
    MatchLeaderOk(s, h, m);
    CommitCounted(s, h, RecordMatch(s.nodes[m.app.leaderId], m.from, m.app.prevLogIndex + |m.app.entries|));
  }

  lemma AppendResponseCommits(s: State, h: Past, m: Message)
    requires Inv(s, h) && CommitInv(s, h) && m.AppendResponse? && Enabled(s, Deliver(m))
    requires CommitsSafely(s, Deliver(m))
    ensures CommitInv(Step(s, Deliver(m)), Record(h, s, Deliver(m)))
  {
    var n := s.nodes[m.app.leaderId];
    if HandleAppendReply(n, s.peers, m.from, m.app, m.appReply).commitIndex > n.commitIndex {
      CountingCommits(s, h, m);
    } else {
      QuietReplyCommits(s, h, m);
    }
  }

  // A reply that moves no commit index.
  lemma QuietReplyCommits(s: State, h: Past, m: Message)
    requires CommitInv(s, h) && m.AppendResponse? && Enabled(s, Deliver(m))
    requires var n := s.nodes[m.app.leaderId];
      HandleAppendReply(n, s.peers, m.from, m.app, m.appReply).commitIndex <= n.commitIndex
    ensures CommitInv(Step(s, Deliver(m)), Record(h, s, Deliver(m)))
  {
    var i := m.app.leaderId;
    var n' := HandleAppendReply(s.nodes[i], s.peers, m.from, m.app, m.appReply);
    assert Quiet(s.nodes[i], n') by {
      assert NodeCommitOk(h, s.nodes[i]);
      ResponseIsQuiet(s.nodes[i], s.peers, m.from, m.app, m.appReply);
    }
    NothingLost(h);
    QuietStepKeeps(s, h, Put(s, i, n'), h, i);
    ReplyStep(s, h, m);
  }

  lemma ClientCommits(s: State, h: Past, i: int, command: Command)
    requires Inv(s, h) && CommitInv(s, h) && i in s.nodes
    ensures CommitInv(Step(s, ClientStart(i, command)), Record(h, s, ClientStart(i, command)))
  {
    var s', h' := Step(s, ClientStart(i, command)), Record(h, s, ClientStart(i, command));
    ClientAdvances(s, h, i, command);
    ClientIsQuiet(s, h, i, command);
    QuietStepKeeps(s, h, s', h', i);
  }

  lemma ClientIsQuiet(s: State, h: Past, i: int, command: Command)
    requires i in s.nodes
    ensures var s', h' := Step(s, ClientStart(i, command)), Record(h, s, ClientStart(i, command));
      && s'.peers == s.peers && s'.nodes == s.nodes[i := s'.nodes[i]] && s'.net == s.net && h'.seals == h.seals
      && Quiet(s.nodes[i], s'.nodes[i])
  {
  }

  predicate VotingEvent(e: Event) {
    || e.ElectionTimeout? || e.StopNode? || e.RestartNode?
    || (e.Deliver? && (e.message.VoteRequest? || e.message.VoteResponse?))
  }

  lemma VotingIsQuiet(s: State, h: Past, e: Event)
    requires WellFormed(s) && Enabled(s, e) && VotingEvent(e)
    ensures var i, s' := Site(e), Step(s, e);
      && s'.peers == s.peers && s'.nodes.Keys == s.nodes.Keys && s'.nodes == s.nodes[i := s'.nodes[i]]
      && Quiet(s.nodes[i], s'.nodes[i])
      && (forall m :: m in s'.net && m.AppendRequest? ==> m in s.net)
      && Record(h, s, e).seals == h.seals
  {
    if e.Deliver? { PollingIsQuiet(s, h, e.message); }
  }

  lemma PollingIsQuiet(s: State, h: Past, m: Message)
    requires WellFormed(s) && Enabled(s, Deliver(m)) && (m.VoteRequest? || m.VoteResponse?)
    ensures var i, s' := Site(Deliver(m)), Step(s, Deliver(m));
      && s'.peers == s.peers && s'.nodes == s.nodes[i := s'.nodes[i]] && Quiet(s.nodes[i], s'.nodes[i])
      && (forall q :: q in s'.net && q.AppendRequest? ==> q in s.net)
      && Record(h, s, Deliver(m)).seals == h.seals
  {
    if m.VoteRequest? {
      assert Quiet(s.nodes[m.to], HandleRequestVote(s.nodes[m.to], m.vote).0);
    }
  }

  lemma VotingCommits(s: State, h: Past, e: Event)
    requires Inv(s, h) && CommitInv(s, h) && Enabled(s, e) && VotingEvent(e)
    ensures CommitInv(Step(s, e), Record(h, s, e))
  {
    StepAdvances(s, h, e);
    VotingIsQuiet(s, h, e);
    QuietStepKeeps(s, h, Step(s, e), Record(h, s, e), Site(e));
  }

  lemma StepCommits(s: State, h: Past, e: Event)
    requires Inv(s, h) && CommitInv(s, h) && CommitsSafely(s, e)
    ensures CommitInv(Step(s, e), Record(h, s, e))
  {
    if Enabled(s, e) {
      if e.Deliver? && e.message.AppendRequest? {
        AppendRequestCommits(s, h, e.message);
      } else if e.Deliver? && e.message.AppendResponse? {
        AppendResponseCommits(s, h, e.message);
      } else if e.ClientStart? {
        ClientCommits(s, h, e.node, e.command);
      } else if e.Heartbeat? {
        if s.nodes[e.node].role == Leader { HeartbeatCommits(s, h, e.node); }
      } else {
        VotingCommits(s, h, e);
      }
    }
  }

  lemma {:induction false} RunsCommit(peers: set<int>, run: Run)
    requires ValidPeers(peers) && R1(peers, run) && R2(peers, run)
    ensures Inv(After(peers, run), PastOf(peers, run)) && CommitInv(After(peers, run), PastOf(peers, run))
  {
    RunsKeep(peers, run);
    if |run| > 0 {
      var k := |run| - 1;
      R1Prefix(peers, run, k);
      RunsCommit(peers, run[..k]);
      StepCommits(After(peers, run[..k]), PastOf(peers, run[..k]), run[k]);
    }
  }

  // The past of a run extends the past of each of its prefixes.
  lemma {:induction false} RunsAdvance(peers: set<int>, run: Run, k: nat)
    requires ValidPeers(peers) && R1(peers, run) && k <= |run|
    ensures Advances(PastOf(peers, run[..k]), PastOf(peers, run))
    decreases |run|
  {
    if k == |run| {
      assert run[..k] == run;
      NothingLost(PastOf(peers, run));
    } else {
      var last := |run| - 1;
      R1Prefix(peers, run, last);
      RunsAdvance(peers, run[..last], k);
      assert run[..last][..k] == run[..k];
      LastAdvances(peers, run);
      AdvancesTransitive(PastOf(peers, run[..k]), PastOf(peers, run[..last]), PastOf(peers, run));
    }
  }

  lemma LastAdvances(peers: set<int>, run: Run)
    requires ValidPeers(peers) && R1(peers, run) && |run| > 0
    ensures Advances(PastOf(peers, run[..|run| - 1]), PastOf(peers, run))
  {
    var last := |run| - 1;
    R1Prefix(peers, run, last);
    RunsKeep(peers, run[..last]);
    StepAdvances(After(peers, run[..last]), PastOf(peers, run[..last]), run[last]);
  }
}
