/** Every event keeps the invariant, so every run that satisfies R1 does. */
module Steps {
  import opened RaftLogs
  import opened RaftHandlers
  import opened Cluster
  import opened History
  import opened Invariant
  import opened Preservation

  lemma TimeoutKeeps(s: State, h: Past, i: int)
    requires Inv(s, h) && i in s.nodes
    ensures Inv(Step(s, ElectionTimeout(i)), Record(h, s, ElectionTimeout(i)))
  {
    var s1, h1 := Candidacy(s, i), CandidacyPast(s, h, i);
    CandidacyKeeps(s, h, i);
    assert s.nodes[i].id == i by {
      assert NodeOk(s, h, i);
    }
    TimeoutStep(s, h, i);
    SendKeeps(s1, h1, VoteRequests(s1, s1.nodes[i]));
  }

  lemma TimeoutStep(s: State, h: Past, i: int)
    requires i in s.nodes && s.nodes[i].id == i
    ensures var s1 := Candidacy(s, i);
      && Step(s, ElectionTimeout(i)) == Send(s1, VoteRequests(s1, s1.nodes[i]))
      && Record(h, s, ElectionTimeout(i)) == CandidacyPast(s, h, i)
      && forall m :: m in VoteRequests(s1, s1.nodes[i]) ==> MessageOk(s1, CandidacyPast(s, h, i), m)
  {
    var s1 := Candidacy(s, i);
    assert VoteRequests(s1, s1.nodes[i]) == VoteRequests(s, s1.nodes[i]);
  }

  lemma DenyingKeeps(s: State, h: Past, v: int, args: VoteArgs)
    requires Inv(s, h) && v in s.nodes && !HandleRequestVote(s.nodes[v], args).1.granted
    ensures Inv(Put(s, v, HandleRequestVote(s.nodes[v], args).0), h)
  {
    var n := s.nodes[v];
    if args.term > n.term {
      AdoptKeeps(s, h, v, args.term);
    } else {
      assert Put(s, v, n) == s;
    }
  }

  lemma GrantingKeeps(s: State, h: Past, v: int, args: VoteArgs)
    requires Inv(s, h) && v in s.nodes && VoteRequestOk(s, args) && HandleRequestVote(s.nodes[v], args).1.granted
    ensures Inv(Put(s, v, HandleRequestVote(s.nodes[v], args).0), RecordVote(h, v, args.term, args.candidateId))
  {
    var n := s.nodes[v];
    var s1 := if args.term > n.term then Put(s, v, Adopt(n, args.term)) else s;
    assert Inv(s1, h) by {
      if args.term > n.term { AdoptKeeps(s, h, v, args.term); }
    }
    assert MayGrant(s1, v, args);
    assert Grant(s1, v, args) == Put(s, v, HandleRequestVote(n, args).0);
    GrantKeeps(s1, h, v, args);
  }

  lemma VoteRequestKeeps(s: State, h: Past, m: Message)
    requires Inv(s, h) && m.VoteRequest? && Enabled(s, Deliver(m))
    ensures Inv(Step(s, Deliver(m)), Record(h, s, Deliver(m)))
  {
    var v, args := m.to, m.vote;
    var (n', reply) := HandleRequestVote(s.nodes[v], args);
    assert MessageOk(s, h, m);
    var s2, h2 := Put(s, v, n'), Record(h, s, Deliver(m));
    assert Inv(s2, h2) by {
      if reply.granted {
        GrantingKeeps(s, h, v, args);
      } else {
        DenyingKeeps(s, h, v, args);
      }
    }
    assert MessageOk(s2, h2, VoteResponse(v, args, reply));
    SendKeeps(s2, h2, {VoteResponse(v, args, reply)});
  }

  // A granted reply that arrives in time is counted, and may decide the election.
  lemma CountingKeeps(s: State, h: Past, m: Message)
    requires Inv(s, h) && m.VoteResponse? && Enabled(s, Deliver(m))
    requires var n := s.nodes[m.vote.candidateId];
      n.role == Candidate && n.term == m.vote.term && m.voteReply.term <= n.term && m.voteReply.granted
    ensures Inv(Step(s, Deliver(m)), Record(h, s, Deliver(m)))
  {
    var c, term, from := m.vote.candidateId, m.vote.term, m.from;
    var s1, h1 := Counted(s, m), RecordCount(h, c, term, from);
    VoteCounted(s, h, m);
    CountStep(s, h, m);
    if s1.tallies[(c, term)].votes >= |s.peers| / 2 + 1 {
      WinnerKeeps(s1, h1, c, term);
    }
  }

  function Counted(s: State, m: Message): (s': State)
    requires m.VoteResponse? && (m.vote.candidateId, m.vote.term) in s.tallies
  {
    var tally := s.tallies[(m.vote.candidateId, m.vote.term)];
    PutTally(s, m.vote.candidateId, m.vote.term, Tally(tally.votes + 1, tally.waiting - {m.from}))
  }

  lemma VoteCounted(s: State, h: Past, m: Message)
    requires Inv(s, h) && m.VoteResponse? && Enabled(s, Deliver(m))
    requires var n := s.nodes[m.vote.candidateId];
      n.role == Candidate && n.term == m.vote.term && m.voteReply.term <= n.term && m.voteReply.granted
    ensures Inv(Counted(s, m), RecordCount(h, m.vote.candidateId, m.vote.term, m.from))
  {
    assert MessageOk(s, h, m);
    CountKeeps(s, h, m.vote.candidateId, m.vote.term, m.from);
  }

  lemma CountStep(s: State, h: Past, m: Message)
    requires m.VoteResponse? && Enabled(s, Deliver(m))
    requires var n := s.nodes[m.vote.candidateId];
      n.role == Candidate && n.term == m.vote.term && m.voteReply.term <= n.term && m.voteReply.granted
    ensures var c, term := m.vote.candidateId, m.vote.term;
      var s1, h1 := Counted(s, m), RecordCount(h, c, term, m.from);
      var n := s.nodes[c];
      if s1.tallies[(c, term)].votes >= |s.peers| / 2 + 1 then
        && Step(s, Deliver(m)) == Put(s1, c, BecomeLeader(n, s.peers))
        && Record(h, s, Deliver(m)) == RecordReign(h1, c, term, h1.counted[(c, term)] + {c}, n.log)
      else Step(s, Deliver(m)) == s1 && Record(h, s, Deliver(m)) == h1
  {
  }

  lemma WinnersHaveMajority(s: State, h: Past, c: int, term: nat)
    requires WellFormed(s) && TalliesOk(s, h) && NodesOk(s, h) && (c, term) in s.tallies
    requires s.nodes[c].role == Candidate && s.nodes[c].term == term
    requires s.tallies[(c, term)].votes >= |s.peers| / 2 + 1
    ensures var voters := h.counted[(c, term)] + {c};
      Majority(voters, s.peers) && c in voters && forall v :: v in voters ==> Granted(h.voted, v, term, c)
  {
    assert TallyOk(s, h, (c, term)) && NodeOk(s, h, c);
    assert |h.counted[(c, term)] + {c}| == s.tallies[(c, term)].votes;
  }

  lemma WinnerKeeps(s: State, h: Past, c: int, term: nat)
    requires Inv(s, h) && (c, term) in s.tallies
    requires s.nodes[c].role == Candidate && s.nodes[c].term == term
    requires s.tallies[(c, term)].votes >= |s.peers| / 2 + 1
    ensures Inv(Put(s, c, BecomeLeader(s.nodes[c], s.peers)),
        RecordReign(h, c, term, h.counted[(c, term)] + {c}, s.nodes[c].log))
  {
    WinnersHaveMajority(s, h, c, term);
    ElectKeeps(s, h, c, h.counted[(c, term)] + {c});
  }

  lemma VoteResponseKeeps(s: State, h: Past, m: Message)
    requires Inv(s, h) && m.VoteResponse? && Enabled(s, Deliver(m))
    ensures Inv(Step(s, Deliver(m)), Record(h, s, Deliver(m)))
  {
    var c, term, from, reply := m.vote.candidateId, m.vote.term, m.from, m.voteReply;
    var n, tally := s.nodes[c], s.tallies[(c, term)];
    if n.role == Candidate && n.term == term && reply.term <= n.term && reply.granted {
      CountingKeeps(s, h, m);
    } else {
      var s1 := PutTally(s, c, term, tally.(waiting := tally.waiting - {from}));
      ConsumeKeeps(s, h, c, term, from);
      if n.role == Candidate && n.term == term && reply.term > n.term {
        AdoptKeeps(s1, h, c, reply.term);
        assert Step(s, Deliver(m)) == Put(s1, c, Adopt(n, reply.term));
      } else {
        assert Step(s, Deliver(m)) == s1;
      }
    }
  }

  // What AppendEntries does to the fields the invariant reads.
  lemma AppendCore(n: Node, args: AppendArgs)
    ensures var (n', reply) := HandleAppendEntries(n, args);
      if args.term < n.term then n' == n && !reply.success
      else if !PrevMatches(n.log, args) then SameCore(n', Adopt(n, args.term)) && !reply.success
      else SameCore(n', Adopt(n, args.term).(log := Merge(n.log, args.entries))) && reply.success
  {
  }

  lemma AcceptingKeeps(s: State, h: Past, v: int, args: AppendArgs, n: Node)
    requires Inv(s, h) && v in s.nodes && AppOk(h.reigns, args)
    requires args.term >= s.nodes[v].term && PrevMatches(s.nodes[v].log, args)
    requires SameCore(n, Adopt(s.nodes[v], args.term).(log := Merge(s.nodes[v].log, args.entries)))
    ensures Inv(Put(s, v, n), AcceptedPast(h, v, args))
  {
    var adopted := Adopt(s.nodes[v], args.term);
    AdoptKeeps(s, h, v, args.term);
    MayAcceptNext(s, h, v, args);
    MergingKeeps(Put(s, v, adopted), h, v, args, n);
    PutTwice(s, v, adopted, n);
  }

  lemma MayAcceptNext(s: State, h: Past, v: int, args: AppendArgs)
    requires v in s.nodes && AppOk(h.reigns, args)
    requires args.term >= s.nodes[v].term && PrevMatches(s.nodes[v].log, args)
    ensures var adopted := Adopt(s.nodes[v], args.term);
      MayAccept(Put(s, v, adopted), h, v, args) && adopted.log == s.nodes[v].log
          && Put(s, v, adopted).nodes[v] == adopted
  {
  }

  lemma PutTwice(s: State, v: int, a: Node, b: Node)
    ensures Put(Put(s, v, a), v, b) == Put(s, v, b)
  {
  }

  lemma MergingKeeps(s: State, h: Past, v: int, args: AppendArgs, n: Node)
    requires Inv(s, h) && MayAccept(s, h, v, args)
    requires SameCore(n, s.nodes[v].(log := Merge(s.nodes[v].log, args.entries)))
    ensures Inv(Put(s, v, n), AcceptedPast(h, v, args))
  {
    AcceptKeeps(s, h, v, args);
    ReplaceKeeps(s, AcceptedPast(h, v, args), v, s.nodes[v].(log := Merge(s.nodes[v].log, args.entries)), n);
  }

  lemma ReplaceKeeps(s: State, h: Past, v: int, a: Node, b: Node)
    requires v in s.nodes && Inv(Put(s, v, a), h) && SameCore(b, a)
    ensures Inv(Put(s, v, b), h)
  {
    TouchKeeps(Put(s, v, a), h, v, b);
    PutTwice(s, v, a, b);
  }

  lemma RejectingKeeps(s: State, h: Past, v: int, term: nat, n: Node)
    requires Inv(s, h) && v in s.nodes && term >= s.nodes[v].term
    requires SameCore(n, Adopt(s.nodes[v], term))
    ensures Inv(Put(s, v, n), h)
  {
    AdoptKeeps(s, h, v, term);
    ReplaceKeeps(s, h, v, Adopt(s.nodes[v], term), n);
  }

  // What delivering an AppendEntries message comes to.
  lemma AppendRequestStep(s: State, h: Past, m: Message)
    requires m.AppendRequest? && Enabled(s, Deliver(m))
    ensures var (n', reply) := HandleAppendEntries(s.nodes[m.to], m.app);
      && Step(s, Deliver(m)) == Send(Put(s, m.to, n'), {AppendResponse(m.to, m.app, reply)})
      && Record(h, s, Deliver(m)) ==
           if reply.success && m.app.prevLogIndex >= 0 then AcceptedPast(h, m.to, m.app) else h
  {
  }

  lemma HandlingKeeps(s: State, h: Past, v: int, args: AppendArgs)
    requires Inv(s, h) && v in s.nodes && AppOk(h.reigns, args)
    ensures var (n', reply) := HandleAppendEntries(s.nodes[v], args);
      Inv(Put(s, v, n'), if reply.success then AcceptedPast(h, v, args) else h)
  {
    var n := s.nodes[v];
    var n' := HandleAppendEntries(n, args).0;
    AppendCore(n, args);
    if args.term < n.term {
      assert Put(s, v, n) == s;
    } else if !PrevMatches(n.log, args) {
      RejectingKeeps(s, h, v, args.term, n');
    } else {
      AcceptingKeeps(s, h, v, args, n');
    }
  }

  // The answer says no more than was recorded.
  lemma AnswerOk(s: State, h: Past, v: int, args: AppendArgs)
    requires AppOk(h.reigns, args) && v in s.nodes
    ensures var (n', reply) := HandleAppendEntries(s.nodes[v], args);
      MessageOk(Put(s, v, n'), if reply.success then AcceptedPast(h, v, args) else h, AppendResponse(v, args, reply))
  {
  }

  lemma AppendRequestKeeps(s: State, h: Past, m: Message)
    requires Inv(s, h) && m.AppendRequest? && Enabled(s, Deliver(m))
    ensures Inv(Step(s, Deliver(m)), Record(h, s, Deliver(m)))
  {
    var (n', reply) := HandleAppendEntries(s.nodes[m.to], m.app);
    var s1, h1 := Put(s, m.to, n'), if reply.success then AcceptedPast(h, m.to, m.app) else h;
    assert AppOk(h.reigns, m.app) by {
      assert MessageOk(s, h, m);
    }
    HandlingKeeps(s, h, m.to, m.app);
    AnswerOk(s, h, m.to, m.app);
    SendKeeps(s1, h1, {AppendResponse(m.to, m.app, reply)});
    AppendRequestStep(s, h, m);
  }

  // The past's seals are not part of the invariant.
  lemma SealsDoNotMatter(s: State, h: Past, seals: set<Seal>)
    requires Inv(s, h)
    ensures Inv(s, h.(seals := seals))
  {
    var h' := h.(seals := seals);
    LogsStayKeeps(s, h, s, h');
    forall k | k in h'.voted ensures VoteOk(s, h', k) && BallotOk(s, h', k) {
      assert VoteOk(s, h, k) && BallotOk(s, h, k);
    }
    forall k | k in s.tallies ensures TallyOk(s, h', k) {
      assert TallyOk(s, h, k);
    }
    forall m | m in s.net ensures MessageOk(s, h', m) {
      assert MessageOk(s, h, m);
    }
    forall j | j in s.nodes ensures NodeOk(s, h', j) {
      assert NodeOk(s, h, j);
    }
  }

  // What a successful reply says about its sender.
  lemma MatchIsAcknowledged(s: State, h: Past, m: Message)
    requires Inv(s, h) && m.AppendResponse? && Enabled(s, Deliver(m)) && m.appReply.success
    requires s.nodes[m.app.leaderId].role == Leader && s.nodes[m.app.leaderId].term == m.app.term
    ensures var n := s.nodes[m.app.leaderId];
      var n' := RecordMatch(n, m.from, m.app.prevLogIndex + |m.app.entries|);
      forall p :: p in s.peers && p != n.id ==> PeerIndexOk(n', h.acks, p)
  {
    assert MessageOk(s, h, m);
    assert NodeOk(s, h, m.app.leaderId);
  }

  lemma RecordMatchKeeps(s: State, h: Past, m: Message)
    requires Inv(s, h) && m.AppendResponse? && Enabled(s, Deliver(m)) && m.appReply.success
    requires s.nodes[m.app.leaderId].role == Leader && s.nodes[m.app.leaderId].term == m.app.term
    ensures var i := m.app.leaderId;
      Inv(Put(s, i, RecordMatch(s.nodes[i], m.from, m.app.prevLogIndex + |m.app.entries|)), h)
  {
    var i := m.app.leaderId;
    assert NodeOk(s, h, i);
    MatchIsAcknowledged(s, h, m);
    IndicesKeep(s, h, i, RecordMatch(s.nodes[i], m.from, m.app.prevLogIndex + |m.app.entries|));
  }

  lemma CommitCore(n: Node, peers: set<int>)
    ensures SameCore(ApplyCommitted(UpdateCommitIndex(n, peers)), n)
  {
  }

  // What the reply handler may do to the fields the invariant reads.
  predicate ReplyOutcome(n: Node, n': Node, peer: int, args: AppendArgs, reply: AppendReply)
    requires 0 <= args.prevLogIndex
  {
    || SameCore(n', n)
    || (reply.term > n.term && n' == Adopt(n, reply.term))
    || (n.role == Leader && n.term == args.term && reply.success
        && SameCore(n', RecordMatch(n, peer, args.prevLogIndex + |args.entries|)))
    || (n.role == Leader && At(n.nextIndex, peer) > 1
        && n' == n.(nextIndex := n.nextIndex[peer := At(n.nextIndex, peer) - 1]))
  }

  lemma ReplyHasOutcome(n: Node, peers: set<int>, peer: int, args: AppendArgs, reply: AppendReply)
    requires 0 <= args.prevLogIndex
    ensures ReplyOutcome(n, HandleAppendReply(n, peers, peer, args, reply), peer, args, reply)
  {
    CommitCore(RecordMatch(n, peer, args.prevLogIndex + |args.entries|), peers);
  }

  lemma MissIndices(s: State, h: Past, i: int, n': Node, peer: int)
    requires i in s.nodes && NodeOk(s, h, i) && s.nodes[i].role == Leader
    requires n' == s.nodes[i] || (At(s.nodes[i].nextIndex, peer) > 1
               && n' == s.nodes[i].(nextIndex := s.nodes[i].nextIndex[peer := At(s.nodes[i].nextIndex, peer) - 1]))
    ensures forall p :: p in s.peers && p != i ==> PeerIndexOk(n', h.acks, p)
  {
    forall p | p in s.peers && p != i
      ensures PeerIndexOk(n', h.acks, p)
    {
      assert PeerIndexOk(s.nodes[i], h.acks, p);
    }
  }

  // What delivering a reply to AppendEntries comes to.
  lemma ReplyStep(s: State, h: Past, m: Message)
    requires m.AppendResponse? && Enabled(s, Deliver(m))
    ensures var i := m.app.leaderId;
      var n' := HandleAppendReply(s.nodes[i], s.peers, m.from, m.app, m.appReply);
      && Step(s, Deliver(m)) == Put(s, i, n')
      && Record(h, s, Deliver(m)) == if n'.commitIndex > s.nodes[i].commitIndex
                                     then h.(seals := h.seals + {SealOf(n', s.peers)}) else h
  {
  }

  lemma AppendResponseKeeps(s: State, h: Past, m: Message)
    requires Inv(s, h) && m.AppendResponse? && Enabled(s, Deliver(m))
    ensures Inv(Step(s, Deliver(m)), Record(h, s, Deliver(m)))
  {
    var i := m.app.leaderId;
    var n' := HandleAppendReply(s.nodes[i], s.peers, m.from, m.app, m.appReply);
    ReplyHasOutcome(s.nodes[i], s.peers, m.from, m.app, m.appReply);
    OutcomeKeeps(s, h, m, n');
    ReplyStep(s, h, m);
    SealsDoNotMatter(Put(s, i, n'), h, Record(h, s, Deliver(m)).seals);
  }

  lemma OutcomeKeeps(s: State, h: Past, m: Message, n': Node)
    requires Inv(s, h) && m.AppendResponse? && Enabled(s, Deliver(m))
    requires ReplyOutcome(s.nodes[m.app.leaderId], n', m.from, m.app, m.appReply)
    ensures Inv(Put(s, m.app.leaderId, n'), h)
  {
    var i := m.app.leaderId;
    var n := s.nodes[i];
    if SameCore(n', n) {
      TouchKeeps(s, h, i, n');
    } else if m.appReply.term > n.term && n' == Adopt(n, m.appReply.term) {
      AdoptKeeps(s, h, i, m.appReply.term);
    } else if n.term == m.app.term && m.appReply.success
      && SameCore(n', RecordMatch(n, m.from, m.app.prevLogIndex + |m.app.entries|)) {
      RecordMatchKeeps(s, h, m);
      ReplaceKeeps(s, h, i, RecordMatch(n, m.from, m.app.prevLogIndex + |m.app.entries|), n');
    } else {
      assert NodeOk(s, h, i);
      MissIndices(s, h, i, n', m.from);
      IndicesKeep(s, h, i, n');
    }
  }

  // Every message a leader sends is a full suffix of its log.
  lemma HeartbeatIsSuffix(s: State, h: Past, i: int, p: int)
    requires Inv(s, h) && i in s.nodes && s.nodes[i].role == Leader && p in s.peers && p != i
    ensures var a := AppendRequestOf(s.nodes[i], p);
      AppOk(h.reigns, a) && a.prevLogIndex + |a.entries| == |s.nodes[i].log|
  {
    var n := s.nodes[i];
    assert NodeOk(s, h, i);
    assert PeerIndexOk(n, h.acks, p);
  }

  lemma HeartbeatKeeps(s: State, h: Past, i: int)
    requires Inv(s, h) && i in s.nodes
    ensures Inv(Step(s, Heartbeat(i)), Record(h, s, Heartbeat(i)))
  {
    if s.nodes[i].role == Leader {
      assert NodeOk(s, h, i);
      forall m | m in AppendRequests(s, s.nodes[i])
        ensures MessageOk(s, h, m)
      {
        HeartbeatIsSuffix(s, h, i, m.to);
      }
      SendKeeps(s, h, AppendRequests(s, s.nodes[i]));
    }
  }

  lemma RestartKeeps(s: State, h: Past, i: int)
    requires Inv(s, h) && i in s.nodes && KeepsVotes(s, RestartNode(i))
    ensures Inv(Step(s, RestartNode(i)), h)
  {
    assert SameCore(Restart(s.nodes[i]), s.nodes[i]) by {
      assert NodeOk(s, h, i);
      if s.nodes[i].role != Follower { assert VoteOk(s, h, (i, s.nodes[i].term)); }
    }
    TouchKeeps(s, h, i, Restart(s.nodes[i]));
    assert Step(s, RestartNode(i)) == Put(s, i, Restart(s.nodes[i]));
  }

  lemma StepKeeps(s: State, h: Past, e: Event)
    requires Inv(s, h) && KeepsVotes(s, e)
    ensures Inv(Step(s, e), Record(h, s, e))
  {
    if Enabled(s, e) {
      match e
      case ElectionTimeout(i) => TimeoutKeeps(s, h, i);
      case Deliver(m) =>
        match m {
          case VoteRequest(_, _) => VoteRequestKeeps(s, h, m);
          case VoteResponse(_, _, _) => VoteResponseKeeps(s, h, m);
          case AppendRequest(_, _) => AppendRequestKeeps(s, h, m);
          case AppendResponse(_, _, _) => AppendResponseKeeps(s, h, m);
        }
      case Heartbeat(i) => HeartbeatKeeps(s, h, i);
      case ClientStart(i, command) =>
        if s.nodes[i].role == Leader {
          StartGrows(s, h, i, command);
          ClientKeeps(s, h, i, NextEntry(s.nodes[i], command));
        } else {
          TouchKeeps(s, h, i, s.nodes[i]);
        }
      case StopNode(i) => TouchKeeps(s, h, i, Stop(s.nodes[i]));
      case RestartNode(i) => RestartKeeps(s, h, i);
    }
  }

  lemma InitHolds(peers: set<int>)
    requires ValidPeers(peers)
    ensures Inv(Init(peers), NoPast())
  {
    forall i | i in peers
      ensures NodeOk(Init(peers), NoPast(), i)
    {
    }
  }

  lemma R1Prefix(peers: set<int>, run: Run, k: nat)
    requires k <= |run|
    ensures R1(peers, run) ==> R1(peers, run[..k])
    ensures R2(peers, run) ==> R2(peers, run[..k])
  {
    assert forall j :: 0 <= j < k ==> run[..k][..j] == run[..j];
  }

  lemma {:induction false} RunsKeep(peers: set<int>, run: Run)
    requires ValidPeers(peers) && R1(peers, run)
    ensures Inv(After(peers, run), PastOf(peers, run))
  {
    if |run| == 0 {
      InitHolds(peers);
    } else {
      var k := |run| - 1;
      R1Prefix(peers, run, k);
      RunsKeep(peers, run[..k]);
      StepKeeps(After(peers, run[..k]), PastOf(peers, run[..k]), run[k]);
    }
  }
}
