/** What R1 and R2 are for. Restart forgets a vote and the commit loop counts entries
    of old terms; over all runs each of the two breaks a safety theorem exactly
    when the cluster has three nodes or more. */
module Necessity {
  import opened Basics
  import opened RaftLogs
  import opened RaftHandlers
  import opened Cluster
  import opened History
  import opened Invariant
  import opened Steps
  import opened Commitment
  import opened Safety
  import opened Scenarios

  // ----- Restart -----

  // A node that voted in its term can, right after Restart, give another candidate of
  // that term its vote, exactly where R1 forbids the restart.
  lemma RestartForgetsVote(s: State, i: int)
    requires i in s.nodes
    ensures !KeepsVotes(s, RestartNode(i)) <==>
      exists args: VoteArgs :: VotesAgain(s.nodes[i], Restart(s.nodes[i]), args)
  {
    var n := s.nodes[i];
    if !KeepsVotes(s, RestartNode(i)) {
      assert VotesAgain(n, Restart(n),
          VoteArgs(n.term, if n.votedFor == 0 then 1 else 0, LastIndex(n.log), LastTerm(n.log)));
    }
  }

  predicate VotesAgain(n: Node, n': Node, args: VoteArgs) {
    n.votedFor != -1 && args.term == n.term && args.candidateId != n.votedFor && HandleRequestVote(n', args).1.granted
  }

  ghost predicate ElectsSafely(peers: set<int>)
    requires ValidPeers(peers)
  {
    forall run: Run, j: nat, k: nat, a: int, b: int ::
      j <= |run| && k <= |run| && a in peers && b in peers
      && SameReign(NodeAt(peers, run, j, a), NodeAt(peers, run, k, b))
      ==> a == b
  }

  predicate SameReign(m: Node, n: Node) {
    m.role == Leader && n.role == Leader && m.term == n.term
  }

  // Election safety over all runs, R1 or not.
  lemma ElectionSafetyWithoutR1(peers: set<int>)
    requires ValidPeers(peers)
    ensures ElectsSafely(peers) <==> |peers| <= 2
  {
    if |peers| <= 2 {
      forall run: Run, j: nat, k: nat, a: int, b: int
        | j <= |run| && k <= |run| && a in peers && b in peers
            && SameReign(NodeAt(peers, run, j, a), NodeAt(peers, run, k, b))
        ensures a == b
      {
        if j <= k { TwoNodesElectOne(peers, run, j, k, a, b); } else { TwoNodesElectOne(peers, run, k, j, b, a); }
      }
    } else {
      var s, a, b := TwoLeaders(peers);
      var run: Run :| After(peers, run) == s;
      assert run[..|run|] == run;
      assert SameReign(NodeAt(peers, run, |run|, a), NodeAt(peers, run, |run|, b));
    }
  }

  // ----- Two nodes: a spent vote leaves nothing to lead with -----

  // Whoever granted a vote to another node in a term cannot lead that term any more.
  predicate SpentVote(nodes: map<int, Node>, m: Message) {
    m.VoteResponse? && m.voteReply.granted ==>
      && m.from in nodes && m.from != m.vote.candidateId
      && (m.vote.term < nodes[m.from].term || (m.vote.term == nodes[m.from].term && nodes[m.from].role == Follower))
  }

  predicate AsksOthers(m: Message) {
    m.VoteRequest? ==> m.to != m.vote.candidateId
  }

  predicate VotedForSelf(n: Node, i: int) {
    n.id == i && (n.role != Follower ==> n.votedFor == i)
  }

  predicate Supports(m: Message, i: int, term: nat) {
    m.VoteResponse? && m.voteReply.granted && m.vote.candidateId == i && m.vote.term == term
  }

  ghost predicate Supported(net: set<Message>, n: Node, i: int) {
    n.role == Leader ==> exists m :: m in net && Supports(m, i, n.term)
  }

  ghost predicate VotesSpent(s: State) {
    && WellFormed(s)
    && (forall m :: m in s.net ==> AsksOthers(m) && SpentVote(s.nodes, m))
    && (forall i :: i in s.nodes ==> VotedForSelf(s.nodes[i], i) && Supported(s.net, s.nodes[i], i))
  }

  // A node does not come back to candidacy or leadership within a term.
  predicate Ages(n: Node, n': Node) {
    && n'.id == n.id && (n'.role != Follower ==> n'.votedFor == n'.id)
    && (n'.term > n.term || (n'.term == n.term && (n.role == Follower ==> n'.role == Follower)))
  }

  lemma EventAges(s: State, e: Event)
    requires Enabled(s, e) && VotedForSelf(s.nodes[Site(e)], Site(e)) && Site(e) >= 0
    requires e.Deliver? ==> AsksOthers(e.message)
    ensures var i, s' := Site(e), Step(s, e);
      s'.nodes == s.nodes[i := s'.nodes[i]] && Ages(s.nodes[i], s'.nodes[i])
  {
    if e.Deliver? {
      MessageAges(s, e.message);
    }
  }

  lemma MessageAges(s: State, m: Message)
    requires var e := Deliver(m);
      Enabled(s, e) && VotedForSelf(s.nodes[Site(e)], Site(e)) && Site(e) >= 0 && AsksOthers(m)
    ensures var i, s' := Site(Deliver(m)), Step(s, Deliver(m));
      s'.nodes == s.nodes[i := s'.nodes[i]] && Ages(s.nodes[i], s'.nodes[i])
  {
    match m
    case VoteRequest(to, vote) =>
    case VoteResponse(from, vote, reply) =>
    case AppendRequest(to, app) => FollowerAges(s.nodes[to], app);
    case AppendResponse(from, app, reply) => LeaderAges(s.nodes[app.leaderId], s.peers, from, app, reply);
  }

  lemma FollowerAges(n: Node, args: AppendArgs)
    requires n.role != Follower ==> n.votedFor == n.id
    ensures Ages(n, HandleAppendEntries(n, args).0)
  {
  }

  lemma LeaderAges(n: Node, peers: set<int>, peer: int, args: AppendArgs, reply: AppendReply)
    requires (n.role != Follower ==> n.votedFor == n.id) && 0 <= args.prevLogIndex
    ensures Ages(n, HandleAppendReply(n, peers, peer, args, reply))
  {
  }

  lemma NewMessagesOk(s: State, e: Event, m: Message)
    requires Enabled(s, e) && VotedForSelf(s.nodes[Site(e)], Site(e)) && Site(e) >= 0
    requires e.Deliver? ==> AsksOthers(e.message)
    requires m in Step(s, e).net && m !in s.net
    ensures AsksOthers(m) && SpentVote(Step(s, e).nodes, m)
  {
  }

  // Only a granted reply makes a leader.
  lemma NewLeaderSupported(s: State, e: Event)
    requires Enabled(s, e)
    ensures var i, s' := Site(e), Step(s, e);
      s'.nodes[i].role == Leader && !(s.nodes[i].role == Leader && s.nodes[i].term == s'.nodes[i].term) ==>
        e.Deliver? && Supports(e.message, i, s'.nodes[i].term)
  {
    if e.Deliver? && e.message.AppendRequest? {
      FollowersStay(s.nodes[e.message.to], e.message.app);
    } else if e.Deliver? && e.message.AppendResponse? {
      var m := e.message;
      RepliesMakeNoLeader(s.nodes[m.app.leaderId], s.peers, m.from, m.app, m.appReply);
    }
  }

  lemma FollowersStay(n: Node, args: AppendArgs)
    ensures var n' := HandleAppendEntries(n, args).0;
      n'.role == Leader ==> n.role == Leader && n'.term == n.term
  {
  }

  lemma RepliesMakeNoLeader(n: Node, peers: set<int>, peer: int, args: AppendArgs, reply: AppendReply)
    requires 0 <= args.prevLogIndex
    ensures var n' := HandleAppendReply(n, peers, peer, args, reply);
      n'.role == Leader ==> n.role == Leader && n'.term == n.term
  {
  }

  lemma NetGrows(s: State, e: Event)
    ensures s.net <= Step(s, e).net
  {
  }

  lemma StepSpends(s: State, e: Event)
    requires VotesSpent(s)
    ensures VotesSpent(Step(s, e))
  {
    if Enabled(s, e) {
      var i, s' := Site(e), Step(s, e);
      EventAges(s, e);
      NetGrows(s, e);
      forall m | m in s'.net
        ensures AsksOthers(m) && SpentVote(s'.nodes, m)
      {
        if m !in s.net { NewMessagesOk(s, e, m); }
      }
      NewLeaderSupported(s, e);
      forall j | j in s'.nodes
        ensures VotedForSelf(s'.nodes[j], j) && Supported(s'.net, s'.nodes[j], j)
      {
        assert Supported(s.net, s.nodes[j], j);
      }
    }
  }

  lemma {:induction false} RunsSpend(peers: set<int>, run: Run)
    requires ValidPeers(peers)
    ensures VotesSpent(After(peers, run)) && After(peers, run).peers == peers
  {
    if |run| > 0 {
      RunsSpend(peers, run[..|run| - 1]);
      StepSpends(After(peers, run[..|run| - 1]), run[|run| - 1]);
    }
  }

  lemma {:induction false} NetKept(peers: set<int>, run: Run, j: nat, k: nat)
    requires j <= k <= |run|
    ensures After(peers, run[..j]).net <= After(peers, run[..k]).net
    decreases k - j
  {
    if j < k {
      NetKept(peers, run, j, k - 1);
      assert run[..k][..k - 1] == run[..k - 1];
      NetGrows(After(peers, run[..k - 1]), run[k - 1]);
    }
  }

  lemma TwoNodesElectOne(peers: set<int>, run: Run, j: nat, k: nat, a: int, b: int)
    requires ValidPeers(peers) && |peers| <= 2 && j <= k <= |run| && a in peers && b in peers
    requires SameReign(NodeAt(peers, run, j, a), NodeAt(peers, run, k, b))
    ensures a == b
  {
    RunsSpend(peers, run[..j]);
    RunsSpend(peers, run[..k]);
    NetKept(peers, run, j, k);
    var s, s' := After(peers, run[..j]), After(peers, run[..k]);
    assert Supported(s.net, s.nodes[a], a);
    var m :| m in s.net && Supports(m, a, s.nodes[a].term);
    assert SpentVote(s'.nodes, m);
    if a != b {
      OnlyOther(peers, a, b, m.from);
    }
  }

  lemma OnlyOther(peers: set<int>, a: int, b: int, x: int)
    requires a in peers && b in peers && x in peers && a != b && x != a && |peers| <= 2
    ensures x == b
  {
    assert |{a, b, x}| == if x == b then 2 else 3;
    SubsetSize({a, b, x}, peers);
  }

  // ----- Three nodes or more: two leaders of one term -----

  // Two of the peers and all the others.
  predicate Rivals(peers: set<int>, voters: set<int>, a: int, b: int) {
    && ValidPeers(peers) && a != b && a !in voters && b !in voters && voters != {}
    && peers == voters + {a, b} && |peers| == |voters| + 2
  }

  lemma ChooseRivals(peers: set<int>) returns (voters: set<int>, a: int, b: int)
    requires ValidPeers(peers) && |peers| >= 3
    ensures Rivals(peers, voters, a, b)
  {
    a := AnyOf(peers);
    assert |peers - {a}| == |peers| - 1;
    b := AnyOf(peers - {a});
    voters := peers - {a} - {b};
    assert peers == voters + {a, b};
  }

  // Both stand in term 1; every other node votes for a, restarts, and votes for b.
  lemma TwoLeaders(peers: set<int>) returns (s: State, a: int, b: int)
    requires ValidPeers(peers) && |peers| >= 3
    ensures Reachable(peers, s, false) && s.peers == peers && s.nodes.Keys == peers
    ensures a in peers && b in peers && a != b && SameReign(s.nodes[a], s.nodes[b])
  {
    var voters;
    voters, a, b := ChooseRivals(peers);
    var forA, forB := VoteArgs(1, a, 0, 0), VoteArgs(1, b, 0, 0);
    var s2 := BothStand(peers, voters, a, b);
    var s3 := Poll(peers, s2, forA, voters, false);
    var s4 := RestartAll(peers, s3, voters);
    PollAgain(s2, voters, a, b, s3, s4);
    s := Poll(peers, s4, forB, voters, false);
  }

  lemma BothStand(peers: set<int>, voters: set<int>, a: int, b: int) returns (s: State)
    requires Rivals(peers, voters, a, b)
    ensures Reachable(peers, s, false) && s.peers == peers
    ensures Polling(s, VoteArgs(1, a, 0, 0), voters) && Polling(s, VoteArgs(1, b, 0, 0), voters)
  {
    var s0 := Init(peers);
    var s1 := Step(s0, ElectionTimeout(a));
    s := Step(s1, ElectionTimeout(b));
    StartReachable(peers, false);
    StepReachable(peers, s0, ElectionTimeout(a), false);
    StepReachable(peers, s1, ElectionTimeout(b), false);
    FirstStands(peers, voters, a, b);
    NewcomerStands(s1, voters, b);
    PollGoesOn(s1, voters, a, b);
  }

  lemma FirstStands(peers: set<int>, voters: set<int>, a: int, b: int)
    requires Rivals(peers, voters, a, b)
    ensures var s := Step(Init(peers), ElectionTimeout(a));
      && WellFormed(s) && s.peers == peers && Polling(s, VoteArgs(1, a, 0, 0), voters)
      && forall v :: v in peers && v != a ==> s.nodes[v] == NewNode(v)
  {
    NewcomerStands(Init(peers), voters, a);
  }

  // Standing for the first time, with voters that never voted.
  lemma NewcomerStands(s: State, voters: set<int>, c: int)
    requires WellFormed(s) && c in s.nodes && s.nodes[c] == NewNode(c)
    requires voters <= s.peers - {c} && 1 < |s.peers| / 2 + 1 <= 1 + |voters|
    requires forall v :: v in voters ==> s.nodes[v] == NewNode(v)
    ensures Polling(Step(s, ElectionTimeout(c)), VoteArgs(1, c, 0, 0), voters)
    ensures Step(s, ElectionTimeout(c)).peers == s.peers
    ensures forall v :: v in s.nodes && v != c ==> Step(s, ElectionTimeout(c)).nodes[v] == s.nodes[v]
  {
  }

  lemma PollGoesOn(s: State, voters: set<int>, a: int, b: int)
    requires Polling(s, VoteArgs(1, a, 0, 0), voters) && b in s.nodes && a != b && b !in voters && s.nodes[b].id == b
    ensures Polling(Step(s, ElectionTimeout(b)), VoteArgs(1, a, 0, 0), voters)
  {
  }

  lemma PollAgain(s: State, voters: set<int>, a: int, b: int, s1: State, s2: State)
    requires Polling(s, VoteArgs(1, a, 0, 0), voters) && Polling(s, VoteArgs(1, b, 0, 0), voters) && a != b
    requires Polled(s, VoteArgs(1, a, 0, 0), voters, s1) && Forgot(s1, voters, s2)
    ensures Polling(s2, VoteArgs(1, b, 0, 0), voters)
    ensures s2.nodes[a].role == Leader && s2.nodes[a].term == 1
  {
    forall v | v in voters
      ensures VoteRequest(v, VoteArgs(1, b, 0, 0)) in s2.net && CanVote(s2.nodes[v], VoteArgs(1, b, 0, 0))
    {
      assert CanVote(s.nodes[v], VoteArgs(1, a, 0, 0)) && VoteRequest(v, VoteArgs(1, b, 0, 0)) in s.net;
    }
  }

  // ----- Counting entries of old terms -----

  ghost predicate AppliesSafely(peers: set<int>)
    requires ValidPeers(peers)
  {
    forall run: Run, j: nat, k: nat, a: int, b: int ::
      j <= |run| && k <= |run| && a in peers && b in peers && R1(peers, run)
      ==> Agree(NodeAt(peers, run, j, a), NodeAt(peers, run, k, b))
  }

  predicate Agree(m: Node, n: Node) {
    m.applied <= n.applied || n.applied <= m.applied
  }

  // State machine safety over all runs that keep R1, R2 or not.
  lemma StateMachineSafetyWithoutR2(peers: set<int>)
    requires ValidPeers(peers)
    ensures AppliesSafely(peers) <==> |peers| <= 2
  {
    if |peers| <= 2 {
      forall run: Run, j: nat, k: nat, a: int, b: int
        | j <= |run| && k <= |run| && a in peers && b in peers && R1(peers, run)
        ensures Agree(NodeAt(peers, run, j, a), NodeAt(peers, run, k, b))
      {
        TwoNodesCountSafely(peers, run);
        StateMachineSafety(peers, run, j, k, a, b);
      }
    } else {
      var s, a, b := Overwritten(peers);
      var run: Run :| After(peers, run) == s && R1(peers, run);
      assert run[..|run|] == run;
      assert !Agree(NodeAt(peers, run, |run|, a), NodeAt(peers, run, |run|, b));
    }
  }

  // With two nodes a majority is everybody, so R2 cannot be missed.
  lemma TwoNodesCountSafely(peers: set<int>, run: Run)
    requires ValidPeers(peers) && |peers| <= 2 && R1(peers, run)
    ensures R2(peers, run)
  {
    forall k | 0 <= k < |run|
      ensures CommitsSafely(After(peers, run[..k]), run[k])
    {
      R1Prefix(peers, run, k);
      RunsKeep(peers, run[..k]);
      RunsAreWellFormed(peers, run[..k]);
      MajorityIsEverybody(After(peers, run[..k]), PastOf(peers, run[..k]), run[k]);
    }
  }

  lemma MajorityIsEverybody(s: State, h: Past, e: Event)
    requires Inv(s, h) && |s.peers| <= 2
    ensures CommitsSafely(s, e)
  {
    if e.Deliver? && e.message.AppendResponse? && Enabled(s, e) {
      var m := e.message;
      ReplyStep(s, h, m);
      IndexedInState(s, h, m.app.leaderId);
      ReplyCountsAll(s.nodes[m.app.leaderId], s.peers, m.from, m.app, m.appReply);
    }
  }

  lemma ReplyCountsAll(n: Node, peers: set<int>, peer: int, args: AppendArgs, reply: AppendReply)
    requires n.id in peers && |peers| <= 2 && LastIndex(n.log) == |n.log| && 0 <= args.prevLogIndex
    ensures var n' := HandleAppendReply(n, peers, peer, args, reply);
      n'.commitIndex > n.commitIndex ==> n'.commitIndex <= |n'.log| && SafeToCount(n', peers, n'.commitIndex)
  {
    if HandleAppendReply(n, peers, peer, args, reply).commitIndex > n.commitIndex {
      CountingReply(n, peers, peer, args, reply);
      CountedByAll(RecordMatch(n, peer, args.prevLogIndex + |args.entries|), peers);
    }
  }

  lemma IndexedInState(s: State, h: Past, i: int)
    requires NodesOk(s, h) && i in s.nodes
    ensures s.nodes[i].id == i && LastIndex(s.nodes[i].log) == |s.nodes[i].log|
  {
    assert NodeOk(s, h, i);
    RootedIndices(h.reigns, s.nodes[i].log);
  }

  lemma CountedByAll(n: Node, peers: set<int>)
    requires n.id in peers && |peers| <= 2 && LastIndex(n.log) == |n.log|
    ensures var n' := ApplyCommitted(UpdateCommitIndex(n, peers));
      n'.commitIndex > n.commitIndex ==> n'.commitIndex <= |n'.log| && SafeToCount(n', peers, n'.commitIndex)
  {
    HighestHeldIsOrderStatistic(n, peers, LastIndex(n.log));
    var n' := ApplyCommitted(UpdateCommitIndex(n, peers));
    var k := n'.commitIndex;
    if k > n.commitIndex {
      assert HeldByMajority(n, peers, k);
      assert Holders(n', peers, k) == Holders(n, peers, k);
      SameSize(Holders(n', peers, k) + {n.id}, peers);
    }
  }

  lemma SameSize(a: set<int>, b: set<int>)
    requires a <= b && |a| >= |b|
    ensures a == b
  {
    if b - a != {} {
      var x := AnyOf(b - a);
      SubsetSize(a, b - {x});
    } else {
      forall x | x in b ensures x in a {
        assert x !in a ==> x in b - a;
      }
    }
  }

  // ----- Three nodes or more: figure 8 of the Raft paper -----

  predicate Side(n: Node, id: int, term: nat, log: seq<LogEntry>) {
    n.id == id && n.term == term && n.log == log && n.commitIndex == 0 && n.lastApplied == 0 && n.applied == []
  }

  predicate Electorate(s: State, voters: set<int>, term: nat, log: seq<LogEntry>) {
    forall v :: v in voters ==> v in s.nodes && s.nodes[v].term == term && s.nodes[v].log == log
  }

  // What a node that hears of a newer term's election keeps.
  predicate Heard(n: Node, n': Node, term: nat) {
    && n'.id == n.id && n'.role == Follower && n'.term == term && n'.log == n.log
    && n'.commitIndex == n.commitIndex && n'.lastApplied == n.lastApplied && n'.applied == n.applied
  }

  // c is elected by the voters, and its rival hears of it.
  lemma ElectOver(peers: set<int>, s: State, voters: set<int>, c: int, o: int) returns (s': State)
    requires Rivals(peers, voters, c, o) && Reachable(peers, s, true) && s.peers == s.nodes.Keys == peers
    requires CanWin(s, c, voters) && s.nodes[o].term <= s.nodes[c].term
    ensures Reachable(peers, s', true) && s'.peers == s'.nodes.Keys == peers
    ensures s'.nodes[c] == BecomeLeader(BecomeCandidate(s.nodes[c]), s.peers)
    ensures Heard(s.nodes[o], s'.nodes[o], s.nodes[c].term + 1)
    ensures forall v :: v in voters ==> s'.nodes[v].log == s.nodes[v].log && s'.nodes[v].term == s.nodes[c].term + 1
  {
    var args := VoteRequestOf(BecomeCandidate(s.nodes[c]));
    var s1 := Elect(peers, s, c, voters, true);
    s' := Step(s1, Deliver(VoteRequest(o, args)));
    StepReachable(peers, s1, Deliver(VoteRequest(o, args)), true);
    Hears(s1, o, args);
  }

  lemma Hears(s: State, o: int, args: VoteArgs)
    requires o in s.nodes && VoteRequest(o, args) in s.net && s.nodes[o].term < args.term
    ensures var s' := Step(s, Deliver(VoteRequest(o, args)));
      s'.peers == s.peers && s'.nodes == s.nodes[o := s'.nodes[o]] && Heard(s.nodes[o], s'.nodes[o], args.term)
  {
  }

  // c is elected and takes a command that it sends to nobody; e is its entry.
  lemma Write(peers: set<int>, s: State, voters: set<int>, c: int, o: int, term: nat, e: LogEntry) returns (s': State)
    requires Rivals(peers, voters, c, o) && Reachable(peers, s, true) && s.peers == s.nodes.Keys == peers
    requires Side(s.nodes[c], c, term, []) && Electorate(s, voters, term, []) && s.nodes[o].term <= term
    requires e.index == 1 && e.term == term + 1
    ensures Reachable(peers, s', true) && s'.peers == s'.nodes.Keys == peers
    ensures Side(s'.nodes[c], c, e.term, [e]) && Electorate(s', voters, e.term, [])
    ensures Heard(s.nodes[o], s'.nodes[o], e.term)
  {
    RivalWins(s, voters, c, o, term, [], term, []);
    var s1 := ElectOver(peers, s, voters, c, o);
    s' := Step(s1, ClientStart(c, e.command));
    StepReachable(peers, s1, ClientStart(c, e.command), true);
    WinnerWrites(s, s1, voters, c, o, e);
  }

  lemma WinnerWrites(s: State, s1: State, voters: set<int>, c: int, o: int, e: LogEntry)
    requires c in s.nodes && o in s.nodes && c !in voters && c != o
    requires Side(s.nodes[c], c, s.nodes[c].term, []) && e.index == 1 && e.term == s.nodes[c].term + 1
    requires s1.peers == s1.nodes.Keys == s.peers == s.nodes.Keys
    requires s1.nodes[c] == BecomeLeader(BecomeCandidate(s.nodes[c]), s.peers)
    requires Heard(s.nodes[o], s1.nodes[o], e.term) && Electorate(s1, voters, e.term, [])
    ensures var s' := Step(s1, ClientStart(c, e.command));
      && s'.peers == s'.nodes.Keys == s.peers && Side(s'.nodes[c], c, e.term, [e])
      && Electorate(s', voters, e.term, []) && Heard(s.nodes[o], s'.nodes[o], e.term)
  {
    ClientEffect(s1, c, e);
  }

  lemma RivalWins(s: State, voters: set<int>, c: int, o: int, term: nat, log: seq<LogEntry>, term': nat,
      log': seq<LogEntry>)
    requires Rivals(s.peers, voters, c, o) && s.nodes.Keys == s.peers
    requires Side(s.nodes[c], c, term, log) && Electorate(s, voters, term', log')
    requires term' <= term && UpToDate(log', LastIndex(log), LastTerm(log))
    ensures CanWin(s, c, voters)
  {
  }

  lemma ClientEffect(s: State, c: int, e: LogEntry)
    requires c in s.nodes && s.nodes[c].role == Leader && s.nodes[c].log == []
    requires e.index == 1 && e.term == s.nodes[c].term
    ensures Step(s, ClientStart(c, e.command)) == Put(s, c, s.nodes[c].(log := [e]))
  {
    assert [] + [e] == [e];
  }

  // c is elected and commits its only entry, which is of an older term.
  lemma CommitOld(peers: set<int>, s: State, voters: set<int>, c: int, o: int, term: nat, e: LogEntry,
      log: seq<LogEntry>)
      returns (s': State)
    requires Rivals(peers, voters, c, o) && Reachable(peers, s, true) && s.peers == s.nodes.Keys == peers
    requires Side(s.nodes[c], c, term, [e]) && Electorate(s, voters, term, log) && s.nodes[o].term <= term
    requires e.index == 1 && Lacks(log, e) && LastTerm(log) < e.term
    ensures Reachable(peers, s', true) && s'.peers == s'.nodes.Keys == peers
    ensures s'.nodes[c].applied == [e.command] && s'.nodes[c].term == term + 1 && Electorate(s', voters, term + 1, [e])
    ensures Heard(s.nodes[o], s'.nodes[o], term + 1)
  {
    RivalWins(s, voters, c, o, term, [e], term, log);
    var s1 := ElectOver(peers, s, voters, c, o);
    WinnerReplicates(s, voters, c, s1, e, log);
    s' := CommitAsLeader(peers, s1, voters, c, o, e);
  }

  lemma CommitAsLeader(peers: set<int>, s: State, voters: set<int>, c: int, o: int, e: LogEntry) returns (s': State)
    requires Rivals(peers, voters, c, o) && Reachable(peers, s, true) && s.peers == s.nodes.Keys == peers
    requires Replicating(s, c, e, {}, voters)
    ensures Reachable(peers, s', true) && s'.peers == s'.nodes.Keys == peers
    ensures s'.nodes[c].applied == [e.command] && s'.nodes[c].term == s.nodes[c].term
    ensures Electorate(s', voters, s.nodes[c].term, [e]) && s'.nodes[o] == s.nodes[o]
  {
    SizesAdd(peers, voters, c, o);
    s' := Replicate(peers, s, c, e, {}, voters);
  }

  lemma SizesAdd(peers: set<int>, voters: set<int>, c: int, o: int)
    requires Rivals(peers, voters, c, o)
    ensures 1 + |{} + voters| > |peers| / 2 && o !in voters && o != c
  {
  }

  lemma WinnerReplicates(s: State, voters: set<int>, c: int, s': State, e: LogEntry, log: seq<LogEntry>)
    requires WellFormed(s) && |s.peers| >= 2 && c in s.nodes && voters <= s.peers - {c}
    requires s'.peers == s'.nodes.Keys == s.peers && s'.nodes[c] == BecomeLeader(BecomeCandidate(s.nodes[c]), s.peers)
    requires Side(s.nodes[c], c, s.nodes[c].term, [e]) && e.index == 1
    requires Lacks(log, e) && Electorate(s', voters, s.nodes[c].term + 1, log)
    ensures Replicating(s', c, e, {}, voters)
  {
  }

  // Figure 8: a writes in term 1 and b in term 2; a commits its entry in term 3, and
  // b overwrites it in term 4 and commits its own.
  lemma Overwritten(peers: set<int>) returns (s: State, a: int, b: int)
    requires ValidPeers(peers) && |peers| >= 3
    ensures Reachable(peers, s, true) && s.peers == s.nodes.Keys == peers
    ensures a in peers && b in peers && !Agree(s.nodes[a], s.nodes[b])
  {
    var voters;
    voters, a, b := ChooseRivals(peers);
    var x, y := LogEntry(1, 1, Command(COMMAND_SET, [], [])), LogEntry(1, 2, Command(COMMAND_DELETE, [], []));
    RivalsSwap(peers, voters, a, b);
    var s1 := BothWrite(peers, voters, a, b, x, y);
    s := BothCommit(peers, s1, voters, a, b, x, y);
    assert s.nodes[a].applied[0] != s.nodes[b].applied[0];
  }

  lemma BothWrite(peers: set<int>, voters: set<int>, a: int, b: int, x: LogEntry, y: LogEntry) returns (s: State)
    requires Rivals(peers, voters, a, b) && Rivals(peers, voters, b, a)
    requires x.index == 1 && x.term == 1 && y.index == 1 && y.term == 2
    ensures Reachable(peers, s, true) && s.peers == s.nodes.Keys == peers
    ensures Side(s.nodes[a], a, 2, [x]) && Side(s.nodes[b], b, 2, [y]) && Electorate(s, voters, 2, [])
  {
    var s0 := AtTheStart(peers, voters, a, b);
    var s1 := Write(peers, s0, voters, a, b, 0, x);
    s := Write(peers, s1, voters, b, a, 1, y);
  }

  lemma AtTheStart(peers: set<int>, voters: set<int>, a: int, b: int) returns (s: State)
    requires Rivals(peers, voters, a, b)
    ensures Reachable(peers, s, true) && s.peers == s.nodes.Keys == peers
    ensures Side(s.nodes[a], a, 0, []) && Side(s.nodes[b], b, 0, []) && Electorate(s, voters, 0, [])
  {
    StartReachable(peers, true);
    s := Init(peers);
  }

  lemma RivalsSwap(peers: set<int>, voters: set<int>, a: int, b: int)
    requires Rivals(peers, voters, a, b)
    ensures Rivals(peers, voters, b, a)
  {
  }

  lemma BothCommit(peers: set<int>, s: State, voters: set<int>, a: int, b: int, x: LogEntry, y: LogEntry)
      returns (s': State)
    requires Rivals(peers, voters, a, b) && Rivals(peers, voters, b, a)
    requires Reachable(peers, s, true) && s.peers == s.nodes.Keys == peers
    requires x.index == 1 && x.term == 1 && y.index == 1 && y.term == 2
    requires Side(s.nodes[a], a, 2, [x]) && Side(s.nodes[b], b, 2, [y]) && Electorate(s, voters, 2, [])
    ensures Reachable(peers, s', true) && s'.peers == s'.nodes.Keys == peers
    ensures s'.nodes[a].applied == [x.command] && s'.nodes[b].applied == [y.command]
  {
    var s1 := CommitOld(peers, s, voters, a, b, 2, x, []);
    s' := CommitOld(peers, s1, voters, b, a, 3, y, [x]);
  }
}
