/** Runs put together from larger moves: an election by chosen voters, restarts of
    chosen nodes, and the replication of one entry to chosen followers. */
module Scenarios {
  import opened Basics
  import opened RaftLogs
  import opened RaftHandlers
  import opened Cluster
  import opened Repair

  // Some run leads to s; a careful one satisfies R1.
  ghost predicate Reachable(peers: set<int>, s: State, careful: bool) {
    exists run: Run :: After(peers, run) == s && (careful ==> R1(peers, run))
  }

  lemma StartReachable(peers: set<int>, careful: bool)
    ensures Reachable(peers, Init(peers), careful)
  {
    assert After(peers, []) == Init(peers);
  }

  lemma StepReachable(peers: set<int>, s: State, e: Event, careful: bool)
    requires Reachable(peers, s, careful) && (careful ==> KeepsVotes(s, e))
    ensures Reachable(peers, Step(s, e), careful)
  {
    var run: Run :| After(peers, run) == s && (careful ==> R1(peers, run));
    var run' := run + [e];
    assert run'[..|run|] == run;
    forall k | 0 <= k < |run'| && careful
      ensures KeepsVotes(After(peers, run'[..k]), run'[k])
    {
      if k < |run| { assert run'[..k] == run[..k]; }
    }
    assert After(peers, run') == Step(s, e);
  }

  // ----- An election -----

  predicate CanVote(n: Node, args: VoteArgs) {
    && (n.term < args.term || (n.term == args.term && n.votedFor == -1))
    && UpToDate(n.log, args.lastLogIndex, args.lastLogTerm)
  }

  // v is asked, grants, and its reply reaches the candidate.
  function PollOne(s: State, args: VoteArgs, v: int): (s': State) {
    Step(Step(s, Deliver(VoteRequest(v, args))), Deliver(VoteResponse(v, args, VoteReply(args.term, true))))
  }

  lemma PollOneEffect(s: State, args: VoteArgs, v: int)
    requires var c := args.candidateId;
      && c in s.nodes && v in s.nodes && v != c
      && VoteRequest(v, args) in s.net && CanVote(s.nodes[v], args)
      && (c, args.term) in s.tallies && v in s.tallies[(c, args.term)].waiting
    ensures var c, s' := args.candidateId, PollOne(s, args, v);
      var (n, tally) := HandleVoteReply(s.nodes[c], s.peers, s.tallies[(c, args.term)], v, args,
          VoteReply(args.term, true));
      && s'.peers == s.peers && s.net <= s'.net
      && s'.nodes == s.nodes[v := HandleRequestVote(s.nodes[v], args).0][c := n]
      && s'.tallies == s.tallies[(c, args.term) := tally]
  {
    var s1 := Step(s, Deliver(VoteRequest(v, args)));
    assert VoteResponse(v, args, VoteReply(args.term, true)) in s1.net;
  }

  // The candidate of `args` still needs votes, and those in `todo` will do.
  predicate Polling(s: State, args: VoteArgs, todo: set<int>) {
    var c := args.candidateId;
    && c in s.nodes && c !in todo && todo <= s.peers == s.nodes.Keys
    && s.nodes[c].term == args.term
    && (c, args.term) in s.tallies && todo <= s.tallies[(c, args.term)].waiting
    && Short(s.nodes[c], s.tallies[(c, args.term)].votes, |todo|, |s.peers| / 2 + 1)
    && forall v :: v in todo ==> VoteRequest(v, args) in s.net && CanVote(s.nodes[v], args)
  }

  predicate Short(n: Node, votes: nat, more: nat, quorum: nat) {
    n.role == Leader || (n.role == Candidate && votes < quorum <= votes + more)
  }

  function Elected(n: Node, peers: set<int>): (n': Node) {
    if n.role == Leader then n else BecomeLeader(n, peers)
  }

  predicate Polled(s: State, args: VoteArgs, todo: set<int>, s': State) {
    var c := args.candidateId;
    && c in s.nodes && s'.peers == s.peers && s'.nodes.Keys == s.nodes.Keys && s.net <= s'.net
    && s'.nodes[c] == Elected(s.nodes[c], s.peers)
    && (forall v :: v in s.nodes && v != c ==>
          s'.nodes[v] == if v in todo then HandleRequestVote(s.nodes[v], args).0 else s.nodes[v])
    && forall k :: k in s.tallies && k != (c, args.term) ==> k in s'.tallies && s'.tallies[k] == s.tallies[k]
  }

  lemma PollOneKeeps(s: State, args: VoteArgs, v: int, todo: set<int>)
    requires Polling(s, args, todo) && v in todo
    ensures Polling(PollOne(s, args, v), args, todo - {v})
    ensures Elected(PollOne(s, args, v).nodes[args.candidateId], s.peers) == Elected(s.nodes[args.candidateId], s.peers)
  {
    PollOneEffect(s, args, v);
    assert |todo - {v}| == |todo| - 1;
  }

  lemma {:induction false} Poll(peers: set<int>, s: State, args: VoteArgs, todo: set<int>, careful: bool)
      returns (s': State)
    requires Reachable(peers, s, careful) && Polling(s, args, todo)
    ensures Reachable(peers, s', careful) && Polled(s, args, todo, s')
    decreases |todo|
  {
    if todo == {} {
      s' := s;
    } else {
      var v := AnyOf(todo);
      var s1 := PollOne(s, args, v);
      PollOneReachable(peers, s, args, v, careful);
      PollOneKeeps(s, args, v, todo);
      s' := Poll(peers, s1, args, todo - {v}, careful);
      PolledOneMore(s, args, v, todo, s');
    }
  }

  lemma PolledOneMore(s: State, args: VoteArgs, v: int, todo: set<int>, s': State)
    requires Polling(s, args, todo) && v in todo && Polled(PollOne(s, args, v), args, todo - {v}, s')
    ensures Polled(s, args, todo, s')
  {
    PollOneEffect(s, args, v);
  }

  lemma PollOneReachable(peers: set<int>, s: State, args: VoteArgs, v: int, careful: bool)
    requires Reachable(peers, s, careful)
    ensures Reachable(peers, PollOne(s, args, v), careful)
  {
    StepReachable(peers, s, Deliver(VoteRequest(v, args)), careful);
    StepReachable(peers, Step(s, Deliver(VoteRequest(v, args))),
        Deliver(VoteResponse(v, args, VoteReply(args.term, true))), careful);
  }

  // ----- Restarts -----

  predicate Forgot(s: State, todo: set<int>, s': State) {
    && s'.peers == s.peers && s'.nodes.Keys == s.nodes.Keys && s.net == s'.net && s'.tallies == s.tallies
    && forall v :: v in s.nodes ==> s'.nodes[v] == if v in todo then Restart(Stop(s.nodes[v])) else s.nodes[v]
  }

  // Restart every node of `todo`: each forgets its vote and keeps its term.
  lemma {:induction false} RestartAll(peers: set<int>, s: State, todo: set<int>) returns (s': State)
    requires Reachable(peers, s, false) && todo <= s.nodes.Keys
    ensures Reachable(peers, s', false) && Forgot(s, todo, s')
    decreases |todo|
  {
    if todo == {} {
      s' := s;
    } else {
      var v := AnyOf(todo);
      var s1 := Step(Step(s, StopNode(v)), RestartNode(v));
      StepReachable(peers, s, StopNode(v), false);
      StepReachable(peers, Step(s, StopNode(v)), RestartNode(v), false);
      RestartOneEffect(s, v);
      s' := RestartAll(peers, s1, todo - {v});
    }
  }

  lemma RestartOneEffect(s: State, v: int)
    requires v in s.nodes
    ensures Step(Step(s, StopNode(v)), RestartNode(v)) == Put(s, v, Restart(Stop(s.nodes[v])))
  {
    var s1 := Step(s, StopNode(v));
    assert s1.nodes[v := Restart(s1.nodes[v])] == s.nodes[v := Restart(s1.nodes[v])];
  }

  // ----- One candidate's whole election -----

  lemma TimeoutEffect(s: State, c: int)
    requires c in s.nodes && s.nodes[c].id == c
    ensures var s', n := Step(s, ElectionTimeout(c)), BecomeCandidate(s.nodes[c]);
      && s'.peers == s.peers && s'.nodes == s.nodes[c := n] && s.net <= s'.net
      && s'.tallies == s.tallies[(c, n.term) := Tally(1, s.peers - {c})]
      && forall v :: v in s.peers && v != c ==> VoteRequest(v, VoteRequestOf(n)) in s'.net
  {
  }

  // c stands for election in the next term, and `voters` suffice and will grant.
  predicate CanWin(s: State, c: int, voters: set<int>) {
    && WellFormed(s) && c in s.nodes && s.nodes[c].id == c
    && voters <= s.peers - {c} && 1 < |s.peers| / 2 + 1 <= 1 + |voters|
    && forall v :: v in voters ==>
         && s.nodes[v].term <= s.nodes[c].term
         && UpToDate(s.nodes[v].log, LastIndex(s.nodes[c].log), LastTerm(s.nodes[c].log))
  }

  predicate Won(s: State, c: int, voters: set<int>, s': State) {
    && c in s.nodes && s'.peers == s.peers && s'.nodes.Keys == s.nodes.Keys
    && s'.nodes[c] == BecomeLeader(BecomeCandidate(s.nodes[c]), s.peers)
    && forall v :: v in s.nodes && v != c ==>
         if v in voters then s'.nodes[v].log == s.nodes[v].log && s'.nodes[v].term == s.nodes[c].term + 1
         else s'.nodes[v] == s.nodes[v]
  }

  // Everybody was asked.
  predicate AskedAll(s: State, c: int, args: VoteArgs) {
    forall v :: v in s.peers && v != c ==> VoteRequest(v, args) in s.net
  }

  lemma Elect(peers: set<int>, s: State, c: int, voters: set<int>, careful: bool) returns (s': State)
    requires Reachable(peers, s, careful) && CanWin(s, c, voters)
    ensures Reachable(peers, s', careful) && Won(s, c, voters, s')
    ensures AskedAll(s', c, VoteRequestOf(BecomeCandidate(s.nodes[c])))
  {
    var s1, args := Step(s, ElectionTimeout(c)), VoteRequestOf(BecomeCandidate(s.nodes[c]));
    StepReachable(peers, s, ElectionTimeout(c), careful);
    StandingPolls(s, c, voters);
    s' := Poll(peers, s1, args, voters, careful);
    PolledWins(s, c, voters, s1, args, s');
    assert AskedAll(s', c, args) by {
      TimeoutEffect(s, c);
    }
  }

  lemma PolledWins(s: State, c: int, voters: set<int>, s1: State, args: VoteArgs, s': State)
    requires CanWin(s, c, voters) && args == VoteRequestOf(BecomeCandidate(s.nodes[c]))
    requires s1 == Step(s, ElectionTimeout(c)) && Polled(s1, args, voters, s')
    ensures Won(s, c, voters, s')
  {
    TimeoutEffect(s, c);
    assert s1.nodes[c] == BecomeCandidate(s.nodes[c]);
    forall v | v in voters
      ensures s'.nodes[v].log == s.nodes[v].log && s'.nodes[v].term == s.nodes[c].term + 1
    {
      assert s'.nodes[v] == HandleRequestVote(s.nodes[v], args).0;
    }
  }

  lemma StandingPolls(s: State, c: int, voters: set<int>)
    requires CanWin(s, c, voters)
    ensures Polling(Step(s, ElectionTimeout(c)), VoteRequestOf(BecomeCandidate(s.nodes[c])), voters)
  {
  }

  // ----- Replication of a leader's only entry -----

  predicate OnlyEntry(n: Node, e: LogEntry) {
    n.role == Leader && n.log == [e] && e.index == 1
  }

  // Nothing, or one entry of another term.
  predicate Lacks(log: seq<LogEntry>, e: LogEntry) {
    |log| == 0 || (|log| == 1 && log[0].index == 1 && log[0].term != e.term)
  }

  // Not committed and not to be, or committed and applied.
  predicate Counts(n: Node, peers: set<int>, e: LogEntry) {
    && n.lastApplied == n.commitIndex
    && (|| (n.commitIndex == 0 && n.applied == [] && !HeldByMajority(n, peers, 1))
        || (n.commitIndex == 1 && n.applied == [e.command]))
  }

  // The leader once f is counted for its entry.
  function Counted(leader: Node, peers: set<int>, f: int): (n': Node) {
    ApplyCommitted(UpdateCommitIndex(RecordMatch(leader, f, 1), peers))
  }

  lemma FirstRound(leader: Node, follower: Node, peers: set<int>, f: int, e: LogEntry)
    requires OnlyEntry(leader, e) && At(leader.nextIndex, f) == 2
    requires follower.term <= leader.term && Lacks(follower.log, e)
    ensures var args := AppendRequestOf(leader, f);
      var (follower', reply) := HandleAppendEntries(follower, args);
      && follower'.log == follower.log && follower'.term == leader.term
      && HandleAppendReply(leader, peers, f, args, reply) == leader.(nextIndex := leader.nextIndex[f := 1])
  {
  }

  lemma SecondRound(leader: Node, follower: Node, peers: set<int>, f: int, e: LogEntry)
    requires OnlyEntry(leader, e) && At(leader.nextIndex, f) == 1
    requires follower.term <= leader.term && Lacks(follower.log, e)
    ensures var args := AppendRequestOf(leader, f);
      var (follower', reply) := HandleAppendEntries(follower, args);
      && follower'.log == [e] && follower'.term == leader.term
      && HandleAppendReply(leader, peers, f, args, reply) == Counted(leader, peers, f)
  {
    assert AppendRequestOf(leader, f).entries == [e];
    FollowerTakes(follower, AppendRequestOf(leader, f), e);
  }

  lemma FollowerTakes(n: Node, args: AppendArgs, e: LogEntry)
    requires args.term >= n.term && args.prevLogIndex == 0 && args.entries == [e] && e.index == 1 && Lacks(n.log, e)
    ensures var (n', reply) := HandleAppendEntries(n, args);
      n'.log == [e] && n'.term == args.term && reply == AppendReply(args.term, true)
  {
    MergeSingle(n.log, e);
    ReplacesOnly(n.log, e);
  }

  lemma MergeSingle(log: seq<LogEntry>, e: LogEntry)
    ensures Merge(log, [e]) == MergeOne(log, e)
  {
    assert [e][..0] == [];
    assert Merge(log, []) == log;
  }

  lemma ReplacesOnly(log: seq<LogEntry>, e: LogEntry)
    requires Lacks(log, e) && e.index == 1
    ensures MergeOne(log, e) == [e]
  {
    assert log[..0] + [e] == [e];
  }

  lemma CountingOnce(leader: Node, peers: set<int>, f: int, e: LogEntry)
    requires OnlyEntry(leader, e) && Counts(leader, peers, e)
    ensures var n := Counted(leader, peers, f);
      OnlyEntry(n, e) && Counts(n, peers, e) && n.id == leader.id && n.term == leader.term
  {
    var n1 := RecordMatch(leader, f, 1);
    var n2 := UpdateCommitIndex(n1, peers);
    assert Holders(n2, peers, 1) == Holders(n1, peers, 1);
    assert HighestHeld(n1, peers, 0) == n1.commitIndex || n1.commitIndex == 1;
    assert [] + Commands([e][0..1]) == [e.command];
    var n := ApplyCommitted(n2);
    assert Holders(n, peers, 1) == Holders(n1, peers, 1);
  }

  // `todo` lacks the entry, `done` is counted for it.
  predicate Replicating(s: State, l: int, e: LogEntry, done: set<int>, todo: set<int>) {
    && WellFormed(s) && l in s.nodes && s.nodes[l].id == l
    && OnlyEntry(s.nodes[l], e) && Counts(s.nodes[l], s.peers, e)
    && done <= s.peers - {l} && todo <= s.peers - {l} - done
    && (forall f :: f in done ==> At(s.nodes[l].matchIndex, f) >= 1)
    && (forall f :: f in todo ==>
          At(s.nodes[l].nextIndex, f) == 2 && s.nodes[f].term <= s.nodes[l].term && Lacks(s.nodes[f].log, e))
  }

  // The first round is rejected, the second brings the entry.
  lemma TwoRounds(s: State, l: int, e: LogEntry, f: int)
    requires CanRepair(s, l, f) && OnlyEntry(s.nodes[l], e) && At(s.nodes[l].nextIndex, f) == 2
    requires s.nodes[f].term <= s.nodes[l].term && Lacks(s.nodes[f].log, e)
    ensures var leader, s' := s.nodes[l], Round(Round(s, l, f), l, f);
      && s'.nodes[l] == Counted(leader.(nextIndex := leader.nextIndex[f := 1]), s.peers, f)
      && s'.nodes[f].log == [e] && s'.nodes[f].term == leader.term
      && forall v :: v in s.nodes && v != l && v != f ==> s'.nodes[v] == s.nodes[v]
  {
    RejectedRound(s, l, e, f);
    AcceptedRound(Round(s, l, f), l, e, f);
  }

  lemma RejectedRound(s: State, l: int, e: LogEntry, f: int)
    requires CanRepair(s, l, f) && OnlyEntry(s.nodes[l], e) && At(s.nodes[l].nextIndex, f) == 2
    requires s.nodes[f].term <= s.nodes[l].term && Lacks(s.nodes[f].log, e)
    ensures var leader, s' := s.nodes[l], Round(s, l, f);
      && CanRepair(s', l, f) && s'.nodes[l] == leader.(nextIndex := leader.nextIndex[f := 1])
      && s'.nodes[f].log == s.nodes[f].log && s'.nodes[f].term == leader.term
      && forall v :: v in s.nodes && v != l && v != f ==> s'.nodes[v] == s.nodes[v]
  {
    RoundChangesTwoNodes(s, l, f);
    FirstRound(s.nodes[l], s.nodes[f], s.peers, f, e);
  }

  lemma AcceptedRound(s: State, l: int, e: LogEntry, f: int)
    requires CanRepair(s, l, f) && OnlyEntry(s.nodes[l], e) && At(s.nodes[l].nextIndex, f) == 1
    requires s.nodes[f].term <= s.nodes[l].term && Lacks(s.nodes[f].log, e)
    ensures var leader, s' := s.nodes[l], Round(s, l, f);
      && s'.nodes[l] == Counted(leader, s.peers, f)
      && s'.nodes[f].log == [e] && s'.nodes[f].term == leader.term
      && forall v :: v in s.nodes && v != l && v != f ==> s'.nodes[v] == s.nodes[v]
  {
    RoundChangesTwoNodes(s, l, f);
    SecondRound(s.nodes[l], s.nodes[f], s.peers, f, e);
  }

  lemma LeaderAfterRounds(leader: Node, peers: set<int>, f: int, e: LogEntry)
    requires OnlyEntry(leader, e) && Counts(leader, peers, e)
    ensures var n := Counted(leader.(nextIndex := leader.nextIndex[f := 1]), peers, f);
      && OnlyEntry(n, e) && Counts(n, peers, e) && n.id == leader.id && n.term == leader.term
      && n.matchIndex == leader.matchIndex[f := 1] && n.nextIndex == leader.nextIndex[f := 2]
  {
    var retried := leader.(nextIndex := leader.nextIndex[f := 1]);
    assert Holders(retried, peers, 1) == Holders(leader, peers, 1);
    CountingOnce(retried, peers, f, e);
  }

  // f has the leader's entry now.
  predicate OneMore(s: State, l: int, e: LogEntry, f: int, s': State) {
    && l in s.nodes && f in s.nodes && s'.peers == s.peers && s'.nodes.Keys == s.nodes.Keys
    && s'.nodes[l].term == s.nodes[l].term
    && s'.nodes[f].log == [e] && s'.nodes[f].term == s.nodes[l].term
    && forall v :: v in s.nodes && v != l && v != f ==> s'.nodes[v] == s.nodes[v]
  }

  lemma ReplicateOne(s: State, l: int, e: LogEntry, done: set<int>, todo: set<int>, f: int)
    requires Replicating(s, l, e, done, todo) && f in todo
    ensures var s' := Round(Round(s, l, f), l, f);
      Replicating(s', l, e, done + {f}, todo - {f}) && OneMore(s, l, e, f, s')
  {
    TwoRounds(s, l, e, f);
    LeaderAfterRounds(s.nodes[l], s.peers, f, e);
    ReplicatingOn(s, l, e, done, todo, f, Round(Round(s, l, f), l, f));
  }

  lemma ReplicatingOn(s: State, l: int, e: LogEntry, done: set<int>, todo: set<int>, f: int, s': State)
    requires Replicating(s, l, e, done, todo) && f in todo && OneMore(s, l, e, f, s')
    requires var leader, leader' := s.nodes[l], s'.nodes[l];
      && OnlyEntry(leader', e) && Counts(leader', s.peers, e) && leader'.id == l
      && leader'.matchIndex == leader.matchIndex[f := 1] && leader'.nextIndex == leader.nextIndex[f := 2]
    ensures Replicating(s', l, e, done + {f}, todo - {f})
  {
  }

  lemma RoundReachable(peers: set<int>, s: State, l: int, f: int)
    requires Reachable(peers, s, true) && l in s.nodes && f in s.nodes
    ensures Reachable(peers, Round(s, l, f), true)
  {
    var s1 := Step(s, Heartbeat(l));
    var s2 := Step(s1, Deliver(RoundRequest(s, l, f)));
    StepReachable(peers, s, Heartbeat(l), true);
    StepReachable(peers, s1, Deliver(RoundRequest(s, l, f)), true);
    StepReachable(peers, s2, Deliver(RoundReply(s, l, f)), true);
  }

  predicate Replicated(s: State, l: int, e: LogEntry, todo: set<int>, s': State) {
    && l in s.nodes && s'.peers == s.peers && s'.nodes.Keys == s.nodes.Keys
    && s'.nodes[l].id == l && s'.nodes[l].term == s.nodes[l].term && s'.nodes[l].log == [e]
    && s'.nodes[l].applied == [e.command]
    && forall v :: v in s.nodes && v != l ==>
         if v in todo then s'.nodes[v].log == [e] && s'.nodes[v].term == s.nodes[l].term
         else s'.nodes[v] == s.nodes[v]
  }

  lemma {:induction false} Replicate(peers: set<int>, s: State, l: int, e: LogEntry, done: set<int>, todo: set<int>)
      returns (s': State)
    requires Reachable(peers, s, true) && Replicating(s, l, e, done, todo)
    requires 1 + |done + todo| > |s.peers| / 2
    ensures Reachable(peers, s', true) && Replicated(s, l, e, todo, s')
    decreases |todo|
  {
    if todo == {} {
      s' := s;
      assert done + todo == done;
      CommittedOnce(s, l, e, done);
    } else {
      var f := AnyOf(todo);
      var s1 := ReachOneMore(peers, s, l, e, done, todo, f);
      MoveOver(done, todo, f);
      s' := Replicate(peers, s1, l, e, done + {f}, todo - {f});
      ReplicatedOneMore(s, l, e, todo, f, s1, s');
    }
  }

  lemma MoveOver(done: set<int>, todo: set<int>, f: int)
    requires f in todo
    ensures done + {f} + (todo - {f}) == done + todo
  {
  }

  lemma CommittedOnce(s: State, l: int, e: LogEntry, done: set<int>)
    requires Replicating(s, l, e, done, {}) && 1 + |done| > |s.peers| / 2
    ensures Replicated(s, l, e, {}, s)
  {
    SubsetSize(done, Holders(s.nodes[l], s.peers, 1));
  }

  lemma ReachOneMore(peers: set<int>, s: State, l: int, e: LogEntry, done: set<int>, todo: set<int>, f: int)
      returns (s': State)
    requires Reachable(peers, s, true) && Replicating(s, l, e, done, todo) && f in todo
    ensures Reachable(peers, s', true) && Replicating(s', l, e, done + {f}, todo - {f}) && OneMore(s, l, e, f, s')
  {
    s' := Round(Round(s, l, f), l, f);
    RoundReachable(peers, s, l, f);
    RoundReachable(peers, Round(s, l, f), l, f);
    ReplicateOne(s, l, e, done, todo, f);
  }

  lemma ReplicatedOneMore(s: State, l: int, e: LogEntry, todo: set<int>, f: int, s1: State, s': State)
    requires l in s.nodes && f in s.nodes && l != f && f in todo
    requires OneMore(s, l, e, f, s1) && Replicated(s1, l, e, todo - {f}, s')
    ensures Replicated(s, l, e, todo, s')
  {
  }
}
