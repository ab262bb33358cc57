/** The node as the program keeps it: fields changed in place under one lock. Every
    method is one critical section and carries out the function of RaftHandlers that
    the cluster steps with. */
module RaftNodes {
  import opened Basics
  import opened RaftLogs
  import opened RaftHandlers

  // The variables one election's reply goroutines share.
  class Election {
    const args: VoteArgs
    var votes: nat
    var waiting: set<int>

    constructor (args: VoteArgs, waiting: set<int>)
      ensures this.args == args && View() == Tally(1, waiting)
    {
      this.args := args;
      votes := 1;
      this.waiting := waiting;
    }

    function View(): (view: Tally)
      reads this
    {
      Tally(votes, waiting)
    }
  }

  // Ranging over a Go map visits its keys in no particular order.
  method Pick<T>(s: set<T>) returns (x: T)
    requires s != {}
    ensures x in s
  {
    x :| x in s;
  }

  lemma HoldersOfOneMore(n: Node, seen: set<int>, p: int, index: nat)
    requires p !in seen
    ensures |Holders(n, seen + {p}, index)| ==
      |Holders(n, seen, index)| + (if p != n.id && At(n.matchIndex, p) >= index then 1 else 0)
  {
    assert Holders(n, seen + {p}, index) ==
      Holders(n, seen, index) + (if p != n.id && At(n.matchIndex, p) >= index then {p} else {});
  }

  class RaftNode {
    const id: int
    const peers: set<int>
    const log: RaftLog
    var role: Role
    var currentTerm: nat
    var votedFor: int
    var nextIndex: map<int, nat>
    var matchIndex: map<int, nat>
    var commitIndex: nat
    var lastApplied: nat
    var leaderId: int
    var stopped: bool
    var applied: seq<Command>

    constructor (id: int, peers: set<int>)
      ensures this.id == id && this.peers == peers && fresh(log)
      ensures View() == NewNode(id)
    {
      this.id := id;
      this.peers := peers;
      log := new RaftLog();
      role, currentTerm, votedFor := Follower, 0, -1;
      nextIndex, matchIndex := map[], map[];
      commitIndex, lastApplied := 0, 0;
      leaderId, stopped, applied := -1, false, [];
    }

    // The node as a value.
    function View(): (view: Node)
      reads this, log
    {
      Node(id, role, currentTerm, votedFor, log.entries, nextIndex, matchIndex,
           commitIndex, lastApplied, leaderId, stopped, applied)
    }

    // ----- vote.go -----

    method IsCandidateLogUpToDate(lastLogIndex: nat, lastLogTerm: nat) returns (ok: bool)
      ensures ok == UpToDate(log.entries, lastLogIndex, lastLogTerm)
    {
      var lastIndex := LastIndex(log.entries);
      var lastTerm := 0;
      if lastIndex > 0 {
        match Get(log.entries, lastIndex) {
          case Some(entry) => lastTerm := entry.term;
          case None =>
        }
      }
      if lastLogTerm != lastTerm {
        return lastLogTerm > lastTerm;
      }
      return lastLogIndex >= lastIndex;
    }

    method RequestVote(args: VoteArgs) returns (reply: VoteReply)
      modifies this
      ensures (View(), reply) == HandleRequestVote(old(View()), args)
    {
      reply := VoteReply(currentTerm, false);
      if args.term < currentTerm {
        return;
      }
      if args.term > currentTerm {
        currentTerm := args.term;
        role := Follower;
        votedFor := -1;
      }
      reply := VoteReply(currentTerm, false);
      if votedFor != -1 && votedFor != args.candidateId {
        return;
      }
      var upToDate := IsCandidateLogUpToDate(args.lastLogIndex, args.lastLogTerm);
      if !upToDate {
        return;
      }
      votedFor := args.candidateId;
      reply := VoteReply(currentTerm, true);
    }

    // ----- node.go: elections -----

    method StartElection() returns (election: Election)
      modifies this
      ensures View() == BecomeCandidate(old(View()))
      ensures fresh(election) && election.args == VoteRequestOf(View())
      ensures election.View() == Tally(1, peers - {id})
    {
      role := Candidate;
      currentTerm := currentTerm + 1;
      votedFor := id;
      var lastLogIndex, lastLogTerm := LastIndex(log.entries), 0;
      if lastLogIndex > 0 {
        match Get(log.entries, lastLogIndex) {
          case Some(entry) => lastLogTerm := entry.term;
          case None =>
        }
      }
      election := new Election(VoteArgs(currentTerm, id, lastLogIndex, lastLogTerm), peers - {id});
    }

    method ElectLeader()
      modifies this
      ensures View() == BecomeLeader(old(View()), peers)
    {
      role := Leader;
      leaderId := id;
      var lastIndex := LastIndex(log.entries);
      nextIndex := map p | p in peers :: lastIndex + 1;
      matchIndex := map p | p in peers :: 0;
    }

    // What a vote goroutine does with its reply.
    method OnVoteReply(election: Election, peer: int, reply: VoteReply)
      modifies this, election
      ensures (View(), election.View()) ==
        HandleVoteReply(old(View()), peers, old(election.View()), peer, election.args, reply)
    {
      election.waiting := election.waiting - {peer};
      if role != Candidate || currentTerm != election.args.term {
        return;
      }
      if reply.term > currentTerm {
        currentTerm := reply.term;
        role := Follower;
        votedFor := -1;
        return;
      }
      if reply.granted {
        election.votes := election.votes + 1;
        if role == Candidate && currentTerm == election.args.term && election.votes >= |peers| / 2 + 1 {
          ElectLeader();
        }
      }
    }

    // ----- node.go: commit and apply -----

    // How many nodes hold the index, the leader included.
    method CountHolders(index: nat) returns (count: nat)
      ensures count == 1 + |Holders(View(), peers, index)|
    {
      count := 1;
      var rest := peers;
      ghost var seen: set<int> := {};
      while rest != {}
        invariant seen + rest == peers && seen !! rest
        invariant count == 1 + |Holders(View(), seen, index)|
        decreases |rest|
      {
        var p := Pick(rest);
        rest := rest - {p};
        HoldersOfOneMore(View(), seen, p, index);
        seen := seen + {p};
        if p != id && At(matchIndex, p) >= index {
          count := count + 1;
        }
      }
      assert seen == peers;
    }

    // The loop goes through every index above the old commit index, past those no
    // majority holds, and keeps the last one a majority does hold.
    method AdvanceCommitIndex()
      modifies this`commitIndex
      ensures View() == UpdateCommitIndex(old(View()), peers)
    {
      ghost var before := View();
      var index := commitIndex + 1;
      while index <= LastIndex(log.entries)
        invariant before.commitIndex < index
        invariant index <= LastIndex(log.entries) + 1 || index == before.commitIndex + 1
        invariant commitIndex == HighestHeld(before, peers, index - 1)
        decreases LastIndex(log.entries) + 1 - index
      {
        var count := CountHolders(index);
        assert Holders(View(), peers, index) == Holders(before, peers, index);
        if count > |peers| / 2 {
          commitIndex := index;
        }
        index := index + 1;
      }
      if LastIndex(log.entries) <= before.commitIndex {
        assert HighestHeld(before, peers, LastIndex(log.entries)) == before.commitIndex;
      }
    }

    method Apply()
      modifies this`lastApplied, this`applied
      ensures View() == ApplyCommitted(old(View()))
    {
      ghost var es, from := log.entries, lastApplied;
      while lastApplied < commitIndex
        invariant from <= lastApplied <= Max(from, commitIndex)
        invariant lastApplied <= |es| || lastApplied == from
        invariant applied == old(applied) + Commands(es[Min(from, |es|)..Min(lastApplied, |es|)])
        decreases commitIndex - lastApplied
      {
        lastApplied := lastApplied + 1;
        match Get(log.entries, lastApplied) {
          case None => return;
          case Some(entry) =>
            applied := applied + [entry.command];
            assert es[Min(from, |es|)..lastApplied] == es[Min(from, |es|)..lastApplied - 1] + [entry];
            assert Commands(es[Min(from, |es|)..lastApplied]) ==
              Commands(es[Min(from, |es|)..lastApplied - 1]) + [entry.command];
        }
      }
    }

    method StartCommand(command: Command) returns (index: nat, term: nat, ok: bool)
      modifies log
      ensures (View(), index, term, ok) == Start(old(View()), command)
    {
      if role != Leader {
        return 0, currentTerm, false;
      }
      var entry := log.Append(currentTerm, command);
      return entry.index, currentTerm, true;
    }

    method StopNode()
      modifies this
      ensures View() == Stop(old(View()))
    {
      if !stopped {
        stopped := true;
      }
    }

    method RestartNode()
      modifies this
      ensures View() == Restart(old(View()))
    {
      if stopped {
        stopped := false;
        role := Follower;
        votedFor := -1;
      }
    }

    // ----- append_entries.go -----

    method PreviousEntryMatches(args: AppendArgs) returns (ok: bool)
      ensures ok == PrevMatches(log.entries, args)
    {
      if args.prevLogIndex > 0 {
        if args.prevLogIndex > LastIndex(log.entries) {
          return false;
        }
        match Get(log.entries, args.prevLogIndex) {
          case None => return false;
          case Some(entry) => return entry.term == args.prevLogTerm;
        }
      }
      return true;
    }

    method AppendEntries(args: AppendArgs) returns (reply: AppendReply)
      modifies this, log
      ensures (View(), reply) == HandleAppendEntries(old(View()), args)
    {
      reply := AppendReply(currentTerm, false);
      if args.term < currentTerm {
        return;
      }
      if args.term > currentTerm {
        currentTerm := args.term;
        votedFor := -1;
      }
      role := Follower;
      leaderId := args.leaderId;
      reply := AppendReply(currentTerm, false);
      var matches := PreviousEntryMatches(args);
      if !matches {
        return;
      }
      reply := AppendReply(currentTerm, true);
      log.MergeEntries(args.entries);
      if args.leaderCommit > commitIndex {
        var leaderCommit: nat := args.leaderCommit;
        if leaderCommit > LastIndex(log.entries) {
          leaderCommit := LastIndex(log.entries);
        }
        commitIndex := leaderCommit;
      }
      Apply();
    }

    // One message for every other peer, or none when the node does not lead.
    method SendHeartbeats() returns (messages: map<int, AppendArgs>)
      ensures messages == if role == Leader
        then map p | p in peers && p != id :: AppendRequestOf(View(), p) else map[]
    {
      messages := map[];
      if role != Leader {
        return;
      }
      var rest := peers;
      while rest != {}
        invariant rest <= peers
        invariant messages == map p | p in peers - rest && p != id :: AppendRequestOf(View(), p)
        decreases |rest|
      {
        var p := Pick(rest);
        rest := rest - {p};
        if p != id {
          var next := At(nextIndex, p);
          var prevLogIndex, prevLogTerm := 0, 0;
          if next > 1 {
            prevLogIndex := next - 1;
            match Get(log.entries, prevLogIndex) {
              case Some(entry) => prevLogTerm := entry.term;
              case None =>
            }
          }
          messages := messages[p := AppendArgs(currentTerm, id, prevLogIndex, prevLogTerm,
                                               EntriesFrom(log.entries, next), commitIndex)];
        }
      }
    }

    // What a heartbeat goroutine does with its reply.
    method OnAppendReply(peer: int, args: AppendArgs, reply: AppendReply)
      requires 0 <= args.prevLogIndex
      modifies this
      ensures View() == HandleAppendReply(old(View()), peers, peer, args, reply)
    {
      if role != Leader || currentTerm != args.term {
        return;
      }
      if reply.term > currentTerm {
        currentTerm := reply.term;
        role := Follower;
        votedFor := -1;
        return;
      }
      if !reply.success {
        if At(nextIndex, peer) > 1 {
          nextIndex := nextIndex[peer := At(nextIndex, peer) - 1];
        }
        return;
      }
      matchIndex := matchIndex[peer := args.prevLogIndex + |args.entries|];
      nextIndex := nextIndex[peer := matchIndex[peer] + 1];
      assert View() == RecordMatch(old(View()), peer, args.prevLogIndex + |args.entries|);
      CommitAndApply();
    }

    method CommitAndApply()
      modifies this`commitIndex, this`lastApplied, this`applied
      ensures View() == ApplyCommitted(UpdateCommitIndex(old(View()), peers))
    {
      AdvanceCommitIndex();
      Apply();
    }
  }
}
