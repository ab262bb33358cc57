/** One Raft node as a value, and every critical section of the program as a
    function on it. The class in RaftNode.dfy carries these out field by field. */
module RaftHandlers {
  import opened Basics
  import opened RaftLogs

  datatype Role = Follower | Candidate | Leader

  // votedFor is -1 when no vote was given. `applied` lists the commands passed to
  // the apply callback so far, in order.
  datatype Node = Node(
    id: int,
    role: Role,
    term: nat,
    votedFor: int,
    log: seq<LogEntry>,
    nextIndex: map<int, nat>,
    matchIndex: map<int, nat>,
    commitIndex: nat,
    lastApplied: nat,
    leaderId: int,
    stopped: bool,
    applied: seq<Command>)

  datatype VoteArgs = VoteArgs(term: nat, candidateId: int, lastLogIndex: nat, lastLogTerm: nat)
  datatype VoteReply = VoteReply(term: nat, granted: bool)

  // Indices are int in AppendEntriesArgs, so a message can carry a negative one.
  datatype AppendArgs = AppendArgs(
    term: nat,
    leaderId: int,
    prevLogIndex: int,
    prevLogTerm: int,
    entries: seq<LogEntry>,
    leaderCommit: int)
  datatype AppendReply = AppendReply(term: nat, success: bool)

  // The closure state of one election: the counter and the peers whose goroutine
  // has not consumed its reply yet.
  datatype Tally = Tally(votes: nat, waiting: set<int>)

  function NewNode(id: int): (n: Node) {
    Node(id, Follower, 0, -1, [], map[], map[], 0, 0, -1, false, [])
  }

  // Reading a Go map: zero for a missing key.
  function At(m: map<int, nat>, key: int): (value: nat) {
    if key in m then m[key] else 0
  }

  // ----- vote.go -----

  predicate UpToDate(log: seq<LogEntry>, lastLogIndex: nat, lastLogTerm: nat) {
    if lastLogTerm != LastTerm(log) then lastLogTerm > LastTerm(log)
    else lastLogIndex >= LastIndex(log)
  }

  // A newer term: adopt it and forget the vote.
  function Adopt(n: Node, term: nat): (n': Node) {
    n.(role := Follower, term := term, votedFor := if term > n.term then -1 else n.votedFor)
  }

  function HandleRequestVote(n: Node, args: VoteArgs): (result: (Node, VoteReply)) {
    if args.term < n.term then (n, VoteReply(n.term, false))
    else
      var n' := if args.term > n.term then Adopt(n, args.term) else n;
      if n'.votedFor != -1 && n'.votedFor != args.candidateId then (n', VoteReply(n'.term, false))
      else if !UpToDate(n'.log, args.lastLogIndex, args.lastLogTerm) then (n', VoteReply(n'.term, false))
      else (n'.(votedFor := args.candidateId), VoteReply(n'.term, true))
  }

  // ----- node.go: elections -----

  function BecomeCandidate(n: Node): (n': Node) {
    n.(role := Candidate, term := n.term + 1, votedFor := n.id)
  }

  function BecomeLeader(n: Node, peers: set<int>): (n': Node) {
    n.(role := Leader, leaderId := n.id,
       nextIndex := map p | p in peers :: LastIndex(n.log) + 1,
       matchIndex := map p | p in peers :: 0)
  }

  function VoteRequestOf(n: Node): (args: VoteArgs) {
    VoteArgs(n.term, n.id, LastIndex(n.log), LastTerm(n.log))
  }

  // Reply handler of one goroutine of the election that sent `args`.
  function HandleVoteReply(n: Node, peers: set<int>, tally: Tally, peer: int, args: VoteArgs, reply: VoteReply)
      : (result: (Node, Tally))
  {
    var tally := tally.(waiting := tally.waiting - {peer});
    if n.role != Candidate || n.term != args.term then (n, tally)
    else if reply.term > n.term then (Adopt(n, reply.term), tally)
    else if !reply.granted then (n, tally)
    else
      var votes := tally.votes + 1;
      (if votes >= |peers| / 2 + 1 then BecomeLeader(n, peers) else n, tally.(votes := votes))
  }

  // ----- node.go: commit and apply -----

  // The leader's peers known to hold `index`.
  function Holders(n: Node, peers: set<int>, index: nat): (holders: set<int>) {
    set p | p in peers && p != n.id && At(n.matchIndex, p) >= index
  }

  predicate HeldByMajority(n: Node, peers: set<int>, index: nat) {
    1 + |Holders(n, peers, index)| > |peers| / 2
  }

  // The largest index in commitIndex + 1 .. hi held by a majority, or commitIndex.
  function HighestHeld(n: Node, peers: set<int>, hi: nat): (index: nat) {
    if hi <= n.commitIndex then n.commitIndex
    else if HeldByMajority(n, peers, hi) then hi
    else HighestHeld(n, peers, hi - 1)
  }

  function UpdateCommitIndex(n: Node, peers: set<int>): (n': Node) {
    n.(commitIndex := HighestHeld(n, peers, LastIndex(n.log)))
  }

  // Apply everything committed. When commitIndex lies past the log, the loop gives
  // up after having counted one index it could not read.
  function ApplyCommitted(n: Node): (n': Node) {
    if n.lastApplied >= n.commitIndex then n
    else
      var last := if n.commitIndex <= |n.log| then n.commitIndex else Max(n.lastApplied, |n.log|) + 1;
      n.(lastApplied := last,
         applied := n.applied + Commands(n.log[Min(n.lastApplied, |n.log|)..Min(n.commitIndex, |n.log|)]))
  }

  function Start(n: Node, command: Command): (result: (Node, nat, nat, bool)) {
    if n.role != Leader then (n, 0, n.term, false)
    else
      var entry := LogEntry(LastIndex(n.log) + 1, n.term, command);
      (n.(log := n.log + [entry]), entry.index, n.term, true)
  }

  function Stop(n: Node): (n': Node) {
    n.(stopped := true)
  }

  function Restart(n: Node): (n': Node) {
    if n.stopped then n.(stopped := false, role := Follower, votedFor := -1) else n
  }

  // ----- append_entries.go -----

  predicate PrevMatches(log: seq<LogEntry>, args: AppendArgs) {
    args.prevLogIndex > 0 ==>
      && args.prevLogIndex <= LastIndex(log)
      && match Get(log, args.prevLogIndex)
         case Some(entry) => entry.term == args.prevLogTerm
         case None => false
  }

  function AdvanceCommit(n: Node, leaderCommit: int): (n': Node) {
    if leaderCommit > n.commitIndex then n.(commitIndex := Min(leaderCommit, LastIndex(n.log))) else n
  }

  // The sender is a valid leader of args.term.
  function Follow(n: Node, args: AppendArgs): (n': Node) {
    Adopt(n, args.term).(leaderId := args.leaderId)
  }

  function HandleAppendEntries(n: Node, args: AppendArgs): (result: (Node, AppendReply)) {
    if args.term < n.term then (n, AppendReply(n.term, false))
    else
      var n' := Follow(n, args);
      if !PrevMatches(n'.log, args) then (n', AppendReply(n'.term, false))
      else
        var merged := n'.(log := Merge(n'.log, args.entries));
        (ApplyCommitted(AdvanceCommit(merged, args.leaderCommit)), AppendReply(n'.term, true))
  }

  // The message sendHeartbeats builds for one peer.
  function AppendRequestOf(n: Node, peer: int): (args: AppendArgs) {
    var next := At(n.nextIndex, peer);
    var prev := if next > 1 then next - 1 else 0;
    var prevTerm := match Get(n.log, prev) case Some(entry) => entry.term case None => 0;
    AppendArgs(n.term, n.id, prev, prevTerm, EntriesFrom(n.log, next), n.commitIndex)
  }

  function HandleAppendReply(n: Node, peers: set<int>, peer: int, args: AppendArgs, reply: AppendReply): (n': Node)
    requires 0 <= args.prevLogIndex
  {
    if n.role != Leader || n.term != args.term then n
    else if reply.term > n.term then Adopt(n, reply.term)
    else if !reply.success then
      if At(n.nextIndex, peer) > 1 then n.(nextIndex := n.nextIndex[peer := At(n.nextIndex, peer) - 1]) else n
    else ApplyCommitted(UpdateCommitIndex(RecordMatch(n, peer, args.prevLogIndex + |args.entries|), peers))
  }

  function RecordMatch(n: Node, peer: int, index: nat): (n': Node) {
    n.(matchIndex := n.matchIndex[peer := index], nextIndex := n.nextIndex[peer := index + 1])
  }

  // ----- What the commit loop computes -----

  lemma HoldersShrink(n: Node, peers: set<int>, low: nat, high: nat)
    requires low <= high
    ensures |Holders(n, peers, high)| <= |Holders(n, peers, low)|
  {
    SubsetSize(Holders(n, peers, high), Holders(n, peers, low));
  }

  // An order statistic: the new commit index is the old one or the largest
  // majority-held index of the log, and every index passed over is majority-held.
  lemma {:induction false} HighestHeldIsOrderStatistic(n: Node, peers: set<int>, hi: nat)
    ensures var k := HighestHeld(n, peers, hi);
      && k >= n.commitIndex
      && (k == n.commitIndex || k <= hi)
      && (forall i :: n.commitIndex < i <= k ==> HeldByMajority(n, peers, i))
      && (forall i :: k < i <= hi ==> !HeldByMajority(n, peers, i))
    decreases hi
  {
    if hi <= n.commitIndex {
    } else if HeldByMajority(n, peers, hi) {
      forall i | n.commitIndex < i <= hi
        ensures HeldByMajority(n, peers, i)
      {
        HoldersShrink(n, peers, i, hi);
      }
    } else {
      HighestHeldIsOrderStatistic(n, peers, hi - 1);
    }
  }
}
