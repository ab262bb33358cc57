/** A cluster of nodes over an asynchronous request/reply network. Every critical
    section under a node's lock is one event. Messages stay in the network for
    ever, so they may be lost, delayed, reordered or delivered again; the one
    thing the program does at most once is consuming the reply of a vote request. */
module Cluster {
  import opened RaftLogs
  import opened RaftHandlers

  datatype Message =
    | VoteRequest(to: int, vote: VoteArgs)
    | VoteResponse(from: int, vote: VoteArgs, voteReply: VoteReply)
    | AppendRequest(to: int, app: AppendArgs)
    | AppendResponse(from: int, app: AppendArgs, appReply: AppendReply)

  // tallies[(c, T)] is the closure state of the election c started in term T.
  datatype State = State(
    peers: set<int>,
    nodes: map<int, Node>,
    tallies: map<(int, nat), Tally>,
    net: set<Message>)

  datatype Event =
    | ElectionTimeout(node: int)
    | Deliver(message: Message)
    | Heartbeat(node: int)
    | ClientStart(node: int, command: Command)
    | StopNode(node: int)
    | RestartNode(node: int)

  // R0: one fixed peer set, in which every node finds itself. Ids are natural
  // numbers, so that -1 is free to mean "no vote".
  predicate ValidPeers(peers: set<int>) {
    peers != {} && forall p :: p in peers ==> p >= 0
  }

  function Init(peers: set<int>): (s: State) {
    State(peers, map p | p in peers :: NewNode(p), map[], {})
  }

  predicate WellFormed(s: State) {
    ValidPeers(s.peers) && s.nodes.Keys == s.peers
  }

  // The node an event happens at.
  function Site(e: Event): (node: int) {
    match e
    case Deliver(VoteRequest(to, _)) => to
    case Deliver(AppendRequest(to, _)) => to
    case Deliver(VoteResponse(_, vote, _)) => vote.candidateId
    case Deliver(AppendResponse(_, app, _)) => app.leaderId
    case _ => e.node
  }

  predicate Enabled(s: State, e: Event) {
    && Site(e) in s.nodes
    && match e
       case Deliver(m) =>
         && m in s.net
         && (m.VoteResponse? ==>
               var election := (m.vote.candidateId, m.vote.term);
               election in s.tallies && m.from in s.tallies[election].waiting)
         && (m.AppendResponse? ==> 0 <= m.app.prevLogIndex)
       case _ => true
  }

  function VoteRequests(s: State, n: Node): (messages: set<Message>) {
    set p | p in s.peers && p != n.id :: VoteRequest(p, VoteRequestOf(n))
  }

  function AppendRequests(s: State, n: Node): (messages: set<Message>) {
    set p | p in s.peers && p != n.id :: AppendRequest(p, AppendRequestOf(n, p))
  }

  function Put(s: State, i: int, n: Node): (s': State) {
    s.(nodes := s.nodes[i := n])
  }

  function Send(s: State, messages: set<Message>): (s': State) {
    s.(net := s.net + messages)
  }

  function ReceiveMessage(s: State, m: Message): (s': State)
    requires Enabled(s, Deliver(m))
  {
    match m
    case VoteRequest(to, vote) =>
      var (n, reply) := HandleRequestVote(s.nodes[to], vote);
      Send(Put(s, to, n), {VoteResponse(to, vote, reply)})
    case VoteResponse(from, vote, reply) =>
      var c := vote.candidateId;
      var (n, tally) := HandleVoteReply(s.nodes[c], s.peers, s.tallies[(c, vote.term)], from, vote, reply);
      Put(s, c, n).(tallies := s.tallies[(c, vote.term) := tally])
    case AppendRequest(to, app) =>
      var (n, reply) := HandleAppendEntries(s.nodes[to], app);
      Send(Put(s, to, n), {AppendResponse(to, app, reply)})
    case AppendResponse(from, app, reply) =>
      Put(s, app.leaderId, HandleAppendReply(s.nodes[app.leaderId], s.peers, from, app, reply))
  }

  // An event that is not enabled leaves the cluster as it is.
  function Step(s: State, e: Event): (s': State)
    ensures s'.nodes.Keys == s.nodes.Keys && s'.peers == s.peers
  {
    if !Enabled(s, e) then s
    else match e
      case ElectionTimeout(i) =>
        var n := BecomeCandidate(s.nodes[i]);
        Send(Put(s, i, n), VoteRequests(s, n)).(tallies := s.tallies[(i, n.term) := Tally(1, s.peers - {i})])
      case Deliver(m) => ReceiveMessage(s, m)
      case Heartbeat(i) =>
        if s.nodes[i].role == Leader then Send(s, AppendRequests(s, s.nodes[i])) else s
      case ClientStart(i, command) => Put(s, i, Start(s.nodes[i], command).0)
      case StopNode(i) => Put(s, i, Stop(s.nodes[i]))
      case RestartNode(i) => Put(s, i, Restart(s.nodes[i]))
  }

  // ----- Runs -----

  type Run = seq<Event>

  // The cluster after a run.
  function After(peers: set<int>, run: Run): (s: State) {
    if |run| == 0 then Init(peers) else Step(After(peers, run[..|run| - 1]), run[|run| - 1])
  }

  // R1: Restart only where no vote was given (or where it does nothing).
  predicate KeepsVotes(s: State, e: Event) {
    e.RestartNode? && e.node in s.nodes && s.nodes[e.node].stopped ==> s.nodes[e.node].votedFor == -1
  }

  // R2: a commit index advanced by counting names an entry of the leader's term, as
  // section 5.4.2 of the Raft paper demands, or one that every node was counted for.
  predicate CommitsSafely(s: State, e: Event) {
    e.Deliver? && e.message.AppendResponse? && Enabled(s, e) ==>
      var i := e.message.app.leaderId;
      var n := Step(s, e).nodes[i];
      n.commitIndex > s.nodes[i].commitIndex ==>
        n.commitIndex <= |n.log| && SafeToCount(n, s.peers, n.commitIndex)
  }

  predicate SafeToCount(n: Node, peers: set<int>, index: nat)
    requires 1 <= index <= |n.log|
  {
    n.log[index - 1].term == n.term || Holders(n, peers, index) + {n.id} == peers
  }

  predicate R1(peers: set<int>, run: Run) {
    forall k :: 0 <= k < |run| ==> KeepsVotes(After(peers, run[..k]), run[k])
  }

  predicate R2(peers: set<int>, run: Run) {
    forall k :: 0 <= k < |run| ==> CommitsSafely(After(peers, run[..k]), run[k])
  }

  lemma {:induction false} RunsAreWellFormed(peers: set<int>, run: Run)
    requires ValidPeers(peers)
    ensures WellFormed(After(peers, run)) && After(peers, run).peers == peers
  {
    if |run| > 0 {
      RunsAreWellFormed(peers, run[..|run| - 1]);
    }
  }
}
