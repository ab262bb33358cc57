/** What a run has done so far, recorded beside the cluster: who voted for whom,
    whose votes a candidate counted, who led each term with which log, how far each
    node acknowledged each leader, and which indices leaders committed by counting.
    Nothing here is read by any node. */
module History {
  import opened Basics
  import opened RaftLogs
  import opened RaftHandlers
  import opened Cluster

  // The leader of one term, the nodes that elected it, and the longest log it had
  // while leading.
  datatype Reign = Reign(leader: int, voters: set<int>, log: seq<LogEntry>)

  // The leader of `term` advanced its commit index to `index`, counting `quorum`.
  datatype Seal = Seal(term: nat, index: nat, quorum: set<int>)

  datatype Past = Past(
    voted: map<(int, nat), int>,
    counted: map<(int, nat), set<int>>,
    reigns: map<nat, Reign>,
    acks: map<(int, nat), nat>,
    seals: set<Seal>)

  function NoPast(): (h: Past) {
    Past(map[], map[], map[], map[], {})
  }

  function AckOf(acks: map<(int, nat), nat>, v: int, term: nat): (index: nat) {
    if (v, term) in acks then acks[(v, term)] else 0
  }

  predicate Granted(voted: map<(int, nat), int>, v: int, term: nat, c: int) {
    (v, term) in voted && voted[(v, term)] == c
  }

  // ----- How each event extends the past -----

  function RecordVote(h: Past, v: int, term: nat, c: int): (h': Past) {
    h.(voted := h.voted[(v, term) := c])
  }

  function RecordCount(h: Past, c: int, term: nat, from: int): (h': Past) {
    var so := if (c, term) in h.counted then h.counted[(c, term)] else {};
    h.(counted := h.counted[(c, term) := so + {from}])
  }

  function RecordReign(h: Past, c: int, term: nat, voters: set<int>, log: seq<LogEntry>): (h': Past) {
    h.(reigns := h.reigns[term := Reign(c, voters, log)], acks := h.acks[(c, term) := |log|])
  }

  function RecordAck(h: Past, v: int, term: nat, index: nat): (h': Past) {
    h.(acks := h.acks[(v, term) := Max(AckOf(h.acks, v, term), index)])
  }

  // The leader's log grew.
  function RecordGrowth(h: Past, c: int, term: nat, log: seq<LogEntry>): (h': Past) {
    if term in h.reigns then
      h.(reigns := h.reigns[term := h.reigns[term].(log := log)], acks := h.acks[(c, term) := |log|])
    else h
  }

  // What node n committed by counting.
  function SealOf(n: Node, peers: set<int>): (seal: Seal) {
    Seal(n.term, n.commitIndex, Holders(n, peers, n.commitIndex) + {n.id})
  }

  function RecordDelivery(h: Past, s: State, m: Message): (h': Past)
    requires Enabled(s, Deliver(m))
  {
    match m
    case VoteRequest(to, vote) =>
      if HandleRequestVote(s.nodes[to], vote).1.granted then RecordVote(h, to, vote.term, vote.candidateId) else h
    case VoteResponse(from, vote, reply) =>
      var c := vote.candidateId;
      var n := s.nodes[c];
      if n.role == Candidate && n.term == vote.term && reply.term <= n.term && reply.granted then
        var h' := RecordCount(h, c, n.term, from);
        if HandleVoteReply(n, s.peers, s.tallies[(c, vote.term)], from, vote, reply).0.role == Leader
        then RecordReign(h', c, n.term, h'.counted[(c, n.term)] + {c}, n.log)
        else h'
      else h
    case AppendRequest(to, app) =>
      if HandleAppendEntries(s.nodes[to], app).1.success && app.prevLogIndex >= 0
      then RecordAck(h, to, app.term, app.prevLogIndex + |app.entries|) else h
    case AppendResponse(from, app, reply) =>
      var n := s.nodes[app.leaderId];
      var n' := HandleAppendReply(n, s.peers, from, app, reply);
      if n'.commitIndex > n.commitIndex
      then h.(seals := h.seals + {SealOf(n', s.peers)})
      else h
  }

  function Record(h: Past, s: State, e: Event): (h': Past) {
    if !Enabled(s, e) then h
    else match e
      case ElectionTimeout(i) =>
        var term := s.nodes[i].term + 1;
        RecordVote(h, i, term, i).(counted := h.counted[(i, term) := {}])
      case Deliver(m) => RecordDelivery(h, s, m)
      case ClientStart(i, command) =>
        var n := s.nodes[i];
        if n.role == Leader then RecordGrowth(h, i, n.term, Start(n, command).0.log) else h
      case _ => h
  }

  // The past of a run.
  function PastOf(peers: set<int>, run: Run): (h: Past) {
    if |run| == 0 then NoPast()
    else Record(PastOf(peers, run[..|run| - 1]), After(peers, run[..|run| - 1]), run[|run| - 1])
  }
}
