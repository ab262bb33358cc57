/** Log repair: a leader that talks to one follower round by round, with no other
    leader intervening, brings the follower's log to its own. */
module Repair {
  import opened RaftLogs
  import opened RaftHandlers
  import opened Cluster
  import opened History
  import opened Invariant
  import opened Steps

  // One round: a heartbeat, its delivery at f, and the delivery of the reply.
  function RoundRequest(s: State, l: int, f: int): (m: Message)
    requires l in s.nodes
  {
    AppendRequest(f, AppendRequestOf(s.nodes[l], f))
  }

  function RoundReply(s: State, l: int, f: int): (m: Message)
    requires l in s.nodes && f in s.nodes
  {
    var args := AppendRequestOf(s.nodes[l], f);
    AppendResponse(f, args, HandleAppendEntries(s.nodes[f], args).1)
  }

  function Round(s: State, l: int, f: int): (s': State)
    requires l in s.nodes && f in s.nodes
    ensures s'.nodes.Keys == s.nodes.Keys && s'.peers == s.peers
  {
    Step(Step(Step(s, Heartbeat(l)), Deliver(RoundRequest(s, l, f))), Deliver(RoundReply(s, l, f)))
  }

  predicate CanRepair(s: State, l: int, f: int) {
    && WellFormed(s) && l in s.nodes && f in s.nodes && l != f
    && s.nodes[l].id == l && s.nodes[l].role == Leader
  }

  lemma RoundChangesTwoNodes(s: State, l: int, f: int)
    requires CanRepair(s, l, f)
    ensures var args := AppendRequestOf(s.nodes[l], f);
      var (follower, reply) := HandleAppendEntries(s.nodes[f], args);
      Round(s, l, f).nodes == s.nodes[f := follower][l := HandleAppendReply(s.nodes[l], s.peers, f, args, reply)]
  {
    var s1 := Step(s, Heartbeat(l));
    var request := RoundRequest(s, l, f);
    assert request in AppendRequests(s, s.nodes[l]);
    assert request in s1.net && s1.nodes == s.nodes;
    var s2 := Step(s1, Deliver(request));
    assert RoundReply(s, l, f) in s2.net;
    assert s2.nodes == s.nodes[f := HandleAppendEntries(s.nodes[f], request.app).0];
  }

  lemma RoundKeeps(s: State, h: Past, l: int, f: int) returns (h': Past)
    requires Inv(s, h) && CanRepair(s, l, f)
    ensures Inv(Round(s, l, f), h')
  {
    var s1, h1 := Step(s, Heartbeat(l)), Record(h, s, Heartbeat(l));
    var e2, e3 := Deliver(RoundRequest(s, l, f)), Deliver(RoundReply(s, l, f));
    StepKeeps(s, h, Heartbeat(l));
    var s2, h2 := Step(s1, e2), Record(h1, s1, e2);
    StepKeeps(s1, h1, e2);
    h' := Record(h2, s2, e3);
    StepKeeps(s2, h2, e3);
  }

  predicate ReadyToRepair(leader: Node, follower: Node) {
    && leader.role == Leader && leader.id != follower.id && follower.term <= leader.term
    && WellIndexed(leader.log) && WellIndexed(follower.log) && Matches(follower.log, leader.log)
    && 1 <= At(leader.nextIndex, follower.id) <= |leader.log| + 1
  }

  lemma MatchedPrefix(leader: Node, follower: Node)
    requires ReadyToRepair(leader, follower)
    requires PrevMatches(follower.log, AppendRequestOf(leader, follower.id))
    ensures var prev := AppendRequestOf(leader, follower.id).prevLogIndex;
      prev >= 0 && Contains(follower.log, leader.log, prev)
  {
    var prev := AppendRequestOf(leader, follower.id).prevLogIndex;
    if prev > 0 { assert Contains(follower.log, leader.log, prev - 1 + 1); }
  }

  lemma SuffixSent(leader: Node, p: int)
    requires WellIndexed(leader.log) && 1 <= At(leader.nextIndex, p) <= |leader.log| + 1
    ensures var args := AppendRequestOf(leader, p);
      && 0 <= args.prevLogIndex <= |leader.log| && args.entries == leader.log[args.prevLogIndex..|leader.log|]
      && IndexedFrom(args.prevLogIndex, args.entries)
  {
  }

  // The follower accepts and then holds the leader's log, or rejects a message that
  // names a previous entry.
  lemma FollowerAccepts(leader: Node, follower: Node)
    requires ReadyToRepair(leader, follower)
    requires PrevMatches(follower.log, AppendRequestOf(leader, follower.id))
    ensures Contains(Merge(follower.log, AppendRequestOf(leader, follower.id).entries), leader.log, |leader.log|)
  {
    var args := AppendRequestOf(leader, follower.id);
    var prev := args.prevLogIndex;
    MatchedPrefix(leader, follower);
    SuffixSent(leader, follower.id);
    MergeTowards(follower.log, prev, args.entries, leader.log);
  }

  // What one round makes of the two nodes.
  predicate Progress(leader: Node, leader': Node, follower: Node, follower': Node) {
    var next, next' := At(leader.nextIndex, follower.id), At(leader'.nextIndex, follower.id);
    && leader'.role == Leader && leader'.id == leader.id && leader'.term == leader.term == follower'.term
    && leader'.log == leader.log
    && (|| (Contains(follower'.log, leader.log, |leader.log|) && next' == |leader.log| + 1)
        || (next > 1 && next' == next - 1 && follower'.log == follower.log))
  }

  lemma RejectionSteps(peers: set<int>, leader: Node, follower: Node)
    requires ReadyToRepair(leader, follower)
    requires !PrevMatches(follower.log, AppendRequestOf(leader, follower.id))
    ensures var args := AppendRequestOf(leader, follower.id);
      var (follower', reply) := HandleAppendEntries(follower, args);
      Progress(leader, HandleAppendReply(leader, peers, follower.id, args, reply), follower, follower')
  {
  }

  lemma AcceptanceRepairs(peers: set<int>, leader: Node, follower: Node)
    requires ReadyToRepair(leader, follower)
    requires PrevMatches(follower.log, AppendRequestOf(leader, follower.id))
    ensures var args := AppendRequestOf(leader, follower.id);
      var (follower', reply) := HandleAppendEntries(follower, args);
      Progress(leader, HandleAppendReply(leader, peers, follower.id, args, reply), follower, follower')
  {
    var args := AppendRequestOf(leader, follower.id);
    assert args.prevLogIndex + |args.entries| == |leader.log|;
    FollowerAccepts(leader, follower);
    CommitCore(RecordMatch(leader, follower.id, |leader.log|), peers);
    AppendCore(follower, args);
  }

  lemma ReadyInState(s: State, h: Past, l: int, f: int)
    requires Inv(s, h) && CanRepair(s, l, f) && s.nodes[f].term <= s.nodes[l].term
    ensures ReadyToRepair(s.nodes[l], s.nodes[f]) && s.nodes[f].id == f
  {
    var leader, follower := s.nodes[l], s.nodes[f];
    assert NodeOk(s, h, l) && NodeOk(s, h, f) && PeerIndexOk(leader, h.acks, f);
    RootedMatches(h.reigns, follower.log, leader.log);
    RootedIndices(h.reigns, leader.log);
  }

  // A round either brings the follower's log to the leader's, or is rejected and
  // moves nextIndex down by one; at nextIndex one a rejection is impossible.
  lemma RoundProgress(s: State, h: Past, l: int, f: int)
    requires Inv(s, h) && CanRepair(s, l, f) && s.nodes[f].term <= s.nodes[l].term
    ensures var s' := Round(s, l, f);
      CanRepair(s', l, f) && Progress(s.nodes[l], s'.nodes[l], s.nodes[f], s'.nodes[f])
  {
    RoundChangesTwoNodes(s, l, f);
    ReadyInState(s, h, l, f);
    if PrevMatches(s.nodes[f].log, AppendRequestOf(s.nodes[l], f)) {
      AcceptanceRepairs(s.peers, s.nodes[l], s.nodes[f]);
    } else {
      RejectionSteps(s.peers, s.nodes[l], s.nodes[f]);
    }
  }

  // Any number of rounds in a row.
  predicate IsRepair(states: seq<State>, l: int, f: int) {
    && |states| > 0
    && (forall i :: 0 <= i < |states| ==> l in states[i].nodes && f in states[i].nodes)
    && (forall i :: 0 <= i < |states| - 1 ==> states[i + 1] == Round(states[i], l, f))
  }

  // After k rounds either the logs agree up to the leader's last index, or every
  // round was rejected and nextIndex went down k times.
  predicate RepairedAfter(leader: Node, leader': Node, follower': Node, f: int, k: nat) {
    && leader'.log == leader.log && follower'.term <= leader'.term
    && (|| Contains(follower'.log, leader.log, |leader.log|)
        || At(leader'.nextIndex, f) + k == At(leader.nextIndex, f))
  }

  lemma {:induction false} RoundsProgress(states: seq<State>, h: Past, l: int, f: int, k: nat) returns (h': Past)
    requires IsRepair(states, l, f) && k < |states|
    requires Inv(states[0], h) && CanRepair(states[0], l, f) && states[0].nodes[f].term <= states[0].nodes[l].term
    ensures Inv(states[k], h') && CanRepair(states[k], l, f)
    ensures RepairedAfter(states[0].nodes[l], states[k].nodes[l], states[k].nodes[f], f, k)
  {
    if k == 0 {
      h' := h;
    } else {
      var h1 := RoundsProgress(states, h, l, f, k - 1);
      var s1, leader0 := states[k - 1], states[0].nodes[l];
      assert states[k - 1 + 1] == Round(s1, l, f);
      h' := OneMoreRound(s1, h1, l, f, leader0, k - 1);
    }
  }

  lemma OneMoreRound(s: State, h: Past, l: int, f: int, leader0: Node, k: nat) returns (h': Past)
    requires Inv(s, h) && CanRepair(s, l, f) && s.nodes[f].term <= s.nodes[l].term
    requires RepairedAfter(leader0, s.nodes[l], s.nodes[f], f, k)
    ensures var s' := Round(s, l, f);
      Inv(s', h') && CanRepair(s', l, f) && RepairedAfter(leader0, s'.nodes[l], s'.nodes[f], f, k + 1)
  {
    RoundProgress(s, h, l, f);
    h' := RoundKeeps(s, h, l, f);
    ReadyInState(s, h, l, f);
    var s' := Round(s, l, f);
    AgreementStays(leader0, s.nodes[l], s.nodes[f], s'.nodes[l], s'.nodes[f], f, k);
  }

  // Agreement is not lost to a further round, accepted or not.
  lemma AgreementStays(leader0: Node, leader: Node, follower: Node, leader': Node, follower': Node, f: int, k: nat)
    requires RepairedAfter(leader0, leader, follower, f, k) && follower.id == f
    requires Progress(leader, leader', follower, follower')
    ensures RepairedAfter(leader0, leader', follower', f, k + 1)
  {
  }

  // Repair converges: from any reachable state, within as many rounds as nextIndex
  // says, the follower's log agrees with the leader's up to the leader's last index.
  lemma RepairConverges(peers: set<int>, run: Run, states: seq<State>, l: int, f: int)
    requires ValidPeers(peers) && R1(peers, run) && IsRepair(states, l, f) && l != f
    requires states[0] == After(peers, run)
    requires states[0].nodes[l].role == Leader && states[0].nodes[f].term <= states[0].nodes[l].term
    requires |states| == At(states[0].nodes[l].nextIndex, f) + 1
    ensures var leader, follower := states[|states| - 1].nodes[l], states[|states| - 1].nodes[f];
      leader.log == states[0].nodes[l].log && Contains(follower.log, leader.log, |leader.log|)
  {
    RunsKeep(peers, run);
    var h, last := PastOf(peers, run), |states| - 1;
    assert NodeOk(states[0], h, l);
    var h' := RoundsProgress(states, h, l, f, last);
    ReadyInState(states[last], h', l, f);
  }
}
