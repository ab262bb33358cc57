/** The inductive invariant behind the safety theorems, and the facts about
    reigns it rests on. It needs R1 but not R2. */
module Invariant {
  import opened Basics
  import opened RaftLogs
  import opened RaftHandlers
  import opened Cluster
  import opened History

  type Reigns = map<nat, Reign>
  type Acks = map<(int, nat), nat>

  // ----- Logs are made of reigns -----

  // Entry k of L came from the leader of its term, together with all before it.
  predicate RootedAt(reigns: Reigns, L: seq<LogEntry>, k: nat)
    requires k < |L|
  {
    && L[k].index == k + 1
    && L[k].term in reigns
    && Contains(L, reigns[L[k].term].log, k + 1)
  }

  predicate TermsOrdered(L: seq<LogEntry>) {
    forall j, k :: 0 <= j <= k < |L| ==> L[j].term <= L[k].term
  }

  predicate TermsUpTo(L: seq<LogEntry>, term: nat) {
    forall k :: 0 <= k < |L| ==> L[k].term <= term
  }

  predicate Rooted(reigns: Reigns, L: seq<LogEntry>) {
    && (forall k :: 0 <= k < |L| ==> RootedAt(reigns, L, k))
    && TermsOrdered(L)
  }

  // Index i of the leader of `term` is, or will be, an entry of that very term.
  predicate Own(reigns: Reigns, term: nat, i: nat) {
    && i >= 1 && term in reigns
    && (i > |reigns[term].log| || reigns[term].log[i - 1].term == term)
  }

  // Every leader after `term` and before `until` has the first i entries of `term`'s.
  ghost predicate Chain(reigns: Reigns, term: nat, i: nat, until: nat)
    requires term in reigns
  {
    forall t :: t in reigns && term < t < until ==> Contains(reigns[t].log, reigns[term].log, i)
  }

  // What the vote of v for c in `term` is worth: an own entry that v acknowledged to an
  // earlier leader, and that every leader in between kept, is in L. A candidate's vote
  // for itself is worth more: that holds of any entry it acknowledged.
  ghost predicate Heeds(reigns: Reigns, acks: Acks, v: int, c: int, term: nat, L: seq<LogEntry>) {
    forall t, i: nat ::
      t in reigns && t < term && (v == c || Own(reigns, t, i)) && i <= AckOf(acks, v, t) && Chain(reigns, t, i, term)
      ==> Contains(L, reigns[t].log, i)
  }

  // ----- The invariant, part by part -----

  predicate VoteOk(s: State, h: Past, k: (int, nat))
    requires k in h.voted
  {
    && k.0 in s.nodes && h.voted[k] in s.nodes
    && k.1 <= s.nodes[k.0].term && k.1 <= s.nodes[h.voted[k]].term
    && (k.1 == s.nodes[k.0].term ==> s.nodes[k.0].votedFor == h.voted[k])
  }

  ghost predicate VotesOk(s: State, h: Past) {
    forall k :: k in h.voted ==> VoteOk(s, h, k)
  }

  predicate Majority(q: set<int>, peers: set<int>) {
    q <= peers && 2 * |q| > |peers|
  }

  // The integer vote counter counts distinct peers that granted.
  predicate TallyOk(s: State, h: Past, k: (int, nat))
    requires k in s.tallies
  {
    && k.0 in s.nodes && k in h.counted
    && k.1 <= s.nodes[k.0].term
    && var counted, tally := h.counted[k], s.tallies[k];
    && tally.votes == 1 + |counted|
    && counted <= s.peers - {k.0} && tally.waiting <= s.peers - {k.0} && counted !! tally.waiting
    && forall p :: p in counted ==> Granted(h.voted, p, k.1, k.0)
  }

  ghost predicate TalliesOk(s: State, h: Past) {
    forall k :: k in s.tallies ==> TallyOk(s, h, k)
  }

  // An AppendEntries message is a piece of its leader's log.
  predicate AppOk(reigns: Reigns, a: AppendArgs) {
    && a.term in reigns
    && a.leaderId == reigns[a.term].leader
    && 0 <= a.prevLogIndex
    && var R, m := reigns[a.term].log, a.prevLogIndex + |a.entries|;
    && m <= |R| && a.entries == R[a.prevLogIndex..m]
    && (a.prevLogIndex > 0 ==> a.prevLogTerm == R[a.prevLogIndex - 1].term)
  }

  predicate VoteRequestOk(s: State, v: VoteArgs) {
    && v.candidateId in s.nodes
    && var n := s.nodes[v.candidateId];
    && v.term <= n.term
    && (n.role == Candidate && n.term == v.term ==>
          v.lastLogIndex == LastIndex(n.log) && v.lastLogTerm == LastTerm(n.log))
  }

  predicate MessageOk(s: State, h: Past, m: Message) {
    match m
    case VoteRequest(_, vote) => VoteRequestOk(s, vote)
    case VoteResponse(from, vote, reply) =>
      vote.candidateId in s.nodes && (reply.granted ==> Granted(h.voted, from, vote.term, vote.candidateId))
    case AppendRequest(_, app) => AppOk(h.reigns, app)
    case AppendResponse(from, app, reply) =>
      && AppOk(h.reigns, app)
      && (reply.success ==> app.prevLogIndex + |app.entries| <= AckOf(h.acks, from, app.term))
  }

  ghost predicate NetOk(s: State, h: Past) {
    forall m :: m in s.net ==> MessageOk(s, h, m)
  }

  predicate ReignOk(s: State, h: Past, term: nat)
    requires term in h.reigns
  {
    var r := h.reigns[term];
    && r.leader in s.nodes && term <= s.nodes[r.leader].term
    && Majority(r.voters, s.peers) && r.leader in r.voters
    && (forall v :: v in r.voters ==> Granted(h.voted, v, term, r.leader))
    && Rooted(h.reigns, r.log) && TermsUpTo(r.log, term)
  }

  ghost predicate ReignsOk(s: State, h: Past) {
    forall t :: t in h.reigns ==> ReignOk(s, h, t)
  }

  // nextIndex and matchIndex as a leader may hold them for peer p.
  predicate PeerIndexOk(n: Node, acks: Acks, p: int) {
    && 1 <= At(n.nextIndex, p) <= |n.log| + 1
    && At(n.matchIndex, p) <= AckOf(acks, p, n.term)
  }

  predicate LeaderOk(peers: set<int>, h: Past, n: Node) {
    && n.term in h.reigns && h.reigns[n.term].leader == n.id && n.log == h.reigns[n.term].log
    && AckOf(h.acks, n.id, n.term) >= |n.log|
    && forall p :: p in peers && p != n.id ==> PeerIndexOk(n, h.acks, p)
  }

  predicate CandidateOk(h: Past, n: Node) {
    && (forall k :: 0 <= k < |n.log| ==> n.log[k].term < n.term)
    && !(n.term in h.reigns && h.reigns[n.term].leader == n.id)
  }

  predicate NodeOk(s: State, h: Past, i: int)
    requires i in s.nodes
  {
    var n := s.nodes[i];
    && n.id == i
    && Rooted(h.reigns, n.log) && TermsUpTo(n.log, n.term)
    && (n.role != Follower ==> Granted(h.voted, i, n.term, i))
    && (n.role == Candidate ==> CandidateOk(h, n))
    && (n.role == Leader ==> LeaderOk(s.peers, h, n))
  }

  ghost predicate NodesOk(s: State, h: Past) {
    forall i :: i in s.nodes ==> NodeOk(s, h, i)
  }

  // What v acknowledged to the leader of a term is in its log still, unless a later
  // leader that v may have met does not have it.
  ghost predicate AckKept(s: State, h: Past, v: int, term: nat, i: nat)
    requires v in s.nodes && term in h.reigns
  {
    Chain(h.reigns, term, i, s.nodes[v].term + 1) ==> Contains(s.nodes[v].log, h.reigns[term].log, i)
  }

  ghost predicate AckOk(s: State, h: Past, k: (int, nat))
    requires k in h.acks
  {
    && k.0 in s.nodes && k.1 in h.reigns
    && k.1 <= s.nodes[k.0].term
    && h.acks[k] <= |h.reigns[k.1].log|
    && forall i: nat :: i <= h.acks[k] ==> AckKept(s, h, k.0, k.1, i)
  }

  ghost predicate AcksOk(s: State, h: Past) {
    forall k :: k in h.acks ==> AckOk(s, h, k)
  }

  // Votes for a candidate of a term without a leader.
  ghost predicate BallotOk(s: State, h: Past, k: (int, nat))
    requires k in h.voted && h.voted[k] in s.nodes
  {
    var c := s.nodes[h.voted[k]];
    c.role == Candidate && c.term == k.1 && k.1 !in h.reigns ==> Heeds(h.reigns, h.acks, k.0, h.voted[k], k.1, c.log)
  }

  ghost predicate BallotsOk(s: State, h: Past) {
    forall k :: k in h.voted && h.voted[k] in s.nodes ==> BallotOk(s, h, k)
  }

  ghost predicate ElectorsOk(h: Past) {
    forall t, v :: t in h.reigns && v in h.reigns[t].voters ==>
      Heeds(h.reigns, h.acks, v, h.reigns[t].leader, t, h.reigns[t].log)
  }

  ghost predicate Inv(s: State, h: Past) {
    && WellFormed(s)
    && VotesOk(s, h)
    && TalliesOk(s, h)
    && NetOk(s, h)
    && ReignsOk(s, h)
    && NodesOk(s, h)
    && AcksOk(s, h)
    && BallotsOk(s, h)
    && ElectorsOk(h)
  }

  // ----- Quorums -----

  lemma MajoritiesMeet(a: set<int>, b: set<int>, peers: set<int>) returns (v: int)
    requires Majority(a, peers) && Majority(b, peers)
    ensures v in a && v in b
  {
    if forall x :: x in a ==> x !in b {
      assert |a + b| == |a| + |b|;
      SubsetSize(a + b, peers);
      assert false;
    }
    v :| v in a && v in b;
  }

  // ----- Reigns only grow, and by entries of their own term -----

  predicate GrewTo(r: Reign, r': Reign, term: nat) {
    && r'.leader == r.leader && r'.voters == r.voters
    && Contains(r'.log, r.log, |r.log|)
    && forall k :: |r.log| <= k < |r'.log| ==> r'.log[k].term == term
  }

  ghost predicate Grows(reigns: Reigns, reigns': Reigns) {
    forall t :: t in reigns ==> t in reigns' && GrewTo(reigns[t], reigns'[t], t)
  }

  lemma ContainsTransitive(a: seq<LogEntry>, b: seq<LogEntry>, c: seq<LogEntry>, i: nat)
    requires Contains(a, b, i) && Contains(b, c, i)
    ensures Contains(a, c, i)
  {
  }

  lemma RootedGrows(reigns: Reigns, reigns': Reigns, L: seq<LogEntry>)
    requires Rooted(reigns, L) && Grows(reigns, reigns')
    ensures Rooted(reigns', L)
  {
    forall k | 0 <= k < |L|
      ensures RootedAt(reigns', L, k)
    {
      assert RootedAt(reigns, L, k);
      var R, R' := reigns[L[k].term].log, reigns'[L[k].term].log;
      ContainsMonotone(R', R, |R|, k + 1);
    }
  }

  lemma RootedPrefix(reigns: Reigns, L: seq<LogEntry>, m: nat)
    requires Rooted(reigns, L) && m <= |L|
    ensures Rooted(reigns, L[..m])
  {
    forall k | 0 <= k < m
      ensures RootedAt(reigns, L[..m], k)
    {
      assert RootedAt(reigns, L, k);
      assert L[..m][..k + 1] == L[..k + 1];
    }
  }

  lemma RootedMatches(reigns: Reigns, L: seq<LogEntry>, R: seq<LogEntry>)
    requires Rooted(reigns, L) && Rooted(reigns, R)
    ensures Matches(L, R) && WellIndexed(L)
  {
    forall k | 0 <= k < |L| && k < |R| && L[k].term == R[k].term
      ensures Contains(L, R, k + 1)
    {
      assert RootedAt(reigns, L, k) && RootedAt(reigns, R, k);
    }
    forall k | 0 <= k < |L|
      ensures L[k].index == k + 1
    {
      assert RootedAt(reigns, L, k);
    }
  }

  lemma RootedIndices(reigns: Reigns, L: seq<LogEntry>)
    requires Rooted(reigns, L)
    ensures WellIndexed(L) && LastIndex(L) == |L|
    ensures LastTerm(L) == if |L| == 0 then 0 else L[|L| - 1].term
  {
    RootedMatches(reigns, L, L);
  }

  // Growth neither takes a shared prefix away nor adds one to a later leader.
  lemma SharedPrefixReflects(reigns: Reigns, reigns': Reigns, t: nat, term: nat, i: nat)
    requires Grows(reigns, reigns') && t in reigns && term in reigns && term < t
    requires i <= |reigns[term].log| && TermsUpTo(reigns[term].log, term)
    requires Contains(reigns'[t].log, reigns'[term].log, i)
    ensures Contains(reigns[t].log, reigns[term].log, i)
  {
    var A, A', B, B' := reigns[t].log, reigns'[t].log, reigns[term].log, reigns'[term].log;
    ContainsMonotone(B', B, |B|, i);
    if i > |A| {
      ContainsAt(A', B', i, |A|);
      ContainsAt(B', B, i, |A|);
      assert false;
    }
    ContainsMonotone(A', A, |A|, i);
  }

  lemma ChainReflects(reigns: Reigns, reigns': Reigns, term: nat, i: nat, until: nat)
    requires Grows(reigns, reigns') && term in reigns
    requires i <= |reigns[term].log| && TermsUpTo(reigns[term].log, term)
    requires Chain(reigns', term, i, until)
    ensures Chain(reigns, term, i, until)
  {
    forall t | t in reigns && term < t < until
      ensures Contains(reigns[t].log, reigns[term].log, i)
    {
      SharedPrefixReflects(reigns, reigns', t, term, i);
    }
  }

  // A vote keeps its worth while the voter's acknowledgements to earlier leaders stay.
  lemma HeedsGrows(reigns: Reigns, acks: Acks, reigns': Reigns, acks': Acks, v: int, c: int, term: nat,
      L: seq<LogEntry>, L': seq<LogEntry>)
    requires Heeds(reigns, acks, v, c, term, L) && Grows(reigns, reigns')
    requires Contains(L', L, |L|)
    requires forall t :: t in reigns ==> TermsUpTo(reigns[t].log, t) && AckOf(acks, v, t) <= |reigns[t].log|
    requires forall t :: t in reigns' && t < term ==>
                 AckOf(acks', v, t) <= AckOf(acks, v, t) && (t !in reigns ==> AckOf(acks', v, t) == 0)
    ensures Heeds(reigns', acks', v, c, term, L')
  {
    forall t, i: nat
      | t in reigns' && t < term && (v == c || Own(reigns', t, i)) && i <= AckOf(acks', v, t)
        && Chain(reigns', t, i, term)
      ensures Contains(L', reigns'[t].log, i)
    {
      if i > 0 {
        ContainsMonotone(reigns'[t].log, reigns[t].log, |reigns[t].log|, i);
        ContainsAt(reigns'[t].log, reigns[t].log, i, i - 1);
        assert Own(reigns', t, i) ==> Own(reigns, t, i);
        ChainReflects(reigns, reigns', t, i, term);
        assert Contains(L, reigns[t].log, i);
        ContainsMonotone(L', L, |L|, i);
      }
    }
  }
}
