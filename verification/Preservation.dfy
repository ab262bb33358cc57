/** Each critical section is a few small changes to one node and the past; each
    small change keeps the invariant. */
module Preservation {
  import opened RaftLogs
  import opened RaftHandlers
  import opened Cluster
  import opened History
  import opened Invariant

  // ----- Changes that leave logs, reigns and acknowledgements alone -----

  ghost predicate LogsStay(s: State, h: Past, s': State, h': Past) {
    && s'.peers == s.peers && s'.nodes.Keys == s.nodes.Keys
    && (forall i :: i in s.nodes ==> s'.nodes[i].log == s.nodes[i].log)
    && (forall i :: i in s.nodes ==> s.nodes[i].term <= s'.nodes[i].term)
    && h'.reigns == h.reigns && h'.acks == h.acks
    && (forall k :: k in h.voted ==> k in h'.voted && h'.voted[k] == h.voted[k])
  }

  lemma LogsStayKeeps(s: State, h: Past, s': State, h': Past)
    requires WellFormed(s) && ReignsOk(s, h) && AcksOk(s, h) && ElectorsOk(h) && LogsStay(s, h, s', h')
    ensures WellFormed(s') && ReignsOk(s', h') && AcksOk(s', h') && ElectorsOk(h')
  {
    forall t | t in h'.reigns ensures ReignOk(s', h', t) {
      assert ReignOk(s, h, t);
    }
    forall k | k in h'.acks ensures AckOk(s', h', k) {
      assert AckOk(s, h, k);
      var v, t := k.0, k.1;
      assert v in s.nodes;
      assert s'.nodes[v].log == s.nodes[v].log;
      assert s.nodes[v].term <= s'.nodes[v].term;
      forall x: nat | x <= h.acks[k] ensures AckKept(s', h', k.0, k.1, x) {
        assert AckKept(s, h, k.0, k.1, x);
      }
    }
  }

  // ----- One node changes -----

  predicate StillCandidate(n: Node, n': Node) {
    n'.role == Candidate ==> n.role == Candidate && n'.term == n.term && n'.log == n.log
  }

  lemma BallotsStay(s: State, h: Past, i: int, n: Node)
    requires BallotsOk(s, h) && i in s.nodes && StillCandidate(s.nodes[i], n)
    ensures BallotsOk(Put(s, i, n), h)
  {
  }

  lemma MessagesStay(s: State, h: Past, i: int, n: Node, h': Past)
    requires NetOk(s, h) && i in s.nodes && StillCandidate(s.nodes[i], n) && n.term >= s.nodes[i].term
    requires h'.reigns == h.reigns && h'.acks == h.acks
    requires forall k :: k in h.voted ==> k in h'.voted && h'.voted[k] == h.voted[k]
    ensures NetOk(Put(s, i, n), h')
  {
  }

  // Neither the node's term nor its vote changes.
  lemma VotingStays(s: State, h: Past, i: int, n: Node, h': Past)
    requires VotesOk(s, h) && TalliesOk(s, h)
    requires h'.voted == h.voted && h'.counted == h.counted
    requires i in s.nodes && n.term == s.nodes[i].term && n.votedFor == s.nodes[i].votedFor
    ensures VotesOk(Put(s, i, n), h') && TalliesOk(Put(s, i, n), h')
  {
  }

  lemma OtherNodesStay(s: State, h: Past, i: int, n: Node)
    requires NodesOk(s, h) && i in s.nodes && NodeOk(Put(s, i, n), h, i)
    ensures NodesOk(Put(s, i, n), h)
  {
  }

  // ----- A field the invariant does not read -----

  predicate SameCore(a: Node, b: Node) {
    && a.id == b.id && a.role == b.role && a.term == b.term && a.votedFor == b.votedFor
    && a.log == b.log && a.nextIndex == b.nextIndex && a.matchIndex == b.matchIndex
  }

  lemma SameCoreOk(s: State, h: Past, i: int, n: Node)
    requires i in s.nodes && NodeOk(s, h, i) && SameCore(n, s.nodes[i])
    ensures NodeOk(Put(s, i, n), h, i)
  {
  }

  lemma TouchKeeps(s: State, h: Past, i: int, n: Node)
    requires Inv(s, h) && i in s.nodes && SameCore(n, s.nodes[i])
    ensures Inv(Put(s, i, n), h)
  {
    LogsStayKeeps(s, h, Put(s, i, n), h);
    BallotsStay(s, h, i, n);
    MessagesStay(s, h, i, n, h);
    VotingStays(s, h, i, n, h);
    SameCoreOk(s, h, i, n);
    OtherNodesStay(s, h, i, n);
  }

  // ----- Adopting a term -----

  lemma AdoptKeepsVotes(s: State, h: Past, i: int, term: nat)
    requires VotesOk(s, h) && TalliesOk(s, h) && i in s.nodes && term >= s.nodes[i].term
    ensures VotesOk(Put(s, i, Adopt(s.nodes[i], term)), h)
    ensures TalliesOk(Put(s, i, Adopt(s.nodes[i], term)), h)
  {
    var s' := Put(s, i, Adopt(s.nodes[i], term));
    forall k | k in h.voted ensures VoteOk(s', h, k) {
      assert VoteOk(s, h, k);
    }
    forall k | k in s'.tallies ensures TallyOk(s', h, k) {
      assert TallyOk(s, h, k);
    }
  }

  lemma AdoptKeeps(s: State, h: Past, i: int, term: nat)
    requires Inv(s, h) && i in s.nodes && term >= s.nodes[i].term
    ensures Inv(Put(s, i, Adopt(s.nodes[i], term)), h)
  {
    var n := Adopt(s.nodes[i], term);
    LogsStayKeeps(s, h, Put(s, i, n), h);
    BallotsStay(s, h, i, n);
    MessagesStay(s, h, i, n, h);
    AdoptKeepsVotes(s, h, i, term);
    assert NodeOk(s, h, i);
    OtherNodesStay(s, h, i, n);
  }

  // ----- Sending -----

  lemma SendKeeps(s: State, h: Past, messages: set<Message>)
    requires Inv(s, h) && forall m :: m in messages ==> MessageOk(s, h, m)
    ensures Inv(Send(s, messages), h)
  {
    var s' := Send(s, messages);
    LogsStayKeeps(s, h, s', h);
    forall k | k in h.voted ensures VoteOk(s', h, k) && BallotOk(s', h, k) {
      assert VoteOk(s, h, k) && BallotOk(s, h, k);
    }
    forall k | k in s'.tallies ensures TallyOk(s', h, k) {
      assert TallyOk(s, h, k);
    }
    forall m | m in s'.net ensures MessageOk(s', h, m) {
      assert MessageOk(s, h, m);
    }
    forall j | j in s'.nodes ensures NodeOk(s', h, j) {
      assert NodeOk(s, h, j);
    }
  }

  // ----- Standing for election -----

  function Candidacy(s: State, i: int): (s': State)
    requires i in s.nodes
  {
    var n := BecomeCandidate(s.nodes[i]);
    Put(s, i, n).(tallies := s.tallies[(i, n.term) := Tally(1, s.peers - {i})])
  }

  function CandidacyPast(s: State, h: Past, i: int): (h': Past)
    requires i in s.nodes
  {
    var term := s.nodes[i].term + 1;
    RecordVote(h, i, term, i).(counted := h.counted[(i, term) := {}])
  }

  // A node's own vote for itself heeds what it acknowledged.
  lemma OwnVoteHeeds(s: State, h: Past, i: int, term: nat)
    requires AcksOk(s, h) && i in s.nodes
    requires term > s.nodes[i].term || (term == s.nodes[i].term && term !in h.reigns)
    ensures Heeds(h.reigns, h.acks, i, i, term, s.nodes[i].log)
  {
    forall t, x: nat | t in h.reigns && t < term && x <= AckOf(h.acks, i, t) && Chain(h.reigns, t, x, term)
      ensures Contains(s.nodes[i].log, h.reigns[t].log, x)
    {
      if x > 0 {
        assert AckOk(s, h, (i, t));
        assert AckKept(s, h, i, t, x);
      }
    }
  }

  lemma NoVoteAhead(s: State, h: Past, i: int, term: nat)
    requires VotesOk(s, h) && i in s.nodes && term > s.nodes[i].term
    ensures (i, term) !in h.voted
  {
  }

  lemma CandidacyKeepsVotes(s: State, h: Past, i: int)
    requires VotesOk(s, h) && NodesOk(s, h) && AcksOk(s, h) && BallotsOk(s, h) && i in s.nodes
    ensures VotesOk(Candidacy(s, i), CandidacyPast(s, h, i))
    ensures BallotsOk(Candidacy(s, i), CandidacyPast(s, h, i))
  {
    var s', h' := Candidacy(s, i), CandidacyPast(s, h, i);
    var term := s.nodes[i].term + 1;
    assert NodeOk(s, h, i);
    forall k | k in h'.voted ensures VoteOk(s', h', k) {
      if k != (i, term) { assert VoteOk(s, h, k); }
    }
    forall k | k in h'.voted ensures BallotOk(s', h', k) {
      if k == (i, term) {
        OwnVoteHeeds(s, h, i, term);
      } else {
        assert VoteOk(s, h, k) && BallotOk(s, h, k);
      }
    }
  }

  lemma CandidacyKeepsMessages(s: State, h: Past, i: int)
    requires WellFormed(s) && VotesOk(s, h) && TalliesOk(s, h) && NetOk(s, h) && i in s.nodes
    ensures TalliesOk(Candidacy(s, i), CandidacyPast(s, h, i))
    ensures NetOk(Candidacy(s, i), CandidacyPast(s, h, i))
  {
    var s', h' := Candidacy(s, i), CandidacyPast(s, h, i);
    var term := s.nodes[i].term + 1;
    NoVoteAhead(s, h, i, term);
    forall k | k in s'.tallies ensures TallyOk(s', h', k) {
      if k != (i, term) { assert TallyOk(s, h, k); }
    }
    forall m | m in s'.net ensures MessageOk(s', h', m) {
      assert MessageOk(s, h, m);
    }
  }

  lemma CandidacyKeeps(s: State, h: Past, i: int)
    requires Inv(s, h) && i in s.nodes
    ensures Inv(Candidacy(s, i), CandidacyPast(s, h, i))
  {
    var s', h' := Candidacy(s, i), CandidacyPast(s, h, i);
    var term := s.nodes[i].term + 1;
    CandidacyKeepsVotes(s, h, i);
    CandidacyKeepsMessages(s, h, i);
    NoVoteAhead(s, h, i, term);
    LogsStayKeeps(s, h, s', h');
    CandidacyKeepsNodes(s, h, i);
  }

  lemma CandidacyKeepsNodes(s: State, h: Past, i: int)
    requires NodesOk(s, h) && ReignsOk(s, h) && i in s.nodes
    ensures NodesOk(Candidacy(s, i), CandidacyPast(s, h, i))
  {
    var s', h' := Candidacy(s, i), CandidacyPast(s, h, i);
    var term := s.nodes[i].term + 1;
    assert term in h.reigns ==> ReignOk(s, h, term);
    forall j | j in s'.nodes ensures NodeOk(s', h', j) {
      assert NodeOk(s, h, j);
    }
  }

  // ----- Granting a vote -----

  // The case of the up-to-date check: the candidate's last term is at least the
  // voter's, and on a tie its log is at least as long.
  predicate AtLeastAsUpToDate(L: seq<LogEntry>, V: seq<LogEntry>) {
    LastTerm(L) > LastTerm(V) || (LastTerm(L) == LastTerm(V) && |L| >= |V|)
  }

  // If a voter's log holds an own entry of term t, so does any candidate log of a
  // later term that passed the check, when all leaders in between held it.
  lemma UpToDateLogsHold(s: State, h: Past, t: nat, x: nat, term: nat, L: seq<LogEntry>, V: seq<LogEntry>)
    requires ReignsOk(s, h) && t in h.reigns && Own(h.reigns, t, x)
    requires Rooted(h.reigns, L) && Rooted(h.reigns, V) && Contains(V, h.reigns[t].log, x)
    requires forall k :: 0 <= k < |L| ==> L[k].term < term
    requires Chain(h.reigns, t, x, term) && AtLeastAsUpToDate(L, V)
    ensures Contains(L, h.reigns[t].log, x)
  {
    var R := h.reigns[t].log;
    RootedIndices(h.reigns, L);
    RootedIndices(h.reigns, V);
    ContainsAt(V, R, x, x - 1);
    assert V[x - 1].term == t;
    assert V[x - 1].term <= V[|V| - 1].term;
    assert ReignOk(s, h, t);
    if |L| == 0 {
      assert false;
    }
    var last := |L| - 1;
    var tc := L[last].term;
    assert RootedAt(h.reigns, L, last);
    if tc == t {
      assert V[|V| - 1].term == t;
      ContainsMonotone(L, R, |L|, x);
    } else {
      assert Contains(h.reigns[tc].log, R, x);
      if x > last {
        ContainsAt(h.reigns[tc].log, R, x, last);
        ContainsAt(L, h.reigns[tc].log, last + 1, last);
        assert false;
      }
      ContainsMonotone(L, h.reigns[tc].log, last + 1, x);
      ContainsTransitive(L, h.reigns[tc].log, R, x);
    }
  }

  lemma GrantedVoteHeeds(s: State, h: Past, v: int, args: VoteArgs)
    requires NodesOk(s, h) && AcksOk(s, h) && ReignsOk(s, h) && v in s.nodes && VoteRequestOk(s, args)
    requires s.nodes[v].term == args.term && UpToDate(s.nodes[v].log, args.lastLogIndex, args.lastLogTerm)
    requires s.nodes[args.candidateId].role == Candidate && s.nodes[args.candidateId].term == args.term
    requires args.term !in h.reigns
    ensures Heeds(h.reigns, h.acks, v, args.candidateId, args.term, s.nodes[args.candidateId].log)
  {
    var V, L, term := s.nodes[v].log, s.nodes[args.candidateId].log, args.term;
    OwnVoteHeeds(s, h, v, term);
    assert NodeOk(s, h, v) && NodeOk(s, h, args.candidateId);
    RootedIndices(h.reigns, V);
    RootedIndices(h.reigns, L);
    forall t, x: nat
      | t in h.reigns && t < term && (v == args.candidateId || Own(h.reigns, t, x)) && x <= AckOf(h.acks, v, t)
        && Chain(h.reigns, t, x, term)
      ensures Contains(L, h.reigns[t].log, x)
    {
      assert Contains(V, h.reigns[t].log, x);
      if v != args.candidateId {
        UpToDateLogsHold(s, h, t, x, term, L, V);
      }
    }
  }

  function Grant(s: State, v: int, args: VoteArgs): (s': State)
    requires v in s.nodes
  {
    Put(s, v, s.nodes[v].(votedFor := args.candidateId))
  }

  predicate MayGrant(s: State, v: int, args: VoteArgs) {
    && v in s.nodes && VoteRequestOk(s, args)
    && s.nodes[v].term == args.term && UpToDate(s.nodes[v].log, args.lastLogIndex, args.lastLogTerm)
    && (s.nodes[v].votedFor == -1 || s.nodes[v].votedFor == args.candidateId)
  }

  lemma GrantKeepsVotes(s: State, h: Past, v: int, args: VoteArgs)
    requires WellFormed(s) && VotesOk(s, h) && MayGrant(s, v, args)
    ensures VotesOk(Grant(s, v, args), RecordVote(h, v, args.term, args.candidateId))
    ensures (v, args.term) in h.voted ==> h.voted[(v, args.term)] == args.candidateId
  {
  }

  lemma GrantKeepsBallots(s: State, h: Past, v: int, args: VoteArgs)
    requires NodesOk(s, h) && AcksOk(s, h) && ReignsOk(s, h) && BallotsOk(s, h) && MayGrant(s, v, args)
    ensures BallotsOk(Grant(s, v, args), RecordVote(h, v, args.term, args.candidateId))
  {
    var c, term := args.candidateId, args.term;
    var s', h' := Grant(s, v, args), RecordVote(h, v, term, c);
    forall k | k in h'.voted && h'.voted[k] in s'.nodes ensures BallotOk(s', h', k) {
      if k != (v, term) {
        assert BallotOk(s, h, k);
      } else if s.nodes[c].role == Candidate && s.nodes[c].term == term && term !in h.reigns {
        GrantedVoteHeeds(s, h, v, args);
      }
    }
  }

  lemma MoreVotesKeepTallies(s: State, h: Past, i: int, n: Node, h': Past)
    requires TalliesOk(s, h) && i in s.nodes && n.term == s.nodes[i].term && h'.counted == h.counted
    requires forall k :: k in h.voted ==> k in h'.voted && h'.voted[k] == h.voted[k]
    ensures TalliesOk(Put(s, i, n), h')
  {
  }

  lemma GrantKeepsNodes(s: State, h: Past, v: int, args: VoteArgs)
    requires NodesOk(s, h) && MayGrant(s, v, args)
    requires (v, args.term) in h.voted ==> h.voted[(v, args.term)] == args.candidateId
    ensures NodesOk(Grant(s, v, args), RecordVote(h, v, args.term, args.candidateId))
  {
  }

  lemma GrantKeeps(s: State, h: Past, v: int, args: VoteArgs)
    requires Inv(s, h) && MayGrant(s, v, args)
    ensures Inv(Grant(s, v, args), RecordVote(h, v, args.term, args.candidateId))
  {
    GrantKeepsVotes(s, h, v, args);
    GrantKeepsBallots(s, h, v, args);
    GrantKeepsLogs(s, h, v, args);
    GrantKeepsMessages(s, h, v, args);
    GrantKeepsNodes(s, h, v, args);
  }

  lemma GrantKeepsLogs(s: State, h: Past, v: int, args: VoteArgs)
    requires WellFormed(s) && VotesOk(s, h) && ReignsOk(s, h) && AcksOk(s, h) && ElectorsOk(h) && MayGrant(s, v, args)
    ensures var s', h' := Grant(s, v, args), RecordVote(h, v, args.term, args.candidateId);
      WellFormed(s') && ReignsOk(s', h') && AcksOk(s', h') && ElectorsOk(h')
  {
    assert (v, args.term) in h.voted ==> VoteOk(s, h, (v, args.term));
    LogsStayKeeps(s, h, Grant(s, v, args), RecordVote(h, v, args.term, args.candidateId));
  }

  lemma GrantKeepsMessages(s: State, h: Past, v: int, args: VoteArgs)
    requires WellFormed(s) && VotesOk(s, h) && TalliesOk(s, h) && NetOk(s, h) && MayGrant(s, v, args)
    ensures var s', h' := Grant(s, v, args), RecordVote(h, v, args.term, args.candidateId);
      TalliesOk(s', h') && NetOk(s', h')
  {
    var s', h' := Grant(s, v, args), RecordVote(h, v, args.term, args.candidateId);
    assert forall k :: k in h.voted ==> k in h'.voted && h'.voted[k] == h.voted[k] by {
      assert (v, args.term) in h.voted ==> VoteOk(s, h, (v, args.term));
    }
    MoreVotesKeepTallies(s, h, v, s'.nodes[v], h');
    MessagesStay(s, h, v, s'.nodes[v], h');
  }

  // ----- Consuming a vote reply -----

  function PutTally(s: State, c: int, term: nat, tally: Tally): (s': State) {
    s.(tallies := s.tallies[(c, term) := tally])
  }

  lemma ConsumeKeeps(s: State, h: Past, c: int, term: nat, from: int)
    requires Inv(s, h) && (c, term) in s.tallies
    ensures var tally := s.tallies[(c, term)];
      Inv(PutTally(s, c, term, tally.(waiting := tally.waiting - {from})), h)
  {
    var tally := s.tallies[(c, term)];
    var s' := PutTally(s, c, term, tally.(waiting := tally.waiting - {from}));
    LogsStayKeeps(s, h, s', h);
    forall k | k in s'.tallies ensures TallyOk(s', h, k) {
      assert TallyOk(s, h, k);
    }
    TallyOnlyKeeps(s, h, s', h);
  }

  lemma CountKeeps(s: State, h: Past, c: int, term: nat, from: int)
    requires Inv(s, h) && (c, term) in s.tallies && from in s.tallies[(c, term)].waiting
    requires Granted(h.voted, from, term, c)
    ensures var tally := s.tallies[(c, term)];
      Inv(PutTally(s, c, term, Tally(tally.votes + 1, tally.waiting - {from})), RecordCount(h, c, term, from))
  {
    var tally := s.tallies[(c, term)];
    var s', h' := PutTally(s, c, term, Tally(tally.votes + 1, tally.waiting - {from})), RecordCount(h, c, term, from);
    LogsStayKeeps(s, h, s', h');
    forall k | k in s'.tallies ensures TallyOk(s', h', k) {
      assert TallyOk(s, h, k);
      assert TallyOk(s, h, (c, term));
      assert |h.counted[(c, term)] + {from}| == |h.counted[(c, term)]| + 1;
    }
    TallyOnlyKeeps(s, h, s', h');
  }

  // Only tallies and counted votes differ.
  lemma TallyOnlyKeeps(s: State, h: Past, s': State, h': Past)
    requires Inv(s, h) && s' == s.(tallies := s'.tallies) && h' == h.(counted := h'.counted)
    requires TalliesOk(s', h')
    ensures Inv(s', h')
  {
    LogsStayKeeps(s, h, s', h');
    forall k | k in h'.voted ensures VoteOk(s', h', k) && BallotOk(s', h', k) {
      assert VoteOk(s, h, k) && BallotOk(s, h, k);
    }
    forall m | m in s'.net ensures MessageOk(s', h', m) {
      assert MessageOk(s, h, m);
    }
    forall j | j in s'.nodes ensures NodeOk(s', h', j) {
      assert NodeOk(s, h, j);
    }
  }

  // ----- Winning an election -----

  lemma AcksBounded(s: State, h: Past, v: int)
    requires AcksOk(s, h) && ReignsOk(s, h)
    ensures forall t :: t in h.reigns ==> TermsUpTo(h.reigns[t].log, t) && AckOf(h.acks, v, t) <= |h.reigns[t].log|
    ensures forall t :: t !in h.reigns ==> AckOf(h.acks, v, t) == 0
  {
    forall t | t in h.reigns
      ensures TermsUpTo(h.reigns[t].log, t) && AckOf(h.acks, v, t) <= |h.reigns[t].log|
    {
      assert ReignOk(s, h, t);
      assert (v, t) in h.acks ==> AckOk(s, h, (v, t));
    }
    forall t | t !in h.reigns
      ensures AckOf(h.acks, v, t) == 0
    {
      assert (v, t) in h.acks ==> AckOk(s, h, (v, t));
    }
  }

  // A node that never acknowledged this term acknowledges `index`.
  lemma AcksGrow(s: State, h: Past, c: int, term: nat, index: nat)
    requires AckOf(h.acks, c, term) <= index
    ensures forall v, t :: AckOf(h.acks, v, t) <= AckOf(h.acks[(c, term) := index], v, t)
  {
  }

  lemma NoReignYet(s: State, h: Past, c: int, voters: set<int>)
    requires NodesOk(s, h) && ReignsOk(s, h) && c in s.nodes && s.nodes[c].role == Candidate
    requires Majority(voters, s.peers) && c in voters
    requires forall v :: v in voters ==> Granted(h.voted, v, s.nodes[c].term, c)
    ensures s.nodes[c].term !in h.reigns
  {
    var term := s.nodes[c].term;
    assert NodeOk(s, h, c);
    if term in h.reigns {
      assert ReignOk(s, h, term);
      var v := MajoritiesMeet(voters, h.reigns[term].voters, s.peers);
      assert false;
    }
  }

  lemma AddReignGrows(h: Past, c: int, term: nat, voters: set<int>, log: seq<LogEntry>)
    requires term !in h.reigns
    ensures Grows(h.reigns, RecordReign(h, c, term, voters, log).reigns)
  {
  }

  lemma ElectKeepsAcks(s: State, h: Past, c: int, voters: set<int>)
    requires AcksOk(s, h) && ReignsOk(s, h) && c in s.nodes && s.nodes[c].term !in h.reigns
    ensures var n := s.nodes[c];
      AcksOk(Put(s, c, BecomeLeader(n, s.peers)), RecordReign(h, c, n.term, voters, n.log))
  {
    var n := s.nodes[c];
    var s', h' := Put(s, c, BecomeLeader(n, s.peers)), RecordReign(h, c, n.term, voters, n.log);
    AddReignGrows(h, c, n.term, voters, n.log);
    forall k | k in h'.acks ensures AckOk(s', h', k) {
      if k != (c, n.term) {
        assert AckOk(s, h, k) && ReignOk(s, h, k.1);
        forall x: nat | x <= h.acks[k] ensures AckKept(s', h', k.0, k.1, x) {
          assert AckKept(s, h, k.0, k.1, x);
          if Chain(h'.reigns, k.1, x, s.nodes[k.0].term + 1) {
            ChainReflects(h.reigns, h'.reigns, k.1, x, s.nodes[k.0].term + 1);
          }
        }
      }
    }
  }

  lemma ElectKeepsVotes(s: State, h: Past, c: int, voters: set<int>)
    requires VotesOk(s, h) && NodesOk(s, h) && AcksOk(s, h) && ReignsOk(s, h) && BallotsOk(s, h) && ElectorsOk(h)
    requires c in s.nodes && s.nodes[c].term !in h.reigns && s.nodes[c].role == Candidate
    requires forall v :: v in voters ==> Granted(h.voted, v, s.nodes[c].term, c)
    ensures var n := s.nodes[c];
      var h' := RecordReign(h, c, n.term, voters, n.log);
      BallotsOk(Put(s, c, BecomeLeader(n, s.peers)), h') && ElectorsOk(h')
  {
    var n := s.nodes[c];
    var s', h' := Put(s, c, BecomeLeader(n, s.peers)), RecordReign(h, c, n.term, voters, n.log);
    AddReignGrows(h, c, n.term, voters, n.log);
    assert NodeOk(s, h, c);
    forall k | k in h'.voted ensures BallotOk(s', h', k) {
      assert BallotOk(s, h, k) && VoteOk(s, h, k);
      var L := s.nodes[h.voted[k]].log;
      if Heeds(h.reigns, h.acks, k.0, h.voted[k], k.1, L) {
        ReignAddedHeeds(s, h, c, voters, k.0, h.voted[k], k.1, L);
      }
    }
    forall t, v | t in h'.reigns && v in h'.reigns[t].voters
      ensures Heeds(h'.reigns, h'.acks, v, h'.reigns[t].leader, t, h'.reigns[t].log)
    {
      if t == n.term { assert BallotOk(s, h, (v, t)); } else { assert ReignOk(s, h, t); }
      assert VoteOk(s, h, (v, t));
      ReignAddedHeeds(s, h, c, voters, v, h'.reigns[t].leader, t, h'.reigns[t].log);
    }
  }

  lemma ReignAddedHeeds(s: State, h: Past, c: int, voters: set<int>, v: int, d: int, term: nat, L: seq<LogEntry>)
    requires NodesOk(s, h) && AcksOk(s, h) && ReignsOk(s, h)
    requires c in s.nodes && s.nodes[c].term !in h.reigns && s.nodes[c].role == Candidate
    requires v in s.nodes && term <= s.nodes[v].term && Heeds(h.reigns, h.acks, v, d, term, L)
    ensures var h' := RecordReign(h, c, s.nodes[c].term, voters, s.nodes[c].log);
      Heeds(h'.reigns, h'.acks, v, d, term, L)
  {
    var n := s.nodes[c];
    var h' := RecordReign(h, c, n.term, voters, n.log);
    AddReignGrows(h, c, n.term, voters, n.log);
    AcksBounded(s, h, v);
    HeedsGrows(h.reigns, h.acks, h'.reigns, h'.acks, v, d, term, L, L);
  }

  lemma ElectKeeps(s: State, h: Past, c: int, voters: set<int>)
    requires Inv(s, h) && c in s.nodes && s.nodes[c].role == Candidate
    requires Majority(voters, s.peers) && c in voters
    requires forall v :: v in voters ==> Granted(h.voted, v, s.nodes[c].term, c)
    ensures var n := s.nodes[c];
      Inv(Put(s, c, BecomeLeader(n, s.peers)), RecordReign(h, c, n.term, voters, n.log))
  {
    var n := s.nodes[c];
    var s', h' := Put(s, c, BecomeLeader(n, s.peers)), RecordReign(h, c, n.term, voters, n.log);
    NoReignYet(s, h, c, voters);
    ElectKeepsAcks(s, h, c, voters);
    ElectKeepsVotes(s, h, c, voters);
    ElectKeepsNodes(s, h, c, voters);
    ElectKeepsReigns(s, h, c, voters);
    ElectKeepsMessages(s, h, c, voters);
  }

  lemma ElectKeepsMessages(s: State, h: Past, c: int, voters: set<int>)
    requires Inv(s, h) && c in s.nodes && s.nodes[c].role == Candidate && s.nodes[c].term !in h.reigns
    ensures var n := s.nodes[c];
      var s', h' := Put(s, c, BecomeLeader(n, s.peers)), RecordReign(h, c, n.term, voters, n.log);
      VotesOk(s', h') && TalliesOk(s', h') && NetOk(s', h')
  {
    var n := s.nodes[c];
    var h' := RecordReign(h, c, n.term, voters, n.log);
    AcksBounded(s, h, c);
    AddReignGrows(h, c, n.term, voters, n.log);
    AcksGrow(s, h, c, n.term, |n.log|);
    VotingStays(s, h, c, BecomeLeader(n, s.peers), h');
    GrowthKeepsMessages(s, h, c, BecomeLeader(n, s.peers), h');
  }

  lemma ElectKeepsNodes(s: State, h: Past, c: int, voters: set<int>)
    requires NodesOk(s, h) && c in s.nodes && s.nodes[c].role == Candidate && s.nodes[c].term !in h.reigns
    ensures var n := s.nodes[c];
      NodesOk(Put(s, c, BecomeLeader(n, s.peers)), RecordReign(h, c, n.term, voters, n.log))
  {
    var n := s.nodes[c];
    var s', h' := Put(s, c, BecomeLeader(n, s.peers)), RecordReign(h, c, n.term, voters, n.log);
    AddReignGrows(h, c, n.term, voters, n.log);
    assert NodeOk(s, h, c);
    RootedIndices(h.reigns, n.log);
    forall j | j in s'.nodes ensures NodeOk(s', h', j) {
      assert NodeOk(s, h, j);
      RootedGrows(h.reigns, h'.reigns, s.nodes[j].log);
    }
  }

  lemma ElectKeepsReigns(s: State, h: Past, c: int, voters: set<int>)
    requires WellFormed(s) && NodesOk(s, h) && ReignsOk(s, h)
    requires c in s.nodes && s.nodes[c].role == Candidate && s.nodes[c].term !in h.reigns
    requires Majority(voters, s.peers) && c in voters
    requires forall v :: v in voters ==> Granted(h.voted, v, s.nodes[c].term, c)
    ensures var n := s.nodes[c];
      ReignsOk(Put(s, c, BecomeLeader(n, s.peers)), RecordReign(h, c, n.term, voters, n.log))
  {
    var n := s.nodes[c];
    var s', h' := Put(s, c, BecomeLeader(n, s.peers)), RecordReign(h, c, n.term, voters, n.log);
    AddReignGrows(h, c, n.term, voters, n.log);
    assert NodeOk(s, h, c);
    RootedGrows(h.reigns, h'.reigns, n.log);
    forall t | t in h'.reigns ensures ReignOk(s', h', t) {
      if t in h.reigns {
        assert ReignOk(s, h, t);
        RootedGrows(h.reigns, h'.reigns, h.reigns[t].log);
      }
    }
  }

  // ----- Messages survive growth -----

  ghost predicate PastGrows(h: Past, h': Past) {
    && Grows(h.reigns, h'.reigns) && h'.voted == h.voted
    && forall v, t :: AckOf(h.acks, v, t) <= AckOf(h'.acks, v, t)
  }

  lemma GrowthKeepsMessages(s: State, h: Past, i: int, n: Node, h': Past)
    requires NetOk(s, h) && PastGrows(h, h')
    requires i in s.nodes && n.term == s.nodes[i].term && n.role != Candidate
    ensures NetOk(Put(s, i, n), h')
  {
    var s' := Put(s, i, n);
    forall m | m in s'.net ensures MessageOk(s', h', m) {
      assert MessageOk(s, h, m);
      if m.AppendRequest? || m.AppendResponse? {
        AppOkGrows(h.reigns, h'.reigns, m.app);
      }
    }
  }

  lemma AppOkGrows(reigns: Reigns, reigns': Reigns, a: AppendArgs)
    requires AppOk(reigns, a) && Grows(reigns, reigns')
    ensures AppOk(reigns', a)
  {
    var R, R' := reigns[a.term].log, reigns'[a.term].log;
    var m := a.prevLogIndex + |a.entries|;
    assert GrewTo(reigns[a.term], reigns'[a.term], a.term);
    assert R'[..|R|][a.prevLogIndex..m] == R'[a.prevLogIndex..m];
    if a.prevLogIndex > 0 { ContainsAt(R', R, |R|, a.prevLogIndex - 1); }
  }

  // ----- A client command at the leader -----

  predicate Leads(s: State, h: Past, i: int) {
    i in s.nodes && s.nodes[i].role == Leader && NodeOk(s, h, i)
  }

  function NextEntry(n: Node, command: Command): (entry: LogEntry) {
    LogEntry(|n.log| + 1, n.term, command)
  }

  function Grown(h: Past, i: int, entry: LogEntry): (h': Past)
    requires entry.term in h.reigns
  {
    var r := h.reigns[entry.term];
    h.(reigns := h.reigns[entry.term := r.(log := r.log + [entry])], acks := h.acks[(i, entry.term) := |r.log| + 1])
  }

  lemma GrownAdvances(s: State, h: Past, i: int, entry: LogEntry)
    requires AcksOk(s, h) && ReignsOk(s, h) && entry.term in h.reigns
    ensures PastGrows(h, Grown(h, i, entry))
  {
    AcksBounded(s, h, i);
    AcksGrow(s, h, i, entry.term, |h.reigns[entry.term].log| + 1);
  }

  // Start at a leader, and what it adds to the past.
  lemma StartGrows(s: State, h: Past, i: int, command: Command)
    requires Leads(s, h, i)
    ensures var n := s.nodes[i];
      var entry := NextEntry(n, command);
      && entry.term in h.reigns && h.reigns[entry.term].log == n.log
      && Start(n, command) == (n.(log := n.log + [entry]), |n.log| + 1, n.term, true)
      && RecordGrowth(h, i, n.term, n.log + [entry]) == Grown(h, i, entry)
  {
    RootedIndices(h.reigns, s.nodes[i].log);
  }

  function ClientAppend(s: State, i: int, entry: LogEntry): (s': State)
    requires i in s.nodes
  {
    Put(s, i, s.nodes[i].(log := s.nodes[i].log + [entry]))
  }

  predicate MayAppend(s: State, h: Past, i: int, entry: LogEntry) {
    Leads(s, h, i) && entry.index == |s.nodes[i].log| + 1 && entry.term == s.nodes[i].term
  }

  lemma ClientKeepsAcks(s: State, h: Past, i: int, entry: LogEntry)
    requires AcksOk(s, h) && ReignsOk(s, h) && MayAppend(s, h, i, entry)
    ensures AcksOk(ClientAppend(s, i, entry), Grown(h, i, entry))
  {
    var s', h' := ClientAppend(s, i, entry), Grown(h, i, entry);
    GrownAdvances(s, h, i, entry);
    forall k | k in h'.acks ensures AckOk(s', h', k) {
      if k != (i, entry.term) {
        assert AckOk(s, h, k) && ReignOk(s, h, k.1);
        forall x: nat | x <= h.acks[k] ensures AckKept(s', h', k.0, k.1, x) {
          assert AckKept(s, h, k.0, k.1, x);
          GrowthKeepsAck(h.reigns, h'.reigns, k.1, x, s.nodes[k.0].term + 1, s.nodes[k.0].log, s'.nodes[k.0].log);
        }
      }
    }
  }

  lemma GrowthKeepsAck(reigns: Reigns, reigns': Reigns, t: nat, x: nat, until: nat, L: seq<LogEntry>, L': seq<LogEntry>)
    requires Grows(reigns, reigns') && t in reigns && x <= |reigns[t].log| && TermsUpTo(reigns[t].log, t)
    requires Chain(reigns, t, x, until) ==> Contains(L, reigns[t].log, x)
    requires Contains(L', L, |L|)
    ensures Chain(reigns', t, x, until) ==> Contains(L', reigns'[t].log, x)
  {
    if Chain(reigns', t, x, until) {
      ChainReflects(reigns, reigns', t, x, until);
      ContainsMonotone(reigns'[t].log, reigns[t].log, |reigns[t].log|, x);
      ContainsMonotone(L', L, |L|, x);
    }
  }

  lemma ClientHeeds(s: State, h: Past, i: int, entry: LogEntry, v: int, c: int, term: nat, L: seq<LogEntry>,
      L': seq<LogEntry>)
    requires AcksOk(s, h) && ReignsOk(s, h) && MayAppend(s, h, i, entry)
    requires v in s.nodes && term <= s.nodes[v].term && Heeds(h.reigns, h.acks, v, c, term, L) && Contains(L', L, |L|)
    ensures Heeds(Grown(h, i, entry).reigns, Grown(h, i, entry).acks, v, c, term, L')
  {
    GrownAdvances(s, h, i, entry);
    AcksBounded(s, h, v);
    HeedsGrows(h.reigns, h.acks, Grown(h, i, entry).reigns, Grown(h, i, entry).acks, v, c, term, L, L');
  }

  lemma ClientKeepsBallots(s: State, h: Past, i: int, entry: LogEntry)
    requires VotesOk(s, h) && AcksOk(s, h) && ReignsOk(s, h) && BallotsOk(s, h) && MayAppend(s, h, i, entry)
    ensures BallotsOk(ClientAppend(s, i, entry), Grown(h, i, entry))
  {
    var s', h' := ClientAppend(s, i, entry), Grown(h, i, entry);
    forall k | k in h'.voted ensures BallotOk(s', h', k) {
      assert BallotOk(s, h, k) && VoteOk(s, h, k);
      var L := s.nodes[h.voted[k]].log;
      if Heeds(h.reigns, h.acks, k.0, h.voted[k], k.1, L) {
        ClientHeeds(s, h, i, entry, k.0, h.voted[k], k.1, L, L);
      }
    }
  }

  lemma ClientKeepsElectors(s: State, h: Past, i: int, entry: LogEntry)
    requires VotesOk(s, h) && AcksOk(s, h) && ReignsOk(s, h) && ElectorsOk(h) && MayAppend(s, h, i, entry)
    ensures ElectorsOk(Grown(h, i, entry))
  {
    var h' := Grown(h, i, entry);
    forall t, v | t in h'.reigns && v in h'.reigns[t].voters
      ensures Heeds(h'.reigns, h'.acks, v, h'.reigns[t].leader, t, h'.reigns[t].log)
    {
      assert ReignOk(s, h, t);
      assert VoteOk(s, h, (v, t));
      ClientHeeds(s, h, i, entry, v, h.reigns[t].leader, t, h.reigns[t].log, h'.reigns[t].log);
    }
  }

  // The leader's own log with one more entry of its term.
  lemma RootedExtends(reigns: Reigns, reigns': Reigns, L: seq<LogEntry>, entry: LogEntry)
    requires Rooted(reigns, L) && TermsUpTo(L, entry.term) && Grows(reigns, reigns')
    requires entry.index == |L| + 1 && entry.term in reigns' && reigns'[entry.term].log == L + [entry]
    ensures Rooted(reigns', L + [entry]) && TermsUpTo(L + [entry], entry.term)
  {
    RootedGrows(reigns, reigns', L);
    var L' := L + [entry];
    forall k | 0 <= k < |L'|
      ensures RootedAt(reigns', L', k)
    {
      if k < |L| {
        assert RootedAt(reigns', L, k);
        assert L'[..k + 1] == L[..k + 1];
      }
    }
  }

  lemma ClientKeepsNodes(s: State, h: Past, i: int, entry: LogEntry)
    requires NodesOk(s, h) && AcksOk(s, h) && ReignsOk(s, h) && MayAppend(s, h, i, entry)
    ensures NodesOk(ClientAppend(s, i, entry), Grown(h, i, entry))
  {
    var s', h' := ClientAppend(s, i, entry), Grown(h, i, entry);
    GrownAdvances(s, h, i, entry);
    forall j | j in s'.nodes ensures NodeOk(s', h', j) {
      assert NodeOk(s, h, j);
      if j == i {
        RootedExtends(h.reigns, h'.reigns, s.nodes[i].log, entry);
        LeaderStillOk(s, h, i, entry);
      } else {
        OtherStillOk(s, h, i, entry, j);
      }
    }
  }

  lemma OtherStillOk(s: State, h: Past, i: int, entry: LogEntry, j: int)
    requires MayAppend(s, h, i, entry) && PastGrows(h, Grown(h, i, entry)) && j in s.nodes && j != i && NodeOk(s, h, j)
    ensures NodeOk(ClientAppend(s, i, entry), Grown(h, i, entry), j)
  {
    RootedGrows(h.reigns, Grown(h, i, entry).reigns, s.nodes[j].log);
  }

  lemma LeaderStillOk(s: State, h: Past, i: int, entry: LogEntry)
    requires MayAppend(s, h, i, entry) && PastGrows(h, Grown(h, i, entry))
    ensures LeaderOk(s.peers, Grown(h, i, entry), ClientAppend(s, i, entry).nodes[i])
  {
  }

  lemma ClientKeepsReigns(s: State, h: Past, i: int, entry: LogEntry)
    requires ReignsOk(s, h) && AcksOk(s, h) && MayAppend(s, h, i, entry)
    ensures ReignsOk(ClientAppend(s, i, entry), Grown(h, i, entry))
  {
    var s', h' := ClientAppend(s, i, entry), Grown(h, i, entry);
    GrownAdvances(s, h, i, entry);
    RootedExtends(h.reigns, h'.reigns, s.nodes[i].log, entry);
    forall t | t in h'.reigns ensures ReignOk(s', h', t) {
      assert ReignOk(s, h, t);
      RootedGrows(h.reigns, h'.reigns, h.reigns[t].log);
    }
  }

  lemma ClientKeeps(s: State, h: Past, i: int, entry: LogEntry)
    requires Inv(s, h) && MayAppend(s, h, i, entry)
    ensures Inv(ClientAppend(s, i, entry), Grown(h, i, entry))
  {
    ClientKeepsAcks(s, h, i, entry);
    ClientKeepsBallots(s, h, i, entry);
    ClientKeepsElectors(s, h, i, entry);
    ClientKeepsNodes(s, h, i, entry);
    ClientKeepsReigns(s, h, i, entry);
    ClientKeepsMessages(s, h, i, entry);
  }

  lemma ClientKeepsMessages(s: State, h: Past, i: int, entry: LogEntry)
    requires Inv(s, h) && MayAppend(s, h, i, entry)
    ensures var s', h' := ClientAppend(s, i, entry), Grown(h, i, entry);
      VotesOk(s', h') && TalliesOk(s', h') && NetOk(s', h')
  {
    var s', h' := ClientAppend(s, i, entry), Grown(h, i, entry);
    GrownAdvances(s, h, i, entry);
    VotingStays(s, h, i, s'.nodes[i], h');
    GrowthKeepsMessages(s, h, i, s'.nodes[i], h');
  }

  // ----- A follower accepts entries -----

  function Accepted(s: State, v: int, args: AppendArgs): (s': State)
    requires v in s.nodes
  {
    Put(s, v, s.nodes[v].(log := Merge(s.nodes[v].log, args.entries)))
  }

  function AcceptedPast(h: Past, v: int, args: AppendArgs): (h': Past)
    requires args.prevLogIndex >= 0
  {
    RecordAck(h, v, args.term, args.prevLogIndex + |args.entries|)
  }

  predicate MayAccept(s: State, h: Past, v: int, args: AppendArgs) {
    && v in s.nodes && AppOk(h.reigns, args)
    && s.nodes[v].term == args.term && s.nodes[v].role == Follower
    && PrevMatches(s.nodes[v].log, args)
  }

  lemma AcceptShares(reigns: Reigns, L: seq<LogEntry>, args: AppendArgs)
    requires AppOk(reigns, args) && Rooted(reigns, L) && Rooted(reigns, reigns[args.term].log)
    requires PrevMatches(L, args)
    ensures Matches(L, reigns[args.term].log) && IndexedFrom(args.prevLogIndex, args.entries)
    ensures Contains(L, reigns[args.term].log, args.prevLogIndex)
  {
    var R, prev := reigns[args.term].log, args.prevLogIndex;
    RootedMatches(reigns, L, R);
    RootedIndices(reigns, L);
    RootedIndices(reigns, R);
    if prev > 0 {
      assert L[prev - 1].term == R[prev - 1].term;
      assert Contains(L, R, prev - 1 + 1);
    }
  }

  lemma AcceptMoves(reigns: Reigns, L: seq<LogEntry>, args: AppendArgs)
    requires AppOk(reigns, args) && Rooted(reigns, L) && Rooted(reigns, reigns[args.term].log)
    requires PrevMatches(L, args)
    ensures MovedTowards(L, Merge(L, args.entries), reigns[args.term].log, args.prevLogIndex + |args.entries|)
    ensures Rooted(reigns, Merge(L, args.entries))
  {
    var R, m := reigns[args.term].log, args.prevLogIndex + |args.entries|;
    AcceptMovesLog(reigns, L, args);
    MovedStaysRooted(reigns, L, Merge(L, args.entries), R, m);
  }

  lemma AcceptMovesLog(reigns: Reigns, L: seq<LogEntry>, args: AppendArgs)
    requires AppOk(reigns, args) && Rooted(reigns, L) && Rooted(reigns, reigns[args.term].log)
    requires PrevMatches(L, args)
    ensures MovedTowards(L, Merge(L, args.entries), reigns[args.term].log, args.prevLogIndex + |args.entries|)
  {
    AcceptShares(reigns, L, args);
    MergeTowards(L, args.prevLogIndex, args.entries, reigns[args.term].log);
  }

  lemma MovedStaysRooted(reigns: Reigns, L: seq<LogEntry>, L': seq<LogEntry>, R: seq<LogEntry>, m: nat)
    requires Rooted(reigns, L) && Rooted(reigns, R) && m <= |R| && MovedTowards(L, L', R, m)
    ensures Rooted(reigns, L')
  {
    if L' != L {
      RootedPrefix(reigns, R, m);
    }
  }

  lemma AcceptMovesNode(s: State, h: Past, v: int, args: AppendArgs)
    requires NodesOk(s, h) && ReignsOk(s, h) && MayAccept(s, h, v, args)
    ensures MovedTowards(s.nodes[v].log, Merge(s.nodes[v].log, args.entries), h.reigns[args.term].log,
        args.prevLogIndex + |args.entries|)
    ensures Rooted(h.reigns, Merge(s.nodes[v].log, args.entries))
  {
    assert NodeOk(s, h, v) && ReignOk(s, h, args.term);
    AcceptMoves(h.reigns, s.nodes[v].log, args);
  }

  lemma AcceptKeepsAcks(s: State, h: Past, v: int, args: AppendArgs)
    requires NodesOk(s, h) && ReignsOk(s, h) && AcksOk(s, h) && MayAccept(s, h, v, args)
    ensures AcksOk(Accepted(s, v, args), AcceptedPast(h, v, args))
  {
    var s', h' := Accepted(s, v, args), AcceptedPast(h, v, args);
    forall k | k in h'.acks ensures AckOk(s', h', k) {
      if k == (v, args.term) {
        AcceptedAckOk(s, h, v, args);
      } else if k.0 == v {
        EarlierAckOk(s, h, v, args, k.1);
      } else {
        assert AckOk(s, h, k);
        forall x: nat | x <= h.acks[k] ensures AckKept(s', h', k.0, k.1, x) {
          assert AckKept(s, h, k.0, k.1, x);
        }
      }
    }
  }

  lemma AcceptedAckOk(s: State, h: Past, v: int, args: AppendArgs)
    requires NodesOk(s, h) && ReignsOk(s, h) && AcksOk(s, h) && MayAccept(s, h, v, args)
    ensures AckOk(Accepted(s, v, args), AcceptedPast(h, v, args), (v, args.term))
  {
    var s', h' := Accepted(s, v, args), AcceptedPast(h, v, args);
    var L', R, m := s'.nodes[v].log, h.reigns[args.term].log, args.prevLogIndex + |args.entries|;
    AcceptMovesNode(s, h, v, args);
    assert (v, args.term) in h.acks ==> AckOk(s, h, (v, args.term));
    forall x: nat | x <= h'.acks[(v, args.term)] ensures AckKept(s', h', v, args.term, x) {
      if x <= m {
        ContainsMonotone(L', R, m, x);
      } else {
        assert AckKept(s, h, v, args.term, x);
      }
    }
  }

  lemma EarlierAckOk(s: State, h: Past, v: int, args: AppendArgs, t: nat)
    requires NodesOk(s, h) && ReignsOk(s, h) && AcksOk(s, h) && MayAccept(s, h, v, args)
    requires (v, t) in h.acks && t != args.term
    ensures AckOk(Accepted(s, v, args), AcceptedPast(h, v, args), (v, t))
  {
    var s', h' := Accepted(s, v, args), AcceptedPast(h, v, args);
    AcceptMovesNode(s, h, v, args);
    assert AckOk(s, h, (v, t));
    forall x: nat | x <= h.acks[(v, t)] ensures AckKept(s', h', v, t, x) {
      assert AckKept(s, h, v, t, x);
      EarlierAckKept(s, h, v, args, t, x);
    }
  }

  lemma EarlierAckKept(s: State, h: Past, v: int, args: AppendArgs, t: nat, x: nat)
    requires MayAccept(s, h, v, args) && t in h.reigns && t <= args.term && AckKept(s, h, v, t, x)
    requires MovedTowards(s.nodes[v].log, Merge(s.nodes[v].log, args.entries), h.reigns[args.term].log,
               args.prevLogIndex + |args.entries|)
    ensures AckKept(Accepted(s, v, args), AcceptedPast(h, v, args), v, t, x)
  {
    if Chain(h.reigns, t, x, args.term + 1) {
      var L := s.nodes[v].log;
      AckSurvivesMove(h.reigns, t, x, args.term, L, Merge(L, args.entries), args.prevLogIndex + |args.entries|);
    }
  }

  lemma AckSurvivesMove(reigns: Reigns, t: nat, x: nat, term: nat, L: seq<LogEntry>, L': seq<LogEntry>, m: nat)
    requires t in reigns && term in reigns && t <= term
    requires MovedTowards(L, L', reigns[term].log, m)
    requires Chain(reigns, t, x, term + 1) && Contains(L, reigns[t].log, x)
    ensures Contains(L', reigns[t].log, x)
  {
    var R := reigns[term].log;
    assert Contains(R, reigns[t].log, x);
    assert Contains(L, R, x);
    ContainsTransitive(L', R, reigns[t].log, x);
  }

  lemma AcceptKeepsVotes(s: State, h: Past, v: int, args: AppendArgs)
    requires VotesOk(s, h) && ReignsOk(s, h) && AcksOk(s, h) && BallotsOk(s, h) && ElectorsOk(h)
    requires MayAccept(s, h, v, args)
    ensures BallotsOk(Accepted(s, v, args), AcceptedPast(h, v, args))
    ensures ElectorsOk(AcceptedPast(h, v, args))
  {
    var s', h' := Accepted(s, v, args), AcceptedPast(h, v, args);
    forall k | k in h'.voted ensures BallotOk(s', h', k) {
      assert BallotOk(s, h, k) && VoteOk(s, h, k);
      var L := s.nodes[h.voted[k]].log;
      if Heeds(h.reigns, h.acks, k.0, h.voted[k], k.1, L) {
        AcceptHeeds(s, h, v, args, k.0, h.voted[k], k.1, L);
      }
    }
    forall t, w | t in h'.reigns && w in h'.reigns[t].voters
      ensures Heeds(h'.reigns, h'.acks, w, h'.reigns[t].leader, t, h'.reigns[t].log)
    {
      assert ReignOk(s, h, t);
      assert VoteOk(s, h, (w, t));
      AcceptHeeds(s, h, v, args, w, h.reigns[t].leader, t, h.reigns[t].log);
    }
  }

  // v's term is args.term, so its earlier votes were for terms that do not look at it.
  lemma AcceptHeeds(s: State, h: Past, v: int, args: AppendArgs, w: int, c: int, term: nat, L: seq<LogEntry>)
    requires ReignsOk(s, h) && AcksOk(s, h) && MayAccept(s, h, v, args)
    requires w in s.nodes && term <= s.nodes[w].term && Heeds(h.reigns, h.acks, w, c, term, L)
    ensures Heeds(h.reigns, AcceptedPast(h, v, args).acks, w, c, term, L)
  {
  }

  lemma AcceptKeeps(s: State, h: Past, v: int, args: AppendArgs)
    requires Inv(s, h) && MayAccept(s, h, v, args)
    ensures Inv(Accepted(s, v, args), AcceptedPast(h, v, args))
  {
    var s', h' := Accepted(s, v, args), AcceptedPast(h, v, args);
    AcceptKeepsAcks(s, h, v, args);
    AcceptKeepsVotes(s, h, v, args);
    AcceptKeepsMessages(s, h, v, args);
    forall t | t in h'.reigns ensures ReignOk(s', h', t) {
      assert ReignOk(s, h, t);
    }
    AcceptKeepsNodes(s, h, v, args);
  }

  lemma AcceptKeepsMessages(s: State, h: Past, v: int, args: AppendArgs)
    requires Inv(s, h) && MayAccept(s, h, v, args)
    ensures var s', h' := Accepted(s, v, args), AcceptedPast(h, v, args);
      VotesOk(s', h') && TalliesOk(s', h') && NetOk(s', h')
  {
    var s', h' := Accepted(s, v, args), AcceptedPast(h, v, args);
    AcksGrow(s, h, v, args.term, h'.acks[(v, args.term)]);
    VotingStays(s, h, v, s'.nodes[v], h');
    GrowthKeepsMessages(s, h, v, s'.nodes[v], h');
  }

  lemma AcceptKeepsNodes(s: State, h: Past, v: int, args: AppendArgs)
    requires NodesOk(s, h) && ReignsOk(s, h) && MayAccept(s, h, v, args)
    ensures NodesOk(Accepted(s, v, args), AcceptedPast(h, v, args))
  {
    var s', h' := Accepted(s, v, args), AcceptedPast(h, v, args);
    var m := args.prevLogIndex + |args.entries|;
    AcceptMovesNode(s, h, v, args);
    assert ReignOk(s, h, args.term);
    AcksGrow(s, h, v, args.term, h'.acks[(v, args.term)]);
    forall j | j in s'.nodes ensures NodeOk(s', h', j) {
      assert NodeOk(s, h, j);
    }
  }

  // ----- A leader moves a peer's indices -----

  lemma IndicesKeep(s: State, h: Past, i: int, n: Node)
    requires Inv(s, h) && i in s.nodes && s.nodes[i].role == Leader
    requires SameCore(n.(nextIndex := s.nodes[i].nextIndex, matchIndex := s.nodes[i].matchIndex), s.nodes[i])
    requires forall p :: p in s.peers && p != i ==> PeerIndexOk(n, h.acks, p)
    ensures Inv(Put(s, i, n), h)
  {
    LogsStayKeeps(s, h, Put(s, i, n), h);
    IndicesKeepVotes(s, h, i, n);
    IndicesKeepNodes(s, h, i, n);
  }

  lemma IndicesKeepVotes(s: State, h: Past, i: int, n: Node)
    requires VotesOk(s, h) && TalliesOk(s, h) && BallotsOk(s, h) && NetOk(s, h)
    requires i in s.nodes && s.nodes[i].role == Leader
    requires SameCore(n.(nextIndex := s.nodes[i].nextIndex, matchIndex := s.nodes[i].matchIndex), s.nodes[i])
    ensures var s' := Put(s, i, n);
      VotesOk(s', h) && TalliesOk(s', h) && BallotsOk(s', h) && NetOk(s', h)
  {
    VotingStays(s, h, i, n, h);
    BallotsStay(s, h, i, n);
    MessagesStay(s, h, i, n, h);
  }

  lemma IndicesKeepNodes(s: State, h: Past, i: int, n: Node)
    requires NodesOk(s, h) && i in s.nodes && s.nodes[i].role == Leader
    requires SameCore(n.(nextIndex := s.nodes[i].nextIndex, matchIndex := s.nodes[i].matchIndex), s.nodes[i])
    requires forall p :: p in s.peers && p != i ==> PeerIndexOk(n, h.acks, p)
    ensures NodesOk(Put(s, i, n), h)
  {
    assert NodeOk(s, h, i);
    OtherNodesStay(s, h, i, n);
  }
}
