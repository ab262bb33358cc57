/** The leader a node names to its clients: in any run at all, a node that led a term
    the naming node has reached. Terms never go back. */
module LeaderHints {
  import opened RaftHandlers
  import opened Cluster
  import opened Safety

  // At some moment of the run, l led `term`.
  ghost predicate Led(peers: set<int>, run: Run, l: int, term: nat)
    requires ValidPeers(peers)
  {
    l in peers && exists k: nat :: k <= |run| && LeadsIn(NodeAt(peers, run, k, l), term)
  }

  predicate LeadsIn(n: Node, term: nat) {
    n.role == Leader && n.term == term
  }

  ghost predicate HintOk(peers: set<int>, run: Run, n: Node)
    requires ValidPeers(peers)
  {
    n.leaderId != -1 ==> exists term: nat :: term <= n.term && Led(peers, run, n.leaderId, term)
  }

  ghost predicate HintsOk(peers: set<int>, run: Run, s: State)
    requires ValidPeers(peers)
  {
    && s.nodes.Keys == peers
    && (forall i :: i in s.nodes ==> s.nodes[i].id == i && HintOk(peers, run, s.nodes[i]))
    && (forall m :: m in s.net && m.AppendRequest? ==> Led(peers, run, m.app.leaderId, m.app.term))
  }

  lemma LedStays(peers: set<int>, run: Run, e: Event, l: int, term: nat)
    requires ValidPeers(peers) && Led(peers, run, l, term)
    ensures Led(peers, run + [e], l, term)
  {
    var k: nat :| k <= |run| && LeadsIn(NodeAt(peers, run, k, l), term);
    assert (run + [e])[..k] == run[..k];
    assert LeadsIn(NodeAt(peers, run + [e], k, l), term);
  }

  lemma HintsStay(peers: set<int>, run: Run, e: Event, s: State)
    requires ValidPeers(peers) && HintsOk(peers, run, s)
    ensures HintsOk(peers, run + [e], s)
  {
    forall i | i in s.nodes
      ensures HintOk(peers, run + [e], s.nodes[i])
    {
      var n := s.nodes[i];
      if n.leaderId != -1 {
        var term: nat :| term <= n.term && Led(peers, run, n.leaderId, term);
        LedStays(peers, run, e, n.leaderId, term);
      }
    }
    forall m | m in s.net && m.AppendRequest?
      ensures Led(peers, run + [e], m.app.leaderId, m.app.term)
    {
      LedStays(peers, run, e, m.app.leaderId, m.app.term);
    }
  }

  lemma LedNow(peers: set<int>, run: Run, l: int)
    requires ValidPeers(peers) && l in peers && NodeAt(peers, run, |run|, l).role == Leader
    ensures Led(peers, run, l, NodeAt(peers, run, |run|, l).term)
  {
    assert LeadsIn(NodeAt(peers, run, |run|, l), NodeAt(peers, run, |run|, l).term);
  }

  // Of an event's node: the term grows or stays, and it names whom it named before, or
  // itself as the new leader, or the sender of the message.
  predicate NamesFrom(n: Node, n': Node, e: Event) {
    && n'.id == n.id && n'.term >= n.term
    && (|| n'.leaderId == n.leaderId
        || (n'.leaderId == n'.id && n'.role == Leader)
        || (e.Deliver? && e.message.AppendRequest? && n'.leaderId == e.message.app.leaderId
            && e.message.app.term <= n'.term))
  }

  lemma EventNames(s: State, e: Event)
    requires Enabled(s, e)
    ensures var i, s' := Site(e), Step(s, e);
      s'.nodes == s.nodes[i := s'.nodes[i]] && NamesFrom(s.nodes[i], s'.nodes[i], e)
  {
    if e.Deliver? && e.message.AppendRequest? {
      FollowerNames(s.nodes[e.message.to], e.message);
    } else if e.Deliver? && e.message.AppendResponse? {
      ReplyNames(s, e.message);
    }
  }

  lemma FollowerNames(n: Node, m: Message)
    requires m.AppendRequest?
    ensures NamesFrom(n, HandleAppendEntries(n, m.app).0, Deliver(m))
  {
  }

  lemma ReplyNames(s: State, m: Message)
    requires m.AppendResponse? && Enabled(s, Deliver(m))
    ensures var n := s.nodes[m.app.leaderId];
      NamesFrom(n, HandleAppendReply(n, s.peers, m.from, m.app, m.appReply), Deliver(m))
  {
  }

  lemma NewRequests(s: State, e: Event, m: Message)
    requires m in Step(s, e).net && m !in s.net && m.AppendRequest?
    requires forall i :: i in s.nodes ==> s.nodes[i].id == i
    ensures var l := m.app.leaderId;
      l in s.nodes && Step(s, e).nodes == s.nodes && LeadsIn(s.nodes[l], m.app.term)
  {
  }

  lemma StepKeepsHints(peers: set<int>, run: Run, e: Event)
    requires ValidPeers(peers) && HintsOk(peers, run, After(peers, run))
    ensures HintsOk(peers, run + [e], After(peers, run + [e]))
  {
    var s, run' := After(peers, run), run + [e];
    var s' := Step(s, e);
    assert run'[..|run|] == run && run'[..|run'|] == run';
    HintsStay(peers, run, e, s);
    if Enabled(s, e) {
      EventNames(s, e);
      SiteKeepsHint(peers, run', s, e);
      forall m | m in s'.net && m.AppendRequest?
        ensures Led(peers, run', m.app.leaderId, m.app.term)
      {
        if m !in s.net {
          NewRequests(s, e, m);
          LedNow(peers, run', m.app.leaderId);
        }
      }
    }
  }

  lemma SiteKeepsHint(peers: set<int>, run: Run, s: State, e: Event)
    requires ValidPeers(peers) && HintsOk(peers, run, s) && Enabled(s, e) && After(peers, run) == Step(s, e)
    requires NamesFrom(s.nodes[Site(e)], Step(s, e).nodes[Site(e)], e)
    ensures HintOk(peers, run, Step(s, e).nodes[Site(e)])
  {
    var i := Site(e);
    var n, n' := s.nodes[i], Step(s, e).nodes[i];
    assert run[..|run|] == run;
    if n'.leaderId == n.leaderId {
      assert HintOk(peers, run, n);
    } else if n'.leaderId == n'.id && n'.role == Leader {
      LedNow(peers, run, i);
    } else {
      assert Led(peers, run, e.message.app.leaderId, e.message.app.term);
    }
  }

  lemma {:induction false} RunsKeepHints(peers: set<int>, run: Run)
    requires ValidPeers(peers)
    ensures HintsOk(peers, run, After(peers, run))
  {
    if |run| > 0 {
      var k := |run| - 1;
      RunsKeepHints(peers, run[..k]);
      StepKeepsHints(peers, run[..k], run[k]);
      assert run[..k] + [run[k]] == run;
    }
  }

  // Whom a node names as the leader led a term no later than the node's, at some
  // moment up to now. This needs neither R1 nor R2.
  lemma NamedLeaderLed(peers: set<int>, run: Run, j: nat, i: int) returns (k: nat)
    requires ValidPeers(peers) && i in peers && j <= |run| && NodeAt(peers, run, j, i).leaderId != -1
    ensures NodeAt(peers, run, j, i).leaderId in peers && k <= j
    ensures var leader := NodeAt(peers, run, k, NodeAt(peers, run, j, i).leaderId);
      leader.role == Leader && leader.term <= NodeAt(peers, run, j, i).term
  {
    RunsKeepHints(peers, run[..j]);
    var n := NodeAt(peers, run, j, i);
    assert HintOk(peers, run[..j], n);
    var term: nat :| term <= n.term && Led(peers, run[..j], n.leaderId, term);
    k :| k <= j && LeadsIn(NodeAt(peers, run[..j], k, n.leaderId), term);
    assert run[..j][..k] == run[..k];
  }

  // A node's term never decreases.
  lemma {:induction false} TermsNeverDecrease(peers: set<int>, run: Run, j: nat, k: nat, i: int)
    requires ValidPeers(peers) && i in peers && j <= k <= |run|
    ensures NodeAt(peers, run, j, i).term <= NodeAt(peers, run, k, i).term
    decreases k - j
  {
    if j < k {
      TermsNeverDecrease(peers, run, j, k - 1, i);
      assert run[..k][..k - 1] == run[..k - 1];
      var s, e := After(peers, run[..k - 1]), run[k - 1];
      if Enabled(s, e) { EventNames(s, e); }
    }
  }
}
