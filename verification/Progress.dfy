/** Progress of group commit: when the committer and the callers can block each
    other, that otherwise every caller gets its reply, and when closing the log lets
    the committer finish. */
module Progress {
  import opened Basics
  import opened WalCodec
  import opened GroupCommit

  // What the callers and the committer do once a number was taken; new calls and
  // Close are up to the outside.
  predicate Internal(e: Event) {
    !e.Lock? && !e.CloseLog?
  }

  // Requests are waiting and nothing can move.
  ghost predicate Deadlocked(cap: nat, w: Wal) {
    Outstanding(w) != [] && forall e :: Internal(e) ==> !Enabled(cap, w, e)
  }

  // The one way to block: the queue is full, the caller that holds the mutex waits for
  // room, and the committer that would make room waits for the mutex.
  predicate MutualWait(cap: nat, w: Wal) {
    w.phase.Locking? && w.holder.Some? && |w.queue| >= cap
  }

  lemma DeadlockIsMutualWait(cap: nat, w: Wal)
    requires Ordered(w) && cap >= 1
    ensures Deadlocked(cap, w) <==> MutualWait(cap, w)
  {
    if MutualWait(cap, w) {
      assert Outstanding(w)[|Outstanding(w)| - 1] == w.holder.value;
    } else if Outstanding(w) != [] {
      var e := NextMove(cap, w);
      assert Internal(e) && Enabled(cap, w, e);
    }
  }

  lemma NextMove(cap: nat, w: Wal) returns (e: Event)
    requires Ordered(w) && cap >= 1 && Outstanding(w) != [] && !MutualWait(cap, w)
    ensures Internal(e) && Enabled(cap, w, e)
  {
    match w.phase {
      case Receiving => e := if |w.queue| > 0 then Take else Send;
      case Collecting => e := if |w.queue| > 0 then Collect else EndCollect;
      case Locking => e := if w.holder.Some? then Send else Count;
      case Writing(next) => e := if next < |w.batch| then WriteOne else SyncOk;
      case Replying(_, _) => e := Reply;
      case Finished => assert false;
    }
  }

  // Every internal step brings the requests in flight closer to their replies.
  function Remaining(w: Wal): (n: int) {
    (if w.holder.Some? then 10 else 0) + 9 * |w.queue| +
    (match w.phase
     case Receiving => 1
     case Collecting => 2 * |w.batch| + 5
     case Locking => 2 * |w.batch| + 4
     case Writing(next) => 2 * |w.batch| - next + 3
     case Replying(next, _) => |w.batch| - next + 1
     case Finished => 0)
  }

  lemma InternalStepsCountDown(crc: Checksum, cap: nat, w: Wal, e: Event)
    requires Ordered(w) && Internal(e) && Enabled(cap, w, e)
    ensures 0 <= Remaining(Act(crc, cap, w, e)) < Remaining(w)
  {
    if e == Collect { assert Outstanding(w) != []; }
  }

  // At most n calls are in flight at any moment.
  predicate InFlightUpTo(crc: Checksum, cap: nat, w: Wal, run: Run, n: nat) {
    forall k :: 0 <= k <= |run| ==> InFlight(After(crc, cap, w, run[..k])) <= n
  }

  // Everyone is served: with at most cap + 1 calls in flight, as long as a request
  // has no reply some step can be taken, and only so many steps can be.
  lemma CallersAreServed(crc: Checksum, cap: nat, file: Bytes, run: Run)
    requires cap >= 1 && ClosedWhenIdle(crc, cap, Open(file), run)
    requires InFlight(After(crc, cap, Open(file), run)) <= cap + 1
    ensures var w := After(crc, cap, Open(file), run);
      && !Deadlocked(cap, w)
      && (forall e :: Internal(e) && Enabled(cap, w, e) ==> 0 <= Remaining(Act(crc, cap, w, e)) < Remaining(w))
      && ((forall e :: Internal(e) ==> !Enabled(cap, w, e)) ==> |w.replies| == w.nextSeq)
  {
    var w := After(crc, cap, Open(file), run);
    RunsKeepOrder(crc, cap, file, run);
    DeadlockIsMutualWait(cap, w);
    forall e | Internal(e) && Enabled(cap, w, e)
      ensures 0 <= Remaining(Act(crc, cap, w, e)) < Remaining(w)
    {
      InternalStepsCountDown(crc, cap, w, e);
    }
  }

  // ----- The bound is exact -----

  // One request has gone to the committer as a batch, and i more are queued.
  predicate BatchOfOne(w: Wal, i: nat, n: nat) {
    && w.phase.Locking? && w.holder.None? && |w.queue| == i && !w.closed
    && w.nextSeq == i + 1 && |w.replies| == 0 && i + 1 <= n
  }

  // Queue one more request behind a batch the committer has not counted yet.
  lemma QueueOneMore(crc: Checksum, cap: nat, w0: Wal, run: Run, r: Record, i: nat, n: nat)
    requires BatchOfOne(After(crc, cap, w0, run), i, n) && InFlightUpTo(crc, cap, w0, run, n) && i < cap && i + 2 <= n
    ensures BatchOfOne(After(crc, cap, w0, run + [Lock(r), Send]), i + 1, n)
    ensures InFlightUpTo(crc, cap, w0, run + [Lock(r), Send], n)
  {
    var w := After(crc, cap, w0, run);
    ExtendRun(crc, cap, w0, run, Lock(r), n);
    ExtendRun(crc, cap, w0, run + [Lock(r)], Send, n);
    assert run + [Lock(r)] + [Send] == run + [Lock(r), Send];
  }

  lemma ExtendRun(crc: Checksum, cap: nat, w0: Wal, run: Run, e: Event, n: nat)
    requires InFlightUpTo(crc, cap, w0, run, n) && InFlight(Step(crc, cap, After(crc, cap, w0, run), e)) <= n
    ensures After(crc, cap, w0, run + [e]) == Step(crc, cap, After(crc, cap, w0, run), e)
    ensures InFlightUpTo(crc, cap, w0, run + [e], n)
  {
    var run' := run + [e];
    assert run'[..|run|] == run;
    forall k | 0 <= k <= |run'|
      ensures InFlight(After(crc, cap, w0, run'[..k])) <= n
    {
      if k <= |run| {
        assert run'[..k] == run[..k];
      } else {
        assert run'[..k] == run';
      }
    }
  }

  predicate NeverCloses(run: Run) {
    forall k :: 0 <= k < |run| ==> run[k] != CloseLog
  }

  lemma {:induction false} QueueMany(crc: Checksum, cap: nat, w0: Wal, run: Run, r: Record, i: nat, n: nat)
      returns (run': Run)
    requires BatchOfOne(After(crc, cap, w0, run), i, n) && InFlightUpTo(crc, cap, w0, run, n)
    requires i <= cap && cap + 1 <= n
    requires NeverCloses(run)
    ensures BatchOfOne(After(crc, cap, w0, run'), cap, n) && InFlightUpTo(crc, cap, w0, run', n)
    ensures NeverCloses(run')
    decreases cap - i
  {
    if i == cap {
      run' := run;
    } else {
      QueueOneMore(crc, cap, w0, run, r, i, n);
      run' := QueueMany(crc, cap, w0, run + [Lock(r), Send], r, i + 1, n);
    }
  }

  lemma FirstBatch(crc: Checksum, cap: nat, file: Bytes, r: Record, n: nat) returns (run: Run)
    requires cap >= 1 && n >= 1
    ensures BatchOfOne(After(crc, cap, Open(file), run), 0, n) && InFlightUpTo(crc, cap, Open(file), run, n)
    ensures NeverCloses(run)
  {
    var w0 := Open(file);
    run := FirstRequest(crc, cap, file, r, n);
    ExtendRun(crc, cap, w0, run, Take, n);
    run := run + [Take];
    ExtendRun(crc, cap, w0, run, EndCollect, n);
    run := run + [EndCollect];
  }

  lemma FirstRequest(crc: Checksum, cap: nat, file: Bytes, r: Record, n: nat) returns (run: Run)
    requires cap >= 1 && n >= 1
    ensures After(crc, cap, Open(file), run) == Open(file).(nextSeq := 1, queue := [Pending(1, r)], issued := [r])
    ensures InFlightUpTo(crc, cap, Open(file), run, n) && NeverCloses(run)
  {
    var w0 := Open(file);
    run := [];
    assert InFlightUpTo(crc, cap, w0, run, n);
    ExtendRun(crc, cap, w0, run, Lock(r), n);
    run := run + [Lock(r)];
    ExtendRun(crc, cap, w0, run, Send, n);
    run := run + [Send];
  }

  lemma DeadlockReachable(crc: Checksum, cap: nat, file: Bytes, r: Record, n: nat) returns (run: Run)
    requires cap >= 1 && n >= cap + 2
    ensures InFlightUpTo(crc, cap, Open(file), run, n) && MutualWait(cap, After(crc, cap, Open(file), run))
    ensures NeverCloses(run)
  {
    run := FirstBatch(crc, cap, file, r, n);
    run := QueueMany(crc, cap, Open(file), run, r, 0, n);
    ExtendRun(crc, cap, Open(file), run, Lock(r), n);
    run := run + [Lock(r)];
  }

  // No deadlock is reachable exactly when at most cap + 1 calls are ever in flight:
  // one more than the queue holds.
  lemma DeadlockFreeIffBounded(crc: Checksum, cap: nat, file: Bytes, n: nat)
    requires cap >= 1
    ensures
      (forall run :: ClosedWhenIdle(crc, cap, Open(file), run) && InFlightUpTo(crc, cap, Open(file), run, n)
        ==> !Deadlocked(cap, After(crc, cap, Open(file), run)))
      <==> n <= cap + 1
  {
    if n <= cap + 1 {
      forall run | ClosedWhenIdle(crc, cap, Open(file), run) && InFlightUpTo(crc, cap, Open(file), run, n)
        ensures !Deadlocked(cap, After(crc, cap, Open(file), run))
      {
        assert run[..|run|] == run;
        CallersAreServed(crc, cap, file, run);
      }
    } else {
      var run := DeadlockReachable(crc, cap, file, Record(OP_PUT, [], []), n);
      RunsKeepOrder(crc, cap, file, run);
      DeadlockIsMutualWait(cap, After(crc, cap, Open(file), run));
    }
  }

  // ----- Closing -----

  // A closed queue that is being drained, or will be: the drain loop receives zero
  // values for ever.
  predicate Spinning(w: Wal) {
    w.closed && !w.phase.Finished? && (w.queue != [] || w.phase.Collecting?)
  }

  lemma {:induction false} SpinningNeverFinishes(crc: Checksum, cap: nat, w: Wal, run: Run)
    requires Spinning(w)
    ensures Spinning(After(crc, cap, w, run))
  {
    if |run| > 0 {
      SpinningNeverFinishes(crc, cap, w, run[..|run| - 1]);
    }
  }

  // A closed queue that is empty, with at most a collected batch left to commit.
  predicate Closing(w: Wal) {
    w.closed && w.queue == [] && w.holder.None? && PhaseOk(w) && !w.phase.Collecting?
  }

  lemma {:induction false} ClosingFinishes(crc: Checksum, cap: nat, w: Wal) returns (run: Run)
    requires Closing(w)
    ensures After(crc, cap, w, run).phase.Finished?
    decreases Remaining(w)
  {
    if w.phase.Finished? {
      run := [];
    } else {
      var e := match w.phase
        case Receiving => Finish
        case Locking => Count
        case Writing(next) => if next < |w.batch| then WriteOne else SyncOk
        case Replying(_, _) => Reply
        case _ => Finish;
      var w' := Step(crc, cap, w, e);
      assert Closing(w') && Remaining(w') < Remaining(w);
      var rest := ClosingFinishes(crc, cap, w');
      run := [e] + rest;
      AfterFirst(crc, cap, w, e, rest);
    }
  }

  lemma {:induction false} AfterFirst(crc: Checksum, cap: nat, w: Wal, e: Event, run: Run)
    ensures After(crc, cap, w, [e] + run) == After(crc, cap, Step(crc, cap, w, e), run)
  {
    if |run| == 0 {
      assert [e] + run == [e] && [e][..0] == [];
    } else {
      var k := |run| - 1;
      assert ([e] + run)[..k + 1] == [e] + run[..k];
      AfterFirst(crc, cap, w, e, run[..k]);
    }
  }

  // Close, at any moment it can be called: the committer can go on to finish exactly
  // when nothing is queued and nothing is being collected.
  lemma CloseFinishesIff(crc: Checksum, cap: nat, w: Wal)
    requires Ordered(w) && Enabled(cap, w, CloseLog)
    ensures (exists run :: After(crc, cap, Act(crc, cap, w, CloseLog), run).phase.Finished?)
      <==> w.queue == [] && !w.phase.Collecting?
  {
    var w' := Act(crc, cap, w, CloseLog);
    if w.queue == [] && !w.phase.Collecting? {
      var run := ClosingFinishes(crc, cap, w');
    } else {
      forall run
        ensures !After(crc, cap, w', run).phase.Finished?
      {
        SpinningNeverFinishes(crc, cap, w', run);
      }
    }
  }
}
