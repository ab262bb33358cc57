/** The write-ahead log with group commit, as a transition system: any number of
    callers in `Append`, the committer goroutine, the mutex, the bounded queue, and a
    file whose written length runs ahead of its synced length. */
module GroupCommit {
  import opened Basics
  import opened WalCodec

  datatype Pending = Pending(seqNo: nat, record: Record)

  // Where the committer is.
  datatype Phase =
    | Receiving                          // waiting for the first request of a batch
    | Collecting                         // draining what is already waiting
    | Locking                            // about to take the mutex for the statistics
    | Writing(next: nat)                 // records before `next` are written
    | Replying(next: nat, ok: bool)      // callers before `next` have their reply
    | Finished                           // the queue was closed and drained

  // `holder` is the caller inside Append's critical section: it has its sequence
  // number and holds the mutex until its send goes through. The last three fields
  // record what happened: the records in sequence order, the replies in the order
  // they were sent, and how many records the last successful sync covered.
  datatype Wal = Wal(
    file: Bytes,
    synced: nat,
    nextSeq: nat,
    closed: bool,
    holder: Option<Pending>,
    queue: seq<Pending>,
    batch: seq<Pending>,
    phase: Phase,
    batchCount: nat,
    totalRecords: nat,
    issued: seq<Record>,
    replies: seq<(nat, bool)>,
    durable: nat)

  datatype Event =
    | Lock(record: Record)    // Append: take the mutex, take a number
    | Send                    // Append: the queue has room, release the mutex
    | Take | Collect | EndCollect
    | Count                   // batch statistics, under the mutex
    | WriteOne | WriteFail(partial: nat)
    | SyncOk | SyncFail
    | Reply
    | CloseLog | Finish

  function Open(file: Bytes): (w: Wal) {
    Wal(file, |file|, 0, false, None, [], [], Receiving, 0, 0, [], [], 0)
  }

  // A receive from a closed and empty queue returns the zero value.
  const ZERO_REQUEST := Pending(0, Record(0, [], []))

  predicate Enabled(cap: nat, w: Wal, e: Event) {
    match e
    case Lock(_) => w.holder.None? && !w.closed
    case Send => w.holder.Some? && |w.queue| < cap
    case Take => w.phase.Receiving? && |w.queue| > 0
    case Collect => w.phase.Collecting? && (|w.queue| > 0 || w.closed)
    case EndCollect => w.phase.Collecting? && |w.queue| == 0 && !w.closed
    case Count => w.phase.Locking? && w.holder.None?
    case WriteOne => w.phase.Writing? && w.phase.next < |w.batch|
    case WriteFail(_) => w.phase.Writing? && w.phase.next < |w.batch|
    case SyncOk => w.phase.Writing? && w.phase.next == |w.batch|
    case SyncFail => w.phase.Writing? && w.phase.next == |w.batch|
    case Reply => w.phase.Replying? && w.phase.next < |w.batch|
    case CloseLog => w.holder.None? && !w.closed
    case Finish => w.phase.Receiving? && |w.queue| == 0 && w.closed
  }

  function Act(crc: Checksum, cap: nat, w: Wal, e: Event): (w': Wal)
    requires Enabled(cap, w, e)
  {
    match e
    case Lock(record) =>
      w.(nextSeq := w.nextSeq + 1, holder := Some(Pending(w.nextSeq + 1, record)), issued := w.issued + [record])
    case Send => w.(queue := w.queue + [w.holder.value], holder := None)
    case Take => w.(batch := [w.queue[0]], queue := w.queue[1..], phase := Collecting)
    case Collect =>
      if |w.queue| > 0 then w.(batch := w.batch + [w.queue[0]], queue := w.queue[1..])
      else w.(batch := w.batch + [ZERO_REQUEST])
    case EndCollect => w.(phase := Locking)
    case Count => w.(batchCount := w.batchCount + 1, totalRecords := w.totalRecords + |w.batch|, phase := Writing(0))
    case WriteOne =>
      w.(file := w.file + Encode(crc, w.batch[w.phase.next].record), phase := Writing(w.phase.next + 1))
    case WriteFail(partial) =>
      var data := Encode(crc, w.batch[w.phase.next].record);
      w.(file := w.file + data[..Min(partial, |data|)], phase := Replying(0, false))
    case SyncOk => w.(synced := |w.file|, durable := |w.replies| + |w.batch|, phase := Replying(0, true))
    case SyncFail => w.(phase := Replying(0, false))
    case Reply =>
      var next, ok := w.phase.next + 1, w.phase.ok;
      var w' := w.(replies := w.replies + [(w.batch[w.phase.next].seqNo, ok)]);
      if next == |w.batch| then w'.(batch := [], phase := Receiving) else w'.(phase := Replying(next, ok))
    case CloseLog => w.(closed := true)
    case Finish => w.(phase := Finished)
  }

  // An event that is not enabled does nothing.
  function Step(crc: Checksum, cap: nat, w: Wal, e: Event): (w': Wal) {
    if Enabled(cap, w, e) then Act(crc, cap, w, e) else w
  }

  type Run = seq<Event>

  function After(crc: Checksum, cap: nat, w: Wal, run: Run): (w': Wal) {
    if |run| == 0 then w else Step(crc, cap, After(crc, cap, w, run[..|run| - 1]), run[|run| - 1])
  }

  // Appends that took a number and have no reply yet.
  function InFlight(w: Wal): (n: int) {
    w.nextSeq - |w.replies|
  }

  // W3: the log is closed only when every Append has returned.
  predicate ClosedWhenIdle(crc: Checksum, cap: nat, w: Wal, run: Run) {
    forall k :: 0 <= k < |run| && run[k] == CloseLog ==> InFlight(After(crc, cap, w, run[..k])) == 0
  }

  predicate NoFailedWrite(run: Run) {
    forall k :: 0 <= k < |run| ==> !run[k].WriteFail?
  }

  // ----- Order: requests leave in the order of their numbers -----

  // The requests without a reply, oldest first.
  function Outstanding(w: Wal): (requests: seq<Pending>) {
    (if w.phase.Replying? && w.phase.next <= |w.batch| then w.batch[w.phase.next..] else w.batch)
    + w.queue + (if w.holder.Some? then [w.holder.value] else [])
  }

  // Request number n carries the n-th record issued.
  predicate InOrder(issued: seq<Record>, from: nat, requests: seq<Pending>) {
    forall j :: 0 <= j < |requests| ==> from + j < |issued| && requests[j] == Pending(from + j + 1, issued[from + j])
  }

  predicate PhaseOk(w: Wal) {
    && (w.phase.Receiving? || w.phase.Finished? ==> w.batch == [])
    && (w.phase.Collecting? || w.phase.Locking? ==> |w.batch| > 0)
    && (w.phase.Writing? ==> |w.batch| > 0 && w.phase.next <= |w.batch|)
    && (w.phase.Replying? ==> w.phase.next < |w.batch|)
  }

  predicate Ordered(w: Wal) {
    && PhaseOk(w)
    && |w.issued| == w.nextSeq == |w.replies| + |Outstanding(w)|
    && InOrder(w.issued, |w.replies|, Outstanding(w))
    && (forall k :: 0 <= k < |w.replies| ==> w.replies[k].0 == k + 1)
    && (w.closed ==> Outstanding(w) == []) && (w.phase.Finished? ==> w.closed)
  }

  lemma LockKeepsOrder(crc: Checksum, cap: nat, w: Wal, record: Record)
    requires Ordered(w) && Enabled(cap, w, Lock(record))
    ensures Ordered(Act(crc, cap, w, Lock(record)))
  {
    assert Outstanding(Act(crc, cap, w, Lock(record))) == Outstanding(w) + [Pending(w.nextSeq + 1, record)];
  }

  lemma ReplyKeepsOrder(crc: Checksum, cap: nat, w: Wal)
    requires Ordered(w) && Enabled(cap, w, Reply)
    ensures Ordered(Act(crc, cap, w, Reply))
  {
    assert Outstanding(w)[0] == w.batch[w.phase.next];
    ReplyAnswersOldest(crc, cap, w);
  }

  lemma ReplyAnswersOldest(crc: Checksum, cap: nat, w: Wal)
    requires PhaseOk(w) && Enabled(cap, w, Reply)
    ensures var w' := Act(crc, cap, w, Reply);
      && PhaseOk(w') && Outstanding(w') == Outstanding(w)[1..]
      && w'.replies == w.replies + [(w.batch[w.phase.next].seqNo, w.phase.ok)]
      && w'.issued == w.issued && w'.nextSeq == w.nextSeq && w'.closed == w.closed && !w'.phase.Finished?
  {
    var next := w.phase.next;
    DropFirst(w.batch[next..], w.queue, if w.holder.Some? then [w.holder.value] else []);
    assert w.batch[next..][1..] == w.batch[next + 1..];
  }

  lemma DropFirst(a: seq<Pending>, b: seq<Pending>, c: seq<Pending>)
    requires |a| > 0
    ensures (a + b + c)[1..] == a[1..] + b + c
  {
  }

  // All other steps only move requests along.
  lemma MoveKeepsRequests(crc: Checksum, cap: nat, w: Wal, e: Event)
    requires PhaseOk(w) && Enabled(cap, w, e) && !e.Lock? && !e.Reply?
    requires w.closed ==> Outstanding(w) == []
    ensures var w' := Act(crc, cap, w, e);
      && PhaseOk(w') && Outstanding(w') == Outstanding(w)
      && w'.issued == w.issued && w'.nextSeq == w.nextSeq && w'.replies == w.replies
      && w'.closed == (w.closed || e.CloseLog?) && (w'.phase.Finished? ==> w.phase.Finished? || w.closed)
  {
    if e.Collect? { assert Outstanding(w) != []; }
    assert Outstanding(Act(crc, cap, w, e)) == Outstanding(w);
  }

  lemma MoveKeepsOrder(crc: Checksum, cap: nat, w: Wal, e: Event)
    requires Ordered(w) && Enabled(cap, w, e) && !e.Lock? && !e.Reply? && (e.CloseLog? ==> InFlight(w) == 0)
    ensures Ordered(Act(crc, cap, w, e))
  {
    MoveKeepsRequests(crc, cap, w, e);
  }

  lemma StepKeepsOrder(crc: Checksum, cap: nat, w: Wal, e: Event)
    requires Ordered(w) && (e.CloseLog? ==> InFlight(w) == 0)
    ensures Ordered(Step(crc, cap, w, e))
  {
    if Enabled(cap, w, e) {
      match e {
        case Lock(record) => LockKeepsOrder(crc, cap, w, record);
        case Reply => ReplyKeepsOrder(crc, cap, w);
        case _ => MoveKeepsOrder(crc, cap, w, e);
      }
    }
  }

  lemma ClosedPrefix(crc: Checksum, cap: nat, w: Wal, run: Run, k: nat)
    requires ClosedWhenIdle(crc, cap, w, run) && k <= |run|
    ensures ClosedWhenIdle(crc, cap, w, run[..k])
  {
    assert forall j :: 0 <= j < k ==> run[..k][..j] == run[..j];
  }

  lemma {:induction false} RunsKeepOrder(crc: Checksum, cap: nat, file: Bytes, run: Run)
    requires ClosedWhenIdle(crc, cap, Open(file), run)
    ensures Ordered(After(crc, cap, Open(file), run))
  {
    if |run| > 0 {
      var k := |run| - 1;
      ClosedPrefix(crc, cap, Open(file), run, k);
      RunsKeepOrder(crc, cap, file, run[..k]);
      StepKeepsOrder(crc, cap, After(crc, cap, Open(file), run[..k]), run[k]);
    }
  }

  // Every caller gets exactly one reply, in the order of the sequence numbers.
  lemma OneReplyEach(crc: Checksum, cap: nat, file: Bytes, run: Run)
    requires ClosedWhenIdle(crc, cap, Open(file), run)
    ensures var w := After(crc, cap, Open(file), run);
      && |w.replies| <= w.nextSeq == |w.issued|
      && (forall k :: 0 <= k < |w.replies| ==> w.replies[k].0 == k + 1)
      && |w.batch| <= InFlight(w) + (if w.phase.Replying? then w.phase.next else 0)
  {
    RunsKeepOrder(crc, cap, file, run);
  }

  // ----- The statistics -----

  // The callers of a counted batch that have no reply yet.
  function CountedRest(w: Wal): (n: int) {
    match w.phase
    case Writing(_) => |w.batch|
    case Replying(next, _) => |w.batch| - next
    case _ => 0
  }

  predicate StatsOk(w: Wal) {
    w.totalRecords == |w.replies| + CountedRest(w) && w.batchCount <= w.totalRecords
  }

  lemma StepKeepsStats(crc: Checksum, cap: nat, w: Wal, e: Event)
    requires PhaseOk(w) && StatsOk(w)
    ensures StatsOk(Step(crc, cap, w, e))
  {
  }

  lemma {:induction false} RunsKeepStats(crc: Checksum, cap: nat, file: Bytes, run: Run)
    requires ClosedWhenIdle(crc, cap, Open(file), run)
    ensures StatsOk(After(crc, cap, Open(file), run))
  {
    if |run| > 0 {
      var k := |run| - 1;
      ClosedPrefix(crc, cap, Open(file), run, k);
      RunsKeepStats(crc, cap, file, run[..k]);
      RunsKeepOrder(crc, cap, file, run[..k]);
      StepKeepsStats(crc, cap, After(crc, cap, Open(file), run[..k]), run[k]);
    }
  }

  // What the statistics count: records whose batch the committer has counted, each
  // once, and no more batches than records. With no call in flight, every record issued.
  lemma StatsCountRecords(crc: Checksum, cap: nat, file: Bytes, run: Run)
    requires ClosedWhenIdle(crc, cap, Open(file), run)
    ensures var w := After(crc, cap, Open(file), run);
      && w.totalRecords == |w.replies| + CountedRest(w) <= |w.issued|
      && w.batchCount <= w.totalRecords
      && (InFlight(w) == 0 ==> w.totalRecords == |w.issued|)
  {
    RunsKeepOrder(crc, cap, file, run);
    RunsKeepStats(crc, cap, file, run);
  }
}
