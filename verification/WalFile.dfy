/** The write-ahead log as the program keeps it. The committer's methods do in one
    loop what the transition system does step by step, and the lemmas say so. */
module WalFile {
  import opened Basics
  import opened WalCodec
  import opened GroupCommit

  // The queue's capacity.
  const CAPACITY: nat := 1024

  // Where writing a batch fails, if it does: the record, and how much of it got out.
  datatype Fault = NoFault | FaultAt(record: nat, partial: nat)

  // ----- Whole loops as functions -----

  function EncodeBatch(crc: Checksum, batch: seq<Pending>): (b: Bytes) {
    if |batch| == 0 then [] else EncodeBatch(crc, batch[..|batch| - 1]) + Encode(crc, batch[|batch| - 1].record)
  }

  function Answers(batch: seq<Pending>, ok: bool): (answers: seq<(nat, bool)>) {
    seq(|batch|, i requires 0 <= i < |batch| => (batch[i].seqNo, ok))
  }

  // The committer's drain loop.
  function Drained(w: Wal): (w': Wal) {
    w.(batch := w.queue, queue := [], phase := Locking)
  }

  function Counted(w: Wal): (w': Wal) {
    w.(batchCount := w.batchCount + 1, totalRecords := w.totalRecords + |w.batch|, phase := Writing(0))
  }

  // The records before `k` of the batch are written.
  function WrittenUpTo(crc: Checksum, w: Wal, k: nat): (w': Wal)
    requires k <= |w.batch|
  {
    w.(file := w.file + EncodeBatch(crc, w.batch[..k]), phase := Writing(k))
  }

  // The callers before `k` of the batch have their reply.
  function AnsweredUpTo(w: Wal, k: nat, ok: bool): (w': Wal)
    requires k <= |w.batch|
  {
    var w' := w.(replies := w.replies + Answers(w.batch[..k], ok));
    if k == |w.batch| then w'.(batch := [], phase := Receiving) else w'.(phase := Replying(k, ok))
  }

  predicate Fails(batch: seq<Pending>, fault: Fault) {
    fault.FaultAt? && fault.record < |batch|
  }

  // Written, or cut short by the fault, and synced if the sync succeeds.
  function Settled(crc: Checksum, w: Wal, fault: Fault, syncOk: bool): (w': Wal) {
    if Fails(w.batch, fault) then
      var cut, data := WrittenUpTo(crc, w, fault.record), Encode(crc, w.batch[fault.record].record);
      cut.(file := cut.file + data[..Min(fault.partial, |data|)])
    else
      var full := WrittenUpTo(crc, w, |w.batch|);
      if syncOk then full.(synced := |full.file|, durable := |w.replies| + |w.batch|) else full
  }

  // Write, sync once, reply to everyone.
  function Committed(crc: Checksum, w: Wal, fault: Fault, syncOk: bool): (w': Wal) {
    AnsweredUpTo(Settled(crc, Counted(w), fault, syncOk), |w.batch|, !Fails(w.batch, fault) && syncOk)
  }

  // ----- ... and as steps of the transition system -----

  function Times(e: Event, n: nat): (run: Run) {
    seq(n, i => e)
  }

  lemma AfterLast(crc: Checksum, cap: nat, w: Wal, run: Run, e: Event)
    ensures After(crc, cap, w, run + [e]) == Step(crc, cap, After(crc, cap, w, run), e)
  {
    assert (run + [e])[..|run|] == run;
  }

  lemma {:induction false} AfterConcat(crc: Checksum, cap: nat, w: Wal, a: Run, b: Run)
    ensures After(crc, cap, w, a + b) == After(crc, cap, After(crc, cap, w, a), b)
    decreases |b|
  {
    if |b| == 0 {
      assert a + b == a;
    } else {
      var n := |b| - 1;
      AfterConcat(crc, cap, w, a, b[..n]);
      assert (a + b)[..|a| + n] == a + b[..n] && (a + b)[|a| + n] == b[n];
    }
  }

  lemma {:induction false} CollectsAreSteps(crc: Checksum, cap: nat, w: Wal, n: nat)
    requires w.phase.Collecting? && n <= |w.queue|
    ensures After(crc, cap, w, Times(Collect, n)) == w.(batch := w.batch + w.queue[..n], queue := w.queue[n..])
  {
    if n == 0 {
      assert w.batch + w.queue[..0] == w.batch;
    } else {
      assert Times(Collect, n)[..n - 1] == Times(Collect, n - 1);
      CollectsAreSteps(crc, cap, w, n - 1);
      assert w.queue[..n] == w.queue[..n - 1] + [w.queue[n - 1]];
    }
  }

  lemma TakeFirst(crc: Checksum, cap: nat, w: Wal, n: nat)
    ensures After(crc, cap, w, [Take] + Times(Collect, n))
        == After(crc, cap, Step(crc, cap, w, Take), Times(Collect, n))
  {
    AfterOne(crc, cap, w, Take);
    AfterConcat(crc, cap, w, [Take], Times(Collect, n));
  }

  lemma TimesOneMore(crc: Checksum, cap: nat, w: Wal, e: Event, n: nat)
    ensures After(crc, cap, w, Times(e, n + 1)) == Step(crc, cap, After(crc, cap, w, Times(e, n)), e)
  {
    assert Times(e, n + 1) == Times(e, n) + [e];
    AfterLast(crc, cap, w, Times(e, n), e);
  }

  lemma DrainIsSteps(crc: Checksum, cap: nat, w: Wal)
    requires w.phase.Receiving? && w.batch == [] && |w.queue| > 0 && !w.closed
    ensures After(crc, cap, w, [Take] + Times(Collect, |w.queue| - 1) + [EndCollect]) == Drained(w)
  {
    var collects := Times(Collect, |w.queue| - 1);
    var w1 := Step(crc, cap, w, Take);
    assert [Take][..0] == [];
    assert After(crc, cap, w, [Take]) == w1;
    CollectsAreSteps(crc, cap, w1, |w.queue| - 1);
    AfterConcat(crc, cap, w, [Take], collects);
    assert w1.batch + w1.queue[..|w.queue| - 1] == w.queue;
    assert ([Take] + collects + [EndCollect])[..|collects| + 1] == [Take] + collects;
  }

  lemma {:induction false} WritesAreSteps(crc: Checksum, cap: nat, w: Wal, k: nat)
    requires w.phase == Writing(0) && k <= |w.batch|
    ensures After(crc, cap, w, Times(WriteOne, k)) == WrittenUpTo(crc, w, k)
  {
    if k == 0 {
      assert w.file + EncodeBatch(crc, w.batch[..0]) == w.file;
    } else {
      assert Times(WriteOne, k)[..k - 1] == Times(WriteOne, k - 1);
      WritesAreSteps(crc, cap, w, k - 1);
      WriteOneMore(crc, w, k - 1);
    }
  }

  lemma WriteOneMore(crc: Checksum, w: Wal, k: nat)
    requires k < |w.batch|
    ensures WrittenUpTo(crc, w, k + 1).file == WrittenUpTo(crc, w, k).file + Encode(crc, w.batch[k].record)
  {
    assert w.batch[..k + 1][..k] == w.batch[..k];
    assert w.file + (EncodeBatch(crc, w.batch[..k]) + Encode(crc, w.batch[k].record))
        == w.file + EncodeBatch(crc, w.batch[..k]) + Encode(crc, w.batch[k].record);
  }

  lemma {:induction false} RepliesAreSteps(crc: Checksum, cap: nat, w: Wal, k: nat, ok: bool)
    requires w.phase == Replying(0, ok) && k <= |w.batch| && |w.batch| > 0
    ensures After(crc, cap, w, Times(Reply, k)) == AnsweredUpTo(w, k, ok)
  {
    if k == 0 {
      assert w.replies + Answers(w.batch[..0], ok) == w.replies;
    } else {
      assert Times(Reply, k)[..k - 1] == Times(Reply, k - 1);
      RepliesAreSteps(crc, cap, w, k - 1, ok);
      AnswerOneMore(w.replies, w.batch, k - 1, ok);
    }
  }

  lemma AnswerOneMore(replies: seq<(nat, bool)>, batch: seq<Pending>, k: nat, ok: bool)
    requires k < |batch|
    ensures replies + Answers(batch[..k + 1], ok) == replies + Answers(batch[..k], ok) + [(batch[k].seqNo, ok)]
  {
  }

  lemma AfterOne(crc: Checksum, cap: nat, w: Wal, e: Event)
    ensures After(crc, cap, w, [e]) == Step(crc, cap, w, e)
  {
    assert [e][..0] == [];
  }

  lemma AnsweringIsSteps(crc: Checksum, cap: nat, w: Wal, ok: bool)
    requires w.phase == Replying(0, ok) && |w.batch| > 0
    ensures After(crc, cap, w, Times(Reply, |w.batch|)) == AnsweredUpTo(w, |w.batch|, ok)
  {
    RepliesAreSteps(crc, cap, w, |w.batch|, ok);
  }

  // Everything written, or everything before the record whose write fails; then the
  // step that decides the replies.
  function Decided(crc: Checksum, w: Wal, fault: Fault, syncOk: bool): (result: (Wal, Event, nat)) {
    if Fails(w.batch, fault) then
      (WrittenUpTo(crc, w, fault.record), WriteFail(fault.partial), fault.record)
    else (WrittenUpTo(crc, w, |w.batch|), if syncOk then SyncOk else SyncFail, |w.batch|)
  }

  lemma DecisionIsStep(crc: Checksum, cap: nat, w: Wal, fault: Fault, syncOk: bool)
    requires w.phase == Writing(0) && |w.batch| > 0
    ensures var (w1, e, k) := Decided(crc, w, fault, syncOk);
      var ok := !e.WriteFail? && syncOk;
      && After(crc, cap, w, Times(WriteOne, k) + [e]) == Step(crc, cap, w1, e)
      && Step(crc, cap, w1, e).phase == Replying(0, ok) && Step(crc, cap, w1, e).batch == w.batch
  {
    var (w1, e, k) := Decided(crc, w, fault, syncOk);
    assert After(crc, cap, w, Times(WriteOne, k)) == w1 by {
      WritesAreSteps(crc, cap, w, k);
    }
    AfterLast(crc, cap, w, Times(WriteOne, k), e);
    DecisionDecides(crc, cap, w1, e);
  }

  lemma DecisionDecides(crc: Checksum, cap: nat, w: Wal, e: Event)
    requires w.phase.Writing? && (if e.WriteFail? then w.phase.next < |w.batch| else w.phase.next == |w.batch|)
    requires e.WriteFail? || e.SyncOk? || e.SyncFail?
    ensures Step(crc, cap, w, e).phase == Replying(0, e.SyncOk?) && Step(crc, cap, w, e).batch == w.batch
  {
  }

  lemma CommittedIsAnswered(crc: Checksum, cap: nat, w: Wal, fault: Fault, syncOk: bool)
    requires w.phase.Locking? && |w.batch| > 0
    ensures var (w1, e, k) := Decided(crc, Counted(w), fault, syncOk);
      Committed(crc, w, fault, syncOk) == AnsweredUpTo(Step(crc, cap, w1, e), |w.batch|, !e.WriteFail? && syncOk)
  {
  }

  // Committing a batch is a run of the transition system.
  lemma CommitIsSteps(crc: Checksum, cap: nat, w: Wal, fault: Fault, syncOk: bool) returns (run: Run)
    requires w.phase.Locking? && w.holder.None? && |w.batch| > 0
    ensures After(crc, cap, w, run) == Committed(crc, w, fault, syncOk)
  {
    var c := Counted(w);
    var (w1, e, k) := Decided(crc, c, fault, syncOk);
    var w2 := Step(crc, cap, w1, e);
    var writes, answers := Times(WriteOne, k) + [e], Times(Reply, |w.batch|);
    assert After(crc, cap, w, [Count]) == c by { AfterOne(crc, cap, w, Count); }
    DecisionIsStep(crc, cap, c, fault, syncOk);
    AnsweringIsSteps(crc, cap, w2, !e.WriteFail? && syncOk);
    AfterConcat(crc, cap, w, [Count], writes);
    AfterConcat(crc, cap, w, [Count] + writes, answers);
    CommittedIsAnswered(crc, cap, w, fault, syncOk);
    run := [Count] + writes + answers;
  }

  // ----- One caller at a time -----

  // Nobody is in Append and the committer waits.
  predicate Quiescent(w: Wal) {
    w.holder.None? && w.queue == [] && w.batch == [] && w.phase.Receiving? && !w.closed
  }

  // One whole call of Append that returns nil.
  function Appended(crc: Checksum, w: Wal, r: Record): (w': Wal) {
    var file := w.file + Encode(crc, r);
    w.(file := file, synced := |file|, nextSeq := w.nextSeq + 1, batchCount := w.batchCount + 1,
       totalRecords := w.totalRecords + 1, issued := w.issued + [r],
       replies := w.replies + [(w.nextSeq + 1, true)], durable := |w.replies| + 1)
  }

  predicate Smooth(run: Run) {
    forall k :: 0 <= k < |run| ==> run[k] != CloseLog && !run[k].WriteFail?
  }

  lemma AppendIsSteps(crc: Checksum, cap: nat, w: Wal, r: Record)
    requires cap >= 1 && Quiescent(w)
    ensures var queued := Step(crc, cap, Step(crc, cap, w, Lock(r)), Send);
      var counted := Step(crc, cap, Step(crc, cap, Step(crc, cap, queued, Take), EndCollect), Count);
      Step(crc, cap, Step(crc, cap, Step(crc, cap, counted, WriteOne), SyncOk), Reply) == Appended(crc, w, r)
  {
  }

  lemma AppendAlone(crc: Checksum, cap: nat, w0: Wal, run: Run, r: Record) returns (run': Run)
    requires cap >= 1 && Quiescent(After(crc, cap, w0, run)) && Smooth(run)
    ensures After(crc, cap, w0, run') == Appended(crc, After(crc, cap, w0, run), r) && Smooth(run')
  {
    AppendIsSteps(crc, cap, After(crc, cap, w0, run), r);
    run' := run;
    run' := StepOn(crc, cap, w0, run', Lock(r));
    run' := StepOn(crc, cap, w0, run', Send);
    run' := StepOn(crc, cap, w0, run', Take);
    run' := StepOn(crc, cap, w0, run', EndCollect);
    run' := StepOn(crc, cap, w0, run', Count);
    run' := StepOn(crc, cap, w0, run', WriteOne);
    run' := StepOn(crc, cap, w0, run', SyncOk);
    run' := StepOn(crc, cap, w0, run', Reply);
  }

  lemma StepOn(crc: Checksum, cap: nat, w0: Wal, run: Run, e: Event) returns (run': Run)
    requires Smooth(run) && e != CloseLog && !e.WriteFail?
    ensures After(crc, cap, w0, run') == Step(crc, cap, After(crc, cap, w0, run), e) && Smooth(run')
  {
    AfterLast(crc, cap, w0, run, e);
    run' := run + [e];
  }

  // Any records can be appended one after the other, every call returning nil.
  lemma {:induction false} AppendsInTurn(crc: Checksum, cap: nat, file: Bytes, rs: seq<Record>) returns (run: Run)
    requires cap >= 1
    ensures Smooth(run) && AllIn(After(crc, cap, Open(file), run), rs)
  {
    if |rs| == 0 {
      run := [];
    } else {
      run := AppendsInTurn(crc, cap, file, rs[..|rs| - 1]);
      OneMoreIn(crc, After(crc, cap, Open(file), run), rs);
      run := AppendAlone(crc, cap, Open(file), run, rs[|rs| - 1]);
    }
  }

  // Exactly these records were appended, and every call returned nil.
  predicate AllIn(w: Wal, rs: seq<Record>) {
    && Quiescent(w) && w.issued == rs && w.nextSeq == |w.replies| == |rs|
    && forall k :: 0 <= k < |rs| ==> w.replies[k] == (k + 1, true)
  }

  lemma OneMoreIn(crc: Checksum, w: Wal, rs: seq<Record>)
    requires |rs| > 0 && AllIn(w, rs[..|rs| - 1])
    ensures AllIn(Appended(crc, w, rs[|rs| - 1]), rs)
  {
  }

  // ----- The mutable log -----

  class WriteAheadLog {
    var file: Bytes
    var queue: seq<Pending>
    var nextSeq: nat
    var closed: bool
    var holder: Option<Pending>
    var batch: seq<Pending>
    var phase: Phase
    var batchCount: nat
    var totalRecords: nat
    var replies: seq<(nat, bool)>
    ghost var synced: nat
    ghost var issued: seq<Record>
    ghost var durable: nat

    ghost function View(): (view: Wal)
      reads this
    {
      Wal(file, synced, nextSeq, closed, holder, queue, batch, phase, batchCount, totalRecords, issued, replies,
          durable)
    }

    constructor (file: Bytes)
      ensures View() == GroupCommit.Open(file)
    {
      this.file := file;
      queue, nextSeq, closed, holder := [], 0, false, None;
      batch, phase := [], Receiving;
      batchCount, totalRecords, replies := 0, 0, [];
      synced, issued, durable := |file|, [], 0;
    }

    // Append up to its wait for the reply. On a full queue it stays where it is, and
    // keeps the mutex; ResumeSend goes on from there.
    method Enqueue(crc: Checksum, record: Record) returns (seqNo: Option<nat>)
      requires holder.None?
      modifies this
      ensures View() == Step(crc, CAPACITY, Step(crc, CAPACITY, old(View()), Lock(record)), Send)
      ensures seqNo == if old(closed) then None else Some(old(nextSeq) + 1)
    {
      if closed {
        return None;
      }
      nextSeq := nextSeq + 1;
      issued := issued + [record];
      holder := Some(Pending(nextSeq, record));
      ResumeSend(crc);
      return Some(nextSeq);
    }

    method ResumeSend(crc: Checksum)
      modifies this`queue, this`holder
      ensures View() == Step(crc, CAPACITY, old(View()), Send)
    {
      if holder.Some? && |queue| < CAPACITY {
        queue := queue + [holder.value];
        holder := None;
      }
    }

    // Take the first request and what is already waiting, in at most `turns` receives.
    // An open queue is drained if that suffices; a closed one never is, since receiving
    // from it goes on for ever.
    method TakeBatch(ghost crc: Checksum, turns: nat) returns (drained: bool)
      requires phase.Receiving? && batch == [] && |queue| > 0
      modifies this
      ensures drained == (!closed && |old(queue)| <= turns + 1)
      ensures drained ==> View() == Drained(old(View()))
      ensures !drained ==> View() == After(crc, CAPACITY, old(View()), [Take] + Times(Collect, turns))
    {
      TakeFirst(crc, CAPACITY, View(), turns);
      batch := [queue[0]];
      queue := queue[1..];
      phase := Collecting;
      assert batch + queue == old(queue);
      CollectWaiting(crc, turns);
      drained := |queue| == 0 && !closed;
      if drained {
        assert batch == old(queue);
        phase := Locking;
      }
    }

    // The drain loop.
    method CollectWaiting(ghost crc: Checksum, turns: nat)
      requires phase.Collecting?
      modifies this`batch, this`queue
      ensures |queue| > 0 || closed ==> View() == After(crc, CAPACITY, old(View()), Times(Collect, turns))
      ensures !closed ==> batch + queue == old(batch + queue) && |batch| == |old(batch)| + Min(turns, |old(queue)|)
    {
      var taken := 0;
      while taken < turns && (|queue| > 0 || closed)
        invariant taken <= turns
        invariant View() == After(crc, CAPACITY, old(View()), Times(Collect, taken))
        invariant !closed ==> batch + queue == old(batch + queue) && |batch| == |old(batch)| + taken
      {
        TimesOneMore(crc, CAPACITY, old(View()), Collect, taken);
        Receive(crc);
        taken := taken + 1;
      }
    }

    method Receive(ghost crc: Checksum)
      requires phase.Collecting? && (|queue| > 0 || closed)
      modifies this`batch, this`queue
      ensures View() == Step(crc, CAPACITY, old(View()), Collect)
      ensures |old(queue)| > 0 ==> batch + queue == old(batch + queue) && |batch| == |old(batch)| + 1
    {
      if |queue| > 0 {
        batch, queue := batch + [queue[0]], queue[1..];
      } else {
        batch := batch + [ZERO_REQUEST];
      }
    }

    // Write every record, up to the one whose write fails.
    method WriteAll(crc: Checksum, fault: Fault) returns (failed: bool)
      requires phase == Writing(0)
      modifies this`file, this`phase
      ensures failed == Fails(batch, fault)
      ensures View() == Settled(crc, old(View()), fault, false)
    {
      ghost var w := View();
      assert w.file + EncodeBatch(crc, w.batch[..0]) == w.file;
      for written := 0 to |batch|
        invariant fault.FaultAt? ==> written <= fault.record
        invariant View() == WrittenUpTo(crc, w, written)
      {
        var data := Encode(crc, batch[written].record);
        if fault.FaultAt? && fault.record == written {
          file := file + data[..Min(fault.partial, |data|)];
          return true;
        }
        WriteOneMore(crc, w, written);
        file := file + data;
        phase := Writing(written + 1);
      }
      return false;
    }

    // Take the mutex for the statistics, encode and write every record, sync once,
    // reply to every caller. While a blocked sender holds the mutex nothing happens.
    method CommitBatch(crc: Checksum, fault: Fault, syncOk: bool) returns (locked: bool)
      requires phase.Locking? && |batch| > 0
      modifies this
      ensures locked == old(holder).None?
      ensures View() == if locked then Committed(crc, old(View()), fault, syncOk) else old(View())
    {
      if holder.Some? {
        return false;
      }
      ghost var w := View();
      batchCount := batchCount + 1;
      totalRecords := totalRecords + |batch|;
      phase := Writing(0);
      assert View() == Counted(w);
      var ok := WriteAndSync(crc, fault, syncOk);
      ReplyToAll(ok);
      return true;
    }

    method WriteAndSync(crc: Checksum, fault: Fault, syncOk: bool) returns (ok: bool)
      requires phase == Writing(0)
      modifies this
      ensures ok == (!Fails(old(batch), fault) && syncOk)
      ensures View() == Settled(crc, old(View()), fault, syncOk)
    {
      SyncSettles(crc, View(), fault);
      var failed := WriteAll(crc, fault);
      ok := !failed && syncOk;
      if ok {
        synced := |file|;
        durable := |replies| + |batch|;
      }
    }

    method ReplyToAll(ok: bool)
      requires |batch| > 0
      modifies this
      ensures View() == AnsweredUpTo(old(View()), |old(batch)|, ok)
    {
      var k := 0;
      assert replies + Answers(batch[..0], ok) == replies;
      while k < |batch|
        invariant k <= |batch| && batch == old(batch)
        invariant View() == old(View()).(replies := old(replies) + Answers(batch[..k], ok))
      {
        replies := replies + [(batch[k].seqNo, ok)];
        assert Answers(batch[..k + 1], ok) == Answers(batch[..k], ok) + [(batch[k].seqNo, ok)];
        k := k + 1;
      }
      assert batch[..|batch|] == batch;
      batch := [];
      phase := Receiving;
    }

    // Nothing happens either while a blocked sender holds the mutex.
    method Close(crc: Checksum)
      modifies this`closed
      ensures View() == Step(crc, CAPACITY, old(View()), CloseLog)
    {
      if closed || holder.Some? {
        return;
      }
      closed := true;
    }

    method BatchStats() returns (batches: nat, records: nat)
      ensures batches == batchCount && records == totalRecords
    {
      return batchCount, totalRecords;
    }

    // Read the file from its start, record by record.
    method Replay(crc: Checksum) returns (found: Result<seq<Record>, Error>)
      ensures found == Parse(crc, file)
    {
      var records, rest := [], file;
      PrependNothing(Parse(crc, file));
      while |rest| > 0
        invariant Parse(crc, file) == Prepend(records, Parse(crc, rest))
        decreases |rest|
      {
        if |rest| < 4 {
          return Err(ShortLength);
        }
        var length := FromBigEndian(rest[..4]);
        if |rest| == 4 && length > 0 {
          return Err(MissingData);
        }
        if |rest| - 4 < length {
          PrependNone(records);
          return Ok(records);
        }
        var decoded := Decode(crc, rest[4..][..length]);
        if decoded.Err? {
          return Err(decoded.error);
        }
        ReplayTurn(crc, records, rest, length, decoded.value);
        records := records + [decoded.value];
        rest := rest[4..][length..];
      }
      PrependNone(records);
      return Ok(records);
    }
  }

  lemma PrependNone(records: seq<Record>)
    ensures Prepend(records, Ok([])) == Ok(records)
  {
    assert records + [] == records;
  }

  lemma SyncSettles(crc: Checksum, w: Wal, fault: Fault)
    ensures var written := Settled(crc, w, fault, false);
      Settled(crc, w, fault, true) == if Fails(w.batch, fault) then written
        else written.(synced := |written.file|, durable := |w.replies| + |w.batch|)
  {
  }

  lemma PrependNothing(found: Result<seq<Record>, Error>)
    ensures Prepend([], found) == found
  {
    if found.Ok? { assert [] + found.value == found.value; }
  }

  // One turn of the replay loop.
  lemma ReplayTurn(crc: Checksum, records: seq<Record>, rest: Bytes, length: u32, r: Record)
    requires |rest| >= 4 && length == FromBigEndian(rest[..4]) && |rest| - 4 >= length
    requires Decode(crc, rest[4..][..length]) == Ok(r)
    ensures Prepend(records, Parse(crc, rest)) == Prepend(records + [r], Parse(crc, rest[4..][length..]))
  {
    ParseTurnOk(crc, rest, length, r);
    PrependOneMore(records, r, Parse(crc, rest[4..][length..]));
  }

  lemma ParseTurnOk(crc: Checksum, rest: Bytes, length: u32, r: Record)
    requires |rest| >= 4 && length == FromBigEndian(rest[..4]) && |rest| - 4 >= length
    requires Decode(crc, rest[4..][..length]) == Ok(r)
    ensures Parse(crc, rest) == Prepend([r], Parse(crc, rest[4..][length..]))
  {
    assert length > 0;
  }

  lemma PrependOneMore(records: seq<Record>, r: Record, more: Result<seq<Record>, Error>)
    ensures Prepend(records, Prepend([r], more)) == Prepend(records + [r], more)
  {
    if more.Ok? { assert records + ([r] + more.value) == records + [r] + more.value; }
  }
}
