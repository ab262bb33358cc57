/** Crash recovery: what replay finds in the file when the machine stops at any
    moment and keeps any part of what was written but not yet synced. */
module CrashRecovery {
  import opened Basics
  import opened WalCodec
  import opened GroupCommit

  // How many issued records are in the file.
  function WrittenCount(w: Wal): (n: nat)
    requires PhaseOk(w)
  {
    |w.replies| + (match w.phase case Writing(next) => next case Replying(next, _) => |w.batch| - next case _ => 0)
  }

  // The file is what it was at the start and the issued records in sequence order;
  // what is synced ends between two records; a positive reply is for a synced record.
  predicate FileOk(crc: Checksum, base: Bytes, w: Wal)
    requires PhaseOk(w)
  {
    && w.durable <= WrittenCount(w) <= |w.issued|
    && w.file == base + EncodeAll(crc, w.issued[..WrittenCount(w)])
    && w.synced == |base| + |EncodeAll(crc, w.issued[..w.durable])|
    && (forall k :: 0 <= k < |w.replies| && w.replies[k].1 ==> k < w.durable)
    && (w.phase.Replying? && w.phase.ok ==> w.durable == WrittenCount(w))
  }

  lemma WrittenIsIssued(w: Wal)
    requires Ordered(w)
    ensures WrittenCount(w) <= |w.issued|
    ensures w.phase.Writing? && w.phase.next < |w.batch| ==>
      WrittenCount(w) < |w.issued| && w.batch[w.phase.next].record == w.issued[WrittenCount(w)]
  {
    if w.phase.Writing? && w.phase.next < |w.batch| {
      assert Outstanding(w)[w.phase.next] == w.batch[w.phase.next];
    }
  }

  lemma WriteOneKeepsFile(crc: Checksum, cap: nat, base: Bytes, w: Wal)
    requires Ordered(w) && FileOk(crc, base, w) && Enabled(cap, w, WriteOne)
    ensures FileOk(crc, base, Act(crc, cap, w, WriteOne))
  {
    WrittenIsIssued(w);
    WriteOneEffect(crc, cap, w);
    EncodeOneMore(crc, base, w.issued, WrittenCount(w));
  }

  lemma WriteOneEffect(crc: Checksum, cap: nat, w: Wal)
    requires PhaseOk(w) && Enabled(cap, w, WriteOne)
    ensures var w' := Act(crc, cap, w, WriteOne);
      && PhaseOk(w') && WrittenCount(w') == WrittenCount(w) + 1 && w'.phase.Writing?
      && w'.file == w.file + Encode(crc, w.batch[w.phase.next].record)
      && w'.issued == w.issued && w'.synced == w.synced && w'.durable == w.durable && w'.replies == w.replies
  {
  }

  lemma EncodeOneMore(crc: Checksum, base: Bytes, issued: seq<Record>, n: nat)
    requires n < |issued|
    ensures base + EncodeAll(crc, issued[..n + 1]) == base + EncodeAll(crc, issued[..n]) + Encode(crc, issued[n])
  {
    assert issued[..n + 1] == issued[..n] + [issued[n]];
    EncodeAllAppends(crc, issued[..n], [issued[n]]);
    EncodeAllOne(crc, issued[n]);
  }

  lemma EncodeAllOne(crc: Checksum, r: Record)
    ensures EncodeAll(crc, [r]) == Encode(crc, r)
  {
    assert EncodeAll(crc, [r]) == Encode(crc, r) + EncodeAll(crc, []);
  }

  lemma LockKeepsFile(crc: Checksum, cap: nat, base: Bytes, w: Wal, record: Record)
    requires Ordered(w) && FileOk(crc, base, w) && Enabled(cap, w, Lock(record))
    ensures FileOk(crc, base, Act(crc, cap, w, Lock(record)))
  {
    var issued' := w.issued + [record];
    assert issued'[..WrittenCount(w)] == w.issued[..WrittenCount(w)];
    assert issued'[..w.durable] == w.issued[..w.durable];
  }

  // Steps that touch neither the file nor the issued records.
  lemma OtherStepsKeepFile(crc: Checksum, cap: nat, base: Bytes, w: Wal, e: Event)
    requires Ordered(w) && FileOk(crc, base, w) && Enabled(cap, w, e)
    requires Ordered(Act(crc, cap, w, e)) && !e.WriteFail? && !e.WriteOne? && !e.Lock?
    ensures FileOk(crc, base, Act(crc, cap, w, e))
  {
    WrittenIsIssued(w);
    OtherStepsKeepCount(crc, cap, w, e);
  }

  lemma OtherStepsKeepCount(crc: Checksum, cap: nat, w: Wal, e: Event)
    requires PhaseOk(w) && Enabled(cap, w, e) && !e.WriteFail? && !e.WriteOne? && !e.Lock?
    requires PhaseOk(Act(crc, cap, w, e))
    ensures var w' := Act(crc, cap, w, e);
      && w'.file == w.file && w'.issued == w.issued && WrittenCount(w') == WrittenCount(w)
      && (if e.SyncOk? then w'.synced == |w.file| && w'.durable == WrittenCount(w)
          else w'.synced == w.synced && w'.durable == w.durable)
      && (w'.phase.Replying? && w'.phase.ok ==> e.SyncOk? || (w.phase.Replying? && w.phase.ok))
      && w'.replies == if e.Reply? then w.replies + [(w.batch[w.phase.next].seqNo, w.phase.ok)] else w.replies
  {
  }

  lemma StepKeepsFile(crc: Checksum, cap: nat, base: Bytes, w: Wal, e: Event)
    requires Ordered(w) && FileOk(crc, base, w) && Enabled(cap, w, e) && !e.WriteFail?
    requires e.CloseLog? ==> InFlight(w) == 0
    ensures Ordered(Act(crc, cap, w, e)) && FileOk(crc, base, Act(crc, cap, w, e))
  {
    StepKeepsOrder(crc, cap, w, e);
    match e {
      case WriteOne => WriteOneKeepsFile(crc, cap, base, w);
      case Lock(record) => LockKeepsFile(crc, cap, base, w, record);
      case _ => OtherStepsKeepFile(crc, cap, base, w, e);
    }
  }

  predicate Consistent(crc: Checksum, base: Bytes, w: Wal) {
    Ordered(w) && FileOk(crc, base, w)
  }

  lemma AnyStepKeepsFile(crc: Checksum, cap: nat, base: Bytes, w: Wal, e: Event)
    requires Consistent(crc, base, w) && !e.WriteFail? && (e.CloseLog? ==> InFlight(w) == 0)
    ensures Consistent(crc, base, Step(crc, cap, w, e))
  {
    if Enabled(cap, w, e) {
      StepKeepsFile(crc, cap, base, w, e);
    }
  }

  lemma {:induction false} RunsKeepFile(crc: Checksum, cap: nat, base: Bytes, run: Run)
    requires ClosedWhenIdle(crc, cap, Open(base), run) && NoFailedWrite(run)
    ensures Consistent(crc, base, After(crc, cap, Open(base), run))
  {
    if |run| == 0 {
      assert base + EncodeAll(crc, []) == base;
    } else {
      var k := |run| - 1;
      ClosedPrefix(crc, cap, Open(base), run, k);
      RunsKeepFile(crc, cap, base, run[..k]);
      AnyStepKeepsFile(crc, cap, base, After(crc, cap, Open(base), run[..k]), run[k]);
    }
  }

  // ----- The crash -----

  lemma {:induction false} WholeBeforeGrows(crc: Checksum, rs: seq<Record>, k: nat, cut: nat)
    requires k <= |rs| && |EncodeAll(crc, rs[..k])| <= cut
    ensures k <= WholeBefore(crc, rs, cut)
  {
    if k > 0 {
      var first := Encode(crc, rs[0]);
      assert rs[..k][0] == rs[0] && rs[..k][1..] == rs[1..][..k - 1];
      assert EncodeAll(crc, rs[..k]) == first + EncodeAll(crc, rs[1..][..k - 1]);
      WholeBeforeGrows(crc, rs[1..], k - 1, cut - |first|);
    }
  }

  // The file is cut anywhere between its synced and its written length. Replay
  // either fails, exactly when the cut lies 1 to 4 bytes into a record, or returns
  // the old records and a prefix of the issued ones with every acknowledged record.
  lemma RecoveryAfterCrash(crc: Checksum, cap: nat, earlier: seq<Record>, run: Run, cut: nat)
    requires ClosedWhenIdle(crc, cap, Open(EncodeAll(crc, earlier)), run) && NoFailedWrite(run)
    requires var w := After(crc, cap, Open(EncodeAll(crc, earlier)), run);
      AllFit(earlier + w.issued) && w.synced <= cut <= |w.file|
    ensures var w := After(crc, cap, Open(EncodeAll(crc, earlier)), run);
      var rs := earlier + w.issued;
      var k := WholeBefore(crc, rs, cut);
      var off := cut - |EncodeAll(crc, rs[..k])|;
      var found := Parse(crc, w.file[..cut]);
      && (found.Err? <==> 1 <= off <= 4)
      && (found.Ok? ==>
            && |earlier| <= k && found.value == earlier + w.issued[..k - |earlier|]
            && forall n :: 0 <= n < |w.replies| && w.replies[n].1 ==> n < k - |earlier| && w.replies[n].0 == n + 1)
  {
    var w := After(crc, cap, Open(EncodeAll(crc, earlier)), run);
    RunsKeepFile(crc, cap, EncodeAll(crc, earlier), run);
    CutKeepsSynced(crc, earlier, w, cut);
  }

  lemma CutKeepsSynced(crc: Checksum, earlier: seq<Record>, w: Wal, cut: nat)
    requires Ordered(w) && FileOk(crc, EncodeAll(crc, earlier), w)
    requires AllFit(earlier + w.issued) && w.synced <= cut <= |w.file|
    ensures var rs := earlier + w.issued;
      var k := WholeBefore(crc, rs, cut);
      var off := cut - |EncodeAll(crc, rs[..k])|;
      var found := Parse(crc, w.file[..cut]);
      && (found.Err? <==> 1 <= off <= 4)
      && |earlier| + w.durable <= k
      && (found.Ok? ==> found.value == earlier + w.issued[..k - |earlier|])
  {
    var rs := earlier + w.issued;
    var k := WholeBefore(crc, rs, cut);
    SyncedIsBefore(crc, earlier, w, cut);
    FileIsPrefix(crc, earlier, w);
    ParsePrefix(crc, rs, w.file, cut);
    FrontOfSum(earlier, w.issued, k);
  }

  lemma SyncedIsBefore(crc: Checksum, earlier: seq<Record>, w: Wal, cut: nat)
    requires PhaseOk(w) && FileOk(crc, EncodeAll(crc, earlier), w) && w.synced <= cut
    ensures |earlier| + w.durable <= WholeBefore(crc, earlier + w.issued, cut)
  {
    FrontOfSum(earlier, w.issued, |earlier| + w.durable);
    EncodeAllAppends(crc, earlier, w.issued[..w.durable]);
    WholeBeforeGrows(crc, earlier + w.issued, |earlier| + w.durable, cut);
  }

  lemma FrontOfSum(a: seq<Record>, b: seq<Record>, k: nat)
    requires |a| <= k <= |a| + |b|
    ensures (a + b)[..k] == a + b[..k - |a|]
  {
  }

  lemma ParsePrefix(crc: Checksum, rs: seq<Record>, file: Bytes, cut: nat)
    requires AllFit(rs) && file <= EncodeAll(crc, rs) && cut <= |file|
    ensures var k := WholeBefore(crc, rs, cut);
      var off := cut - |EncodeAll(crc, rs[..k])|;
      && (Parse(crc, file[..cut]).Err? <==> 1 <= off <= 4)
      && (!(1 <= off <= 4) ==> Parse(crc, file[..cut]) == Ok(rs[..k]))
  {
    assert file[..cut] == EncodeAll(crc, rs)[..cut];
    ParseCut(crc, rs, cut);
  }

  lemma FileIsPrefix(crc: Checksum, earlier: seq<Record>, w: Wal)
    requires PhaseOk(w) && FileOk(crc, EncodeAll(crc, earlier), w)
    ensures w.file <= EncodeAll(crc, earlier + w.issued)
  {
    var n := WrittenCount(w);
    assert earlier + w.issued == (earlier + w.issued[..n]) + w.issued[n..];
    EncodeAllAppends(crc, earlier, w.issued[..n]);
    EncodeAllAppends(crc, earlier + w.issued[..n], w.issued[n..]);
  }

  // No crash: once every caller has its reply, replaying the file gives every
  // record issued.
  lemma ReplayWhenIdle(crc: Checksum, cap: nat, earlier: seq<Record>, run: Run)
    requires ClosedWhenIdle(crc, cap, Open(EncodeAll(crc, earlier)), run) && NoFailedWrite(run)
    requires var w := After(crc, cap, Open(EncodeAll(crc, earlier)), run);
      AllFit(earlier + w.issued) && InFlight(w) == 0
    ensures var w := After(crc, cap, Open(EncodeAll(crc, earlier)), run);
      Parse(crc, w.file) == Ok(earlier + w.issued)
  {
    var base, w := EncodeAll(crc, earlier), After(crc, cap, Open(EncodeAll(crc, earlier)), run);
    IdleFile(crc, cap, base, run);
    EncodeAllAppends(crc, earlier, w.issued);
    ParseExactly(crc, w.file, earlier + w.issued);
  }

  // Once every caller has its reply, the file is its old bytes and every record issued.
  lemma IdleFile(crc: Checksum, cap: nat, base: Bytes, run: Run)
    requires ClosedWhenIdle(crc, cap, Open(base), run) && NoFailedWrite(run)
    requires InFlight(After(crc, cap, Open(base), run)) == 0
    ensures var w := After(crc, cap, Open(base), run);
      w.file == base + EncodeAll(crc, w.issued)
  {
    var w := After(crc, cap, Open(base), run);
    RunsKeepFile(crc, cap, base, run);
    assert Outstanding(w) == [] && WrittenCount(w) == |w.issued|;
    assert w.issued[..|w.issued|] == w.issued;
  }

  // ----- What W1 is for -----

  // A session on a file with a torn tail: its records land behind the tail, and as
  // long as they do not fill the gap replay does not see any of them.
  lemma TornTailHidesSession(crc: Checksum, cap: nat, earlier: seq<Record>, tail: Bytes, run: Run)
    requires AllFit(earlier) && |tail| >= 5
    requires ClosedWhenIdle(crc, cap, Open(EncodeAll(crc, earlier) + tail), run) && NoFailedWrite(run)
    requires var w := After(crc, cap, Open(EncodeAll(crc, earlier) + tail), run);
      |w.file| - |EncodeAll(crc, earlier)| - 4 < FromBigEndian(tail[..4])
    ensures Parse(crc, After(crc, cap, Open(EncodeAll(crc, earlier) + tail), run).file) == Ok(earlier)
  {
    var w := After(crc, cap, Open(EncodeAll(crc, earlier) + tail), run);
    RunsKeepFile(crc, cap, EncodeAll(crc, earlier) + tail, run);
    TornTailHides(crc, earlier, tail, EncodeAll(crc, w.issued[..WrittenCount(w)]));
  }
}
