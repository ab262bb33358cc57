/** The layers joined: the store over the write-ahead log, and the stores of a
    cluster over the Raft core. */
module Replication {
  import opened Basics
  import opened RaftLogs
  import opened RaftHandlers
  import opened WalCodec
  import opened Stores
  import RaftNodes
  import Cluster
  import Safety
  import GroupCommit
  import CrashRecovery
  import WalFile

  // ----- The store over the log -----

  // The numbers of `order` are of calls whose Append returned nil.
  predicate Acknowledged(w: GroupCommit.Wal, order: seq<nat>) {
    forall k :: 0 <= k < |order| ==> 1 <= order[k] <= |w.replies| && w.replies[order[k] - 1].1
  }

  // At any moment, with the writers' calls to applyOrdered interleaved in any way:
  // the live map is what recovery builds from a synced prefix of the records.
  lemma LiveStoreIsDurable(crc: Checksum, cap: nat, earlier: seq<Record>, run: GroupCommit.Run, order: seq<nat>)
    requires var w0 := GroupCommit.Open(EncodeAll(crc, earlier));
      GroupCommit.ClosedWhenIdle(crc, cap, w0, run) && GroupCommit.NoFailedWrite(run)
    requires var w := GroupCommit.After(crc, cap, GroupCommit.Open(EncodeAll(crc, earlier)), run);
      Numbering(w.issued, order) && Acknowledged(w, order)
    ensures var w := GroupCommit.After(crc, cap, GroupCommit.Open(EncodeAll(crc, earlier)), run);
      var live := Deliver(Recover(earlier), w.issued, order);
      var p := live.nextApplySeq - 1;
      0 <= p <= w.durable <= |w.issued| && live.data == Recover(earlier + w.issued[..p]).data
  {
    var w := GroupCommit.After(crc, cap, GroupCommit.Open(EncodeAll(crc, earlier)), run);
    CrashRecovery.RunsKeepFile(crc, cap, EncodeAll(crc, earlier), run);
    LiveIsPrefix(crc, earlier, w, order);
  }

  lemma LiveIsPrefix(crc: Checksum, earlier: seq<Record>, w: GroupCommit.Wal, order: seq<nat>)
    requires CrashRecovery.Consistent(crc, EncodeAll(crc, earlier), w)
    requires Numbering(w.issued, order) && Acknowledged(w, order)
    ensures var live := Deliver(Recover(earlier), w.issued, order);
      var p := live.nextApplySeq - 1;
      0 <= p <= w.durable <= |w.issued| && live.data == Recover(earlier + w.issued[..p]).data
  {
    var live := Deliver(Recover(earlier), w.issued, order);
    var p := live.nextApplySeq - 1;
    OrderedApplyIsConfluent(Fold(map[], earlier), w.issued, order);
    FoldConcat(map[], earlier, w.issued[..p]);
    if p > 0 {
      AcknowledgedAt(w, order, p);
    }
  }

  // Once every issued record is acknowledged and has passed through applyOrdered,
  // the live map is the map New builds by replaying the file.
  lemma LiveStoreEqualsRecovered(crc: Checksum, cap: nat, earlier: seq<Record>, run: GroupCommit.Run, order: seq<nat>)
    requires var w0 := GroupCommit.Open(EncodeAll(crc, earlier));
      GroupCommit.ClosedWhenIdle(crc, cap, w0, run) && GroupCommit.NoFailedWrite(run)
    requires var w := GroupCommit.After(crc, cap, GroupCommit.Open(EncodeAll(crc, earlier)), run);
      && AllFit(earlier + w.issued) && Numbering(w.issued, order) && Acknowledged(w, order)
      && forall k :: 1 <= k <= |w.issued| ==> k in order
    ensures var w := GroupCommit.After(crc, cap, GroupCommit.Open(EncodeAll(crc, earlier)), run);
      var found := Parse(crc, w.file);
      && found.Ok?
      && Deliver(Recover(earlier), w.issued, order) == Recover(found.value).(nextApplySeq := |w.issued| + 1)
  {
    var w := GroupCommit.After(crc, cap, GroupCommit.Open(EncodeAll(crc, earlier)), run);
    CrashRecovery.RunsKeepFile(crc, cap, EncodeAll(crc, earlier), run);
    AllAnswered(w, order);
    CrashRecovery.ReplayWhenIdle(crc, cap, earlier, run);
    AllArrived(Fold(map[], earlier), w.issued, order);
    FoldConcat(map[], earlier, w.issued);
  }

  lemma AllAnswered(w: GroupCommit.Wal, order: seq<nat>)
    requires GroupCommit.Ordered(w) && Acknowledged(w, order)
    requires forall k :: 1 <= k <= |w.issued| ==> k in order
    ensures GroupCommit.InFlight(w) == 0
  {
    var n := |w.issued|;
    if n > 0 {
      AcknowledgedAt(w, order, n);
    }
  }

  // The calls whose Append returned nil, and no others, went on to applyOrdered.
  predicate DeliveredAcknowledged(w: GroupCommit.Wal, order: seq<nat>) {
    && Numbering(w.issued, order) && Acknowledged(w, order)
    && forall k :: 0 <= k < |w.replies| && w.replies[k].1 ==> k + 1 in order
  }

  // The first p calls, and not the next, returned nil.
  predicate AnsweredTo(w: GroupCommit.Wal, p: nat) {
    && p <= |w.replies| <= |w.issued|
    && (forall k :: 0 <= k < p ==> w.replies[k].1)
    && (p < |w.replies| ==> !w.replies[p].1)
  }

  // What W2 is for: with failed writes and syncs allowed, the store stops for good
  // before the first record whose Append failed or has not returned. It is caught up
  // exactly when every call returned nil.
  lemma StoreStopsAtFirstFailure(crc: Checksum, cap: nat, file: Bytes, run: GroupCommit.Run, earlier: seq<Record>,
      order: seq<nat>)
    requires GroupCommit.ClosedWhenIdle(crc, cap, GroupCommit.Open(file), run)
    requires DeliveredAcknowledged(GroupCommit.After(crc, cap, GroupCommit.Open(file), run), order)
    ensures var w := GroupCommit.After(crc, cap, GroupCommit.Open(file), run);
      var live := Deliver(Recover(earlier), w.issued, order);
      var p := live.nextApplySeq - 1;
      && p >= 0 && AnsweredTo(w, p)
      && live.data == Recover(earlier + w.issued[..p]).data
      && (forall n :: n in live.pending <==> p < n && n in order)
      && (p == |w.issued| <==> |w.replies| == |w.issued| && forall k :: 0 <= k < |w.replies| ==> w.replies[k].1)
  {
    var w := GroupCommit.After(crc, cap, GroupCommit.Open(file), run);
    GroupCommit.RunsKeepOrder(crc, cap, file, run);
    StopsAtFirstFailure(w, earlier, order);
    CaughtUpIff(w, Deliver(Recover(earlier), w.issued, order).nextApplySeq - 1);
  }

  lemma StopsAtFirstFailure(w: GroupCommit.Wal, earlier: seq<Record>, order: seq<nat>)
    requires |w.replies| <= |w.issued| && DeliveredAcknowledged(w, order)
    ensures var live := Deliver(Recover(earlier), w.issued, order);
      var p := live.nextApplySeq - 1;
      && p >= 0 && AnsweredTo(w, p)
      && live.data == Recover(earlier + w.issued[..p]).data
      && (forall n :: n in live.pending <==> p < n && n in order)
  {
    var p := Deliver(Recover(earlier), w.issued, order).nextApplySeq - 1;
    OrderedApplyIsConfluent(Fold(map[], earlier), w.issued, order);
    FoldConcat(map[], earlier, w.issued[..p]);
    ArrivedIsAnswered(w, order, p);
  }

  lemma ArrivedIsAnswered(w: GroupCommit.Wal, order: seq<nat>, p: nat)
    requires |w.replies| <= |w.issued| && DeliveredAcknowledged(w, order)
    requires (forall k :: 1 <= k <= p ==> k in order) && p + 1 !in order
    ensures AnsweredTo(w, p)
  {
    forall k: nat | k < p
      ensures k < |w.replies| && w.replies[k].1
    {
      AcknowledgedAt(w, order, k + 1);
    }
    if p > 0 { AcknowledgedAt(w, order, p); }
  }

  lemma AcknowledgedAt(w: GroupCommit.Wal, order: seq<nat>, n: nat)
    requires Acknowledged(w, order) && n in order
    ensures 1 <= n <= |w.replies| && w.replies[n - 1].1
  {
  }

  lemma CaughtUpIff(w: GroupCommit.Wal, p: nat)
    requires AnsweredTo(w, p)
    ensures p == |w.issued| <==> |w.replies| == |w.issued| && forall k :: 0 <= k < |w.replies| ==> w.replies[k].1
  {
  }

  // ----- The apply callback -----

  // The record a command is stored as; commands of an unknown type are ignored.
  function RecordsOf(command: Command): (rs: seq<Record>) {
    if command.kind == COMMAND_SET then [Record(OP_PUT, command.key, command.value)]
    else if command.kind == COMMAND_DELETE then [Record(OP_DELETE, command.key, [])]
    else []
  }

  // A node's store, and how many records its log has numbered.
  datatype Replica = Replica(store: StoreState, appended: nat)

  function OnApply(replica: Replica, command: Command): (replica': Replica) {
    if |RecordsOf(command)| == 0 then replica
    else
      var seqNo := replica.appended + 1;
      Replica(ApplyOrdered(replica.store, seqNo, RecordsOf(command)[0]), seqNo)
  }

  function OnApplyAll(replica: Replica, commands: seq<Command>): (replica': Replica) {
    if |commands| == 0 then replica
    else OnApply(OnApplyAll(replica, commands[..|commands| - 1]), commands[|commands| - 1])
  }

  function AllRecordsOf(commands: seq<Command>): (rs: seq<Record>) {
    if |commands| == 0 then []
    else AllRecordsOf(commands[..|commands| - 1]) + RecordsOf(commands[|commands| - 1])
  }

  // Commands reach the store one at a time, so nothing is ever held back and the map
  // is the fold of the commands.
  lemma {:induction false} CallbackFolds(data: Data, commands: seq<Command>)
    ensures var rs := AllRecordsOf(commands);
      OnApplyAll(Replica(StoreState(data, 1, map[]), 0), commands)
        == Replica(StoreState(Fold(data, rs), |rs| + 1, map[]), |rs|)
  {
    if |commands| > 0 {
      var k := |commands| - 1;
      CallbackFolds(data, commands[..k]);
      CallbackFoldsOne(data, AllRecordsOf(commands[..k]), commands[k]);
    }
  }

  lemma CallbackFoldsOne(data: Data, before: seq<Record>, command: Command)
    ensures var all := before + RecordsOf(command);
      OnApply(Replica(StoreState(Fold(data, before), |before| + 1, map[]), |before|), command)
        == Replica(StoreState(Fold(data, all), |all| + 1, map[]), |all|)
  {
    if |RecordsOf(command)| > 0 {
      var r := RecordsOf(command)[0];
      assert RecordsOf(command) == [r];
      assert (before + [r])[..|before|] == before;
      OneInOrder(Fold(data, before), |before| + 1, r);
    } else {
      assert before + RecordsOf(command) == before;
    }
  }

  lemma OneInOrder(data: Data, next: nat, r: Record)
    ensures ApplyOrdered(StoreState(data, next, map[]), next, r) == StoreState(ApplyRecord(data, r), next + 1, map[])
  {
    var s := StoreState(data, next, map[next := r]);
    assert map[][next := r] == map[next := r];
    assert s.pending - {next} == map[];
    DrainShrinks(s);
    assert Drain(s) == Drain(ApplyNext(s)) == ApplyNext(s);
  }

  // ----- Replicated stores -----

  // The store of node i after k events, when its map was `data` at the start.
  function StoreAt(peers: set<int>, run: Cluster.Run, data: Data, k: nat, i: int): (store: StoreState)
    requires Cluster.ValidPeers(peers) && i in peers && k <= |run|
  {
    OnApplyAll(Replica(StoreState(data, 1, map[]), 0), Safety.NodeAt(peers, run, k, i).applied).store
  }

  // Each node's map is the fold of its log up to lastApplied.
  lemma StoreIsFoldOfLog(peers: set<int>, run: Cluster.Run, data: Data, k: nat, i: int)
    requires Cluster.ValidPeers(peers) && Cluster.R1(peers, run) && Cluster.R2(peers, run) && i in peers && k <= |run|
    ensures var n := Safety.NodeAt(peers, run, k, i);
      && n.lastApplied <= |n.log|
      && StoreAt(peers, run, data, k, i).data == Fold(data, AllRecordsOf(Commands(n.log[..n.lastApplied])))
      && StoreAt(peers, run, data, k, i).pending == map[]
  {
    Safety.CommittedInPast(peers, run, k, i);
    CallbackFolds(data, Safety.NodeAt(peers, run, k, i).applied);
  }

  // The three layers: when the records of the commands a node applied went to its log,
  // New on that file's bytes rebuilds the node's map, the fold of its Raft log up to
  // lastApplied over what the file held at the start.
  lemma RecoveredNodeIsFoldOfLog(peers: set<int>, run: Cluster.Run, k: nat, i: int,
                                 crc: Checksum, cap: nat, earlier: seq<Record>, walRun: GroupCommit.Run)
    requires Cluster.ValidPeers(peers) && Cluster.R1(peers, run) && Cluster.R2(peers, run) && i in peers && k <= |run|
    requires GroupCommit.ClosedWhenIdle(crc, cap, GroupCommit.Open(EncodeAll(crc, earlier)), walRun)
    requires GroupCommit.NoFailedWrite(walRun)
    requires var w := GroupCommit.After(crc, cap, GroupCommit.Open(EncodeAll(crc, earlier)), walRun);
      && GroupCommit.InFlight(w) == 0 && AllFit(earlier + w.issued)
      && w.issued == AllRecordsOf(Safety.NodeAt(peers, run, k, i).applied)
    ensures var w := GroupCommit.After(crc, cap, GroupCommit.Open(EncodeAll(crc, earlier)), walRun);
      var found, n, data := Parse(crc, w.file), Safety.NodeAt(peers, run, k, i), Recover(earlier).data;
      && found.Ok? && n.lastApplied <= |n.log|
      && Recover(found.value).data == StoreAt(peers, run, data, k, i).data
      && Recover(found.value).data == Fold(data, AllRecordsOf(Commands(n.log[..n.lastApplied])))
  {
    CrashRecovery.ReplayWhenIdle(crc, cap, earlier, walRun);
    var records := AllRecordsOf(Safety.NodeAt(peers, run, k, i).applied);
    FoldConcat(map[], earlier, records);
    StoreIsFoldOfLog(peers, run, Recover(earlier).data, k, i);
    Safety.CommittedInPast(peers, run, k, i);
  }

  // Such a log exists for every node at every moment: the callback's calls to Append,
  // one at a time and none failing.
  lemma CallbackAppends(peers: set<int>, run: Cluster.Run, k: nat, i: int, crc: Checksum, cap: nat, file: Bytes)
      returns (walRun: GroupCommit.Run)
    requires Cluster.ValidPeers(peers) && i in peers && k <= |run| && cap >= 1
    ensures GroupCommit.ClosedWhenIdle(crc, cap, GroupCommit.Open(file), walRun) && GroupCommit.NoFailedWrite(walRun)
    ensures var w := GroupCommit.After(crc, cap, GroupCommit.Open(file), walRun);
      && GroupCommit.InFlight(w) == 0 && w.issued == AllRecordsOf(Safety.NodeAt(peers, run, k, i).applied)
      && forall n :: 0 <= n < |w.replies| ==> w.replies[n] == (n + 1, true)
  {
    walRun := WalFile.AppendsInTurn(crc, cap, file, AllRecordsOf(Safety.NodeAt(peers, run, k, i).applied));
  }

  // Nodes that have applied equally much have equal stores, at whatever moments.
  lemma ReplicatedStoresAgree(peers: set<int>, run: Cluster.Run, data: Data, j: nat, k: nat, a: int, b: int)
    requires Cluster.ValidPeers(peers) && Cluster.R1(peers, run) && Cluster.R2(peers, run)
    requires j <= |run| && k <= |run| && a in peers && b in peers
    requires Safety.NodeAt(peers, run, j, a).lastApplied == Safety.NodeAt(peers, run, k, b).lastApplied
    ensures StoreAt(peers, run, data, j, a) == StoreAt(peers, run, data, k, b)
  {
    Safety.StateMachineSafety(peers, run, j, k, a, b);
    Safety.CommittedInPast(peers, run, j, a);
    Safety.CommittedInPast(peers, run, k, b);
    var A, B := Safety.NodeAt(peers, run, j, a).applied, Safety.NodeAt(peers, run, k, b).applied;
    assert |A| == |B| && A == B;
  }

  // ----- The mutable pair of node and store -----

  class KVNode {
    const raft: RaftNodes.RaftNode
    const store: Store

    constructor (raft: RaftNodes.RaftNode, store: Store)
      ensures this.raft == raft && this.store == store
    {
      this.raft := raft;
      this.store := store;
    }

    // The apply callback; `appended` is the number the log gives the next record.
    method Apply(command: Command, appended: nat)
      modifies store
      ensures store.View() == OnApply(Replica(old(store.View()), appended), command).store
    {
      if command.kind == COMMAND_SET {
        var ok := store.Set(command.key, command.value, Some(appended + 1));
      } else if command.kind == COMMAND_DELETE {
        var existed, ok := store.Delete(command.key, Some(appended + 1));
      }
    }

    method Set(key: Bytes, value: Bytes) returns (accepted: bool, leader: int, index: nat)
      modifies raft.log
      ensures var (n, i, _, ok) := Start(old(raft.View()), Command(COMMAND_SET, key, value));
        raft.View() == n && accepted == ok && leader == raft.leaderId && index == if ok then i else 0
    {
      var i, term, ok := raft.StartCommand(Command(COMMAND_SET, key, value));
      return ok, raft.leaderId, if ok then i else 0;
    }

    method Delete(key: Bytes) returns (accepted: bool, leader: int, index: nat)
      modifies raft.log
      ensures var (n, i, _, ok) := Start(old(raft.View()), Command(COMMAND_DELETE, key, []));
        raft.View() == n && accepted == ok && leader == raft.leaderId && index == if ok then i else 0
    {
      var i, term, ok := raft.StartCommand(Command(COMMAND_DELETE, key, []));
      return ok, raft.leaderId, if ok then i else 0;
    }
  }
}
