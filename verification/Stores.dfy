/** The in-memory store: recovery from the replayed records, and the ordered
    application of records that arrive with their sequence numbers out of order. */
module Stores {
  import opened Basics
  import opened WalCodec

  type Data = map<Bytes, Bytes>

  datatype StoreState = StoreState(data: Data, nextApplySeq: nat, pending: map<nat, Record>)

  // ----- What records do to the map -----

  function ApplyRecord(data: Data, r: Record): (data': Data) {
    if r.op == OP_PUT then data[r.key := r.value]
    else if r.op == OP_DELETE then data - {r.key}
    else data
  }

  function Fold(data: Data, rs: seq<Record>): (data': Data) {
    if |rs| == 0 then data else ApplyRecord(Fold(data, rs[..|rs| - 1]), rs[|rs| - 1])
  }

  lemma {:induction false} FoldConcat(data: Data, a: seq<Record>, b: seq<Record>)
    ensures Fold(data, a + b) == Fold(Fold(data, a), b)
  {
    if |b| == 0 {
      assert a + b == a;
    } else {
      var k := |b| - 1;
      assert (a + b)[..|a| + k] == a + b[..k];
      FoldConcat(data, a, b[..k]);
    }
  }

  // What a key holds is decided by the last record for it.
  lemma {:induction false} FoldIsLastWrite(data: Data, rs: seq<Record>, key: Bytes, last: nat)
    requires last < |rs| && rs[last].key == key && (rs[last].op == OP_PUT || rs[last].op == OP_DELETE)
    requires forall k :: last < k < |rs| && rs[k].key == key ==> rs[k].op != OP_PUT && rs[k].op != OP_DELETE
    ensures (key in Fold(data, rs)) <==> rs[last].op == OP_PUT
    ensures rs[last].op == OP_PUT ==> Fold(data, rs)[key] == rs[last].value
  {
    if last < |rs| - 1 {
      FoldIsLastWrite(data, rs[..|rs| - 1], key, last);
    }
  }

  // New: rebuild the map; numbering starts at one.
  function Recover(rs: seq<Record>): (s: StoreState) {
    StoreState(Fold(map[], rs), 1, map[])
  }

  // ----- Ordered application -----

  // The loop: apply what is next as long as it has arrived.
  function Drain(s: StoreState): (s': StoreState)
    decreases |s.pending|
  {
    if s.nextApplySeq in s.pending then
      DrainShrinks(s);
      Drain(ApplyNext(s))
    else s
  }

  function ApplyNext(s: StoreState): (s': StoreState)
    requires s.nextApplySeq in s.pending
  {
    StoreState(ApplyRecord(s.data, s.pending[s.nextApplySeq]), s.nextApplySeq + 1, s.pending - {s.nextApplySeq})
  }

  lemma DrainShrinks(s: StoreState)
    requires s.nextApplySeq in s.pending
    ensures |ApplyNext(s).pending| < |s.pending|
  {
    var rest := s.pending - {s.nextApplySeq};
    assert s.pending.Keys == rest.Keys + {s.nextApplySeq};
    assert |s.pending.Keys| == |rest.Keys| + 1;
  }

  function ApplyOrdered(s: StoreState, seqNo: nat, r: Record): (s': StoreState) {
    Drain(s.(pending := s.pending[seqNo := r]))
  }

  // Deliver the records numbered in `order`, one after another.
  function Deliver(s: StoreState, rs: seq<Record>, order: seq<nat>): (s': StoreState)
    requires forall k :: 0 <= k < |order| ==> 1 <= order[k] <= |rs|
  {
    if |order| == 0 then s
    else
      var last := order[|order| - 1];
      ApplyOrdered(Deliver(s, rs, order[..|order| - 1]), last, rs[last - 1])
  }

  // Numbers that Append may hand out: each at most once.
  predicate Numbering(rs: seq<Record>, order: seq<nat>) {
    && (forall k :: 0 <= k < |order| ==> 1 <= order[k] <= |rs|)
    && (forall j, k :: 0 <= j < k < |order| ==> order[j] != order[k])
  }

  // The store is the fold of the first p records, and holds back exactly the records
  // of `got` beyond them.
  ghost predicate HoldsBack(s: StoreState, data: Data, rs: seq<Record>, got: set<nat>, p: nat) {
    && p <= |rs| && s.nextApplySeq == p + 1
    && s.data == Fold(data, rs[..p])
    && (forall k :: 1 <= k <= p ==> k in got)
    && (forall k :: k in got ==> 1 <= k <= |rs|)
    && (forall k :: k in s.pending <==> k in got && k > p)
    && (forall k :: k in s.pending ==> s.pending[k] == rs[k - 1])
  }

  lemma {:induction false} DrainFolds(s: StoreState, data: Data, rs: seq<Record>, got: set<nat>, p: nat)
      returns (q: nat)
    requires HoldsBack(s, data, rs, got, p)
    ensures HoldsBack(Drain(s), data, rs, got, q) && q + 1 !in got
    decreases |s.pending|
  {
    if s.nextApplySeq in s.pending {
      DrainShrinks(s);
      assert rs[..p + 1][..p] == rs[..p];
      assert HoldsBack(ApplyNext(s), data, rs, got, p + 1);
      q := DrainFolds(ApplyNext(s), data, rs, got, p + 1);
    } else {
      q := p;
    }
  }

  function Arrived(order: seq<nat>): (numbers: set<nat>) {
    set k | k in order
  }

  lemma {:induction false} DeliverFolds(data: Data, rs: seq<Record>, order: seq<nat>) returns (p: nat)
    requires Numbering(rs, order)
    ensures HoldsBack(Deliver(StoreState(data, 1, map[]), rs, order), data, rs, Arrived(order), p)
    ensures p + 1 !in Arrived(order)
  {
    if |order| == 0 {
      NothingDelivered(data, rs, order);
      p := 0;
    } else {
      LastOfNumbering(rs, order);
      var p0 := DeliverFolds(data, rs, order[..|order| - 1]);
      p := DeliverOneMore(data, rs, order, p0);
    }
  }

  lemma NothingDelivered(data: Data, rs: seq<Record>, order: seq<nat>)
    requires |order| == 0
    ensures HoldsBack(StoreState(data, 1, map[]), data, rs, Arrived(order), 0)
  {
  }

  lemma DeliverOneMore(data: Data, rs: seq<Record>, order: seq<nat>, p0: nat) returns (p: nat)
    requires Numbering(rs, order) && |order| > 0
    requires HoldsBack(Deliver(StoreState(data, 1, map[]), rs, order[..|order| - 1]), data, rs,
        Arrived(order[..|order| - 1]), p0)
    ensures HoldsBack(Deliver(StoreState(data, 1, map[]), rs, order), data, rs, Arrived(order), p)
    ensures p + 1 !in Arrived(order)
  {
    var k := |order| - 1;
    var s := Deliver(StoreState(data, 1, map[]), rs, order[..k]);
    LastOfNumbering(rs, order);
    HoldsOneMore(s, data, rs, Arrived(order[..k]), p0, order[k]);
    p := DrainFolds(s.(pending := s.pending[order[k] := rs[order[k] - 1]]), data, rs, Arrived(order), p0);
  }

  lemma LastOfNumbering(rs: seq<Record>, order: seq<nat>)
    requires Numbering(rs, order) && |order| > 0
    ensures var k := |order| - 1;
      && Numbering(rs, order[..k]) && 1 <= order[k] <= |rs|
      && order[k] !in Arrived(order[..k]) && Arrived(order) == Arrived(order[..k]) + {order[k]}
  {
    var k := |order| - 1;
    assert order == order[..k] + [order[k]];
  }

  lemma HoldsOneMore(s: StoreState, data: Data, rs: seq<Record>, got: set<nat>, p: nat, n: nat)
    requires HoldsBack(s, data, rs, got, p) && 1 <= n <= |rs| && n !in got
    ensures HoldsBack(s.(pending := s.pending[n := rs[n - 1]]), data, rs, got + {n}, p)
  {
  }

  // Confluence: in whatever order the numbers arrive, after each delivery the map is
  // the fold of the longest gap-free prefix that arrived, and the rest is pending.
  lemma OrderedApplyIsConfluent(data: Data, rs: seq<Record>, order: seq<nat>)
    requires Numbering(rs, order)
    ensures var s := Deliver(StoreState(data, 1, map[]), rs, order);
      var p := s.nextApplySeq - 1;
      && 0 <= p <= |rs| && s.data == Fold(data, rs[..p])
      && (forall k :: 1 <= k <= p ==> k in order) && p + 1 !in order
      && s.pending == map k | k in order && k > p :: rs[k - 1]
  {
    var p := DeliverFolds(data, rs, order);
    var s := Deliver(StoreState(data, 1, map[]), rs, order);
    var rest := map k | k in order && k > p :: rs[k - 1];
    assert s.pending.Keys == rest.Keys;
    assert s.pending == rest;
    forall k | 1 <= k <= p
      ensures k in order
    {
      assert k in Arrived(order);
    }
  }

  // Once every number has arrived nothing is held back.
  lemma AllArrived(data: Data, rs: seq<Record>, order: seq<nat>)
    requires Numbering(rs, order) && forall k :: 1 <= k <= |rs| ==> k in order
    ensures Deliver(StoreState(data, 1, map[]), rs, order) == StoreState(Fold(data, rs), |rs| + 1, map[])
  {
    OrderedApplyIsConfluent(data, rs, order);
    var s := Deliver(StoreState(data, 1, map[]), rs, order);
    assert s.nextApplySeq == |rs| + 1;
    assert rs[..|rs|] == rs;
  }

  // ----- The mutable store -----

  class Store {
    var data: Data
    var nextApplySeq: nat
    var pending: map<nat, Record>

    function View(): (view: StoreState)
      reads this
    {
      StoreState(data, nextApplySeq, pending)
    }

    // New, on the records replay returned.
    constructor (records: seq<Record>)
      ensures View() == Recover(records)
    {
      data := map[];
      nextApplySeq := 1;
      pending := map[];
      new;
      for k := 0 to |records|
        invariant data == Fold(map[], records[..k]) && nextApplySeq == 1 && pending == map[]
      {
        var record := records[k];
        assert records[..k + 1][..k] == records[..k];
        if record.op == OP_PUT {
          data := data[record.key := record.value];
        } else if record.op == OP_DELETE {
          data := data - {record.key};
        }
      }
      assert records[..|records|] == records;
    }

    method Get(key: Bytes) returns (value: Option<Bytes>)
      ensures value == if key in data then Some(data[key]) else None
    {
      if key in data {
        return Some(data[key]);
      }
      return None;
    }

    method ApplyInOrder(seqNo: nat, record: Record)
      modifies this
      ensures View() == ApplyOrdered(old(View()), seqNo, record)
    {
      pending := pending[seqNo := record];
      while nextApplySeq in pending
        invariant Drain(View()) == Drain(old(View()).(pending := old(pending)[seqNo := record]))
        decreases |pending|
      {
        ghost var before := View();
        DrainShrinks(before);
        var next := pending[nextApplySeq];
        if next.op == OP_PUT {
          data := data[next.key := next.value];
        } else if next.op == OP_DELETE {
          data := data - {next.key};
        }
        pending := pending - {nextApplySeq};
        nextApplySeq := nextApplySeq + 1;
        assert View() == ApplyNext(before);
      }
    }

    // Set, and ApplyPut alike: `appended` is what the log's Append returned.
    method Set(key: Bytes, value: Bytes, appended: Option<nat>) returns (ok: bool)
      modifies this
      ensures ok == appended.Some?
      ensures View() == if ok then ApplyOrdered(old(View()), appended.value, Record(OP_PUT, key, value))
          else old(View())
    {
      if appended.None? {
        return false;
      }
      ApplyInOrder(appended.value, Record(OP_PUT, key, value));
      return true;
    }

    // Delete reports whether the key was there before the record was appended.
    method Delete(key: Bytes, appended: Option<nat>) returns (existed: bool, ok: bool)
      modifies this
      ensures ok == appended.Some? && existed == (ok && key in old(data))
      ensures View() == if ok then ApplyOrdered(old(View()), appended.value, Record(OP_DELETE, key, []))
          else old(View())
    {
      existed := key in data;
      if appended.None? {
        return false, false;
      }
      ApplyInOrder(appended.value, Record(OP_DELETE, key, []));
      return existed, true;
    }
  }
}
