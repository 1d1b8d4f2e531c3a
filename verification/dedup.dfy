/** How long a completed delivery is remembered. */
module Dedup {
  import opened Text
  import opened Deliveries

  datatype Op<+P> =
    | Receive(token: string, rowid: nat, id: string, event: Option<string>, payload: Option<P>)
    | Retry(token: string, next: Option<string>)
    | Complete(id: string, token: string)
    | Release(id: string, token: string, delay: real)

  /** The queue, the identifiers in the order of their completions, and the last time read. */
  datatype Memory<+P> = Memory(q: Queue<P>, log: seq<string>, clock: real)

  datatype Limits = Limits(lease: real, retention: nat)

  /** One transaction at time `now`; the clock never goes back. */
  function Perform<P(==)>(m: Memory<P>, limits: Limits, now: real, op: Op<P>): Memory<P> {
    if now < m.clock then m
    else
      match op
      case Receive(token, rowid, id, event, payload) =>
        if !TopRow(m.q, rowid) then m
        else m.(q := ClaimDelivery(m.q, now, limits.lease, token, rowid, id, event, payload).0, clock := now)
      case Retry(token, next) => m.(q := ClaimNextDelivery(m.q, now, limits.lease, token, next), clock := now)
      case Complete(id, token) =>
        var (q, completed) := CompleteDelivery(m.q, id, token, now, limits.retention);
        Memory(q, if completed then m.log + [id] else m.log, now)
      case Release(id, token, delay) => m.(q := ReleaseDelivery(m.q, id, token, delay, now).0, clock := now)
  }

  function PerformAll<P(==)>(m: Memory<P>, limits: Limits, ops: seq<(real, Op<P>)>): Memory<P>
    decreases ops
  {
    if ops == [] then m else PerformAll(Perform(m, limits, ops[0].0, ops[0].1), limits, ops[1..])
  }

  function Last<T>(log: seq<T>, n: nat): seq<T> { if |log| <= n then log else log[|log| - n..] }

  /** `ids` are the completed deliveries, oldest first, and none was completed after `last`. */
  ghost predicate Lists<P>(q: Queue<P>, ids: seq<string>, last: real) {
    && (forall id :: id in q && q[id].status == Completed <==> id in ids)
    && (forall i | 0 <= i < |ids| :: q[ids[i]].completedAt.Some? && q[ids[i]].completedAt.value <= last)
    && (forall i, j | 0 <= i < j < |ids| :: q[ids[i]].completedAt.value < q[ids[j]].completedAt.value)
    && (forall i | 0 <= i < |ids| :: q[ids[i]].event.None? && q[ids[i]].payload.None?)
  }

  ghost predicate Remembers<P>(m: Memory<P>, retention: nat, last: real) { Lists(m.q, Last(m.log, retention), last) }

  lemma OtherRowsDoNotMatter<P>(q: Queue<P>, q': Queue<P>, ids: seq<string>, last: real, now: real)
    requires Lists(q, ids, last) && last <= now
    requires forall id :: id in q' && q'[id].status == Completed <==> id in q && q[id].status == Completed
    requires forall id | id in q && q[id].status == Completed :: q'[id] == q[id]
    ensures Lists(q', ids, now)
  {
    forall i | 0 <= i < |ids| ensures q'[ids[i]] == q[ids[i]] { assert ids[i] in ids; }
  }

  /** The newest completion is added at the end of the list. */
  lemma FinishedIsLast<P>(q: Queue<P>, ids: seq<string>, last: real, id: string, now: real)
    requires Lists(q, ids, last) && last < now && id in q && q[id].status != Completed
    ensures Lists(q[id := Finished(q[id], now)], ids + [id], now)
  {
    var q', ids' := q[id := Finished(q[id], now)], ids + [id];
    forall i | 0 <= i < |ids| ensures ids'[i] == ids[i] && q'[ids[i]] == q[ids[i]] { assert ids[i] in ids; }
    forall x ensures x in q' && q'[x].status == Completed <==> x in ids' {
      assert x in ids' <==> x in ids || x == id;
    }
  }

  function Elements(ids: seq<string>): set<string> { set id | id in ids }

  lemma {:induction false} DistinctCount(ids: seq<string>)
    requires forall i, j | 0 <= i < j < |ids| :: ids[i] != ids[j]
    ensures |Elements(ids)| == |ids|
    decreases ids
  {
    if ids != [] {
      DistinctCount(ids[1..]);
      assert Elements(ids) == Elements(ids[1..]) + {ids[0]};
    } else {
      assert Elements(ids) == {};
    }
  }

  /** In the list, exactly those after a delivery outrank it. */
  lemma AboveInList<P>(q: Queue<P>, ids: seq<string>, last: real, k: nat)
    requires Lists(q, ids, last) && k < |ids|
    ensures ids[k] in q && |Above(q, CompletedIds(q), ids[k])| == |ids| - 1 - k
  {
    var later := ids[k + 1..];
    assert ids[k] in ids;
    forall i, j | 0 <= i < j < |later| ensures later[i] != later[j] {
      assert q[ids[k + 1 + i]].completedAt.value < q[ids[k + 1 + j]].completedAt.value;
    }
    forall o ensures o in Above(q, CompletedIds(q), ids[k]) <==> o in later {
      if o in later {
        var i :| 0 <= i < |later| && later[i] == o;
        assert o == ids[k + 1 + i] && o in ids;
      }
      if o in Above(q, CompletedIds(q), ids[k]) {
        assert o in ids;
        var i :| 0 <= i < |ids| && ids[i] == o;
        assert i != k;
        assert k < i ==> later[i - k - 1] == o;
      }
    }
    assert Above(q, CompletedIds(q), ids[k]) == Elements(later);
    DistinctCount(later);
  }

  lemma RestOf(ids: seq<string>)
    requires ids != [] && forall i | 0 < i < |ids| :: ids[i] != ids[0]
    ensures forall x :: x in ids[1..] <==> x in ids && x != ids[0]
  {
    forall x ensures x in ids[1..] <==> x in ids && x != ids[0] {
      if x in ids && x != ids[0] {
        var i :| 0 <= i < |ids| && ids[i] == x;
        assert ids[1..][i - 1] == x;
      }
    }
  }

  lemma OldestLeaves<P>(q: Queue<P>, ids: seq<string>, last: real)
    requires Lists(q, ids, last) && ids != []
    ensures Lists(q - {ids[0]}, ids[1..], last)
  {
    var rest, q' := ids[1..], q - {ids[0]};
    forall i | 0 < i < |ids| ensures ids[i] in q && ids[i] != ids[0] && q'[ids[i]] == q[ids[i]] {
      assert ids[i] in ids;
      assert q[ids[0]].completedAt.value < q[ids[i]].completedAt.value;
    }
    RestOf(ids);
    assert forall i | 0 <= i < |rest| :: rest[i] == ids[i + 1];
  }

  /** Pruning drops nothing while the list fits, and otherwise the oldest. */
  lemma PrunedIs<P>(q: Queue<P>, ids: seq<string>, last: real, retention: nat)
    requires Lists(q, ids, last) && |ids| <= retention + 1
    ensures Pruned(q, retention) == if |ids| <= retention then q else q - {ids[0]}
  {
    hide Outranks;
    var kept := Kept(q, CompletedIds(q), retention);
    forall i | 0 <= i < |ids| ensures ids[i] in q && (ids[i] in kept <==> |ids| - retention <= i) {
      hide Kept;
      AboveInList(q, ids, last, i);
      KeptIff(q, CompletedIds(q), retention, ids[i]);
    }
    hide Kept;
    forall id | id in ids ensures id in kept <==> |ids| <= retention || id != ids[0] {
      var i :| 0 <= i < |ids| && ids[i] == id;
      if 0 < i { assert q[ids[0]].completedAt.value < q[ids[i]].completedAt.value; }
    }
  }

  lemma KeptIff<P>(q: Queue<P>, ids: set<string>, retention: nat, id: string)
    requires ids <= q.Keys && id in ids
    ensures id in Kept(q, ids, retention) <==> |Above(q, ids, id)| < retention
  {
    hide Above;
  }

  lemma PrunedLists<P>(q: Queue<P>, ids: seq<string>, last: real, retention: nat)
    requires Lists(q, ids, last) && |ids| <= retention + 1
    ensures Lists(Pruned(q, retention), Last(ids, retention), last)
  {
    hide Lists, Pruned;
    PrunedIs(q, ids, last, retention);
    if retention < |ids| {
      OldestLeaves(q, ids, last);
      assert Last(ids, retention) == ids[1..];
    }
  }

  lemma PerformRemembers<P>(m: Memory<P>, limits: Limits, now: real, op: Op<P>, last: real)
    requires Remembers(m, limits.retention, last) && (op.Complete? ==> last < now)
    ensures Remembers(Perform(m, limits, now, op), limits.retention, if op.Complete? then now else last)
  {
    hide Lists, Pruned;
    var window := Last(m.log, limits.retention);
    if now < m.clock {
      if op.Complete? { OtherRowsDoNotMatter(m.q, m.q, window, last, now); }
      return;
    }
    match op
    case Complete(id, token) =>
      if Holds(m.q, id, token) {
        FinishedIsLast(m.q, window, last, id, now);
        PrunedLists(m.q[id := Finished(m.q[id], now)], window + [id], now, limits.retention);
        assert Last(m.log + [id], limits.retention) == Last(window + [id], limits.retention);
      } else {
        OtherRowsDoNotMatter(m.q, m.q, window, last, now);
      }
    case _ => OtherRowsDoNotMatter(m.q, Perform(m, limits, now, op).q, window, last, last);
  }

  /** No two completions at the same time, and none as early as `start`. */
  predicate Apart<P>(ops: seq<(real, Op<P>)>, start: real)
    decreases ops
  {
    ops == [] ||
    if ops[0].1.Complete? then start < ops[0].0 && Apart(ops[1..], ops[0].0) else Apart(ops[1..], start)
  }

  lemma {:induction false} PerformAllRemembers<P>(m: Memory<P>, limits: Limits, ops: seq<(real, Op<P>)>, start: real)
    returns (last: real)
    requires Remembers(m, limits.retention, start) && Apart(ops, start)
    ensures Remembers(PerformAll(m, limits, ops), limits.retention, last)
    decreases ops
  {
    hide Remembers, Perform;
    last := start;
    if ops != [] {
      PerformRemembers(m, limits, ops[0].0, ops[0].1, start);
      last := PerformAllRemembers(
        Perform(m, limits, ops[0].0, ops[0].1), limits, ops[1..], if ops[0].1.Complete? then ops[0].0 else start);
    }
  }

  /** After any history in which no two completions fall on the same time, a redelivery, whatever it carries, is
      answered as completed exactly when the delivery is among the last `retention` completions. */
  lemma RememberedExactly<P>(
    limits: Limits, ops: seq<(real, Op<P>)>, start: real, now: real, token: string, rowid: nat,
    id: string, event: Option<string>, payload: Option<P>)
    requires Apart(ops, start)
    ensures
      var m := PerformAll(Memory(map[], [], 0.0), limits, ops);
      ClaimDelivery(m.q, now, limits.lease, token, rowid, id, event, payload).1 == AlreadyCompleted <==>
        id in Last(m.log, limits.retention)
  {
    hide Perform;
    var last := PerformAllRemembers<P>(Memory(map[], [], 0.0), limits, ops, start);
    var m := PerformAll<P>(Memory(map[], [], 0.0), limits, ops);
    var window := Last(m.log, limits.retention);
    if id in window {
      var i :| 0 <= i < |window| && window[i] == id;
    }
  }

  // ----- completions at the same time -----

  ghost predicate CompletedBy<P>(q: Queue<P>, clock: real) {
    forall id | id in q && q[id].status == Completed :: q[id].completedAt.Some? && q[id].completedAt.value <= clock
  }

  lemma {:induction false} PerformAllCompletes<P>(m: Memory<P>, limits: Limits, ops: seq<(real, Op<P>)>)
    requires CompletedBy(m.q, m.clock)
    ensures CompletedBy(PerformAll(m, limits, ops).q, PerformAll(m, limits, ops).clock)
    decreases ops
  {
    if ops != [] {
      hide Kept;
      PerformAllCompletes(Perform(m, limits, ops[0].0, ops[0].1), limits, ops[1..]);
    }
  }

  /** The deliveries completed at this very time whose rows are newer. */
  function Rivals<P>(q: Queue<P>, id: string, now: real): set<string>
    requires id in q
  {
    set o | o in q && q[o].status == Completed && q[o].completedAt == Some(now) && q[id].rowid < q[o].rowid
  }

  /** After any history, whatever falls together: a delivery that is completed now is still there afterwards, and so
      known as completed, exactly if fewer than `retention` deliveries with newer rows were completed at the same
      time. */
  lemma JustCompletedStays<P>(limits: Limits, ops: seq<(real, Op<P>)>, id: string, token: string, now: real)
    requires
      var m := PerformAll(Memory(map[], [], 0.0), limits, ops);
      m.clock <= now && Holds(m.q, id, token)
    ensures
      var m := PerformAll(Memory(map[], [], 0.0), limits, ops);
      id in Perform(m, limits, now, Complete(id, token)).q <==> |Rivals(m.q, id, now)| < limits.retention
  {
    hide PerformAll, Kept;
    PerformAllCompletes<P>(Memory(map[], [], 0.0), limits, ops);
    var q := PerformAll<P>(Memory(map[], [], 0.0), limits, ops).q;
    var done := q[id := Finished(q[id], now)];
    forall o | o in CompletedIds(done) ensures Outranks(done[o], done[id]) <==> o in Rivals(q, id, now) {
      if o != id { assert done[o] == q[o] && q[o].completedAt.Some?; }
    }
    assert Above(done, CompletedIds(done), id) == Rivals(q, id, now);
    KeptIff(done, CompletedIds(done), limits.retention, id);
  }

  function SameTime<P>(event: string, payload: P): seq<(real, Op<P>)> {
    [(1.0, Receive("first", 1, "newer", Some(event), Some(payload))),
     (1.0, Receive("second", 2, "older", Some(event), Some(payload))),
     (5.0, Complete("older", "second")), (5.0, Complete("newer", "first"))]
  }

  /** So the last completion may be the one that is forgotten, with its time equal to the one before. */
  lemma SameTimeForgetsTheNewest<P>(event: string, payload: P, lease: real)
    ensures
      var m := PerformAll(Memory(map[], [], 0.0), Limits(lease, 1), SameTime(event, payload));
      m.log == ["older", "newer"] && "older" in m.q && "newer" !in m.q
  {
    hide Pruned;
    var ops, limits := SameTime(event, payload), Limits(lease, 1);
    var m0: Memory<P> := Memory(map[], [], 0.0);
    var m1 := Perform(m0, limits, 1.0, ops[0].1);
    var m2 := Perform(m1, limits, 1.0, ops[1].1);
    var m3 := Perform(m2, limits, 5.0, ops[2].1);
    var m4 := Perform(m3, limits, 5.0, ops[3].1);
    var newer := Delivery(Processing, Some(event), Some(payload), Some(1.0 + lease), Some("first"), 0.0, 1.0, None, 1);
    var older := Delivery(Processing, Some(event), Some(payload), Some(1.0 + lease), Some("second"), 0.0, 1.0, None, 2);
    assert m2.q == map["newer" := newer, "older" := older];
    PrunedOne(m2.q["older" := Finished(older, 5.0)], "older");
    PrunedTwo(m3.q["newer" := Finished(newer, 5.0)], "older", "newer");
    FourOps(m0, limits, ops);
  }

  lemma FourOps<P>(m: Memory<P>, limits: Limits, ops: seq<(real, Op<P>)>)
    requires |ops| == 4
    ensures
      var m1 := Perform(m, limits, ops[0].0, ops[0].1);
      var m2 := Perform(m1, limits, ops[1].0, ops[1].1);
      var m3 := Perform(m2, limits, ops[2].0, ops[2].1);
      PerformAll(m, limits, ops) == Perform(m3, limits, ops[3].0, ops[3].1)
  {
    hide Perform;
    assert ops[1..][1..] == ops[2..] && ops[2..][1..] == ops[3..] && ops[3..][1..] == [];
    var m1 := Perform(m, limits, ops[0].0, ops[0].1);
    var m2 := Perform(m1, limits, ops[1].0, ops[1].1);
    var m3 := Perform(m2, limits, ops[2].0, ops[2].1);
    assert PerformAll(m, limits, ops) == PerformAll(m1, limits, ops[1..]);
    assert PerformAll(m1, limits, ops[1..]) == PerformAll(m2, limits, ops[2..]);
    assert PerformAll(m2, limits, ops[2..]) == PerformAll(m3, limits, ops[3..]);
    var m4 := Perform(m3, limits, ops[3].0, ops[3].1);
    assert PerformAll(m3, limits, ops[3..]) == PerformAll(m4, limits, ops[3..][1..]) == m4;
  }

  lemma PrunedOne<P>(q: Queue<P>, id: string)
    requires CompletedIds(q) == {id}
    ensures Pruned(q, 1) == q
  {
    var ids := CompletedIds(q);
    assert Above(q, ids, id) == {};
    KeptIff(q, ids, 1, id);
    forall x | x in q ensures q[x].status == Completed ==> x in Kept(q, ids, 1) { assert x in ids ==> x == id; }
  }

  lemma PrunedTwo<P>(q: Queue<P>, a: string, b: string)
    requires CompletedIds(q) == {a, b} && a != b && Outranks(q[a], q[b])
    ensures Pruned(q, 1) == q - {b}
  {
    var ids := CompletedIds(q);
    assert Above(q, ids, a) == {};
    assert Above(q, ids, b) == {a};
    KeptIff(q, ids, 1, a);
    KeptIff(q, ids, 1, b);
    forall x | x in q ensures (q[x].status == Completed ==> x in Kept(q, ids, 1)) <==> x != b {
      assert x in ids ==> x == a || x == b;
    }
  }
}
