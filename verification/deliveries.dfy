/** The webhook delivery queue of the bridge: leases, redeliveries, and the bounded memory of
    completed deliveries that answers duplicates. */
module Deliveries {
  import opened Text

  datatype Status = Pending | Processing | Completed

  datatype Delivery<+P> = Delivery(
    status: Status,
    event: Option<string>,
    payload: Option<P>,
    expiresAt: Option<real>,
    token: Option<string>,
    nextAttemptAt: real,
    receivedAt: real,
    completedAt: Option<real>,
    rowid: nat)

  type Queue<+P> = map<string, Delivery<P>>

  /** `Changed` is the error for a redelivery with another event or payload. */
  datatype Claim = Claimed(token: string) | AlreadyCompleted | Busy | Changed

  /** A new row gets a row number greater than every other. */
  predicate TopRow<P>(q: Queue<P>, rowid: nat) { forall id | id in q :: q[id].rowid < rowid }

  /** `row["x"] not in (None, x)`, asked only when `x` was given. */
  predicate Differs<T(==)>(given: Option<T>, stored: Option<T>) { given.Some? && stored.Some? && given != stored }

  function Coalesce<T>(a: Option<T>, b: Option<T>): Option<T> { if a.Some? then a else b }

  function ClaimDelivery<P(==)>(
    q: Queue<P>, now: real, lease: real, token: string, rowid: nat,
    id: string, event: Option<string>, payload: Option<P>): (Queue<P>, Claim)
  {
    if id !in q then
      (q[id := Delivery(Processing, event, payload, Some(now + lease), Some(token), 0.0, now, None, rowid)], Claimed(token))
    else
      var r := q[id];
      if Differs(event, r.event) || Differs(payload, r.payload) then (q, Changed)
      else if r.status == Completed then (q, AlreadyCompleted)
      else if r.expiresAt.Some? && now < r.expiresAt.value then (q, Busy)
      else
        (q[id := r.(status := Processing, event := Coalesce(r.event, event), payload := Coalesce(r.payload, payload),
                    expiresAt := Some(now + lease), token := Some(token), completedAt := None)],
         Claimed(token))
  }

  predicate Due<P>(r: Delivery<P>, now: real) {
    && r.event.Some? && r.payload.Some? && r.nextAttemptAt <= now
    && (r.status == Pending || (r.status == Processing && r.expiresAt.Some? && r.expiresAt.value <= now))
  }

  /** `ORDER BY next_attempt_at, received_at, rowid`. */
  predicate Before<P>(a: Delivery<P>, b: Delivery<P>) {
    || a.nextAttemptAt < b.nextAttemptAt
    || (a.nextAttemptAt == b.nextAttemptAt
        && (a.receivedAt < b.receivedAt || (a.receivedAt == b.receivedAt && a.rowid < b.rowid)))
  }

  lemma BeforeOrder<P>(a: Delivery<P>, b: Delivery<P>, c: Delivery<P>)
    ensures Before(a, b) && Before(b, c) ==> Before(a, c)
    ensures a.rowid != b.rowid ==> Before(a, b) || Before(b, a)
    ensures !(Before(a, b) && Before(b, a))
  {}

  predicate IsNext<P>(q: Queue<P>, now: real, id: string) {
    id in q && Due(q[id], now) && forall o | o in q && o != id :: Due(q[o], now) ==> Before(q[id], q[o])
  }

  /** `next` is the row the query finds, if it finds one. */
  function ClaimNextDelivery<P>(q: Queue<P>, now: real, lease: real, token: string, next: Option<string>): Queue<P> {
    if next.None? || !IsNext(q, now, next.value) then q
    else q[next.value := q[next.value].(status := Processing, expiresAt := Some(now + lease), token := Some(token))]
  }

  predicate Holds<P>(q: Queue<P>, id: string, token: string) {
    id in q && q[id].status == Processing && q[id].token == Some(token)
  }

  function ReleaseDelivery<P>(q: Queue<P>, id: string, token: string, delay: real, now: real): (Queue<P>, bool) {
    if !Holds(q, id, token) then (q, false)
    else (q[id := q[id].(status := Pending, expiresAt := None, token := None, nextAttemptAt := now + delay)], true)
  }

  // ----- retention -----

  function CompletedIds<P>(q: Queue<P>): set<string> { set id | id in q && q[id].status == Completed }

  predicate LaterTime(a: Option<real>, b: Option<real>) { a.Some? && (b.None? || b.value < a.value) }

  /** `ORDER BY completed_at DESC, rowid DESC`; a missing time is the earliest. */
  predicate Outranks<P>(a: Delivery<P>, b: Delivery<P>) {
    LaterTime(a.completedAt, b.completedAt) || (a.completedAt == b.completedAt && b.rowid < a.rowid)
  }

  function Above<P>(q: Queue<P>, ids: set<string>, id: string): set<string>
    requires ids <= q.Keys && id in q
  {
    set o | o in ids && Outranks(q[o], q[id])
  }

  /** The completed deliveries that the `LIMIT` keeps. */
  function Kept<P>(q: Queue<P>, ids: set<string>, retention: nat): set<string>
    requires ids <= q.Keys
  {
    set id | id in ids && |Above(q, ids, id)| < retention
  }

  function Pruned<P>(q: Queue<P>, retention: nat): Queue<P> {
    var kept := Kept(q, CompletedIds(q), retention);
    map id | id in q && (q[id].status == Completed ==> id in kept) :: q[id]
  }

  function Finished<P>(r: Delivery<P>, now: real): Delivery<P> {
    r.(status := Completed, event := None, payload := None, expiresAt := None, token := None, completedAt := Some(now))
  }

  function CompleteDelivery<P>(q: Queue<P>, id: string, token: string, now: real, retention: nat): (Queue<P>, bool) {
    if !Holds(q, id, token) then (q, false)
    else (Pruned(q[id := Finished(q[id], now)], retention), true)
  }

  ghost predicate DistinctRows<P>(q: Queue<P>) { forall a, b | a in q && b in q && q[a].rowid == q[b].rowid :: a == b }

  lemma OutranksOrder<P>(a: Delivery<P>, b: Delivery<P>, c: Delivery<P>)
    ensures Outranks(a, b) && Outranks(b, c) ==> Outranks(a, c)
    ensures a.rowid != b.rowid ==> Outranks(a, b) || Outranks(b, a)
    ensures !(Outranks(a, b) && Outranks(b, a))
  {}

  lemma {:induction false} LeastExists<P>(q: Queue<P>, ids: set<string>) returns (least: string)
    requires ids != {} && ids <= q.Keys && DistinctRows(q)
    ensures least in ids && forall o | o in ids && o != least :: Outranks(q[o], q[least])
    decreases ids
  {
    hide Outranks;
    var first :| first in ids;
    var rest := ids - {first};
    if rest == {} {
      assert ids == {first};
      return first;
    }
    var o := LeastExists(q, rest);
    least := if Outranks(q[o], q[first]) then first else o;
    OutranksOrder(q[o], q[first], q[first]);
    forall x | x in ids && x != least ensures Outranks(q[x], q[least]) {
      OutranksOrder(q[x], q[o], q[first]);
      assert x == first || x in rest;
    }
  }

  lemma KeptWithLeast<P>(q: Queue<P>, ids: set<string>, least: string, retention: nat)
    requires ids <= q.Keys && least in ids && forall o | o in ids && o != least :: Outranks(q[o], q[least])
    ensures Kept(q, ids, retention) == Kept(q, ids - {least}, retention) + (if |ids| <= retention then {least} else {})
  {
    hide Outranks;
    var rest := ids - {least};
    forall id | id in rest ensures Above(q, ids, id) == Above(q, rest, id) {
      OutranksOrder(q[id], q[least], q[id]);
    }
    OutranksOrder(q[least], q[least], q[least]);
    assert Above(q, ids, least) == rest;
  }

  lemma KeptIsPart<P>(q: Queue<P>, ids: set<string>, retention: nat)
    requires ids <= q.Keys
    ensures Kept(q, ids, retention) <= ids
  {}

  lemma FullSubset(part: set<string>, whole: set<string>)
    requires part <= whole && |part| == |whole|
    ensures part == whole
  {
    assert |whole - part| == 0;
  }

  /** At most `retention` completed deliveries remain, as many as there are if they fit, and each that
      remains outranks each that is dropped. */
  lemma {:induction false} KeepsTheNewest<P>(q: Queue<P>, ids: set<string>, retention: nat)
    requires ids <= q.Keys && DistinctRows(q)
    ensures |Kept(q, ids, retention)| == if |ids| <= retention then |ids| else retention
    ensures forall a, b | a in Kept(q, ids, retention) && b in ids - Kept(q, ids, retention) :: Outranks(q[a], q[b])
    decreases ids
  {
    hide Outranks, Kept, DistinctRows;
    KeptIsPart(q, ids, retention);
    if ids != {} {
      var least := LeastExists(q, ids);
      var rest := ids - {least};
      KeepsTheNewest(q, rest, retention);
      KeptIsPart(q, rest, retention);
      KeptWithLeast(q, ids, least, retention);
      var kept, before := Kept(q, ids, retention), Kept(q, rest, retention);
      if |ids| <= retention {
        FullSubset(before, rest);
        assert kept == ids;
      } else {
        assert kept == before;
        forall a, b | a in kept && b in ids - kept ensures Outranks(q[a], q[b]) {
          if b != least { assert b in rest - before; }
        }
      }
    }
  }
}
