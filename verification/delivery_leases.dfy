/** Webhook deliveries under a lease: who holds one keeps it until the lease runs out, and what is let go of or
    left behind comes back. */
module DeliveryLeases {
  import opened Text
  import opened Deliveries
  import opened Dedup

  /** The delivery is held under the token until some time after `now`. */
  predicate LeasedBeyond<P>(q: Queue<P>, id: string, token: string, now: real) {
    Holds(q, id, token) && q[id].expiresAt.Some? && now < q[id].expiresAt.value
  }

  lemma OneUnderLease<P>(m: Memory<P>, limits: Limits, now: real, op: Op<P>, id: string, token: string)
    requires LeasedBeyond(m.q, id, token, now) && op.token != token
    ensures id in Perform(m, limits, now, op).q && Perform(m, limits, now, op).q[id] == m.q[id]
  {
    hide Kept, CompletedIds;
  }

  /** Over any operations by others before the lease runs out, the delivery stays as it is. */
  lemma {:induction false} DeliveryLeaseIsExclusive<P>(m: Memory<P>, limits: Limits, ops: seq<(real, Op<P>)>, id: string,
      token: string, until: real)
    requires Holds(m.q, id, token) && m.q[id].expiresAt == Some(until)
    requires forall k | 0 <= k < |ops| :: ops[k].0 < until && ops[k].1.token != token
    ensures id in PerformAll(m, limits, ops).q && PerformAll(m, limits, ops).q[id] == m.q[id]
    decreases ops
  {
    hide Perform;
    if ops != [] {
      assert ops[0].0 < until && ops[0].1.token != token;
      OneUnderLease(m, limits, ops[0].0, ops[0].1, id, token);
      DeliveryLeaseIsExclusive(Perform(m, limits, ops[0].0, ops[0].1), limits, ops[1..], id, token, until);
    }
  }

  /** What a redelivery is told, and that only a claim changes anything: it gets a lease from now, and the row keeps
      or gains its event and payload. */
  lemma RedeliveryIsTold<P>(q: Queue<P>, now: real, lease: real, token: string, rowid: nat, id: string,
      event: string, payload: P)
    ensures
      var (q', told) := ClaimDelivery(q, now, lease, token, rowid, id, Some(event), Some(payload));
      && (told == Changed <==>
            id in q && ((q[id].event.Some? && q[id].event != Some(event)) || (q[id].payload.Some? && q[id].payload != Some(payload))))
      && (told == AlreadyCompleted <==> told != Changed && id in q && q[id].status == Completed)
      && (told == Busy <==>
            told != Changed && id in q && q[id].status != Completed
            && q[id].expiresAt.Some? && now < q[id].expiresAt.value)
      && (told.Claimed? ==>
            && told == Claimed(token) && Holds(q', id, token) && q'[id].expiresAt == Some(now + lease)
            && q'[id].event == Some(event) && q'[id].payload == Some(payload) && q' == q[id := q'[id]])
      && (!told.Claimed? ==> q' == q)
  {}

  /** A delivery that was let go of is due again exactly after the delay, and one whose holder disappeared exactly when
      its lease has run out; both only with a stored event and payload. */
  lemma ComesBackExactly<P>(q: Queue<P>, id: string, token: string, delay: real, now: real, later: real)
    requires Holds(q, id, token) && q[id].event.Some? && q[id].payload.Some?
    ensures
      var (q', released) := ReleaseDelivery(q, id, token, delay, now);
      released && id in q' && (Due(q'[id], later) <==> now + delay <= later)
    ensures q[id].expiresAt.Some? && q[id].nextAttemptAt <= later ==> (Due(q[id], later) <==> q[id].expiresAt.value <= later)
  {}
}
