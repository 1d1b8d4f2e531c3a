/** The lease columns that every durable queue of the two services shares: a row is claimed
    with a fresh fencing token and an expiry, and only the holder of the current token may
    move it on. An expired lease stays usable until another claim replaces its token. */
module Leases {
  import opened Text

  /** `Queued` is `queued`; `Leased` is `authoring`, `grading`, `publishing` or `delivering`;
      `Waiting` is `needs_clarification`; `Done` is `ready`, `completed`, `published` or `sent`. */
  datatype Phase = Queued | Leased | Waiting | Done | Failed

  datatype Row<+P> = Row(
    phase: Phase,
    token: Option<string>,
    expiresAt: Option<real>,
    attempts: nat,
    lastError: Option<string>,
    nextAttemptAt: real,
    createdAt: real,
    updatedAt: real,
    body: P)

  type Table<P> = map<string, Row<P>>

  function NewRow<P>(body: P, now: real): Row<P> {
    Row(Queued, None, None, 0, None, 0.0, now, now, body)
  }

  predicate Eligible<P>(r: Row<P>, now: real) {
    || (r.phase == Queued && r.nextAttemptAt <= now)
    || (r.phase == Leased && r.expiresAt.Some? && r.expiresAt.value <= now)
  }

  /** `ORDER BY created_at, id`. */
  predicate Earlier<P>(t: Table<P>, a: string, b: string)
    requires a in t && b in t
  {
    t[a].createdAt < t[b].createdAt || (t[a].createdAt == t[b].createdAt && StrLt(a, b))
  }

  lemma EarlierIsStrictOrder<P>(t: Table<P>, a: string, b: string)
    requires a in t && b in t
    ensures a == b || Earlier(t, a, b) || Earlier(t, b, a)
    ensures !(Earlier(t, a, b) && Earlier(t, b, a))
  {
    StrLtTotal(a, b);
  }

  lemma EarlierTransitive<P>(t: Table<P>, a: string, b: string, c: string)
    requires a in t && b in t && c in t
    requires Earlier(t, a, b) && Earlier(t, b, c)
    ensures Earlier(t, a, c)
  {
    if t[a].createdAt == t[b].createdAt && t[b].createdAt == t[c].createdAt {
      StrLtTransitive(a, b, c);
    }
  }

  predicate IsHead<P>(t: Table<P>, now: real, id: string) {
    && id in t
    && Eligible(t[id], now)
    && forall o | o in t :: Eligible(t[o], now) && o != id ==> Earlier(t, id, o)
  }

  predicate IsHeadAmong<P>(t: Table<P>, now: real, ids: set<string>, id: string)
    requires ids <= t.Keys
  {
    && id in ids
    && Eligible(t[id], now)
    && forall o | o in ids :: Eligible(t[o], now) && o != id ==> Earlier(t, id, o)
  }

  lemma {:induction false} HeadAmongExists<P>(t: Table<P>, now: real, ids: set<string>)
    returns (head: string)
    requires ids <= t.Keys
    requires exists id | id in ids :: Eligible(t[id], now)
    ensures IsHeadAmong(t, now, ids, head)
    decreases ids
  {
    var id :| id in ids && Eligible(t[id], now);
    var rest := ids - {id};
    if exists o | o in rest :: Eligible(t[o], now) {
      var other := HeadAmongExists(t, now, rest);
      EarlierIsStrictOrder(t, id, other);
      if Earlier(t, id, other) {
        forall o | o in ids && Eligible(t[o], now) && o != id ensures Earlier(t, id, o) {
          if o != other { EarlierTransitive(t, id, other, o); }
        }
        head := id;
      } else {
        head := other;
      }
    } else {
      head := id;
    }
  }

  lemma HeadExists<P>(t: Table<P>, now: real)
    ensures (exists id | id in t :: Eligible(t[id], now)) ==> exists id | id in t :: IsHead(t, now, id)
  {
    if exists id | id in t :: Eligible(t[id], now) {
      var head := HeadAmongExists(t, now, t.Keys);
      assert IsHead(t, now, head);
    }
  }

  lemma HeadUnique<P>(t: Table<P>, now: real, a: string, b: string)
    requires IsHead(t, now, a) && IsHead(t, now, b)
    ensures a == b
  {
    EarlierIsStrictOrder(t, a, b);
  }

  /** The row that `... ORDER BY created_at, id LIMIT 1` picks among the eligible ones. */
  function Next<P>(t: Table<P>, now: real): (r: Option<string>)
    ensures r.Some? ==> IsHead(t, now, r.value)
    ensures r.None? ==> forall id | id in t :: !Eligible(t[id], now)
  {
    HeadExists(t, now);
    if exists id | id in t :: IsHead(t, now, id) then
      assert forall a, b | IsHead(t, now, a) && IsHead(t, now, b) :: a == b by {
        forall a, b | IsHead(t, now, a) && IsHead(t, now, b) ensures a == b { HeadUnique(t, now, a, b); }
      }
      var id :| id in t && IsHead(t, now, id);
      Some(id)
    else None
  }

  /** The columns a claim writes. */
  function ClaimedRow<P>(r: Row<P>, now: real, token: string, leaseSeconds: real): Row<P> {
    r.(phase := Leased, token := Some(token), expiresAt := Some(now + leaseSeconds),
       attempts := r.attempts + 1, lastError := None, nextAttemptAt := 0.0, updatedAt := now)
  }

  function Claim<P>(t: Table<P>, now: real, token: string, leaseSeconds: real): Table<P> {
    match Next(t, now)
    case None => t
    case Some(id) => t[id := ClaimedRow(t[id], now, token, leaseSeconds)]
  }

  /** `WHERE id = ? AND state = <leased> AND lease_token = ?`. */
  predicate Owns<P>(t: Table<P>, id: string, token: string) {
    id in t && t[id].phase == Leased && t[id].token == Some(token)
  }

  /** The row after its holder let go of it. */
  function Freed<P>(r: Row<P>, phase: Phase, now: real): Row<P> {
    r.(phase := phase, token := None, expiresAt := None, updatedAt := now)
  }

  /** A row carries a token, and an expiry, exactly while it is leased. */
  predicate LeaseColumnsMatch<P>(r: Row<P>) {
    && (r.phase == Leased <==> r.token.Some?)
    && (r.token.Some? <==> r.expiresAt.Some?)
  }

  ghost predicate WellLeased<P>(t: Table<P>, issued: set<string>) {
    && (forall id | id in t :: LeaseColumnsMatch(t[id]))
    && (forall id | id in t && t[id].token.Some? :: t[id].token.value in issued)
    && (forall a, b | a in t && b in t && t[a].token.Some? && t[a].token == t[b].token :: a == b)
  }
}
