/** Draining a queue at one instant: claim the next row, settle it, and again. */
module Draining {
  import opened Text
  import opened Leases
  import opened Results
  import opened Tables
  import opened GradingQueue

  /** What happens to a claimed attempt: graded, released after a failure, or abandoned. */
  datatype Outcome = Completes(grade: Grade) | Releases(code: string) | Abandons

  datatype Round = Round(token: string, outcome: Outcome)

  function GradingRound(g: GradingTables, s: Settings, now: real, r: Round): GradingTables {
    var (claimed, held) := ClaimGrading(g, s, now, r.token);
    if held.None? then claimed
    else
      match r.outcome
      case Completes(grade) => CompleteGrading(claimed, held.value.id, Some(r.token), grade, now).0
      case Releases(code) => ReleaseGrading(claimed, s, held.value.id, r.token, code, now).0
      case Abandons => claimed
  }

  /** The tables after the rounds. */
  function Drained(g: GradingTables, s: Settings, now: real, rounds: seq<Round>): GradingTables
    decreases rounds
  {
    if rounds == [] then g else Drained(GradingRound(g, s, now, rounds[0]), s, now, rounds[1..])
  }

  /** The attempts that the rounds hand out, in order. */
  function HandedOut(g: GradingTables, s: Settings, now: real, rounds: seq<Round>): seq<string>
    decreases rounds
  {
    if rounds == [] then []
    else
      match Next(g.attempts, now)
      case None => []
      case Some(id) => [id] + HandedOut(GradingRound(g, s, now, rounds[0]), s, now, rounds[1..])
  }

  /** One row changed, and it is not eligible any more. */
  ghost predicate SetAside<P>(t: Table<P>, t': Table<P>, now: real, id: string) {
    && id in t && id in t'
    && t' == t[id := t'[id]]
    && t'[id].createdAt == t[id].createdAt
    && !Eligible(t'[id], now)
  }

  /** Whatever the outcome, the claimed attempt is not eligible again at that instant. */
  lemma RoundSetsAside(g: GradingTables, s: Settings, now: real, r: Round, id: string)
    requires s.Valid() && Next(g.attempts, now) == Some(id)
    ensures SetAside(g.attempts, GradingRound(g, s, now, r).attempts, now, id)
  {
    hide IsHead, RetryDelay, CountsValid, ReportValid, IsHash, ErrorCodeValid, InsertOrIgnore;
    var row := ClaimedRow(g.attempts[id], now, r.token, s.leaseSeconds);
    RetryDelayBacksOff(s, row.attempts, row.attempts);
    assert id in g.attempts;
    var claimed := g.attempts[id := row];
    match r.outcome
    case Completes(grade) =>
      var done := Freed(row, Done, now).(body := row.body.(grade := Some(grade)));
      assert claimed[id := done] == g.attempts[id := done];
    case Releases(code) =>
      var released := ReleasedAttempt(row, s, code, now);
      assert claimed[id := released] == g.attempts[id := released];
    case Abandons =>
  }

  /** `ids` are eligible rows of `t` in strictly increasing order; they are as many as there were
      rounds, or else all of them. */
  ghost predicate Drains<P>(t: Table<P>, now: real, rounds: nat, ids: seq<string>) {
    && (forall i | 0 <= i < |ids| :: ids[i] in t && Eligible(t[ids[i]], now))
    && (forall i, j | 0 <= i < j < |ids| :: Earlier(t, ids[i], ids[j]))
    && |ids| <= rounds
    && (|ids| < rounds ==> forall id | id in t && Eligible(t[id], now) :: id in ids)
  }

  lemma DrainsOneMore<P>(t: Table<P>, t': Table<P>, now: real, id: string, rounds: nat, rest: seq<string>)
    requires SetAside(t, t', now, id) && IsHead(t, now, id) && Drains(t', now, rounds, rest)
    ensures Drains(t, now, rounds + 1, [id] + rest)
  {
    var ids := [id] + rest;
    forall i | 0 <= i < |rest| ensures rest[i] in t && rest[i] != id && Eligible(t[rest[i]], now) && t'[rest[i]] == t[rest[i]] {}
    forall i, j | 0 <= i < j < |ids| ensures Earlier(t, ids[i], ids[j]) {
      if 0 < i { assert Earlier(t', rest[i - 1], rest[j - 1]); }
    }
    if |ids| < rounds + 1 {
      forall x | x in t && Eligible(t[x], now) ensures x in ids {
        if x != id { assert x in t' && t'[x] == t[x]; }
      }
    }
  }

  lemma DrainsNothing<P>(t: Table<P>, now: real, rounds: nat)
    requires Next(t, now) == None
    ensures Drains(t, now, rounds, [])
  {}

  /** At a fixed clock, with nothing enqueued and whatever happens to each claimed attempt, the queue
      hands out eligible attempts in strictly increasing order of creation and identifier, so each at
      most once; given more rounds than that it has handed out all of them, and hands out nothing. */
  lemma {:induction false} DrainsInOrder(g: GradingTables, s: Settings, now: real, rounds: seq<Round>)
    requires s.Valid()
    ensures Drains(g.attempts, now, |rounds|, HandedOut(g, s, now, rounds))
    ensures |HandedOut(g, s, now, rounds)| < |rounds| ==> Next(Drained(g, s, now, rounds).attempts, now) == None
    decreases rounds
  {
    hide Drains, SetAside, IsHead;
    if rounds == [] {
      DrainsZero(g.attempts, now);
    } else {
      var g' := GradingRound(g, s, now, rounds[0]);
      DrainsInOrder(g', s, now, rounds[1..]);
      match Next(g.attempts, now)
      case None => DrainsNothing(g.attempts, now, |rounds|); DrainedStays(g, s, now, rounds);
      case Some(id) =>
        RoundSetsAside(g, s, now, rounds[0], id);
        DrainsOneMore(g.attempts, g'.attempts, now, id, |rounds| - 1, HandedOut(g', s, now, rounds[1..]));
    }
  }

  lemma DrainsZero<P>(t: Table<P>, now: real)
    ensures Drains(t, now, 0, [])
  {}

  lemma {:induction false} DrainedStays(g: GradingTables, s: Settings, now: real, rounds: seq<Round>)
    requires Next(g.attempts, now) == None
    ensures Drained(g, s, now, rounds) == g
    decreases rounds
  {
    if rounds != [] { DrainedStays(g, s, now, rounds[1..]); }
  }

  // ----- the other queues -----

  /** A head queued again keeps its place; it is the next one at once unless it was delayed. */
  lemma QueuedAgain<P>(t: Table<P>, now: real, id: string, r: Row<P>)
    requires Next(t, now) == Some(id)
    requires r.phase == Queued && r.createdAt == t[id].createdAt
    ensures Next(t[id := r], now) == Some(id) <==> r.nextAttemptAt <= now
  {
    var t' := t[id := r];
    if r.nextAttemptAt <= now {
      forall o | o in t' && Eligible(t'[o], now) && o != id ensures Earlier(t', id, o) {
        assert Earlier(t, id, o);
      }
      assert IsHead(t', now, id);
      match Next(t', now)
      case Some(head) => HeadUnique(t', now, id, head);
      case None =>
    }
  }

  /** Which failures are retried without a pause: draining need not end there. A released authoring
      job and a released mentor notification are handed out again at once, as is a job sent back by
      the critic or a released check publication exactly when the delay is zero; a released grading
      attempt never is. */
  lemma ComesBackAtOnce(a: AuthoringTables, g: GradingTables, codec: Codec, s: Settings, now: real, token: string,
                        feedback: string, code: string, delay: real, task: string, id: string)
    requires s.Valid() && 0.0 <= now
    ensures Next(a.jobs, now) == Some(task) ==>
      Next(ReleaseAuthoring(ClaimAuthoring(a, s, now, token).0, task, token, now).0.jobs, now) == Some(task)
    ensures Next(a.jobs, now) == Some(task) ==>
      var (a', r) := RequeueAfterCritic(ClaimAuthoring(a, s, now, token).0, codec, task, token, feedback, delay, now);
      r.Success? ==> (Next(a'.jobs, now) == Some(task) <==> delay == 0.0)
    ensures Next(g.attempts, now) == Some(id) ==>
      Next(GradingRound(g, s, now, Round(token, Releases(code))).attempts, now) != Some(id)
    ensures Next(g.publications, now) == Some(id) ==>
      var (g', r) := ReleasePublication(ClaimPublication(g, s, now, token).0, id, token, code, delay, now);
      r == Success(true) ==> (Next(g'.publications, now) == Some(id) <==> delay == 0.0)
    ensures Next(g.notes, now) == Some(id) && IsHash(id) && IsHash(token) ==>
      Next(SettleNote(ClaimNote(g, s, now, token).0, id, token, Queued, now).0.notes, now) == Some(id)
  {
    JobComesBack(a, codec, s, now, token, feedback, delay, task);
    if Next(g.attempts, now) == Some(id) {
      hide IsHead;
      RoundSetsAside(g, s, now, Round(token, Releases(code)), id);
      NotEligibleNotNext(GradingRound(g, s, now, Round(token, Releases(code))).attempts, now, id);
    }
    OutboxComesBack(g, s, now, token, code, delay, id);
  }

  lemma NotEligibleNotNext<P>(t: Table<P>, now: real, id: string)
    requires id in t && !Eligible(t[id], now)
    ensures Next(t, now) != Some(id)
  {}

  lemma JobComesBack(a: AuthoringTables, codec: Codec, s: Settings, now: real, token: string, feedback: string,
      delay: real, task: string)
    requires 0.0 <= now
    ensures Next(a.jobs, now) == Some(task) ==>
      Next(ReleaseAuthoring(ClaimAuthoring(a, s, now, token).0, task, token, now).0.jobs, now) == Some(task)
    ensures Next(a.jobs, now) == Some(task) ==>
      var (a', r) := RequeueAfterCritic(ClaimAuthoring(a, s, now, token).0, codec, task, token, feedback, delay, now);
      r.Success? ==> (Next(a'.jobs, now) == Some(task) <==> delay == 0.0)
  {
    if Next(a.jobs, now) == Some(task) {
      var row := ClaimedRow(a.jobs[task], now, token, s.leaseSeconds);
      var claimed := a.jobs[task := row];
      var freed := Freed(row, Queued, now).(nextAttemptAt := now + delay);
      var back := freed.(body := freed.body.(feedback := codec.feedback(feedback)));
      assert claimed[task := Freed(row, Queued, now)] == a.jobs[task := Freed(row, Queued, now)];
      assert claimed[task := back] == a.jobs[task := back];
      hide Next, IsHead;
      QueuedAgain(a.jobs, now, task, Freed(row, Queued, now));
      QueuedAgain(a.jobs, now, task, back);
    }
  }

  lemma OutboxComesBack(g: GradingTables, s: Settings, now: real, token: string, code: string, delay: real, id: string)
    requires 0.0 <= now
    ensures Next(g.publications, now) == Some(id) ==>
      var (g', r) := ReleasePublication(ClaimPublication(g, s, now, token).0, id, token, code, delay, now);
      r == Success(true) ==> (Next(g'.publications, now) == Some(id) <==> delay == 0.0)
    ensures Next(g.notes, now) == Some(id) && IsHash(id) && IsHash(token) ==>
      Next(SettleNote(ClaimNote(g, s, now, token).0, id, token, Queued, now).0.notes, now) == Some(id)
  {
    hide IsHash, ErrorCodeValid;
    if Next(g.publications, now) == Some(id) {
      var row := ClaimedRow(g.publications[id], now, token, s.leaseSeconds);
      var back := Freed(row, Queued, now).(lastError := Some(code), nextAttemptAt := now + delay);
      assert g.publications[id := row][id := back] == g.publications[id := back];
      QueuedAgain(g.publications, now, id, back);
    }
    if Next(g.notes, now) == Some(id) {
      var row := ClaimedRow(g.notes[id], now, token, s.leaseSeconds);
      var back := Freed(row, Queued, now);
      assert g.notes[id := row][id := back] == g.notes[id := back];
      QueuedAgain(g.notes, now, id, back);
    }
  }
}
