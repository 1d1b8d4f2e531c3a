/** The grading queue over time: no attempt is lost, retries back off within bounds, and draining
    the queue hands out every eligible attempt once, in order. */
module GradingQueue {
  import opened Text
  import opened Leases
  import opened Results
  import opened Tables
  import opened Pipeline
  import opened PipelineSteps
  import opened Fencing

  // ----- retry delays -----

  lemma {:induction false} DoubledGrows(base: real, j: nat, k: nat)
    requires 0.0 < base && j <= k
    ensures base <= Doubled(base, j) <= Doubled(base, k)
    decreases k
  {
    if j < k { DoubledGrows(base, j, k - 1); } else if 0 < k { DoubledGrows(base, j - 1, k - 1); }
  }

  /** Between two resets of the attempt count the delay never shrinks; it always lies between the
      configured base and one hour. */
  lemma RetryDelayBacksOff(s: Settings, j: nat, k: nat)
    requires s.Valid() && j <= k
    ensures s.retryBase <= RetryDelay(s, j) <= RetryDelay(s, k) <= 3600.0
  {
    DoubledGrows(s.retryBase, if j == 0 then 0 else j - 1, if k == 0 then 0 else k - 1);
  }

  /** From one attempt to the next the delay doubles, up to an hour; the first retry waits the base. */
  lemma RetryDelayDoubles(s: Settings, k: nat)
    requires s.Valid() && 1 <= k
    ensures 1 < s.maxGradingAttempts ==> RetryDelay(s, 1) == s.retryBase
    ensures k + 1 < s.maxGradingAttempts ==> RetryDelay(s, k + 1) == MinReal(2.0 * RetryDelay(s, k), 3600.0)
    ensures s.maxGradingAttempts <= k ==> RetryDelay(s, k) == 3600.0
  {
    assert Doubled(s.retryBase, k) == 2.0 * Doubled(s.retryBase, k - 1);
  }

  // ----- no attempt is lost -----

  function MaxReal(a: real, b: real): real { if a <= b then b else a }

  /** `legacy` allows rows that an earlier version left `failed`. */
  predicate AttemptTimed(r: Row<Attempt>, s: Settings, clock: real, legacy: bool) {
    && 0.0 <= r.updatedAt <= clock
    && (r.phase == Queued ==> r.attempts < s.maxGradingAttempts && r.nextAttemptAt <= r.updatedAt + 3600.0)
    && (r.phase == Leased ==> r.expiresAt == Some(r.updatedAt + s.leaseSeconds))
    && r.phase != Waiting
    && (r.phase == Phase.Failed ==> legacy)
  }

  ghost predicate Timed(attempts: Table<Attempt>, s: Settings, clock: real, legacy: bool) {
    0.0 <= clock && forall id | id in attempts :: AttemptTimed(attempts[id], s, clock, legacy)
  }

  lemma TimedWrite(attempts: Table<Attempt>, s: Settings, clock: real, legacy: bool, id: string, r: Row<Attempt>)
    requires Timed(attempts, s, clock, legacy) && AttemptTimed(r, s, clock, legacy)
    ensures Timed(attempts[id := r], s, clock, legacy)
  {}

  lemma ReleasedIsTimed(r: Row<Attempt>, s: Settings, code: string, now: real, legacy: bool)
    requires s.Valid() && 0.0 <= now
    ensures AttemptTimed(ReleasedAttempt(r, s, code, now), s, now, legacy)
  {
    RetryDelayBacksOff(s, r.attempts, r.attempts);
  }

  lemma GraderKeepsTimed(c: Config, s: State, e: Event, legacy: bool)
    requires c.settings.Valid() && IsGraderEvent(e) && Timed(s.g.attempts, c.settings, s.clock, legacy)
    ensures Timed(GraderStep(c, s, e).g.attempts, c.settings, GraderStep(c, s, e).clock, legacy)
  {
    hide Evaluation, RetryDelay, IsHash, CountsValid, ReportValid, ErrorCodeValid, InsertOrIgnore, ReleasedAttempt,
         Timed;
    match e
    case GraderClaim(w, token) =>
      var next := Next(s.g.attempts, s.clock);
      if next.Some? {
        var row := ClaimedRow(s.g.attempts[next.value], s.clock, token, c.settings.leaseSeconds);
        assert 0.0 <= s.clock by { TimedClock(s.g.attempts, c.settings, s.clock, legacy); }
        TimedWrite(s.g.attempts, c.settings, s.clock, legacy, next.value, row);
      }
    case GraderEvaluate(w, result) =>
    case GraderComplete(w) =>
      var g := GraderOf(s, w);
      if g.Graded? && Owns(s.g.attempts, g.held.id, g.held.token) {
        var row := s.g.attempts[g.held.id];
        assert 0.0 <= s.clock by { TimedClock(s.g.attempts, c.settings, s.clock, legacy); }
        TimedWrite(s.g.attempts, c.settings, s.clock, legacy, g.held.id, Freed(row, Done, s.clock).(body := row.body.(grade := Some(g.grade))));
      }
    case GraderHandle(w) =>
      var g := GraderOf(s, w);
      if g.GradingRaised? && Owns(s.g.attempts, g.held.id, g.held.token) {
        var row := s.g.attempts[g.held.id];
        TimedClock(s.g.attempts, c.settings, s.clock, legacy);
        ReleasedIsTimed(row, c.settings, "grading-infrastructure-failure", s.clock, legacy);
        TimedWrite(s.g.attempts, c.settings, s.clock, legacy, g.held.id,
                   ReleasedAttempt(row, c.settings, "grading-infrastructure-failure", s.clock));
      }
    case GraderCrash(w) =>
  }

  lemma TimedClock(attempts: Table<Attempt>, s: Settings, clock: real, legacy: bool)
    requires Timed(attempts, s, clock, legacy)
    ensures 0.0 <= clock
  {}

  lemma OutsideKeepsTimed(c: Config, s: State, e: Event, legacy: bool)
    requires c.settings.Valid() && Timed(s.g.attempts, c.settings, s.clock, legacy)
    requires !IsAuthorEvent(e) && !IsGraderEvent(e) && !IsPublisherEvent(e) && !IsBotEvent(e)
    ensures Timed(OutsideStep(c, s, e).g.attempts, c.settings, OutsideStep(c, s, e).clock, legacy)
  {
    hide EnqueueAuthoring, AnswerClarification, AnswerApplies, EnqueueGrading;
    match e
    case PushWrite(p) =>
      var push := PushOf(s, p);
      if push.PushRead? {
        var id, row := EnqueueGradingAdds(s.g, c.codec, s.clock, push.task, push.project, push.branch, push.commit, push.suiteHash);
      }
    case _ =>
  }

  lemma StepKeepsTimed(c: Config, s: State, e: Event, legacy: bool)
    requires c.settings.Valid() && Timed(s.g.attempts, c.settings, s.clock, legacy)
    ensures Timed(Step(c, s, e).g.attempts, c.settings, Step(c, s, e).clock, legacy)
  {
    hide Timed, AuthorStep, GraderStep, PublisherStep, BotStep, OutsideStep;
    if IsAuthorEvent(e) {
      AuthorEventFrame(c, s, e);
    } else if IsGraderEvent(e) {
      GraderKeepsTimed(c, s, e, legacy);
    } else if IsPublisherEvent(e) {
      PublisherEventFrame(c, s, e);
    } else if IsBotEvent(e) {
      BotEventFrame(c, s, e);
    } else {
      OutsideKeepsTimed(c, s, e, legacy);
    }
  }

  lemma {:induction false} RunKeepsTimed(c: Config, s: State, events: seq<Event>, legacy: bool)
    requires c.settings.Valid() && Timed(s.g.attempts, c.settings, s.clock, legacy)
    ensures var s' := Run(c, s, events); Timed(s'.g.attempts, c.settings, s'.clock, legacy)
    decreases events
  {
    hide Timed, Step;
    if events != [] {
      StepKeepsTimed(c, s, events[0], legacy);
      RunKeepsTimed(c, Step(c, s, events[0]), events[1..], legacy);
    }
  }

  lemma MigrateCures(c: Config, s: State)
    requires c.settings.Valid() && Timed(s.g.attempts, c.settings, s.clock, true)
    ensures var s' := Step(c, s, Migrate); Timed(s'.g.attempts, c.settings, s'.clock, false)
  {}

  /** No grading attempt is lost. Once the service has started on any well-timed database, then after
      any run an attempt that is not completed can be claimed no later than the longer of an hour
      and the lease time after its last update, and a queued one has attempts left. */
  lemma NoAttemptIsLost(c: Config, s: State, events: seq<Event>, id: string, now: real)
    requires c.settings.Valid() && Timed(s.g.attempts, c.settings, s.clock, true)
    ensures
      var attempts := Run(c, Step(c, s, Migrate), events).g.attempts;
      id in attempts && attempts[id].phase != Done ==>
        && (attempts[id].phase == Queued ==> attempts[id].attempts < c.settings.maxGradingAttempts)
        && (attempts[id].updatedAt + MaxReal(3600.0, c.settings.leaseSeconds) <= now ==> Eligible(attempts[id], now))
  {
    hide Step;
    MigrateCures(c, s);
    RunKeepsTimed(c, Step(c, s, Migrate), events, false);
  }
}
