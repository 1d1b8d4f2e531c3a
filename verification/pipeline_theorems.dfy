/** The main results about the grading pipeline: what holds in every reachable state, and what
    no run ever undoes. */
module PipelineTheorems {
  import opened Text
  import opened Leases
  import opened Results
  import opened Tables
  import opened Contracts
  import opened Pipeline
  import opened PipelineInvariant
  import opened PipelineSteps

  // ----- what no step undoes -----

  ghost predicate AsksEvolve(before: map<string, Clarification>, after: map<string, Clarification>) {
    forall n | n in before ::
      && n in after
      && after[n].(answer := None) == before[n].(answer := None)
      && (before[n].answer.Some? ==> after[n] == before[n])
  }

  /** Attempts keep their identity; a completed row never changes. */
  ghost predicate AttemptsEvolve(before: Table<Attempt>, after: Table<Attempt>) {
    forall id | id in before ::
      && id in after
      && after[id].body.(grade := None) == before[id].body.(grade := None)
      && after[id].createdAt == before[id].createdAt
      && (before[id].phase == Done ==> after[id] == before[id])
  }

  /** Outbox rows never disappear and never change their content; a delivered one never changes. */
  ghost predicate OutboxEvolve<P>(before: Table<P>, after: Table<P>) {
    forall id | id in before ::
      id in after && after[id].body == before[id].body && (before[id].phase == Done ==> after[id] == before[id])
  }

  ghost predicate GradingEvolves(g: GradingTables, g': GradingTables) {
    && AttemptsEvolve(g.attempts, g'.attempts)
    && OutboxEvolve(g.publications, g'.publications)
    && OutboxEvolve(g.notes, g'.notes)
  }

  ghost predicate AuthoringEvolves(a: AuthoringTables, a': AuthoringTables) {
    JobsEvolve(a.jobs, a'.jobs) && AsksEvolve(a.clarifications, a'.clarifications)
  }

  ghost predicate Evolves(s: State, s': State) {
    && AuthoringEvolves(s.a, s'.a)
    && GradingEvolves(s.g, s'.g)
    && VaultGrows(s.vault, s'.vault)
    && OriginGrows(s.past.origin, s'.past.origin)
    && s.past.issued <= s'.past.issued
    && s.clock <= s'.clock
  }

  lemma EvolvesReflexive(s: State)
    ensures Evolves(s, s)
  {}

  lemma EvolvesTransitive(s: State, t: State, u: State)
    requires Evolves(s, t) && Evolves(t, u)
    ensures Evolves(s, u)
  {
    JobsEvolveTransitive(s.a.jobs, t.a.jobs, u.a.jobs);
    GradingEvolvesTransitive(s.g, t.g, u.g);
    hide JobsEvolve, GradingEvolves;
  }

  lemma JobsEvolveTransitive(a: Table<Job>, b: Table<Job>, c: Table<Job>)
    requires JobsEvolve(a, b) && JobsEvolve(b, c)
    ensures JobsEvolve(a, c)
  {}

  lemma GradingEvolvesTransitive(a: GradingTables, b: GradingTables, c: GradingTables)
    requires GradingEvolves(a, b) && GradingEvolves(b, c)
    ensures GradingEvolves(a, c)
  {}

  // ----- one step evolves -----

  lemma OutboxWriteEvolves<P>(t: Table<P>, id: string, r: Row<P>)
    requires id in t ==> r.body == t[id].body && t[id].phase != Done
    ensures OutboxEvolve(t, t[id := r]) && OutboxEvolve(t, t)
  {}

  lemma AttemptWriteEvolves(t: Table<Attempt>, id: string, r: Row<Attempt>)
    requires id in t ==>
      && r.body.(grade := None) == t[id].body.(grade := None) && r.createdAt == t[id].createdAt && t[id].phase != Done
    ensures AttemptsEvolve(t, t[id := r]) && AttemptsEvolve(t, t)
  {}

  lemma GradingEvolvesReflexive(g: GradingTables)
    ensures GradingEvolves(g, g) && OutboxEvolve(g.publications, g.publications) && OutboxEvolve(g.notes, g.notes)
    ensures AttemptsEvolve(g.attempts, g.attempts)
  {}

  lemma GradingClaimsEvolve(g: GradingTables, st: Settings, now: real, token: string)
    ensures GradingEvolves(g, ClaimGrading(g, st, now, token).0)
    ensures GradingEvolves(g, ClaimPublication(g, st, now, token).0)
    ensures GradingEvolves(g, ClaimNote(g, st, now, token).0)
  {
    hide AttemptsEvolve, OutboxEvolve;
    GradingEvolvesReflexive(g);
    match Next(g.attempts, now) {
      case Some(id) => AttemptWriteEvolves(g.attempts, id, ClaimedRow(g.attempts[id], now, token, st.leaseSeconds));
      case None =>
    }
    match Next(g.publications, now) {
      case Some(id) => OutboxWriteEvolves(g.publications, id, ClaimedRow(g.publications[id], now, token, st.leaseSeconds));
      case None =>
    }
    match Next(g.notes, now) {
      case Some(id) => OutboxWriteEvolves(g.notes, id, ClaimedRow(g.notes[id], now, token, st.leaseSeconds));
      case None =>
    }
  }

  lemma ReleaseGradingEvolves(g: GradingTables, st: Settings, id: string, token: string, code: string, now: real)
    ensures GradingEvolves(g, ReleaseGrading(g, st, id, token, code, now).0)
  {
    hide ErrorCodeValid, RetryDelay, AttemptsEvolve, OutboxEvolve;
    GradingEvolvesReflexive(g);
    if Owns(g.attempts, id, token) { AttemptWriteEvolves(g.attempts, id, ReleasedAttempt(g.attempts[id], st, code, now)); }
  }

  lemma PublicationSettleEvolves(g: GradingTables, id: string, token: string, code: string, delay: real, now: real)
    ensures GradingEvolves(g, CompletePublication(g, id, token, now).0)
    ensures GradingEvolves(g, ReleasePublication(g, id, token, code, delay, now).0)
  {
    hide ErrorCodeValid, AttemptsEvolve, OutboxEvolve;
    GradingEvolvesReflexive(g);
    if Owns(g.publications, id, token) {
      var row := Freed(g.publications[id], Queued, now).(lastError := Some(code), nextAttemptAt := now + delay);
      OutboxWriteEvolves(g.publications, id, row);
      OutboxWriteEvolves(g.publications, id, Freed(g.publications[id], Done, now));
    }
  }

  lemma NoteSettleEvolves(g: GradingTables, id: string, token: string, phase: Phase, now: real)
    ensures GradingEvolves(g, SettleNote(g, id, token, phase, now).0)
  {
    hide IsHash, AttemptsEvolve, OutboxEvolve;
    GradingEvolvesReflexive(g);
    if Owns(g.notes, id, token) { OutboxWriteEvolves(g.notes, id, Freed(g.notes[id], phase, now)); }
  }

  lemma MigrateEvolves(g: GradingTables, now: real)
    ensures GradingEvolves(g, RequeueFailed(g, now))
  {
    hide OutboxEvolve;
    GradingEvolvesReflexive(g);
  }

  lemma EnqueueGradingEvolves(
    g: GradingTables, codec: Codec, now: real, task: string, project: string, branch: string, commit: string, hash: string)
    ensures GradingEvolves(g, EnqueueGrading(g, codec, now, task, project, branch, commit, hash).0)
  {
    hide AttemptsEvolve, OutboxEvolve, EnqueueGrading;
    GradingEvolvesReflexive(g);
    var id, row := EnqueueGradingAdds(g, codec, now, task, project, branch, commit, hash);
    if id !in g.attempts { AttemptWriteEvolves(g.attempts, id, row); }
  }

  lemma CompleteGradingEvolves(g: GradingTables, id: string, token: Option<string>, grade: Grade, now: real)
    ensures GradingEvolves(g, CompleteGrading(g, id, token, grade, now).0)
  {
    hide CountsValid, ReportValid, IsHash, AttemptsEvolve, OutboxEvolve;
    GradingEvolvesReflexive(g);
    if token.Some? && Owns(g.attempts, id, token.value) {
      var body := g.attempts[id].body.(grade := Some(grade));
      AttemptWriteEvolves(g.attempts, id, Freed(g.attempts[id], Done, now).(body := body));
      if id !in g.publications {
        OutboxWriteEvolves(g.publications, id, NewRow(Publication(body.commit, grade.passed), now));
      }
      if id !in g.notes {
        OutboxWriteEvolves(g.notes, id, NewRow(Note(body.taskId, body.commit, grade.report), now));
      }
    }
  }

  lemma AskStepEvolves(s: State, w: nat, held: Held<Job>, ask: string, nonce: string)
    ensures AsksEvolve(s.a.clarifications, StepAuthorAsk(s, w, held, ask, nonce).a.clarifications)
  {
    hide BoundedText, RevisionTaken;
  }

  lemma AnswerEvolves(s: State, nonce: string, revision: int, text: string)
    ensures AsksEvolve(s.a.clarifications, StepAnswer(s, nonce, revision, text).a.clarifications)
  {
    hide BoundedText;
  }

  lemma SettleAsks(c: Config, s: State, w: nat, nonce: string, fault: Fault)
    ensures AsksEvolve(s.a.clarifications, StepAuthorSettle(c, s, w, nonce, fault).a.clarifications)
    ensures var s' := StepAuthorSettle(c, s, w, nonce, fault); s'.g == s.g && s'.clock == s.clock
    ensures s.past.issued <= StepAuthorSettle(c, s, w, nonce, fault).past.issued
  {
    match AuthorOf(s, w)
    case Asking(held, ask) => AskStepEvolves(s, w, held, ask, nonce);
    case Refused(held, feedback, code) => RefuseFrame(c, s.a, s.clock, held, feedback, code);
    case Accepted(held, evidence) => FinalizeFrame(c, s, w, held, evidence, fault);
    case _ =>
  }

  lemma RefuseFrame(c: Config, a: AuthoringTables, clock: real, held: Held<Job>, feedback: string, code: string)
    ensures RejectOrRetry(c, a, clock, held, feedback, code).0.clarifications == a.clarifications
    ensures Handled(c, a, clock, held).clarifications == a.clarifications
  {
    hide ErrorCodeValid;
  }

  lemma FinalizeFrame(c: Config, s: State, w: nat, held: Held<Job>, evidence: Evidence, fault: Fault)
    ensures
      var s' := StepAuthorFinalize(c, s, w, held, evidence, fault);
      s'.a.clarifications == s.a.clarifications && s'.g == s.g && s'.clock == s.clock && s'.past.issued == s.past.issued
  {
    hide Freeze, IsHash, ToPayload;
  }

  /** Every event keeps the invariant and undoes nothing. */
  lemma StepKeeps(c: Config, s: State, e: Event)
    requires Inv(c, s)
    ensures Inv(c, Step(c, s, e)) && Evolves(s, Step(c, s, e))
  {
    hide Inv, Evolves, AuthorStep, GraderStep, PublisherStep, BotStep, OutsideStep;
    if IsAuthorEvent(e) {
      AuthorStepKeeps(c, s, e);
    } else if IsGraderEvent(e) {
      GraderStepKeeps(c, s, e);
    } else if IsPublisherEvent(e) {
      PublisherStepKeeps(c, s, e);
    } else if IsBotEvent(e) {
      BotStepKeeps(c, s, e);
    } else {
      OutsideStepKeeps(c, s, e);
    }
  }

  lemma AuthorStepKeeps(c: Config, s: State, e: Event)
    requires Inv(c, s) && IsAuthorEvent(e)
    ensures Inv(c, AuthorStep(c, s, e)) && Evolves(s, AuthorStep(c, s, e))
  {
    hide Inv, JobsEvolve, AsksEvolve, GradingEvolves, VaultGrows, OriginGrows, StepAuthorSettle, ClaimAuthoring, AfterDraft,
         AfterReview, AfterGate, Handled;
    EvolvesReflexive(s);
    match e
    case AuthorClaim(w, token) => AuthorClaimKeeps(c, s, w, token); AuthorClaimFrame(s.a, c.settings, s.clock, token);
    case AuthorDraft(w, output) => AuthorDraftKeeps(c, s, w, output);
    case AuthorReview(w, verdict) => AuthorReviewKeeps(c, s, w, verdict);
    case AuthorGate(w, runs) => AuthorGateKeeps(c, s, w, runs);
    case AuthorSettle(w, nonce, fault) => AuthorSettleKeeps(c, s, w, nonce, fault); SettleAsks(c, s, w, nonce, fault);
    case AuthorHandle(w) =>
      AuthorHandleKeeps(c, s, w);
      if AuthorOf(s, w).Raised? { RefuseFrame(c, s.a, s.clock, AuthorOf(s, w).held, "", ""); }
    case AuthorCrash(w) => IdleAuthorOk(c, s); SetAuthorKeeps(c, s, w, AuthorIdle);
  }

  lemma AuthorClaimFrame(a: AuthoringTables, st: Settings, now: real, token: string)
    ensures ClaimAuthoring(a, st, now, token).0.clarifications == a.clarifications
  {}

  lemma IdleAuthorOk(c: Config, s: State)
    ensures AuthorOk(c, s.a.jobs, s.past.issued, AuthorIdle)
  {}

  lemma GraderStepKeeps(c: Config, s: State, e: Event)
    requires Inv(c, s) && IsGraderEvent(e)
    ensures Inv(c, GraderStep(c, s, e)) && Evolves(s, GraderStep(c, s, e))
  {
    hide Inv, AuthoringEvolves, GradingEvolves, VaultGrows, OriginGrows, ClaimGrading, CompleteGrading,
         ReleaseGrading, Evaluation;
    EvolvesReflexive(s);
    match e
    case GraderClaim(w, token) => GraderClaimKeeps(c, s, w, token); GradingClaimsEvolve(s.g, c.settings, s.clock, token);
    case GraderEvaluate(w, result) => GraderEvaluateKeeps(c, s, w, result);
    case GraderComplete(w) =>
      GraderCompleteKeeps(c, s, w);
      if GraderOf(s, w).Graded? {
        var held := GraderOf(s, w).held;
        CompleteGradingEvolves(s.g, held.id, Some(held.token), GraderOf(s, w).grade, s.clock);
      }
    case GraderHandle(w) =>
      GraderHandleKeeps(c, s, w);
      if GraderOf(s, w).GradingRaised? {
        var held := GraderOf(s, w).held;
        ReleaseGradingEvolves(s.g, c.settings, held.id, held.token, "grading-infrastructure-failure", s.clock);
      }
    case GraderCrash(w) => SetGraderKeeps(c, s, w, GraderIdle);
  }

  lemma PublisherStepKeeps(c: Config, s: State, e: Event)
    requires Inv(c, s) && IsPublisherEvent(e)
    ensures Inv(c, PublisherStep(c, s, e)) && Evolves(s, PublisherStep(c, s, e))
  {
    hide Inv, AuthoringEvolves, GradingEvolves, VaultGrows, OriginGrows, ClaimPublication, CompletePublication,
         ReleasePublication;
    EvolvesReflexive(s);
    match e
    case PublisherClaim(w, token) => PublisherClaimKeeps(c, s, w, token); GradingClaimsEvolve(s.g, c.settings, s.clock, token);
    case PublisherSend(w, ok) => PublisherSendKeeps(c, s, w, ok);
    case PublisherSettle(w) =>
      PublisherSettleKeeps(c, s, w);
      var p := PublisherOf(s, w);
      if !p.CourierIdle? {
        PublicationSettleEvolves(s.g, p.held.id, p.held.token, "check-publication-failure", 30.0, s.clock);
      }
    case PublisherCrash(w) => SetPublisherKeeps(c, s, w, CourierIdle);
  }

  lemma BotStepKeeps(c: Config, s: State, e: Event)
    requires Inv(c, s) && IsBotEvent(e)
    ensures Inv(c, BotStep(c, s, e)) && Evolves(s, BotStep(c, s, e))
  {
    hide Inv, AuthoringEvolves, GradingEvolves, VaultGrows, OriginGrows, ClaimNote, SettleNote;
    EvolvesReflexive(s);
    match e
    case BotClaim(w, token) => BotClaimKeeps(c, s, w, token); GradingClaimsEvolve(s.g, c.settings, s.clock, token);
    case BotSend(w, ok) => BotSendKeeps(c, s, w, ok);
    case BotSettle(w) =>
      BotSettleKeeps(c, s, w);
      var b := BotOf(s, w);
      if !b.CourierIdle? {
        NoteSettleEvolves(s.g, b.held.id, b.held.token, Done, s.clock);
        NoteSettleEvolves(s.g, b.held.id, b.held.token, Queued, s.clock);
      }
    case BotCrash(w) => SetBotKeeps(c, s, w, CourierIdle);
  }

  lemma OutsideStepKeeps(c: Config, s: State, e: Event)
    requires Inv(c, s) && !IsAuthorEvent(e) && !IsGraderEvent(e) && !IsPublisherEvent(e) && !IsBotEvent(e)
    ensures Inv(c, OutsideStep(c, s, e)) && Evolves(s, OutsideStep(c, s, e))
  {
    hide Inv, JobsEvolve, AsksEvolve, GradingEvolves, VaultGrows, OriginGrows, EnqueueAuthoring, AnswerClarification,
         EnqueueGrading, RequeueFailed, AnswerApplies;
    EvolvesReflexive(s);
    match e
    case Tick(now) => TickKeeps(c, s, now);
    case Migrate => MigrateKeeps(c, s); MigrateEvolves(s.g, s.clock);
    case EnsureSuite(_, _, _, _, _, _) =>
      EnsureKeeps(c, s, e);
      EnsureFrame(s.a, c.codec, s.clock, e.task, e.rowId, e.project, e.branch, e.starter, e.assignment);
    case Answer(nonce, revision, text) => AnswerKeeps(c, s, nonce, revision, text); AnswerEvolves(s, nonce, revision, text);
    case PushLook(_, _, _, _, _) => PushLookKeeps(c, s, e);
    case PushWrite(p) =>
      PushWriteKeeps(c, s, p);
      var push := PushOf(s, p);
      if push.PushRead? {
        EnqueueGradingEvolves(
          s.g, c.codec, s.clock, push.task, push.project, push.branch, push.commit, push.suiteHash);
      }
  }

  lemma TickKeeps(c: Config, s: State, now: real)
    requires Inv(c, s)
    ensures Inv(c, s.(clock := now))
  {
    hide LeasesOk, JobsOk, VaultOk, AttemptsOk, OutboxOk, ClarificationsOk, AuthorsOk, GradersOk, CouriersOk, PushesOk;
  }

  lemma EnsureFrame(
    a: AuthoringTables, codec: Codec, now: real,
    task: string, rowId: string, project: string, branch: string, starter: string, assignment: string)
    ensures EnqueueAuthoring(a, codec, now, task, rowId, project, branch, starter, assignment).0.clarifications == a.clarifications
  {
    hide IdentityValid, RowTaken, BranchTaken;
  }

  // ----- runs -----

  lemma {:induction false} RunKeeps(c: Config, s: State, events: seq<Event>)
    requires Inv(c, s)
    ensures Inv(c, Run(c, s, events)) && Evolves(s, Run(c, s, events))
    decreases events
  {
    hide Inv, Evolves, Step;
    if events == [] {
      EvolvesReflexive(s);
    } else {
      var next := Step(c, s, events[0]);
      StepKeeps(c, s, events[0]);
      RunKeeps(c, next, events[1..]);
      EvolvesTransitive(s, next, Run(c, next, events[1..]));
    }
  }

  lemma EmptyInv(c: Config)
    ensures Inv(c, EMPTY)
  {}

  lemma {:induction false} RunAppend(c: Config, s: State, first: seq<Event>, second: seq<Event>)
    ensures Run(c, s, first + second) == Run(c, Run(c, s, first), second)
    decreases first
  {
    hide Step;
    if first == [] {
      assert first + second == second;
    } else {
      assert (first + second)[1..] == first[1..] + second;
      RunAppend(c, Step(c, s, first[0]), first[1..], second);
    }
  }

  // ----- main theorems -----

  /** In every reachable state a ready job carries the hash and starter of its vault entry, and
      the entry is the payload of a suite that was parsed, approved by the critic and accepted by
      the gate on two complete equal runs exposing a real failure. */
  lemma ReadyMeansFrozenAndSound(c: Config, events: seq<Event>, task: string)
    ensures
      var s := Run(c, EMPTY, events);
      task in s.a.jobs && s.a.jobs[task].phase == Done ==>
        && task in s.vault && task in s.past.origin
        && s.a.jobs[task].body.suiteHash == Some(s.vault[task].suiteHash)
        && s.vault[task].starterSha == s.a.jobs[task].body.starterSha
        && s.vault[task].suiteHash == c.codec.suiteDigest(ToPayload(s.past.origin[task].suite))
        && Sound(c, s.past.origin[task])
  {
    hide LeasesOk, AttemptsOk, OutboxOk, ClarificationsOk, AuthorsOk, GradersOk, CouriersOk, PushesOk, Sound, IdentityValid,
         ToPayload, Step;
    EmptyInv(c);
    RunKeeps(c, EMPTY, events);
  }

  /** Once ready, always ready with the same hash; a vault entry never changes; a failed job
      stays failed; an orphaned entry (frozen, then the commit was lost) still decides the only
      suite the job can ever become ready with. */
  lemma ReadyIsForever(c: Config, before: seq<Event>, after: seq<Event>, task: string)
    ensures
      var s, s' := Run(c, EMPTY, before), Run(c, EMPTY, before + after);
      && (task in s.a.jobs && (s.a.jobs[task].phase == Done || s.a.jobs[task].phase == Phase.Failed) ==>
            task in s'.a.jobs && s'.a.jobs[task] == s.a.jobs[task])
      && (task in s.vault ==> task in s'.vault && s'.vault[task] == s.vault[task])
      && (task in s.vault && task in s'.a.jobs && s'.a.jobs[task].phase == Done ==>
            s'.a.jobs[task].body.suiteHash == Some(s.vault[task].suiteHash))
  {
    hide Inv, GradingEvolves, OriginGrows, AsksEvolve, Step, Sound;
    EmptyInv(c);
    RunKeeps(c, EMPTY, before);
    RunAppend(c, EMPTY, before, after);
    RunKeeps(c, Run(c, EMPTY, before), after);
    ReadyMeansFrozenAndSound(c, before + after, task);
  }

  /** An attempt is completed exactly when one publication and one notification carry its ID, and
      they carry its commit, verdict and report. (IDs are primary keys.) */
  lemma OutboxExact(c: Config, events: seq<Event>, id: string)
    ensures
      var g := Run(c, EMPTY, events).g;
      && (id in g.attempts && g.attempts[id].phase == Done <==> id in g.publications)
      && (id in g.publications <==> id in g.notes)
      && (id in g.publications ==>
            && g.attempts[id].body.grade.Some?
            && g.publications[id].body == Publication(g.attempts[id].body.commit, g.attempts[id].body.grade.value.passed)
            && g.notes[id].body
               == Note(g.attempts[id].body.taskId, g.attempts[id].body.commit, g.attempts[id].body.grade.value.report))
  {
    hide LeasesOk, JobsOk, VaultOk, AttemptsOk, ClarificationsOk, AuthorsOk, GradersOk, CouriersOk, PushesOk, Step;
    EmptyInv(c);
    RunKeeps(c, EMPTY, events);
  }

  /** No later crash, reclaim or retry changes a completed result or loses an outbox row. */
  lemma OutboxIsForever(c: Config, before: seq<Event>, after: seq<Event>, id: string)
    ensures
      var g, g' := Run(c, EMPTY, before).g, Run(c, EMPTY, before + after).g;
      && (id in g.attempts && g.attempts[id].phase == Done ==> id in g'.attempts && g'.attempts[id] == g.attempts[id])
      && (id in g.publications ==> id in g'.publications && g'.publications[id].body == g.publications[id].body)
      && (id in g.notes ==> id in g'.notes && g'.notes[id].body == g.notes[id].body)
      && (id in g.publications && g.publications[id].phase == Done ==> g'.publications[id] == g.publications[id])
      && (id in g.notes && g.notes[id].phase == Done ==> g'.notes[id] == g.notes[id])
  {
    hide Inv, AuthoringEvolves, OriginGrows, VaultGrows, Step;
    EmptyInv(c);
    RunKeeps(c, EMPTY, before);
    RunAppend(c, EMPTY, before, after);
    RunKeeps(c, Run(c, EMPTY, before), after);
  }

  /** For every attempt, loading the vault succeeds with the attempt's hash, and parsing the stored payload gives
      back the approved suite. A stored grade summarises a result of exactly that suite. */
  lemma GradingUsesApprovedSuite(c: Config, events: seq<Event>, id: string)
    ensures
      var s := Run(c, EMPTY, events);
      id in s.g.attempts ==>
        var a := s.g.attempts[id].body;
        var loaded := Load(s.vault, c.codec, a.taskId);
        && loaded.Success? && loaded.value.suiteHash == a.suiteHash
        && a.taskId in s.past.origin && Sound(c, s.past.origin[a.taskId])
        && Parse(loaded.value.payload, c.codec.valueBytes) == Some(s.past.origin[a.taskId].suite)
        && (a.grade.Some? ==> GradeSound(s.past.origin, a.taskId, a.grade.value))
  {
    EmptyInv(c);
    RunKeeps(c, EMPTY, events);
    AttemptLoads(c, Run(c, EMPTY, events), id);
  }

  /** So grading an attempt gives a grade exactly if the printed suite is within the parser's limit and the
      executor reports the cases of the approved suite, each once. */
  lemma GradingFailsExactly(c: Config, events: seq<Event>, id: string, result: Option<SuiteResult>)
    ensures
      var s := Run(c, EMPTY, events);
      id in s.g.attempts ==>
        var a := s.g.attempts[id].body;
        && a.taskId in s.past.origin && a.taskId in s.vault
        && (Evaluation(c, s.vault, a, result).Some? <==>
              c.codec.suiteText(s.vault[a.taskId].payload) <= MAX_OUTPUT
              && result.Some? && Matches(s.past.origin[a.taskId].suite, result.value))
  {
    hide Run, Load, Parse, Summarize, Matches, GradeSound, DetectsDefect, AcceptedAs, ToPayload, ReadySuite, Faithful;
    GradingUsesApprovedSuite(c, events, id);
    var s := Run(c, EMPTY, events);
    if id in s.g.attempts {
      var a := s.g.attempts[id].body;
      var payload := Load(s.vault, c.codec, a.taskId).value.payload;
      LoadedIs(s.vault, c.codec, a.taskId);
      if result.Some? {
        ParsedReadySuite(payload, c.codec.valueBytes, s.past.origin[a.taskId].suite);
        SummaryFaithful(s.past.origin[a.taskId].suite, result.value);
      }
    }
  }

  lemma LoadedIs(vault: Vault, codec: Codec, task: string)
    requires Load(vault, codec, task).Success?
    ensures task in vault && Load(vault, codec, task).value.payload == vault[task].payload
  {}

  lemma AttemptLoads(c: Config, s: State, id: string)
    requires Inv(c, s)
    ensures
      id in s.g.attempts ==>
        var a := s.g.attempts[id].body;
        var loaded := Load(s.vault, c.codec, a.taskId);
        && loaded.Success? && loaded.value.suiteHash == a.suiteHash
        && a.taskId in s.past.origin && Sound(c, s.past.origin[a.taskId])
        && Parse(loaded.value.payload, c.codec.valueBytes) == Some(s.past.origin[a.taskId].suite)
        && (a.grade.Some? ==> GradeSound(s.past.origin, a.taskId, a.grade.value))
  {
    hide LeasesOk, OutboxOk, ClarificationsOk, AuthorsOk, GradersOk, CouriersOk, PushesOk, GradeSound, ToPayload,
         DetectsDefect, AcceptedAs, IsTaskId, IsKey, IsBranch, IsSha;
    if id in s.g.attempts {
      assert AttemptOk(c, s.a.jobs, s.past.origin, id, s.g.attempts[id]);
      var task := s.g.attempts[id].body.taskId;
      assert Frozen(s.vault, task, s.a.jobs[task].body);
      assert EntryOk(c, task, s.a.jobs[task].body.starterSha, s.vault[task], s.past.origin[task]);
      var o := s.past.origin[task];
      PayloadRoundTrip(o.output, c.codec.valueBytes, o.suite);
    }
  }

  /** A task's clarifications carry revisions 1..n once each; at most one is pending, exactly when
      the job waits for an answer, and it is the latest; every stored answer was applied to its
      job exactly once, however often it was submitted. */
  lemma ClarificationProtocol(c: Config, events: seq<Event>, task: string, nonce: string, revision: nat)
    ensures
      var s := Run(c, EMPTY, events);
      && (task in s.a.jobs && 1 <= revision <= s.a.jobs[task].body.revision ==>
            exists n | n in s.a.clarifications ::
              && s.a.clarifications[n].taskId == task && s.a.clarifications[n].revision == revision
              && forall m | m in s.a.clarifications ::
                   s.a.clarifications[m].taskId == task && s.a.clarifications[m].revision == revision ==> m == n)
      && (nonce in s.a.clarifications ==>
            var row := s.a.clarifications[nonce];
            && row.taskId in s.a.jobs && 1 <= row.revision <= s.a.jobs[row.taskId].body.revision
            && (row.Pending() <==>
                  s.a.jobs[row.taskId].phase == Waiting && s.a.jobs[row.taskId].body.revision == row.revision)
            && Applied(s.past.applied, nonce) == (if row.Pending() then 0 else 1))
      && (task in s.a.jobs && s.a.jobs[task].phase == Waiting ==> 1 <= s.a.jobs[task].body.revision)
  {
    hide LeasesOk, JobsOk, VaultOk, AttemptsOk, OutboxOk, AuthorsOk, GradersOk, CouriersOk, PushesOk, Step;
    EmptyInv(c);
    RunKeeps(c, EMPTY, events);
    var s := Run(c, EMPTY, events);
    if task in s.a.jobs && 1 <= revision <= s.a.jobs[task].body.revision {
      assert RevisionTaken(s.a.clarifications, task, revision);
      var n :| n in s.a.clarifications && s.a.clarifications[n].taskId == task && s.a.clarifications[n].revision == revision;
    }
  }

  /** A stored answer never changes. */
  lemma AnswersAreForever(c: Config, before: seq<Event>, after: seq<Event>, nonce: string)
    ensures
      var s, s' := Run(c, EMPTY, before), Run(c, EMPTY, before + after);
      nonce in s.a.clarifications && s.a.clarifications[nonce].answer.Some? ==>
        nonce in s'.a.clarifications && s'.a.clarifications[nonce] == s.a.clarifications[nonce]
  {
    hide Inv, JobsEvolve, GradingEvolves, OriginGrows, VaultGrows, Step;
    EmptyInv(c);
    RunKeeps(c, EMPTY, before);
    RunAppend(c, EMPTY, before, after);
    RunKeeps(c, Run(c, EMPTY, before), after);
  }
}
