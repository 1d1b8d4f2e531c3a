/** What an author is told over whole runs: the question and answer of the job's current revision, and
    nothing else; and what becomes of a job whose author gave up. */
module AuthoringTheorems {
  import opened Text
  import opened Leases
  import opened Results
  import opened Tables
  import opened Contracts
  import opened Pipeline
  import opened PipelineInvariant
  import opened PipelineTheorems
  import opened Fencing
  import Json

  /** The job's columns repeat its current revision's clarification; a job that never asked has none. */
  ghost predicate Told(jobs: Table<Job>, asked: map<string, Clarification>) {
    && (forall n | n in asked && asked[n].taskId in jobs && asked[n].revision == jobs[asked[n].taskId].body.revision ::
          && jobs[asked[n].taskId].body.question == Some(asked[n].question)
          && jobs[asked[n].taskId].body.answer == asked[n].answer)
    && (forall t | t in jobs && jobs[t].body.revision == 0 :: jobs[t].body.question.None? && jobs[t].body.answer.None?)
  }

  /** Only a job that used up its attempts failed. */
  ghost predicate FailedOk(c: Config, jobs: Table<Job>) {
    forall t | t in jobs && jobs[t].phase == Phase.Failed :: c.maxAuthorAttempts <= jobs[t].attempts
  }

  /** An author that still owns its job holds the row's content. */
  ghost predicate HoldsRow(jobs: Table<Job>, author: Author) {
    !author.AuthorIdle? && Owns(jobs, author.held.id, author.held.token) ==>
      author.held.body == jobs[author.held.id].body && author.held.attempts == jobs[author.held.id].attempts
  }

  ghost predicate AllHoldRows(s: State) { forall w: nat :: HoldsRow(s.a.jobs, AuthorOf(s, w)) }

  /** A refusal names the critic or the gate. */
  predicate CodeOk(author: Author) {
    author.Refused? ==> author.code == "critic-rejected" || author.code == "acceptance-rejected"
  }

  ghost predicate Informed(c: Config, s: State) {
    && Told(s.a.jobs, s.a.clarifications) && FailedOk(c, s.a.jobs) && AllHoldRows(s)
    && forall w: nat :: CodeOk(AuthorOf(s, w))
  }

  // ----- the tables -----

  /** A row write that leaves the revision, the question and the answer alone. */
  ghost predicate KeepsTalk(a: AuthoringTables, a': AuthoringTables) {
    && a'.clarifications == a.clarifications && a'.jobs.Keys == a.jobs.Keys
    && forall t | t in a.jobs ::
         && a'.jobs[t].body.revision == a.jobs[t].body.revision
         && a'.jobs[t].body.question == a.jobs[t].body.question
         && a'.jobs[t].body.answer == a.jobs[t].body.answer
  }

  lemma KeptTalkTells(a: AuthoringTables, a': AuthoringTables)
    requires Told(a.jobs, a.clarifications) && KeepsTalk(a, a')
    ensures Told(a'.jobs, a'.clarifications)
  {}

  lemma RowKeepsTalk(a: AuthoringTables, task: string, r: Row<Job>)
    requires task in a.jobs
    requires r.body.revision == a.jobs[task].body.revision && r.body.question == a.jobs[task].body.question
    requires r.body.answer == a.jobs[task].body.answer
    ensures KeepsTalk(a, a.(jobs := a.jobs[task := r]))
  {}

  lemma RowWritesKeepTalk(a: AuthoringTables, c: Config, task: string, token: string, text: string, delay: real, now: real,
      promoted: Result<StoredSuite>)
    ensures KeepsTalk(a, ReleaseAuthoring(a, task, token, now).0)
    ensures KeepsTalk(a, RequeueAfterCritic(a, c.codec, task, token, text, delay, now).0)
    ensures KeepsTalk(a, MarkAuthoringFailed(a, task, token, text, now).0)
    ensures KeepsTalk(a, FinalizeAuthoring(a, task, token, promoted, now).0)
  {
    hide ErrorCodeValid, IsHash, KeepsTalk;
    UntouchedKeepsTalk(a);
    if Owns(a.jobs, task, token) {
      var job := a.jobs[task];
      var retry := Freed(job, Queued, now).(nextAttemptAt := now + delay);
      RowKeepsTalk(a, task, Freed(job, Queued, now));
      RowKeepsTalk(a, task, retry.(body := retry.body.(feedback := c.codec.feedback(text))));
      RowKeepsTalk(a, task, Freed(job, Phase.Failed, now).(lastError := Some(text)));
      if promoted.Success? {
        var done := Freed(job, Done, now);
        RowKeepsTalk(a, task, done.(body := done.body.(suiteHash := Some(promoted.value.suiteHash))));
      }
    }
  }

  lemma UntouchedKeepsTalk(a: AuthoringTables)
    ensures KeepsTalk(a, a)
  {}

  lemma ClaimKeepsTalk(a: AuthoringTables, c: Config, now: real, token: string)
    ensures KeepsTalk(a, ClaimAuthoring(a, c.settings, now, token).0)
  {
    hide KeepsTalk;
    UntouchedKeepsTalk(a);
    match Next(a.jobs, now)
    case None =>
    case Some(id) => RowKeepsTalk(a, id, ClaimedRow(a.jobs[id], now, token, c.settings.leaseSeconds));
  }

  lemma EnqueueTells(a: AuthoringTables, codec: Codec, now: real,
      task: string, rowId: string, project: string, branch: string, starter: string, assignment: string)
    requires Told(a.jobs, a.clarifications) && forall n | n in a.clarifications :: a.clarifications[n].taskId in a.jobs
    ensures
      var a' := EnqueueAuthoring(a, codec, now, task, rowId, project, branch, starter, assignment).0;
      Told(a'.jobs, a'.clarifications)
  {
    hide IdentityValid, RowTaken, BranchTaken;
  }

  lemma QuestionTells(a: AuthoringTables, task: string, token: string, question: string, nonce: string, now: real)
    requires Told(a.jobs, a.clarifications) && RevisionsOk(a.jobs, a.clarifications)
    ensures
      var a' := RequestClarification(a, task, token, question, nonce, now).0;
      Told(a'.jobs, a'.clarifications)
  {
    hide BoundedText, RevisionTaken;
  }

  /** The one clarification of the revision is answered, and the job gets the same answer. */
  lemma PairTells(jobs: Table<Job>, asked: map<string, Clarification>, nonce: string, answered: Clarification, r: Row<Job>)
    requires Told(jobs, asked) && RevisionsOk(jobs, asked) && nonce in asked && answered.taskId in jobs
    requires asked[nonce] == answered.(answer := None)
    requires jobs[answered.taskId].body.revision == answered.revision
    requires r.body == jobs[answered.taskId].body.(answer := answered.answer)
    ensures Told(jobs[answered.taskId := r], asked[nonce := answered])
  {
    hide RevisionTaken;
    var jobs', asked' := jobs[answered.taskId := r], asked[nonce := answered];
    forall n | n in asked' && asked'[n].taskId in jobs' && asked'[n].revision == jobs'[asked'[n].taskId].body.revision
      ensures jobs'[asked'[n].taskId].body.question == Some(asked'[n].question)
        && jobs'[asked'[n].taskId].body.answer == asked'[n].answer
    {
      assert n in asked;
    }
  }

  lemma AnswerTells(a: AuthoringTables, applied: map<string, nat>, nonce: string, revision: int, answer: string, now: real)
    requires Told(a.jobs, a.clarifications) && ClarificationsOk(a.jobs, a.clarifications, applied)
    ensures
      var a' := AnswerClarification(a, nonce, revision, answer, now).0;
      Told(a'.jobs, a'.clarifications)
  {
    hide BoundedText, Told, RevisionsOk;
    var text := BoundedText(answer, 1_000);
    if text.Some? && nonce in a.clarifications && a.clarifications[nonce].Pending() {
      var c := a.clarifications[nonce];
      assert Awaits(a, c);
      var row := a.jobs[c.taskId];
      PairTells(a.jobs, a.clarifications, nonce, c.(answer := text),
                row.(phase := Queued, updatedAt := now, body := row.body.(answer := text)));
    }
  }

  lemma InvTalks(c: Config, s: State)
    requires Inv(c, s)
    ensures ClarificationsOk(s.a.jobs, s.a.clarifications, s.past.applied)
  {
    hide LeasesOk, JobsOk, VaultOk, AttemptsOk, OutboxOk, ClarificationsOk, AuthorsOk, GradersOk, CouriersOk, PushesOk;
  }

  lemma SettleTells(c: Config, s: State, w: nat, nonce: string, fault: Fault)
    requires Told(s.a.jobs, s.a.clarifications) && RevisionsOk(s.a.jobs, s.a.clarifications)
    ensures
      var a := StepAuthorSettle(c, s, w, nonce, fault).a;
      Told(a.jobs, a.clarifications)
  {
    hide AuthorOf, RequestClarification, RequeueAfterCritic, MarkAuthoringFailed, Freeze, ToPayload, FinalizeAuthoring, Told,
         RevisionsOk, KeepsTalk, Owns;
    match AuthorOf(s, w)
    case Asking(held, ask) => QuestionTells(s.a, held.id, held.token, ask, nonce, s.clock);
    case Refused(held, feedback, code) =>
      var failed: Result<StoredSuite> := Failure(Error.Fault);
      RowWritesKeepTalk(s.a, c, held.id, held.token, code, 0.0, s.clock, failed);
      RowWritesKeepTalk(s.a, c, held.id, held.token, feedback, 0.0, s.clock, failed);
      KeptTalkTells(s.a, RejectOrRetry(c, s.a, s.clock, held, feedback, code).0);
    case Accepted(held, evidence) =>
      var promoted := Freeze(s.vault, c.codec, held.id, held.body.starterSha, ToPayload(evidence.suite), c.authorModel).1;
      RowWritesKeepTalk(s.a, c, held.id, held.token, "", 0.0, s.clock, promoted);
      KeptTalkTells(s.a, FinalizeAuthoring(s.a, held.id, held.token, promoted, s.clock).0);
    case _ =>
  }

  lemma AuthorEventTells(c: Config, s: State, e: Event)
    requires Told(s.a.jobs, s.a.clarifications) && RevisionsOk(s.a.jobs, s.a.clarifications) && IsAuthorEvent(e)
    ensures
      var a := AuthorStep(c, s, e).a;
      Told(a.jobs, a.clarifications)
  {
    hide AuthorOf, ClaimAuthoring, StepAuthorSettle, ReleaseAuthoring, MarkAuthoringFailed, Told, RevisionsOk, KeepsTalk,
         AfterDraft, AfterReview, AfterGate;
    var failed: Result<StoredSuite> := Failure(Error.Fault);
    if e.AuthorClaim? {
      ClaimKeepsTalk(s.a, c, s.clock, e.token);
      KeptTalkTells(s.a, ClaimAuthoring(s.a, c.settings, s.clock, e.token).0);
    } else if e.AuthorSettle? {
      SettleTells(c, s, e.w, e.nonce, e.fault);
    } else if e.AuthorHandle? && AuthorOf(s, e.w).Raised? {
      var held := AuthorOf(s, e.w).held;
      RowWritesKeepTalk(s.a, c, held.id, held.token, "authoring-error", 0.0, s.clock, failed);
      KeptTalkTells(s.a, Handled(c, s.a, s.clock, held));
    }
  }

  lemma StepTells(c: Config, s: State, e: Event)
    requires Inv(c, s) && Told(s.a.jobs, s.a.clarifications)
    ensures Told(Step(c, s, e).a.jobs, Step(c, s, e).a.clarifications)
  {
    hide Inv, Told, AuthorStep, GraderStep, PublisherStep, BotStep, EnqueueAuthoring, AnswerClarification,
         AnswerApplies, RevisionsOk, RequeueFailed, EnqueueGrading;
    InvTalks(c, s);
    if IsAuthorEvent(e) {
      AuthorEventTells(c, s, e);
    } else if IsGraderEvent(e) {
      GraderKeepsAuthoring(c, s, e);
    } else if IsPublisherEvent(e) {
      PublisherKeepsAuthoring(c, s, e);
    } else if IsBotEvent(e) {
      BotKeepsAuthoring(c, s, e);
    } else if e.EnsureSuite? {
      EnqueueTells(s.a, c.codec, s.clock, e.task, e.rowId, e.project, e.branch, e.starter, e.assignment);
    } else if e.Answer? {
      AnswerTells(s.a, s.past.applied, e.nonce, e.revision, e.text, s.clock);
    }
  }

  lemma GraderKeepsAuthoring(c: Config, s: State, e: Event)
    requires IsGraderEvent(e)
    ensures GraderStep(c, s, e).a == s.a
  {
    hide ClaimGrading, CompleteGrading, ReleaseGrading, Evaluation;
  }

  lemma PublisherKeepsAuthoring(c: Config, s: State, e: Event)
    requires IsPublisherEvent(e)
    ensures PublisherStep(c, s, e).a == s.a
  {
    hide ClaimPublication, CompletePublication, ReleasePublication;
  }

  lemma BotKeepsAuthoring(c: Config, s: State, e: Event)
    requires IsBotEvent(e)
    ensures BotStep(c, s, e).a == s.a
  {
    hide ClaimNote, SettleNote;
  }

  // ----- who holds what -----

  /** The acting author ends idle, as a new holder of the row as it is now, or with what it held; in the last
      case the jobs are as before or its own row is free. */
  ghost predicate ActedOn(s: State, s': State, w: nat) {
    var a, a' := AuthorOf(s, w), AuthorOf(s', w);
    || a'.AuthorIdle?
    || (!a.AuthorIdle? && a'.held == a.held
        && (s'.a.jobs == s.a.jobs || FreedBy(s.a.jobs, s'.a.jobs, a.held.id, a.held.token)))
    || (&& a'.held.id in s'.a.jobs && a'.held.body == s'.a.jobs[a'.held.id].body
        && a'.held.attempts == s'.a.jobs[a'.held.id].attempts)
  }

  lemma AuthorActs(c: Config, s: State, e: Event)
    requires IsAuthorEvent(e)
    ensures ActedOn(s, AuthorStep(c, s, e), e.w)
  {
    hide FreedBy, AuthorOf, StepAuthorSettle, StepAuthorHandle, StepAuthorDraft, StepAuthorReview, StepAuthorGate,
         StepAuthorClaim;
    match e
    case AuthorClaim(w, token) => ClaimHolds(c, s, w, token);
    case AuthorDraft(w, output) => DraftHolds(c, s, w, output);
    case AuthorReview(w, verdict) => ReviewHolds(s, w, verdict);
    case AuthorGate(w, runs) => GateHolds(c, s, w, runs);
    case AuthorSettle(w, nonce, fault) =>
      SettleFrees(c, s, w, nonce, fault);
      SettleHolds(c, s, w, nonce, fault);
    case AuthorHandle(w) => HandleEnds(c, s, w);
    case AuthorCrash(w) => CrashEnds(s, w);
  }

  lemma CrashEnds(s: State, w: nat)
    ensures AuthorOf(SetAuthor(s, w, AuthorIdle), w).AuthorIdle?
  {}

  lemma ClaimHolds(c: Config, s: State, w: nat, token: string)
    ensures ActedOn(s, StepAuthorClaim(c, s, w, token), w)
  {
    hide FreedBy;
  }

  lemma DraftHolds(c: Config, s: State, w: nat, output: Option<Json.Value>)
    ensures ActedOn(s, StepAuthorDraft(c, s, w, output), w)
  {
    hide FreedBy, Parse;
  }

  lemma ReviewHolds(s: State, w: nat, verdict: Verdict)
    ensures ActedOn(s, StepAuthorReview(s, w, verdict), w)
    ensures CodeOk(AuthorOf(s, w)) ==> CodeOk(AuthorOf(StepAuthorReview(s, w, verdict), w))
  {
    hide FreedBy;
  }

  lemma GateHolds(c: Config, s: State, w: nat, runs: Option<(SuiteResult, SuiteResult)>)
    ensures ActedOn(s, StepAuthorGate(c, s, w, runs), w)
    ensures CodeOk(AuthorOf(s, w)) ==> CodeOk(AuthorOf(StepAuthorGate(c, s, w, runs), w))
  {
    hide FreedBy, GateVerdict;
  }

  lemma SettleHolds(c: Config, s: State, w: nat, nonce: string, fault: Fault)
    ensures
      var a, a' := AuthorOf(s, w), AuthorOf(StepAuthorSettle(c, s, w, nonce, fault), w);
      a'.AuthorIdle? || (!a.AuthorIdle? && a'.held == a.held)
  {
    hide RequestClarification, RejectOrRetry, Owns, Freeze, ToPayload, FinalizeAuthoring;
  }

  lemma HandleEnds(c: Config, s: State, w: nat)
    ensures
      var s' := StepAuthorHandle(c, s, w);
      AuthorOf(s', w).AuthorIdle? || s' == s
  {
    hide Handled;
  }

  lemma StepHolds(c: Config, s: State, e: Event, w: nat)
    requires Inv(c, s) && HoldsRow(s.a.jobs, AuthorOf(s, w))
    ensures HoldsRow(Step(c, s, e).a.jobs, AuthorOf(Step(c, s, e), w))
  {
    hide Inv, AuthorStep, GraderStep, PublisherStep, BotStep, OutsideStep, AuthorOf, Fenced, JobHolder;
    var s' := Step(c, s, e);
    if By(e, AuthorAt(w)) {
      AuthorActs(c, s, e);
    } else {
      PlaceKept(c, s, e, AuthorAt(w));
      if !AuthorOf(s, w).AuthorIdle? {
        var held := AuthorOf(s, w).held;
        HeldIsKnown(c, s, AuthorAt(w));
        InvLeases(c, s);
        StepIsFenced(c, s, e, held.id);
        if s'.a.jobs[held.id] != s.a.jobs[held.id] { ChangedRowIsLost(c, s, e, AuthorAt(w)); }
      }
    }
  }

  lemma StepCodes(c: Config, s: State, e: Event, w: nat)
    requires CodeOk(AuthorOf(s, w))
    ensures CodeOk(AuthorOf(Step(c, s, e), w))
  {
    hide AuthorStep, GraderStep, PublisherStep, BotStep, OutsideStep, AuthorOf;
    if By(e, AuthorAt(w)) {
      AuthorCodes(c, s, e);
    } else {
      PlaceKept(c, s, e, AuthorAt(w));
    }
  }

  lemma AuthorCodes(c: Config, s: State, e: Event)
    requires IsAuthorEvent(e) && CodeOk(AuthorOf(s, e.w))
    ensures CodeOk(AuthorOf(AuthorStep(c, s, e), e.w))
  {
    hide ClaimAuthoring, StepAuthorSettle, StepAuthorReview, StepAuthorGate, ActedOn, Handled, Parse;
    if e.AuthorReview? { ReviewHolds(s, e.w, e.verdict); }
    if e.AuthorGate? { GateHolds(c, s, e.w, e.runs); }
    if e.AuthorSettle? { SettleCodes(c, s, e.w, e.nonce, e.fault); }
  }

  lemma SettleCodes(c: Config, s: State, w: nat, nonce: string, fault: Fault)
    requires CodeOk(AuthorOf(s, w))
    ensures CodeOk(AuthorOf(StepAuthorSettle(c, s, w, nonce, fault), w))
  {
    hide RequestClarification, RejectOrRetry, Owns, Freeze, ToPayload, FinalizeAuthoring;
  }

  // ----- giving up -----

  /** A job that is failed after an author's event was so before, or its holder had used up the attempts. */
  ghost predicate FailedBy(c: Config, s: State, jobs: Table<Job>, w: nat, t: string) {
    t in jobs && jobs[t].phase == Phase.Failed ==>
      && t in s.a.jobs
      && (jobs[t] == s.a.jobs[t]
          || (&& !AuthorOf(s, w).AuthorIdle? && AuthorOf(s, w).held.id == t
              && Owns(s.a.jobs, t, AuthorOf(s, w).held.token) && c.maxAuthorAttempts <= AuthorOf(s, w).held.attempts
              && jobs[t].attempts == s.a.jobs[t].attempts))
  }

  lemma SettleGivesUp(c: Config, s: State, w: nat, nonce: string, fault: Fault, t: string)
    ensures FailedBy(c, s, StepAuthorSettle(c, s, w, nonce, fault).a.jobs, w, t)
  {
    hide AuthorOf, BoundedText, RevisionTaken, ErrorCodeValid, IsHash, Freeze, ToPayload;
    match AuthorOf(s, w)
    case Asking(held, ask) =>
    case Refused(held, feedback, code) =>
    case Accepted(held, evidence) =>
    case _ =>
  }

  lemma AuthorGivesUp(c: Config, s: State, e: Event, t: string)
    requires IsAuthorEvent(e)
    ensures FailedBy(c, s, AuthorStep(c, s, e).a.jobs, e.w, t)
  {
    hide AuthorOf, StepAuthorSettle, AfterDraft, AfterReview, AfterGate, ErrorCodeValid;
    if e.AuthorSettle? { SettleGivesUp(c, s, e.w, e.nonce, e.fault, t); }
  }

  lemma StepFails(c: Config, s: State, e: Event)
    requires FailedOk(c, s.a.jobs) && AllHoldRows(s)
    ensures FailedOk(c, Step(c, s, e).a.jobs)
  {
    hide AuthorStep, GraderStep, PublisherStep, BotStep, OutsideStep, AuthorOf, Owns;
    var s' := Step(c, s, e);
    if IsGraderEvent(e) { GraderKeepsAuthoring(c, s, e); }
    if IsPublisherEvent(e) { PublisherKeepsAuthoring(c, s, e); }
    if IsBotEvent(e) { BotKeepsAuthoring(c, s, e); }
    if IsAuthorEvent(e) {
      forall t | t in s'.a.jobs && s'.a.jobs[t].phase == Phase.Failed
        ensures c.maxAuthorAttempts <= s'.a.jobs[t].attempts
      {
        AuthorGivesUp(c, s, e, t);
        assert HoldsRow(s.a.jobs, AuthorOf(s, e.w));
      }
    }
    if !IsAuthorEvent(e) && !IsGraderEvent(e) && !IsPublisherEvent(e) && !IsBotEvent(e) { OutsideFails(c, s, e); }
  }

  lemma OutsideFails(c: Config, s: State, e: Event)
    requires !IsAuthorEvent(e) && !IsGraderEvent(e) && !IsPublisherEvent(e) && !IsBotEvent(e) && FailedOk(c, s.a.jobs)
    ensures FailedOk(c, OutsideStep(c, s, e).a.jobs)
  {
    hide IdentityValid, RowTaken, BranchTaken, BoundedText, AnswerApplies, RequeueFailed, EnqueueGrading;
  }

  // ----- runs -----

  lemma StepInforms(c: Config, s: State, e: Event)
    requires Inv(c, s) && Informed(c, s)
    ensures Informed(c, Step(c, s, e))
  {
    hide Inv, Step, Told, FailedOk, HoldsRow;
    StepTells(c, s, e);
    StepFails(c, s, e);
    forall w: nat ensures HoldsRow(Step(c, s, e).a.jobs, AuthorOf(Step(c, s, e), w)) {
      StepHolds(c, s, e, w);
    }
    forall w: nat ensures CodeOk(AuthorOf(Step(c, s, e), w)) {
      StepCodes(c, s, e, w);
    }
  }

  lemma {:induction false} RunInforms(c: Config, s: State, events: seq<Event>)
    requires Inv(c, s) && Informed(c, s)
    ensures Informed(c, Run(c, s, events))
    decreases events
  {
    hide Inv, Step, Informed, Evolves;
    if events != [] {
      StepKeeps(c, s, events[0]);
      StepInforms(c, s, events[0]);
      RunInforms(c, Step(c, s, events[0]), events[1..]);
    }
  }

  lemma EmptyInformed(c: Config)
    ensures Informed(c, EMPTY)
  {}

  // ----- the theorems -----

  /** The question and answer columns of a job are those of the clarification with its revision. */
  ghost predicate HasTalk(a: AuthoringTables, job: Job, task: string) {
    && (forall n | n in a.clarifications && a.clarifications[n].taskId == task && a.clarifications[n].revision == job.revision ::
          job.question == Some(a.clarifications[n].question) && job.answer == a.clarifications[n].answer)
    && (if job.revision == 0 then job.question.None? && job.answer.None? else RevisionTaken(a.clarifications, task, job.revision))
  }

  /** In every reachable state each job has exactly the question and answer of its current revision, a job
      failed only after all its attempts, and an author that owns a job holds its content. */
  lemma AuthorsAreTold(c: Config, events: seq<Event>, task: string, w: nat)
    ensures
      var s := Run(c, EMPTY, events);
      && (task in s.a.jobs ==> HasTalk(s.a, s.a.jobs[task].body, task))
      && (task in s.a.jobs && s.a.jobs[task].phase == Phase.Failed ==> c.maxAuthorAttempts <= s.a.jobs[task].attempts)
      && HoldsRow(s.a.jobs, AuthorOf(s, w))
  {
    hide Inv, Step, HoldsRow, RevisionTaken, Evolves;
    EmptyInv(c);
    EmptyInformed(c);
    RunInforms(c, EMPTY, events);
    RunKeeps(c, EMPTY, events);
    InvTalks(c, Run(c, EMPTY, events));
  }

  /** An answer reaches the author: in every reachable state, a usable answer to a pending clarification, given
      under its revision, queues the job with the stripped text beside the question, and over every continuation
      whoever owns the job at that revision holds this question and this answer. */
  lemma AnswerReachesTheAuthor(c: Config, before: seq<Event>, nonce: string, revision: int, text: string,
      after: seq<Event>, w: nat)
    ensures
      var a := Run(c, EMPTY, before).a;
      nonce in a.clarifications && a.clarifications[nonce].answer.None? && a.clarifications[nonce].revision == revision
      && BoundedText(text, 1_000).Some? ==>
        var events := before + [Answer(nonce, revision, text)];
        AnswerStored(Run(c, EMPTY, events).a, a.clarifications[nonce], Strip(text))
        && AnswerHeld(Run(c, EMPTY, events + after), a.clarifications[nonce], Strip(text), w)
  {
    hide Step, AnswerStored, AnswerHeld, Inv, Evolves, Strip, Told, FailedOk, AllHoldRows, CodeOk;
    EmptyInv(c);
    EmptyInformed(c);
    RunKeeps(c, EMPTY, before);
    RunInforms(c, EMPTY, before);
    var s := Run(c, EMPTY, before);
    if nonce in s.a.clarifications && s.a.clarifications[nonce].answer.None?
      && s.a.clarifications[nonce].revision == revision && BoundedText(text, 1_000).Some? {
      var e := Answer(nonce, revision, text);
      RunAppend(c, EMPTY, before, [e]);
      OneEvent(c, s, e);
      InvTalks(c, s);
      AnswerIsStored(s.a, s.past.applied, nonce, revision, text, s.clock);
      AnswerStep(c, s, nonce, revision, text);
      StoredIsHeld(c, before + [e], after, nonce, s.a.clarifications[nonce], Strip(text), w);
    }
  }

  lemma OneEvent(c: Config, s: State, e: Event)
    ensures Run(c, s, [e]) == Step(c, s, e)
  {
    hide Step;
    assert Run(c, Step(c, s, e), []) == Step(c, s, e);
    assert [e][1..] == [];
  }

  predicate AnswerStored(a: AuthoringTables, asked: Clarification, answer: string) {
    && asked.taskId in a.jobs
    && a.jobs[asked.taskId].phase == Queued && a.jobs[asked.taskId].body.revision == asked.revision
    && a.jobs[asked.taskId].body.question == Some(asked.question) && a.jobs[asked.taskId].body.answer == Some(answer)
  }

  /** The job, and whoever owns it, has the answer for as long as nothing new was asked. */
  predicate AnswerHeld(s: State, asked: Clarification, answer: string, w: nat) {
    var task := asked.taskId;
    && task in s.a.jobs
    && (s.a.jobs[task].body.revision == asked.revision ==>
          && s.a.jobs[task].body.question == Some(asked.question) && s.a.jobs[task].body.answer == Some(answer)
          && var author := AuthorOf(s, w);
             !author.AuthorIdle? && author.held.id == task && Owns(s.a.jobs, task, author.held.token) ==>
               author.held.body.question == Some(asked.question) && author.held.body.answer == Some(answer))
  }

  lemma AnswerIsStored(a: AuthoringTables, applied: map<string, nat>, nonce: string, revision: int, text: string, now: real)
    requires Told(a.jobs, a.clarifications) && ClarificationsOk(a.jobs, a.clarifications, applied)
    requires nonce in a.clarifications && a.clarifications[nonce].answer.None?
    requires a.clarifications[nonce].revision == revision && BoundedText(text, 1_000).Some?
    ensures
      var a' := AnswerClarification(a, nonce, revision, text, now).0;
      && AnswerStored(a', a.clarifications[nonce], Strip(text))
      && nonce in a'.clarifications && a'.clarifications[nonce] == a.clarifications[nonce].(answer := Some(Strip(text)))
  {
    hide RevisionsOk, Strip;
  }

  lemma AnswerStep(c: Config, s: State, nonce: string, revision: int, text: string)
    ensures Step(c, s, Answer(nonce, revision, text)).a == AnswerClarification(s.a, nonce, revision, text, s.clock).0
  {
    hide AnswerClarification, AnswerApplies;
  }

  lemma StoredIsHeld(c: Config, before: seq<Event>, after: seq<Event>, nonce: string, asked: Clarification, answer: string,
      w: nat)
    requires nonce in Run(c, EMPTY, before).a.clarifications
    requires Run(c, EMPTY, before).a.clarifications[nonce] == asked.(answer := Some(answer))
    ensures AnswerHeld(Run(c, EMPTY, before + after), asked, answer, w)
  {
    hide Run, Inv, RevisionTaken;
    AnswersAreForever(c, before, after, nonce);
    ClarificationProtocol(c, before + after, asked.taskId, nonce, 0);
    AuthorsAreTold(c, before + after, asked.taskId, w);
  }

  // ----- a refused or failed pass -----

  lemma CodesAreValid()
    ensures ErrorCodeValid("critic-rejected") && ErrorCodeValid("acceptance-rejected") && ErrorCodeValid("authoring-error")
  {}

  /** What an unsuccessful pass of the job's holder leaves in the row: failed exactly when the attempts are used
      up, otherwise queued for the next claim at once, with the talk of its current revision. */
  ghost predicate RetriesOrFails(c: Config, before: Row<Job>, after: Row<Job>, code: string, feedback: Option<string>,
      now: real) {
    && (after.phase == Phase.Failed <==> c.maxAuthorAttempts <= before.attempts)
    && (after.phase == Phase.Failed ==> after.lastError == Some(code) && after.body == before.body)
    && (after.phase != Phase.Failed ==>
          && after.phase == Queued
          && (feedback.Some? ==> after.nextAttemptAt == now && after.body == before.body.(feedback := feedback))
          && (feedback.None? ==> after.body == before.body))
    && after.attempts == before.attempts && after.token.None?
  }

  /** The handler of a pass that raised, and a refusal whose feedback can be stored, under the current token. */
  lemma GivesUpExactly(c: Config, events: seq<Event>, w: nat, nonce: string, fault: Fault)
    ensures
      var s := Run(c, EMPTY, events);
      var author := AuthorOf(s, w);
      !author.AuthorIdle? && Owns(s.a.jobs, author.held.id, author.held.token) ==>
        var row := s.a.jobs[author.held.id];
        && (author.Raised? ==>
              var s' := Step(c, s, AuthorHandle(w));
              && author.held.id in s'.a.jobs && AuthorOf(s', w) == AuthorIdle
              && RetriesOrFails(c, row, s'.a.jobs[author.held.id], "authoring-error", None, s.clock))
        && (author.Refused? && c.codec.feedback(author.feedback).Some? ==>
              var s' := Step(c, s, AuthorSettle(w, nonce, fault));
              && author.held.id in s'.a.jobs && AuthorOf(s', w) == AuthorIdle
              && RetriesOrFails(c, row, s'.a.jobs[author.held.id], author.code, c.codec.feedback(author.feedback), s.clock))
  {
    hide Inv, Run, Step, RetriesOrFails, Told, FailedOk, ErrorCodeValid;
    EmptyInv(c);
    EmptyInformed(c);
    RunInforms(c, EMPTY, events);
    var s := Run(c, EMPTY, events);
    assert HoldsRow(s.a.jobs, AuthorOf(s, w)) && CodeOk(AuthorOf(s, w));
    var author := AuthorOf(s, w);
    if !author.AuthorIdle? && Owns(s.a.jobs, author.held.id, author.held.token) {
      if author.Raised? { HandledGivesUp(c, s, w); }
      if author.Refused? && c.codec.feedback(author.feedback).Some? { RefusedGivesUp(c, s, w, nonce, fault); }
    }
  }

  lemma HandledGivesUp(c: Config, s: State, w: nat)
    requires AuthorOf(s, w).Raised? && HoldsRow(s.a.jobs, AuthorOf(s, w))
    requires Owns(s.a.jobs, AuthorOf(s, w).held.id, AuthorOf(s, w).held.token)
    ensures
      var id := AuthorOf(s, w).held.id;
      var s' := Step(c, s, AuthorHandle(w));
      && id in s'.a.jobs && AuthorOf(s', w) == AuthorIdle
      && RetriesOrFails(c, s.a.jobs[id], s'.a.jobs[id], "authoring-error", None, s.clock)
  {
    hide ErrorCodeValid;
    CodesAreValid();
  }

  lemma RefusedRow(c: Config, a: AuthoringTables, now: real, held: Held<Job>, feedback: string, code: string)
    requires Owns(a.jobs, held.id, held.token) && held.attempts == a.jobs[held.id].attempts
    requires code == "critic-rejected" || code == "acceptance-rejected"
    requires c.codec.feedback(feedback).Some?
    ensures
      var (a', returned) := RejectOrRetry(c, a, now, held, feedback, code);
      && returned && held.id in a'.jobs
      && RetriesOrFails(c, a.jobs[held.id], a'.jobs[held.id], code, c.codec.feedback(feedback), now)
  {
    hide ErrorCodeValid;
    CodesAreValid();
  }

  lemma RefusedGivesUp(c: Config, s: State, w: nat, nonce: string, fault: Fault)
    requires AuthorOf(s, w).Refused? && HoldsRow(s.a.jobs, AuthorOf(s, w)) && CodeOk(AuthorOf(s, w))
    requires Owns(s.a.jobs, AuthorOf(s, w).held.id, AuthorOf(s, w).held.token)
    requires c.codec.feedback(AuthorOf(s, w).feedback).Some?
    ensures
      var author := AuthorOf(s, w);
      var s' := Step(c, s, AuthorSettle(w, nonce, fault));
      && author.held.id in s'.a.jobs && AuthorOf(s', w) == AuthorIdle
      && RetriesOrFails(c, s.a.jobs[author.held.id], s'.a.jobs[author.held.id], author.code,
                        c.codec.feedback(author.feedback), s.clock)
  {
    hide RejectOrRetry, RetriesOrFails, Owns;
    var author := AuthorOf(s, w);
    RefusedRow(c, s.a, s.clock, author.held, author.feedback, author.code);
  }
}
