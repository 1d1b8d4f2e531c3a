/** The three worker loops' bodies, run without interference. Each `ProcessOnce` drives the store
    step by step with its exception paths and is proved to do what the machine in `Pipeline` does
    on one fixed script of events, so every result about runs speaks about it. The answers of the
    author, critic, executor and publisher are parameters. */
module Coordinators {
  import opened Text
  import opened Leases
  import opened Results
  import opened Tables
  import opened Contracts
  import opened Pipeline
  import opened PipelineTheorems
  import opened Store
  import Json

  /** How a call of `process_once` ends. */
  datatype Ending = Idle | Returns(status: string) | Raises

  // ----- scripts -----

  function AuthorScript(
    w: nat, token: string, nonce: string, output: Option<Json.Value>, verdict: Verdict,
    runs: Option<(SuiteResult, SuiteResult)>): seq<Event>
  {
    [AuthorClaim(w, token), AuthorDraft(w, output), AuthorReview(w, verdict), AuthorGate(w, runs),
     AuthorSettle(w, nonce, NoFault), AuthorHandle(w)]
  }

  function GraderScript(w: nat, token: string, result: Option<SuiteResult>): seq<Event> {
    [GraderClaim(w, token), GraderEvaluate(w, result), GraderComplete(w), GraderHandle(w)]
  }

  function PublisherScript(w: nat, token: string, ok: bool): seq<Event> {
    [PublisherClaim(w, token), PublisherSend(w, ok), PublisherSettle(w)]
  }

  lemma RunOne(c: Config, s: State, e: Event)
    ensures Run(c, s, [e]) == Step(c, s, e)
  {
    hide Step;
    assert [e][1..] == [];
  }

  lemma RunPair(c: Config, s: State, e: Event, f: Event)
    ensures Run(c, s, [e, f]) == Step(c, Step(c, s, e), f)
  {
    hide Step;
    assert [e, f] == [e] + [f];
    RunAppend(c, s, [e], [f]);
    RunOne(c, s, e);
    RunOne(c, Step(c, s, e), f);
  }

  lemma AuthorScriptRuns(
    c: Config, s: State, w: nat, token: string, nonce: string, output: Option<Json.Value>, verdict: Verdict,
    runs: Option<(SuiteResult, SuiteResult)>)
    ensures
      Run(c, s, AuthorScript(w, token, nonce, output, verdict, runs)) ==
      StepAuthorHandle(c, Try(c, StepAuthorClaim(c, s, w, token), w, nonce, output, verdict, runs), w)
  {
    hide Step, Run, StepAuthorClaim, StepAuthorDraft, StepAuthorReview, StepAuthorGate, StepAuthorSettle,
         StepAuthorHandle;
    var s1 := StepAuthorClaim(c, s, w, token);
    var s2 := StepAuthorDraft(c, s1, w, output);
    var s3 := StepAuthorReview(s2, w, verdict);
    var s4 := StepAuthorGate(c, s3, w, runs);
    var s5 := StepAuthorSettle(c, s4, w, nonce, NoFault);
    var e0, e1, e2 := AuthorClaim(w, token), AuthorDraft(w, output), AuthorReview(w, verdict);
    var e3, e4, e5 := AuthorGate(w, runs), AuthorSettle(w, nonce, NoFault), AuthorHandle(w);
    StepIs(c, s, e0); StepIs(c, s1, e1); StepIs(c, s2, e2); StepIs(c, s3, e3); StepIs(c, s4, e4); StepIs(c, s5, e5);
    RunPair(c, s, e0, e1); RunPair(c, s2, e2, e3); RunPair(c, s4, e4, e5);
    RunAppend(c, s, [e0, e1], [e2, e3]);
    RunAppend(c, s, [e0, e1] + [e2, e3], [e4, e5]);
    assert AuthorScript(w, token, nonce, output, verdict, runs) == ([e0, e1] + [e2, e3]) + [e4, e5];
  }

  lemma StepIs(c: Config, s: State, e: Event)
    ensures IsAuthorEvent(e) ==> Step(c, s, e) == AuthorStep(c, s, e)
    ensures IsGraderEvent(e) ==> Step(c, s, e) == GraderStep(c, s, e)
    ensures IsPublisherEvent(e) ==> Step(c, s, e) == PublisherStep(c, s, e)
  {
    hide AuthorStep, GraderStep, PublisherStep, BotStep, OutsideStep;
  }

  /** The `try` block of `process_once` in machine steps. */
  ghost function Try(
    c: Config, s: State, w: nat, nonce: string, output: Option<Json.Value>, verdict: Verdict,
    runs: Option<(SuiteResult, SuiteResult)>): State
  {
    StepAuthorSettle(c, StepAuthorGate(c, StepAuthorReview(StepAuthorDraft(c, s, w, output), w, verdict), w, runs), w, nonce, NoFault)
  }

  /** Where the worker stands before it settles. */
  ghost function BeforeSettling(
    c: Config, held: Held<Job>, output: Option<Json.Value>, verdict: Verdict, runs: Option<(SuiteResult, SuiteResult)>): Author
  {
    var drafted := AfterDraft(c, held, output);
    if !drafted.Drafted? then drafted
    else
      var reviewed := AfterReview(held, drafted.output, drafted.suite, verdict);
      if !reviewed.Reviewed? then reviewed else AfterGate(c, held, drafted.output, drafted.suite, verdict, runs)
  }

  lemma TryIsSettling(
    c: Config, s: State, w: nat, held: Held<Job>, nonce: string, output: Option<Json.Value>, verdict: Verdict,
    runs: Option<(SuiteResult, SuiteResult)>)
    requires AuthorOf(s, w) == Claimed(held)
    ensures
      Try(c, s, w, nonce, output, verdict, runs) ==
      Settled(c, s, w, BeforeSettling(c, held, output, verdict, runs), nonce)
  {
    hide AfterDraft, AfterReview, AfterGate, StepAuthorSettle, SetAuthor, AuthorOf;
    var drafted := AfterDraft(c, held, output);
    AfterDraftShape(c, held, output);
    SetTwice(s, w);
    var s1 := StepAuthorDraft(c, s, w, output);
    assert s1 == SetAuthor(s, w, drafted);
    if drafted.Drafted? {
      var reviewed := AfterReview(held, drafted.output, drafted.suite, verdict);
      AfterReviewShape(held, drafted.output, drafted.suite, verdict);
      var s2 := StepAuthorReview(s1, w, verdict);
      assert s2 == SetAuthor(s1, w, reviewed) == SetAuthor(s, w, reviewed);
      var s3 := StepAuthorGate(c, s2, w, runs);
      if reviewed.Reviewed? {
        assert s3 == SetAuthor(s2, w, AfterGate(c, held, drafted.output, drafted.suite, verdict, runs));
      } else {
        assert s3 == s2;
      }
    } else {
      assert AuthorOf(s1, w) == drafted;
      assert StepAuthorReview(s1, w, verdict) == s1;
      assert StepAuthorGate(c, s1, w, runs) == s1;
    }
  }

  lemma SetTwice(s: State, w: nat)
    ensures forall x: Author, y: Author :: SetAuthor(SetAuthor(s, w, x), w, y) == SetAuthor(s, w, y)
    ensures forall x: Author :: AuthorOf(SetAuthor(s, w, x), w) == x
  {
    forall x: Author, y: Author ensures SetAuthor(SetAuthor(s, w, x), w, y) == SetAuthor(s, w, y) {
      assert s.workers.authors[w := x][w := y] == s.workers.authors[w := y];
    }
  }

  lemma AfterDraftShape(c: Config, held: Held<Job>, output: Option<Json.Value>)
    ensures var pc := AfterDraft(c, held, output); (pc.Drafted? && pc.held == held) || pc.Asking? || pc.Raised?
  {
    hide AcceptedAs;
  }

  lemma AfterReviewShape(held: Held<Job>, output: Json.Value, suite: SuiteDraft, verdict: Verdict)
    ensures
      var pc := AfterReview(held, output, suite, verdict);
      pc == Reviewed(held, output, suite, verdict) || pc.Refused? || pc.Asking? || pc.Raised?
  {}

  // ----- authoring -----

  /** The state once worker `w`, standing at `pc`, has settled. */
  ghost function Settled(c: Config, s: State, w: nat, pc: Author, nonce: string): State {
    StepAuthorSettle(c, SetAuthor(s, w, pc), w, nonce, NoFault)
  }

  /** The tables and the vault once a worker standing at `pc` has settled, and whether it returned. */
  ghost function Worked(c: Config, a: AuthoringTables, vault: Vault, now: real, pc: Author, nonce: string)
    : (AuthoringTables, Vault, bool)
  {
    match pc
    case Asking(job, ask) =>
      var (a', r) := RequestClarification(a, job.id, job.token, ask, nonce, now);
      (a', vault, r.Success?)
    case Refused(job, feedback, code) =>
      var (a', returned) := Pipeline.RejectOrRetry(c, a, now, job, feedback, code);
      (a', vault, returned)
    case Accepted(job, evidence) =>
      var (frozen, promoted) :=
        Freeze(vault, c.codec, job.id, job.body.starterSha, ToPayload(evidence.suite), c.authorModel);
      var (a', r) := FinalizeAuthoring(a, job.id, job.token, promoted, now);
      (a', if Owns(a.jobs, job.id, job.token) then frozen else vault, r.Success?)
    case _ => (a, vault, false)
  }

  lemma SettledIsWorked(c: Config, s: State, w: nat, pc: Author, nonce: string)
    requires pc.Asking? || pc.Refused? || pc.Accepted? || pc.Raised?
    requires nonce !in s.past.issued
    ensures
      var t, (a, vault, returned) := Settled(c, s, w, pc, nonce), Worked(c, s.a, s.vault, s.clock, pc, nonce);
      t.a == a && t.vault == vault && t.clock == s.clock && AuthorOf(t, w) == if returned then AuthorIdle else Raised(pc.held)
  {
    hide RequestClarification, Pipeline.RejectOrRetry, Freeze, ToPayload, IsHash;
  }

  lemma ParsedAsks(v: Json.Value, size: Sizer, draft: SuiteDraft)
    requires Parse(v, size) == Some(draft) && draft.status.ClarificationRequired?
    ensures draft.clarification.Some?
  {}

  lemma NothingDrafted(
    c: Config, job: Held<Job>, output: Option<Json.Value>, verdict: Verdict, runs: Option<(SuiteResult, SuiteResult)>)
    requires output.None? || Parse(output.value, c.codec.valueBytes).None?
    ensures BeforeSettling(c, job, output, verdict, runs) == Raised(job)
  {
    hide Parse;
  }

  lemma SomethingDrafted(
    c: Config, job: Held<Job>, output: Json.Value, suite: SuiteDraft, verdict: Verdict,
    runs: Option<(SuiteResult, SuiteResult)>)
    requires Parse(output, c.codec.valueBytes) == Some(suite)
    ensures
      var pc := BeforeSettling(c, job, Some(output), verdict, runs);
      if suite.status.ClarificationRequired? then suite.clarification.Some? && pc == Asking(job, suite.clarification.value)
      else
        match verdict
        case CriticRaises => pc == Raised(job)
        case CriticAsks(ask) => pc == Asking(job, ask)
        case CriticRejects(feedback) => pc == Refused(job, feedback, "critic-rejected")
        case CriticApproves => pc == AfterGate(c, job, output, suite, verdict, runs)
  {
    hide AcceptedAs, AfterGate;
    ParsedAsksIf(output, c.codec.valueBytes, suite);
  }

  lemma ParsedAsksIf(v: Json.Value, size: Sizer, draft: SuiteDraft)
    requires Parse(v, size) == Some(draft)
    ensures draft.status.ClarificationRequired? ==> draft.clarification.Some?
  {
    if draft.status.ClarificationRequired? { ParsedAsks(v, size, draft); }
  }

  class AuthoringCoordinator {
    const store: GraderStore
    const vault: SuiteVault
    const config: Config

    ghost predicate Valid() {
      store.codec == config.codec && store.settings == config.settings && vault.codec == config.codec
    }

    constructor (store: GraderStore, vault: SuiteVault, config: Config)
      requires store.codec == config.codec && store.settings == config.settings && vault.codec == config.codec
      ensures Valid() && this.store == store && this.vault == vault && this.config == config
    {
      this.store, this.vault, this.config := store, vault, config;
    }

    method RejectOrRetry(now: real, job: Held<Job>, feedback: string, code: string) returns (r: Ending)
      requires Valid()
      modifies store`jobs
      ensures
        var (a, returned) := Pipeline.RejectOrRetry(config, old(store.Authoring()), now, job, feedback, code);
        store.Authoring() == a && returned == r.Returns? && !r.Idle?
    {
      hide Tables.MarkAuthoringFailed, Tables.RequeueAfterCritic;
      if config.maxAuthorAttempts <= job.attempts {
        var failed := store.MarkAuthoringFailed(job.id, job.token, code, now);
        return if failed == Success(true) then Returns("failed") else Raises;
      }
      var requeued := store.RequeueAfterCritic(job.id, job.token, feedback, 0.0, now);
      r := if requeued.Success? then Returns("queued") else Raises;
    }

    /** What the author, the critic and the gate make of the claimed job. */
    method Decide(
      job: Held<Job>, output: Option<Json.Value>, verdict: Verdict, runs: Option<(SuiteResult, SuiteResult)>)
      returns (pc: Author)
      ensures pc == BeforeSettling(config, job, output, verdict, runs)
    {
      hide BeforeSettling, Parse, AfterGate;
      if output.None? || Parse(output.value, config.codec.valueBytes).None? {
        NothingDrafted(config, job, output, verdict, runs);
      }
      if output.None? { return Raised(job); }
      var draft := FromDecoded(output.value, config.codec.valueBytes);
      if draft.None? { return Raised(job); }
      SomethingDrafted(config, job, output.value, draft.value, verdict, runs);
      if draft.value.status.ClarificationRequired? { return Asking(job, draft.value.clarification.value); }
      match verdict
      case CriticRaises => pc := Raised(job);
      case CriticAsks(ask) => pc := Asking(job, ask);
      case CriticRejects(feedback) => pc := Refused(job, feedback, "critic-rejected");
      case CriticApproves => pc := AfterGate(config, job, output.value, draft.value, verdict, runs);
    }

    /** The transaction that ends the `try` block. */
    method Settle(now: real, pc: Author, nonce: string) returns (r: Ending)
      requires Valid() && (pc.Asking? || pc.Refused? || pc.Accepted? || pc.Raised?)
      modifies store`jobs, store`clarifications, vault
      ensures
        (store.Authoring(), vault.entries, r.Returns?) ==
        Worked(config, old(store.Authoring()), old(vault.entries), now, pc, nonce)
      ensures !r.Idle?
    {
      hide Tables.RequestClarification, Tables.FinalizeAuthoring, Tables.Freeze, Pipeline.RejectOrRetry, ToPayload;
      match pc
      case Asking(job, ask) =>
        var asked := store.RequestClarification(job.id, job.token, ask, nonce, now);
        r := if asked.Success? then Returns("needs_clarification") else Raises;
      case Refused(job, feedback, code) =>
        r := RejectOrRetry(now, job, feedback, code);
      case Accepted(job, evidence) =>
        var ready := store.FinalizeAuthoring(
          job.id, job.token, now, vault, job.body.starterSha, ToPayload(evidence.suite), config.authorModel);
        r := if ready.Success? then Returns("ready") else Raises;
      case _ => r := Raises;
    }

    /** The exception handler. */
    method Handle(now: real, job: Held<Job>)
      requires Valid()
      modifies store`jobs
      ensures store.Authoring() == Handled(config, old(store.Authoring()), now, job)
    {
      hide Tables.ReleaseAuthoring, Tables.MarkAuthoringFailed;
      if config.maxAuthorAttempts <= job.attempts {
        var _ := store.MarkAuthoringFailed(job.id, job.token, "authoring-error", now);
      } else {
        var _ := store.ReleaseAuthoring(job.id, job.token, now);
      }
    }

    method ProcessOnce(
      now: real, token: string, nonce: string, output: Option<Json.Value>, verdict: Verdict,
      runs: Option<(SuiteResult, SuiteResult)>, ghost s: State, ghost w: nat)
      returns (r: Ending)
      requires Valid() && s.a == store.Authoring() && s.vault == vault.entries && s.clock == now
      requires AuthorOf(s, w) == AuthorIdle && token !in s.past.issued && nonce !in s.past.issued + {token}
      modifies store`jobs, store`clarifications, vault
      ensures
        var s' := Run(config, s, AuthorScript(w, token, nonce, output, verdict, runs));
        store.Authoring() == s'.a && vault.entries == s'.vault && AuthorOf(s', w) == AuthorIdle
    {
      hide Run, Settled, ClaimAuthoring, BeforeSettling, Try, Worked, Handled, AuthorOf;
      AuthorScriptRuns(config, s, w, token, nonce, output, verdict, runs);
      ClaimNothing(s.a, config.settings, now, token);
      SetTwice(Draw(s, token).(a := ClaimAuthoring(s.a, config.settings, now, token).0), w);
      var next := store.ClaimNextAuthoring(now, token);
      if next.None? {
        IdleTries(config, s, w, nonce, output, verdict, runs);
        return Idle;
      }
      var job := next.value;
      ghost var claimed := StepAuthorClaim(config, s, w, token);
      TryIsSettling(config, claimed, w, job, nonce, output, verdict, runs);
      DecidedToSettle(config, job, output, verdict, runs);
      var pc := Decide(job, output, verdict, runs);
      SettledIsWorked(config, claimed, w, pc, nonce);
      r := Settle(now, pc, nonce);
      HandlesRaised(config, Settled(config, claimed, w, pc, nonce), w, job);
      if r.Raises? { Handle(now, job); }
    }
  }

  lemma ClaimNothing(a: AuthoringTables, s: Settings, now: real, token: string)
    ensures ClaimAuthoring(a, s, now, token).1.None? ==> ClaimAuthoring(a, s, now, token).0 == a
  {}

  lemma DecidedToSettle(
    c: Config, job: Held<Job>, output: Option<Json.Value>, verdict: Verdict, runs: Option<(SuiteResult, SuiteResult)>)
    ensures
      var pc := BeforeSettling(c, job, output, verdict, runs);
      (pc.Asking? || pc.Refused? || pc.Accepted? || pc.Raised?) && pc.held == job
  {
    hide Parse, BeforeSettling;
    if output.None? || Parse(output.value, c.codec.valueBytes).None? {
      NothingDrafted(c, job, output, verdict, runs);
    } else {
      SomethingDrafted(c, job, output.value, Parse(output.value, c.codec.valueBytes).value, verdict, runs);
    }
  }

  lemma HandlesRaised(c: Config, s: State, w: nat, job: Held<Job>)
    ensures
      AuthorOf(s, w) == Raised(job) ==>
        var t := StepAuthorHandle(c, s, w);
        t.a == Handled(c, s.a, s.clock, job) && t.vault == s.vault && AuthorOf(t, w) == AuthorIdle
    ensures AuthorOf(s, w) == AuthorIdle ==> StepAuthorHandle(c, s, w) == s
  {
    hide Handled;
  }

  lemma IdleTries(
    c: Config, s: State, w: nat, nonce: string, output: Option<Json.Value>, verdict: Verdict,
    runs: Option<(SuiteResult, SuiteResult)>)
    requires AuthorOf(s, w) == AuthorIdle
    ensures Try(c, s, w, nonce, output, verdict, runs) == s && StepAuthorHandle(c, s, w) == s
  {
    hide AfterDraft, AfterReview, AfterGate, StepAuthorAsk, StepAuthorRefuse, StepAuthorFinalize, Handled;
  }

  // ----- grading -----

  lemma GraderScriptRuns(c: Config, s: State, w: nat, token: string, result: Option<SuiteResult>)
    ensures
      Run(c, s, GraderScript(w, token, result)) ==
      StepGraderHandle(c, StepGraderComplete(StepGraderEvaluate(c, StepGraderClaim(c, s, w, token), w, result), w), w)
  {
    hide Step, Run, StepGraderClaim, StepGraderEvaluate, StepGraderComplete, StepGraderHandle;
    var s1 := StepGraderClaim(c, s, w, token);
    var s2 := StepGraderEvaluate(c, s1, w, result);
    var s3 := StepGraderComplete(s2, w);
    var e0, e1, e2, e3 := GraderClaim(w, token), GraderEvaluate(w, result), GraderComplete(w), GraderHandle(w);
    StepIs(c, s, e0); StepIs(c, s1, e1); StepIs(c, s2, e2); StepIs(c, s3, e3);
    RunPair(c, s, e0, e1); RunPair(c, s2, e2, e3);
    RunAppend(c, s, [e0, e1], [e2, e3]);
    assert GraderScript(w, token, result) == [e0, e1] + [e2, e3];
  }

  /** What is left of a grading pass once the attempt is claimed. */
  lemma GradesAndHandles(c: Config, s: State, w: nat, held: Held<Attempt>, result: Option<SuiteResult>)
    requires GraderOf(s, w) == Grader.Grading(held)
    ensures
      var t := StepGraderHandle(c, StepGraderComplete(StepGraderEvaluate(c, s, w, result), w), w);
      var (g, returned) := GradingWork(c, s.g, s.vault, s.clock, held, result);
      GraderOf(t, w) == GraderIdle &&
      t.g == if returned then g else
        ReleaseGrading(g, c.settings, held.id, held.token, "grading-infrastructure-failure", s.clock).0
  {
    hide Evaluation, CompleteGrading, ReleaseGrading, GraderOf;
    SetGraderTwice(s, w);
    SetGraderTwice(s.(g := GradingWork(c, s.g, s.vault, s.clock, held, result).0), w);
  }

  lemma SetGraderTwice(s: State, w: nat)
    ensures forall x: Grader, y: Grader :: SetGrader(SetGrader(s, w, x), w, y) == SetGrader(s, w, y)
    ensures forall t: State, x: Grader :: GraderOf(SetGrader(t, w, x), w) == x
  {
    forall x: Grader, y: Grader ensures SetGrader(SetGrader(s, w, x), w, y) == SetGrader(s, w, y) {
      assert s.workers.graders[w := x][w := y] == s.workers.graders[w := y];
    }
  }

  /** The `try` block: the tables afterwards, and whether it returned. */
  ghost function GradingWork(
    c: Config, g: GradingTables, vault: Vault, now: real, held: Held<Attempt>, result: Option<SuiteResult>)
    : (GradingTables, bool)
  {
    var grade := Evaluation(c, vault, held.body, result);
    if grade.None? then (g, false)
    else
      var (g', r) := CompleteGrading(g, held.id, Some(held.token), grade.value, now);
      (g', r == Success(true))
  }

  class GradingCoordinator {
    const store: GraderStore
    const vault: SuiteVault
    const config: Config

    ghost predicate Valid() {
      store.codec == config.codec && store.settings == config.settings && vault.codec == config.codec
    }

    constructor (store: GraderStore, vault: SuiteVault, config: Config)
      requires store.codec == config.codec && store.settings == config.settings && vault.codec == config.codec
      ensures Valid() && this.store == store && this.vault == vault && this.config == config
    {
      this.store, this.vault, this.config := store, vault, config;
    }

    /** Loads the frozen suite, parses it again and summarises what the executor returned. */
    method Evaluate(attempt: Attempt, result: Option<SuiteResult>) returns (grade: Option<Grade>)
      requires Valid()
      ensures grade == Evaluation(config, vault.entries, attempt, result)
    {
      hide Tables.Load, Parse, Summarize;
      var stored := vault.Load(attempt.taskId);
      if stored.Failure? || stored.value.suiteHash != attempt.suiteHash { return None; }
      if MAX_OUTPUT < config.codec.suiteText(stored.value.payload) { return None; }
      var suite := FromDecoded(stored.value.payload, config.codec.valueBytes);
      if suite.None? || !suite.value.status.Ready? || result.None? { return None; }
      var report := Summarize(suite.value, result.value);
      if report.None? { return None; }
      grade := Some(GradeOf(report.value));
    }

    method Process(now: real, held: Held<Attempt>, result: Option<SuiteResult>) returns (r: Ending)
      requires Valid()
      modifies store`attempts, store`publications, store`notes
      ensures
        (store.Grading(), r.Returns?) == GradingWork(config, old(store.Grading()), vault.entries, now, held, result)
      ensures !r.Idle?
    {
      hide Tables.CompleteGrading, Evaluation;
      var grade := Evaluate(held.body, result);
      if grade.None? { return Raises; }
      var completed := store.CompleteGrading(held.id, Some(held.token), grade.value, now);
      r := if completed == Success(true) then Returns("completed") else Raises;
    }

    method ProcessOnce(now: real, token: string, result: Option<SuiteResult>, ghost s: State, ghost w: nat)
      returns (r: Ending)
      requires Valid() && s.g == store.Grading() && s.vault == vault.entries && s.clock == now
      requires GraderOf(s, w) == GraderIdle && token !in s.past.issued
      modifies store`attempts, store`publications, store`notes
      ensures
        var s' := Run(config, s, GraderScript(w, token, result));
        store.Grading() == s'.g && GraderOf(s', w) == GraderIdle
    {
      hide Run, ClaimGrading, GradingWork, Tables.ReleaseGrading, GraderOf, StepGraderEvaluate, StepGraderComplete,
           StepGraderHandle;
      GraderScriptRuns(config, s, w, token, result);
      ClaimNoAttempt(s.g, config.settings, now, token);
      SetGraderTwice(s, w);
      var next := store.ClaimNextGrading(now, token);
      if next.None? {
        IdleGrades(config, s, w, result);
        return Idle;
      }
      var attempt := next.value;
      GradesAndHandles(config, StepGraderClaim(config, s, w, token), w, attempt, result);
      r := Process(now, attempt, result);
      if r.Raises? {
        var _ := store.ReleaseGrading(attempt.id, attempt.token, "grading-infrastructure-failure", now);
      }
    }
  }

  lemma ClaimNoAttempt(g: GradingTables, s: Settings, now: real, token: string)
    ensures ClaimGrading(g, s, now, token).1.None? ==> ClaimGrading(g, s, now, token).0 == g
    ensures ClaimPublication(g, s, now, token).1.None? ==> ClaimPublication(g, s, now, token).0 == g
  {}

  lemma IdleGrades(c: Config, s: State, w: nat, result: Option<SuiteResult>)
    requires GraderOf(s, w) == GraderIdle
    ensures StepGraderHandle(c, StepGraderComplete(StepGraderEvaluate(c, s, w, result), w), w) == s
  {}

  // ----- publishing -----

  lemma PublisherScriptRuns(c: Config, s: State, w: nat, token: string, ok: bool)
    ensures
      Run(c, s, PublisherScript(w, token, ok)) ==
      StepPublisherSettle(StepPublisherSend(StepPublisherClaim(c, s, w, token), w, ok), w)
  {
    hide Step, Run, StepPublisherClaim, StepPublisherSend, StepPublisherSettle;
    var s1 := StepPublisherClaim(c, s, w, token);
    var s2 := StepPublisherSend(s1, w, ok);
    var e0, e1, e2 := PublisherClaim(w, token), PublisherSend(w, ok), PublisherSettle(w);
    StepIs(c, s, e0); StepIs(c, s1, e1); StepIs(c, s2, e2);
    RunPair(c, s, e0, e1); RunOne(c, s2, e2);
    RunAppend(c, s, [e0, e1], [e2]);
    assert PublisherScript(w, token, ok) == [e0, e1] + [e2];
  }

  class CheckPublicationCoordinator {
    const store: GraderStore
    const config: Config

    ghost predicate Valid() { store.codec == config.codec && store.settings == config.settings }

    constructor (store: GraderStore, config: Config)
      requires store.codec == config.codec && store.settings == config.settings
      ensures Valid() && this.store == store && this.config == config
    {
      this.store, this.config := store, config;
    }

    /** `ok` says whether the publisher returned. */
    method ProcessOnce(now: real, token: string, ok: bool, ghost s: State, ghost w: nat) returns (r: Ending)
      requires Valid() && s.g == store.Grading() && s.clock == now
      requires PublisherOf(s, w) == CourierIdle && token !in s.past.issued
      modifies store`publications
      ensures
        var s' := Run(config, s, PublisherScript(w, token, ok));
        store.Grading() == s'.g && PublisherOf(s', w) == CourierIdle
    {
      hide Run, ClaimPublication, Tables.CompletePublication, Tables.ReleasePublication;
      PublisherScriptRuns(config, s, w, token, ok);
      ClaimNoAttempt(s.g, config.settings, now, token);
      var next := store.ClaimNextPublication(now, token);
      if next.None? { return Idle; }
      var publication := next.value;
      if !ok {
        var _ := store.ReleasePublication(publication.id, publication.token, "check-publication-failure", 30.0, now);
        return Raises;
      }
      var completed := store.CompletePublication(publication.id, publication.token, now);
      r := if completed then Returns("published") else Raises;
    }
  }
}
