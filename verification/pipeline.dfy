/** The whole grading pipeline as a state machine. One event is one transaction, one step of a
    worker between transactions, or a crash. Any number of workers interleave; an event that is
    not enabled changes nothing. Oracles (author, critic, executor, publisher) are event data. */
module Pipeline {
  import opened Text
  import opened Leases
  import opened Results
  import opened Tables
  import opened Contracts
  import Json

  datatype Config = Config(codec: Codec, settings: Settings, maxAuthorAttempts: nat, authorModel: string)

  /** Why a suite was allowed into the vault. */
  datatype Evidence = Evidence(
    output: Json.Value, suite: SuiteDraft, verdict: Verdict, first: SuiteResult, second: SuiteResult)

  /** Where `AuthoringCoordinator.process_once` stands. `Raised` is its exception handler. */
  datatype Author =
    | AuthorIdle
    | Claimed(held: Held<Job>)
    | Drafted(held: Held<Job>, output: Json.Value, suite: SuiteDraft)
    | Reviewed(held: Held<Job>, output: Json.Value, suite: SuiteDraft, verdict: Verdict)
    | Accepted(held: Held<Job>, evidence: Evidence)
    | Asking(held: Held<Job>, ask: string)
    | Refused(held: Held<Job>, feedback: string, code: string)
    | Raised(held: Held<Job>)

  /** Where `GradingCoordinator.process_once` stands. */
  datatype Grader =
    | GraderIdle
    | Grading(held: Held<Attempt>)
    | Graded(held: Held<Attempt>, grade: Grade)
    | GradingRaised(held: Held<Attempt>)

  /** Where a check publisher or the mentor bot stands: holding a row, past the send, or in the
      handler after a failed send. */
  datatype Courier<+P> =
    | CourierIdle
    | Holding(held: Held<P>)
    | Sent(held: Held<P>)
    | SendFailed(held: Held<P>)

  /** `enqueue_commit` between reading the job and enqueueing the attempt. */
  datatype Push = PushIdle | PushRead(task: string, project: string, branch: string, commit: string, suiteHash: string)

  /** History, which no step consults: why each vault entry was frozen; every lease token and
      nonce stored so far; how often an answer was applied to its job, by nonce. */
  datatype History = History(origin: map<string, Evidence>, issued: set<string>, applied: map<string, nat>)

  datatype Workers = Workers(
    authors: map<nat, Author>,
    graders: map<nat, Grader>,
    publishers: map<nat, Courier<Publication>>,
    bots: map<nat, Courier<Note>>,
    pushes: map<nat, Push>)

  datatype State = State(
    a: AuthoringTables, g: GradingTables, vault: Vault, clock: real, past: History, workers: Workers)

  datatype Verdict = CriticApproves | CriticRejects(feedback: string) | CriticAsks(ask: string) | CriticRaises

  /** Where a promotion breaks: not at all, before the vault rename, or between the rename and
      the commit; a broken promotion raises or kills the worker. */
  datatype Fault = NoFault | BeforeRename(crash: bool) | AfterRename(crash: bool)

  datatype Event =
    | Tick(now: real)
    | Migrate
    | EnsureSuite(task: string, rowId: string, project: string, branch: string, starter: string, assignment: string)
    | Answer(nonce: string, revision: int, text: string)
    | PushLook(p: nat, task: string, project: string, branch: string, commit: string)
    | PushWrite(p: nat)
    | AuthorClaim(w: nat, token: string)
    | AuthorDraft(w: nat, output: Option<Json.Value>)
    | AuthorReview(w: nat, verdict: Verdict)
    | AuthorGate(w: nat, runs: Option<(SuiteResult, SuiteResult)>)
    | AuthorSettle(w: nat, nonce: string, fault: Fault)
    | AuthorHandle(w: nat)
    | AuthorCrash(w: nat)
    | GraderClaim(w: nat, token: string)
    | GraderEvaluate(w: nat, result: Option<SuiteResult>)
    | GraderComplete(w: nat)
    | GraderHandle(w: nat)
    | GraderCrash(w: nat)
    | PublisherClaim(w: nat, token: string)
    | PublisherSend(w: nat, ok: bool)
    | PublisherSettle(w: nat)
    | PublisherCrash(w: nat)
    | BotClaim(w: nat, token: string)
    | BotSend(w: nat, ok: bool)
    | BotSettle(w: nat)
    | BotCrash(w: nat)

  function AuthorOf(s: State, w: nat): Author {
    if w in s.workers.authors then s.workers.authors[w] else AuthorIdle
  }

  function GraderOf(s: State, w: nat): Grader {
    if w in s.workers.graders then s.workers.graders[w] else GraderIdle
  }

  function PublisherOf(s: State, w: nat): Courier<Publication> {
    if w in s.workers.publishers then s.workers.publishers[w] else CourierIdle
  }

  function BotOf(s: State, w: nat): Courier<Note> {
    if w in s.workers.bots then s.workers.bots[w] else CourierIdle
  }

  function PushOf(s: State, p: nat): Push { if p in s.workers.pushes then s.workers.pushes[p] else PushIdle }

  function SetAuthor(s: State, w: nat, next: Author): State {
    s.(workers := s.workers.(authors := s.workers.authors[w := next]))
  }

  function SetGrader(s: State, w: nat, next: Grader): State {
    s.(workers := s.workers.(graders := s.workers.graders[w := next]))
  }

  function SetPublisher(s: State, w: nat, next: Courier<Publication>): State {
    s.(workers := s.workers.(publishers := s.workers.publishers[w := next]))
  }

  function SetBot(s: State, w: nat, next: Courier<Note>): State {
    s.(workers := s.workers.(bots := s.workers.bots[w := next]))
  }

  function SetPush(s: State, p: nat, next: Push): State {
    s.(workers := s.workers.(pushes := s.workers.pushes[p := next]))
  }

  /** A token or nonce drawn from the random source is new. */
  function Draw(s: State, token: string): State { s.(past := s.past.(issued := s.past.issued + {token})) }

  // ----- enqueueing -----

  function StepEnsure(c: Config, s: State, e: Event): State
    requires e.EnsureSuite?
  {
    s.(a := EnqueueAuthoring(s.a, c.codec, s.clock, e.task, e.rowId, e.project, e.branch, e.starter, e.assignment).0)
  }

  /** This call is the one that moves the waiting job on. */
  predicate AnswerApplies(a: AuthoringTables, nonce: string, revision: int, text: string) {
    && BoundedText(text, 1_000).Some? && nonce in a.clarifications
    && a.clarifications[nonce].revision == revision && a.clarifications[nonce].Pending()
    && Awaits(a, a.clarifications[nonce])
  }

  function Applied(applied: map<string, nat>, nonce: string): nat {
    if nonce in applied then applied[nonce] else 0
  }

  function StepAnswer(s: State, nonce: string, revision: int, text: string): State {
    var applied := s.past.applied;
    s.(a := AnswerClarification(s.a, nonce, revision, text, s.clock).0,
       past := s.past.(applied :=
         if AnswerApplies(s.a, nonce, revision, text) then applied[nonce := Applied(applied, nonce) + 1] else applied))
  }

  /** `enqueue_commit` first reads the job: it must match and be ready. */
  function StepPushLook(s: State, e: Event): State
    requires e.PushLook?
  {
    if e.task in s.a.jobs && s.a.jobs[e.task].body.project == e.project && s.a.jobs[e.task].body.branch == e.branch
       && s.a.jobs[e.task].phase == Done && s.a.jobs[e.task].body.suiteHash.Some?
    then
      SetPush(s, e.p, PushRead(e.task, e.project, e.branch, e.commit, s.a.jobs[e.task].body.suiteHash.value))
    else s
  }

  function StepPushWrite(c: Config, s: State, p: nat): State {
    match PushOf(s, p)
    case PushIdle => s
    case PushRead(task, project, branch, commit, suiteHash) =>
      SetPush(s.(g := EnqueueGrading(s.g, c.codec, s.clock, task, project, branch, commit, suiteHash).0), p, PushIdle)
  }

  // ----- authoring -----

  function StepAuthorClaim(c: Config, s: State, w: nat, token: string): State {
    if AuthorOf(s, w) != AuthorIdle || token in s.past.issued then s
    else
      var (a, held) := ClaimAuthoring(s.a, c.settings, s.clock, token);
      if held.None? then s
      else SetAuthor(Draw(s, token).(a := a), w, Claimed(held.value))
  }

  /** The author's output is parsed; a draft either asks a question or is a ready suite. */
  ghost function AfterDraft(c: Config, held: Held<Job>, output: Option<Json.Value>): Author {
    if output.None? then Raised(held)
    else
      match Parse(output.value, c.codec.valueBytes)
      case None => Raised(held)
      case Some(draft) =>
        if draft.status.ClarificationRequired? then Asking(held, draft.clarification.value)
        else Drafted(held, output.value, draft)
  }

  function AfterReview(held: Held<Job>, output: Json.Value, suite: SuiteDraft, verdict: Verdict): Author {
    match verdict
    case CriticApproves => Reviewed(held, output, suite, verdict)
    case CriticRejects(feedback) => Refused(held, feedback, "critic-rejected")
    case CriticAsks(ask) => Asking(held, ask)
    case CriticRaises => Raised(held)
  }

  function AfterGate(
    c: Config, held: Held<Job>, output: Json.Value, suite: SuiteDraft, verdict: Verdict,
    runs: Option<(SuiteResult, SuiteResult)>): Author
  {
    match runs
    case None => Raised(held)
    case Some((first, second)) =>
      match GateVerdict(first, second, suite)
      case Some(reason) => Refused(held, c.codec.gateFeedback(reason), "acceptance-rejected")
      case None => Accepted(held, Evidence(output, suite, verdict, first, second))
  }

  ghost function StepAuthorDraft(c: Config, s: State, w: nat, output: Option<Json.Value>): State {
    match AuthorOf(s, w)
    case Claimed(held) => SetAuthor(s, w, AfterDraft(c, held, output))
    case _ => s
  }

  function StepAuthorReview(s: State, w: nat, verdict: Verdict): State {
    match AuthorOf(s, w)
    case Drafted(held, output, suite) => SetAuthor(s, w, AfterReview(held, output, suite, verdict))
    case _ => s
  }

  function StepAuthorGate(c: Config, s: State, w: nat, runs: Option<(SuiteResult, SuiteResult)>): State {
    match AuthorOf(s, w)
    case Reviewed(held, output, suite, verdict) => SetAuthor(s, w, AfterGate(c, held, output, suite, verdict, runs))
    case _ => s
  }

  function StepAuthorAsk(s: State, w: nat, held: Held<Job>, ask: string, nonce: string): State {
    if nonce in s.past.issued then s
    else
      var (a, r) := RequestClarification(s.a, held.id, held.token, ask, nonce, s.clock);
      if r.Success? then SetAuthor(Draw(s, nonce).(a := a), w, AuthorIdle) else SetAuthor(s.(a := a), w, Raised(held))
  }

  /** `_reject_or_retry`: the tables afterwards, and whether it returned. */
  function RejectOrRetry(c: Config, a: AuthoringTables, clock: real, held: Held<Job>, feedback: string, code: string)
    : (AuthoringTables, bool)
  {
    if c.maxAuthorAttempts <= held.attempts then
      var (a', r) := MarkAuthoringFailed(a, held.id, held.token, code, clock);
      (a', r == Success(true))
    else
      var (a', r) := RequeueAfterCritic(a, c.codec, held.id, held.token, feedback, 0.0, clock);
      (a', r.Success?)
  }

  function StepAuthorRefuse(c: Config, s: State, w: nat, held: Held<Job>, feedback: string, code: string): State {
    var (a, returned) := RejectOrRetry(c, s.a, s.clock, held, feedback, code);
    SetAuthor(s.(a := a), w, if returned then AuthorIdle else Raised(held))
  }

  function AfterFault(held: Held<Job>, crash: bool): Author { if crash then AuthorIdle else Raised(held) }

  /** `finalize_authoring` with the vault promotion inside it. The rename is not undone when the
      database transaction is. */
  function StepAuthorFinalize(c: Config, s: State, w: nat, held: Held<Job>, evidence: Evidence, fault: Fault): State {
    if !Owns(s.a.jobs, held.id, held.token) then SetAuthor(s, w, Raised(held))
    else if fault.BeforeRename? then SetAuthor(s, w, AfterFault(held, fault.crash))
    else
      var (vault, promoted) :=
        Freeze(s.vault, c.codec, held.id, held.body.starterSha, ToPayload(evidence.suite), c.authorModel);
      var (a, r) := FinalizeAuthoring(s.a, held.id, held.token, promoted, s.clock);
      var origin :=
        if held.id in s.vault || held.id !in vault then s.past.origin else s.past.origin[held.id := evidence];
      SetAuthor(
        s.(vault := vault, past := s.past.(origin := origin), a := if fault.AfterRename? then s.a else a), w,
        if fault.AfterRename? then AfterFault(held, fault.crash)
        else if r.Success? then AuthorIdle
        else Raised(held))
  }

  function StepAuthorSettle(c: Config, s: State, w: nat, nonce: string, fault: Fault): State {
    match AuthorOf(s, w)
    case Asking(held, ask) => StepAuthorAsk(s, w, held, ask, nonce)
    case Refused(held, feedback, code) => StepAuthorRefuse(c, s, w, held, feedback, code)
    case Accepted(held, evidence) => StepAuthorFinalize(c, s, w, held, evidence, fault)
    case _ => s
  }

  /** The handler of `process_once`: out of attempts the job fails, else it is released. */
  function Handled(c: Config, a: AuthoringTables, clock: real, held: Held<Job>): AuthoringTables {
    if c.maxAuthorAttempts <= held.attempts then
      MarkAuthoringFailed(a, held.id, held.token, "authoring-error", clock).0
    else
      ReleaseAuthoring(a, held.id, held.token, clock).0
  }

  function StepAuthorHandle(c: Config, s: State, w: nat): State {
    match AuthorOf(s, w)
    case Raised(held) => SetAuthor(s.(a := Handled(c, s.a, s.clock, held)), w, AuthorIdle)
    case _ => s
  }

  // ----- grading -----

  function StepGraderClaim(c: Config, s: State, w: nat, token: string): State {
    if GraderOf(s, w) != GraderIdle || token in s.past.issued then s
    else
      var (g, held) := ClaimGrading(s.g, c.settings, s.clock, token);
      if held.None? then s
      else SetGrader(Draw(s, token).(g := g), w, Grader.Grading(held.value))
  }

  /** The grade that a summary amounts to. */
  function GradeOf(report: Report): Grade {
    Grade(report.passed == report.total, report.passed, report.total, report)
  }

  /** The characters that the parser accepts. */
  const MAX_OUTPUT := 1_000_000

  /** Load the frozen suite, print it with default separators, parse it again, export and run the commit, and summarise. */
  ghost function Evaluation(c: Config, vault: Vault, attempt: Attempt, result: Option<SuiteResult>): Option<Grade> {
    match Load(vault, c.codec, attempt.taskId)
    case Failure(_) => None
    case Success(stored) =>
      if stored.suiteHash != attempt.suiteHash || MAX_OUTPUT < c.codec.suiteText(stored.payload) then None
      else
        match Parse(stored.payload, c.codec.valueBytes)
        case None => None
        case Some(suite) =>
          if !suite.status.Ready? || result.None? then None
          else
            match Summarize(suite, result.value)
            case None => None
            case Some(report) => Some(GradeOf(report))
  }

  function AfterEvaluation(held: Held<Attempt>, grade: Option<Grade>): Grader {
    if grade.Some? then Graded(held, grade.value) else GradingRaised(held)
  }

  ghost function StepGraderEvaluate(c: Config, s: State, w: nat, result: Option<SuiteResult>): State {
    match GraderOf(s, w)
    case Grading(held) => SetGrader(s, w, AfterEvaluation(held, Evaluation(c, s.vault, held.body, result)))
    case _ => s
  }

  function StepGraderComplete(s: State, w: nat): State {
    match GraderOf(s, w)
    case Graded(held, grade) =>
      var (g, r) := CompleteGrading(s.g, held.id, Some(held.token), grade, s.clock);
      SetGrader(s.(g := g), w, if r == Success(true) then GraderIdle else GradingRaised(held))
    case _ => s
  }

  function StepGraderHandle(c: Config, s: State, w: nat): State {
    match GraderOf(s, w)
    case GradingRaised(held) =>
      var g := ReleaseGrading(s.g, c.settings, held.id, held.token, "grading-infrastructure-failure", s.clock).0;
      SetGrader(s.(g := g), w, GraderIdle)
    case _ => s
  }

  // ----- outbox -----

  function StepPublisherClaim(c: Config, s: State, w: nat, token: string): State {
    if PublisherOf(s, w) != CourierIdle || token in s.past.issued then s
    else
      var (g, held) := ClaimPublication(s.g, c.settings, s.clock, token);
      if held.None? then s
      else SetPublisher(Draw(s, token).(g := g), w, Holding(held.value))
  }

  function AfterSend<P>(held: Held<P>, ok: bool): Courier<P> { if ok then Sent(held) else SendFailed(held) }

  function StepPublisherSend(s: State, w: nat, ok: bool): State {
    match PublisherOf(s, w)
    case Holding(held) => SetPublisher(s, w, AfterSend(held, ok))
    case _ => s
  }

  function StepPublisherSettle(s: State, w: nat): State {
    match PublisherOf(s, w)
    case Sent(held) =>
      SetPublisher(s.(g := CompletePublication(s.g, held.id, held.token, s.clock).0), w, CourierIdle)
    case SendFailed(held) =>
      var g := ReleasePublication(s.g, held.id, held.token, "check-publication-failure", 30.0, s.clock).0;
      SetPublisher(s.(g := g), w, CourierIdle)
    case _ => s
  }

  function StepBotClaim(c: Config, s: State, w: nat, token: string): State {
    if BotOf(s, w) != CourierIdle || token in s.past.issued then s
    else
      var (g, held) := ClaimNote(s.g, c.settings, s.clock, token);
      if held.None? then s
      else SetBot(Draw(s, token).(g := g), w, Holding(held.value))
  }

  function StepBotSend(s: State, w: nat, ok: bool): State {
    match BotOf(s, w)
    case Holding(held) => SetBot(s, w, AfterSend(held, ok))
    case _ => s
  }

  function StepBotSettle(s: State, w: nat): State {
    match BotOf(s, w)
    case Sent(held) => SetBot(s.(g := SettleNote(s.g, held.id, held.token, Done, s.clock).0), w, CourierIdle)
    case SendFailed(held) => SetBot(s.(g := SettleNote(s.g, held.id, held.token, Queued, s.clock).0), w, CourierIdle)
    case _ => s
  }

  // ----- one step, and runs -----

  predicate IsAuthorEvent(e: Event) {
    e.AuthorClaim? || e.AuthorDraft? || e.AuthorReview? || e.AuthorGate? || e.AuthorSettle? || e.AuthorHandle? || e.AuthorCrash?
  }

  predicate IsGraderEvent(e: Event) {
    e.GraderClaim? || e.GraderEvaluate? || e.GraderComplete? || e.GraderHandle? || e.GraderCrash?
  }

  predicate IsPublisherEvent(e: Event) { e.PublisherClaim? || e.PublisherSend? || e.PublisherSettle? || e.PublisherCrash? }

  predicate IsBotEvent(e: Event) { e.BotClaim? || e.BotSend? || e.BotSettle? || e.BotCrash? }

  ghost function AuthorStep(c: Config, s: State, e: Event): State
    requires IsAuthorEvent(e)
  {
    match e
    case AuthorClaim(w, token) => StepAuthorClaim(c, s, w, token)
    case AuthorDraft(w, output) => StepAuthorDraft(c, s, w, output)
    case AuthorReview(w, verdict) => StepAuthorReview(s, w, verdict)
    case AuthorGate(w, runs) => StepAuthorGate(c, s, w, runs)
    case AuthorSettle(w, nonce, fault) => StepAuthorSettle(c, s, w, nonce, fault)
    case AuthorHandle(w) => StepAuthorHandle(c, s, w)
    case AuthorCrash(w) => SetAuthor(s, w, AuthorIdle)
  }

  ghost function GraderStep(c: Config, s: State, e: Event): State
    requires IsGraderEvent(e)
  {
    match e
    case GraderClaim(w, token) => StepGraderClaim(c, s, w, token)
    case GraderEvaluate(w, result) => StepGraderEvaluate(c, s, w, result)
    case GraderComplete(w) => StepGraderComplete(s, w)
    case GraderHandle(w) => StepGraderHandle(c, s, w)
    case GraderCrash(w) => SetGrader(s, w, GraderIdle)
  }

  function PublisherStep(c: Config, s: State, e: Event): State
    requires IsPublisherEvent(e)
  {
    match e
    case PublisherClaim(w, token) => StepPublisherClaim(c, s, w, token)
    case PublisherSend(w, ok) => StepPublisherSend(s, w, ok)
    case PublisherSettle(w) => StepPublisherSettle(s, w)
    case PublisherCrash(w) => SetPublisher(s, w, CourierIdle)
  }

  function BotStep(c: Config, s: State, e: Event): State
    requires IsBotEvent(e)
  {
    match e
    case BotClaim(w, token) => StepBotClaim(c, s, w, token)
    case BotSend(w, ok) => StepBotSend(s, w, ok)
    case BotSettle(w) => StepBotSettle(s, w)
    case BotCrash(w) => SetBot(s, w, CourierIdle)
  }

  function OutsideStep(c: Config, s: State, e: Event): State
    requires !IsAuthorEvent(e) && !IsGraderEvent(e) && !IsPublisherEvent(e) && !IsBotEvent(e)
  {
    match e
    case Tick(now) => if s.clock <= now then s.(clock := now) else s
    case Migrate => s.(g := RequeueFailed(s.g, s.clock))
    case EnsureSuite(_, _, _, _, _, _) => StepEnsure(c, s, e)
    case Answer(nonce, revision, text) => StepAnswer(s, nonce, revision, text)
    case PushLook(_, _, _, _, _) => StepPushLook(s, e)
    case PushWrite(p) => StepPushWrite(c, s, p)
  }

  ghost function Step(c: Config, s: State, e: Event): State {
    if IsAuthorEvent(e) then AuthorStep(c, s, e)
    else if IsGraderEvent(e) then GraderStep(c, s, e)
    else if IsPublisherEvent(e) then PublisherStep(c, s, e)
    else if IsBotEvent(e) then BotStep(c, s, e)
    else OutsideStep(c, s, e)
  }

  ghost function Run(c: Config, s: State, events: seq<Event>): State
    decreases events
  {
    if events == [] then s else Run(c, Step(c, s, events[0]), events[1..])
  }

  const EMPTY := State(
    AuthoringTables(map[], map[]), GradingTables(map[], map[], map[]), map[], 0.0,
    History(map[], {}, map[]), Workers(map[], map[], map[], map[], map[]))
}
