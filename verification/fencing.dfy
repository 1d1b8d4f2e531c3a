/** Fencing over whole runs, for the workers of all four queues: once a worker no longer owns the
    row it claimed, nothing it still does leaves a trace. */
module Fencing {
  import opened Text
  import opened Leases
  import opened Results
  import opened Tables
  import opened Contracts
  import opened Pipeline
  import opened PipelineInvariant
  import opened PipelineTheorems

  datatype Worker = AuthorAt(w: nat) | GraderAt(w: nat) | PublisherAt(w: nat) | BotAt(w: nat)

  /** The events in which `worker` acts. */
  predicate By(e: Event, worker: Worker) {
    match worker
    case AuthorAt(w) => IsAuthorEvent(e) && e.w == w
    case GraderAt(w) => IsGraderEvent(e) && e.w == w
    case PublisherAt(w) => IsPublisherEvent(e) && e.w == w
    case BotAt(w) => IsBotEvent(e) && e.w == w
  }

  predicate IsClaim(e: Event) { e.AuthorClaim? || e.GraderClaim? || e.PublisherClaim? || e.BotClaim? }

  /** The worker holds nothing, or a row whose current token is not the one it holds. */
  predicate Stale(s: State, worker: Worker) {
    match worker
    case AuthorAt(w) => var a := AuthorOf(s, w); a.AuthorIdle? || !Owns(s.a.jobs, a.held.id, a.held.token)
    case GraderAt(w) => var g := GraderOf(s, w); g.GraderIdle? || !Owns(s.g.attempts, g.held.id, g.held.token)
    case PublisherAt(w) => var p := PublisherOf(s, w); p.CourierIdle? || !Owns(s.g.publications, p.held.id, p.held.token)
    case BotAt(w) => var b := BotOf(s, w); b.CourierIdle? || !Owns(s.g.notes, b.held.id, b.held.token)
  }

  /** The same state, had the worker crashed just now. */
  function Killed(s: State, worker: Worker): State {
    match worker
    case AuthorAt(w) => SetAuthor(s, w, AuthorIdle)
    case GraderAt(w) => SetGrader(s, w, GraderIdle)
    case PublisherAt(w) => SetPublisher(s, w, CourierIdle)
    case BotAt(w) => SetBot(s, w, CourierIdle)
  }

  /** The events without those of `worker`. */
  function Erase(events: seq<Event>, worker: Worker): seq<Event> {
    if events == [] then []
    else (if By(events[0], worker) then [] else [events[0]]) + Erase(events[1..], worker)
  }

  // ----- one transaction -----

  /** Without the row's current token an authoring transaction changes nothing and says so. */
  lemma LostJobTransactions(
    a: AuthoringTables, codec: Codec, task: string, token: string, text: string, nonce: string, delay: real, now: real,
    promoted: Result<StoredSuite>)
    requires !Owns(a.jobs, task, token)
    ensures ReleaseAuthoring(a, task, token, now) == (a, false)
    ensures RequeueAfterCritic(a, codec, task, token, text, delay, now).0 == a
    ensures RequeueAfterCritic(a, codec, task, token, text, delay, now).1.Failure?
    ensures MarkAuthoringFailed(a, task, token, text, now).0 == a
    ensures MarkAuthoringFailed(a, task, token, text, now).1 != Success(true)
    ensures FinalizeAuthoring(a, task, token, promoted, now) == (a, Failure(LeaseNotOwned))
    ensures RequestClarification(a, task, token, text, nonce, now).0 == a
    ensures RequestClarification(a, task, token, text, nonce, now).1.Failure?
  {
    hide ErrorCodeValid, BoundedText, RevisionTaken;
  }

  // ----- the stale worker's own steps -----

  lemma StaleAuthorSettles(c: Config, s: State, w: nat, nonce: string, fault: Fault)
    requires Stale(s, AuthorAt(w))
    ensures
      var s', a := StepAuthorSettle(c, s, w, nonce, fault), AuthorOf(s, w);
      s' == s || (!a.AuthorIdle? && s' == SetAuthor(s, w, Raised(a.held)))
  {
    hide Owns, RequestClarification, RequeueAfterCritic, MarkAuthoringFailed, Freeze, FinalizeAuthoring;
    match AuthorOf(s, w)
    case Asking(held, ask) =>
      LostJobTransactions(s.a, c.codec, held.id, held.token, ask, nonce, 0.0, s.clock, Failure(Error.Fault));
    case Refused(held, feedback, code) =>
      LostJobTransactions(s.a, c.codec, held.id, held.token, code, nonce, 0.0, s.clock, Failure(Error.Fault));
      LostJobTransactions(s.a, c.codec, held.id, held.token, feedback, nonce, 0.0, s.clock, Failure(Error.Fault));
    case Accepted(held, evidence) =>
    case _ =>
  }

  /** At most the worker's own place changed, and it holds what it held. */
  ghost predicate OnlyAuthorMoved(s: State, s': State, w: nat) {
    var a := AuthorOf(s, w);
    s' == s || exists next: Author :: s' == SetAuthor(s, w, next) && (next.AuthorIdle? || (!a.AuthorIdle? && next.held == a.held))
  }

  lemma StaleAuthorMoves(c: Config, s: State, e: Event, w: nat)
    requires Stale(s, AuthorAt(w)) && By(e, AuthorAt(w)) && !IsClaim(e)
    ensures OnlyAuthorMoved(s, AuthorStep(c, s, e), w)
  {
    hide Owns, StepAuthorSettle, StepAuthorHandle;
    var a, s' := AuthorOf(s, w), AuthorStep(c, s, e);
    match e
    case AuthorDraft(_, output) =>
    case AuthorReview(_, verdict) =>
    case AuthorGate(_, runs) =>
    case AuthorSettle(_, nonce, fault) => StaleAuthorSettles(c, s, w, nonce, fault);
    case AuthorHandle(_) => StaleAuthorHandles(c, s, w);
    case AuthorCrash(_) =>
  }

  lemma StaleAuthorHandles(c: Config, s: State, w: nat)
    requires Stale(s, AuthorAt(w))
    ensures OnlyAuthorMoved(s, StepAuthorHandle(c, s, w), w)
  {
    hide Owns, ReleaseAuthoring, MarkAuthoringFailed;
    if AuthorOf(s, w).Raised? {
      var held := AuthorOf(s, w).held;
      LostJobTransactions(s.a, c.codec, held.id, held.token, "authoring-error", "", 0.0, s.clock, Failure(Error.Fault));
    }
  }

  lemma StaleAuthorStep(c: Config, s: State, e: Event, w: nat)
    requires Stale(s, AuthorAt(w)) && By(e, AuthorAt(w)) && !IsClaim(e)
    ensures Killed(AuthorStep(c, s, e), AuthorAt(w)) == Killed(s, AuthorAt(w)) && Stale(AuthorStep(c, s, e), AuthorAt(w))
  {
    hide Owns, AuthorStep;
    StaleAuthorMoves(c, s, e, w);
    AuthorRewritten(s, w);
  }

  lemma AuthorRewritten(s: State, w: nat)
    ensures forall next :: Killed(SetAuthor(s, w, next), AuthorAt(w)) == Killed(s, AuthorAt(w))
  {
    forall next ensures Killed(SetAuthor(s, w, next), AuthorAt(w)) == Killed(s, AuthorAt(w)) {
      assert s.workers.authors[w := next][w := AuthorIdle] == s.workers.authors[w := AuthorIdle];
    }
  }

  lemma LostGradingTransactions(
    g: GradingTables, st: Settings, id: string, token: string, grade: Grade, code: string, delay: real, now: real)
    ensures !Owns(g.attempts, id, token) ==>
      && CompleteGrading(g, id, Some(token), grade, now).0 == g && CompleteGrading(g, id, Some(token), grade, now).1 != Success(true)
      && ReleaseGrading(g, st, id, token, code, now).0 == g && ReleaseGrading(g, st, id, token, code, now).1 != Success(true)
    ensures !Owns(g.publications, id, token) ==>
      && CompletePublication(g, id, token, now) == (g, false)
      && ReleasePublication(g, id, token, code, delay, now).0 == g
      && ReleasePublication(g, id, token, code, delay, now).1 != Success(true)
    ensures !Owns(g.notes, id, token) ==>
      SettleNote(g, id, token, Done, now) == (g, false) && SettleNote(g, id, token, Queued, now) == (g, false)
  {
    hide IsHash, ErrorCodeValid, CountsValid, ReportValid, RetryDelay, InsertOrIgnore;
  }

  lemma StaleGraderStep(c: Config, s: State, e: Event, w: nat)
    requires Stale(s, GraderAt(w)) && By(e, GraderAt(w)) && !IsClaim(e)
    ensures Killed(GraderStep(c, s, e), GraderAt(w)) == Killed(s, GraderAt(w)) && Stale(GraderStep(c, s, e), GraderAt(w))
  {
    hide Owns, CompleteGrading, ReleaseGrading, Evaluation;
    var g := GraderOf(s, w);
    GraderRewritten(s, w);
    if !g.GraderIdle? {
      var grade := if g.Graded? then g.grade else GradeOf(Report(0, 0, []));
      LostGradingTransactions(
        s.g, c.settings, g.held.id, g.held.token, grade, "grading-infrastructure-failure", 0.0, s.clock);
    }
    match e
    case GraderEvaluate(_, result) =>
    case GraderComplete(_) =>
    case GraderHandle(_) =>
    case GraderCrash(_) =>
  }

  lemma GraderRewritten(s: State, w: nat)
    ensures forall next :: Killed(SetGrader(s, w, next), GraderAt(w)) == Killed(s, GraderAt(w))
  {
    forall next ensures Killed(SetGrader(s, w, next), GraderAt(w)) == Killed(s, GraderAt(w)) {
      assert s.workers.graders[w := next][w := GraderIdle] == s.workers.graders[w := GraderIdle];
    }
  }

  lemma StalePublisherStep(c: Config, s: State, e: Event, w: nat)
    requires Stale(s, PublisherAt(w)) && By(e, PublisherAt(w)) && !IsClaim(e)
    ensures Killed(PublisherStep(c, s, e), PublisherAt(w)) == Killed(s, PublisherAt(w))
      && Stale(PublisherStep(c, s, e), PublisherAt(w))
  {
    hide Owns, CompletePublication, ReleasePublication;
    var p := PublisherOf(s, w);
    PublisherRewritten(s, w);
    if !p.CourierIdle? {
      LostGradingTransactions(
        s.g, c.settings, p.held.id, p.held.token, GradeOf(Report(0, 0, [])), "check-publication-failure", 30.0, s.clock);
    }
    match e
    case PublisherSend(_, ok) =>
    case PublisherSettle(_) =>
    case PublisherCrash(_) =>
  }

  lemma PublisherRewritten(s: State, w: nat)
    ensures forall next :: Killed(SetPublisher(s, w, next), PublisherAt(w)) == Killed(s, PublisherAt(w))
  {
    forall next ensures Killed(SetPublisher(s, w, next), PublisherAt(w)) == Killed(s, PublisherAt(w)) {
      assert s.workers.publishers[w := next][w := CourierIdle] == s.workers.publishers[w := CourierIdle];
    }
  }

  lemma StaleBotStep(c: Config, s: State, e: Event, w: nat)
    requires Stale(s, BotAt(w)) && By(e, BotAt(w)) && !IsClaim(e)
    ensures Killed(BotStep(c, s, e), BotAt(w)) == Killed(s, BotAt(w)) && Stale(BotStep(c, s, e), BotAt(w))
  {
    hide Owns, SettleNote;
    var b := BotOf(s, w);
    BotRewritten(s, w);
    if !b.CourierIdle? {
      LostGradingTransactions(s.g, c.settings, b.held.id, b.held.token, GradeOf(Report(0, 0, [])), "", 0.0, s.clock);
    }
    match e
    case BotSend(_, ok) =>
    case BotSettle(_) =>
    case BotCrash(_) =>
  }

  lemma BotRewritten(s: State, w: nat)
    ensures forall next :: Killed(SetBot(s, w, next), BotAt(w)) == Killed(s, BotAt(w))
  {
    forall next ensures Killed(SetBot(s, w, next), BotAt(w)) == Killed(s, BotAt(w)) {
      assert s.workers.bots[w := next][w := CourierIdle] == s.workers.bots[w := CourierIdle];
    }
  }

  lemma StaleStep(c: Config, s: State, e: Event, worker: Worker)
    requires Stale(s, worker) && By(e, worker) && !IsClaim(e)
    ensures Killed(Step(c, s, e), worker) == Killed(s, worker) && Stale(Step(c, s, e), worker)
  {
    hide Stale, AuthorStep, GraderStep, PublisherStep, BotStep, OutsideStep, Killed;
    match worker
    case AuthorAt(w) => StaleAuthorStep(c, s, e, w);
    case GraderAt(w) => StaleGraderStep(c, s, e, w);
    case PublisherAt(w) => StalePublisherStep(c, s, e, w);
    case BotAt(w) => StaleBotStep(c, s, e, w);
  }

  // ----- everyone else's steps -----

  lemma Swapped<V>(m: map<nat, V>, i: nat, x: V, j: nat, y: V)
    requires i != j
    ensures m[i := x][j := y] == m[j := y][i := x]
  {}

  ghost predicate SameTables(s: State, t: State) {
    s.a == t.a && s.g == t.g && s.vault == t.vault && s.clock == t.clock && s.past == t.past
  }

  /** The state with the tables of `o`, and author `w` where `next` puts it. */
  function PutAuthor(s: State, w: nat, o: State, next: Option<Author>): State {
    var t := o.(workers := s.workers);
    if next.Some? then SetAuthor(t, w, next.value) else t
  }

  lemma AuthorClaimIsLocal(c: Config, s: State, t: State, w: nat, token: string) returns (next: Option<Author>)
    requires SameTables(s, t) && AuthorOf(s, w) == AuthorOf(t, w)
    ensures
      var o := StepAuthorClaim(c, s, w, token);
      o == PutAuthor(s, w, o, next) && StepAuthorClaim(c, t, w, token) == PutAuthor(t, w, o, next)
  {
    hide ClaimAuthoring, AuthorOf;
    var held := ClaimAuthoring(s.a, c.settings, s.clock, token).1;
    if AuthorOf(s, w) != AuthorIdle || token in s.past.issued || held.None? {
      next := None;
    } else {
      next := Some(Claimed(held.value));
    }
  }

  lemma AuthorAskIsLocal(s: State, t: State, w: nat, held: Held<Job>, ask: string,
      nonce: string) returns (next: Option<Author>)
    requires SameTables(s, t)
    ensures
      var o := StepAuthorAsk(s, w, held, ask, nonce);
      o == PutAuthor(s, w, o, next) && StepAuthorAsk(t, w, held, ask, nonce) == PutAuthor(t, w, o, next)
  {
    hide RequestClarification;
    if nonce in s.past.issued {
      next := None;
    } else {
      next := Some(if RequestClarification(s.a, held.id, held.token, ask, nonce, s.clock).1.Success? then AuthorIdle else Raised(held));
    }
  }

  lemma AuthorFinalizeIsLocal(c: Config, s: State, t: State, w: nat, held: Held<Job>, evidence: Evidence, fault: Fault)
    returns (next: Option<Author>)
    requires SameTables(s, t)
    ensures
      var o := StepAuthorFinalize(c, s, w, held, evidence, fault);
      o == PutAuthor(s, w, o, next) && StepAuthorFinalize(c, t, w, held, evidence, fault) == PutAuthor(t, w, o, next)
  {
    hide Owns, Freeze, ToPayload, FinalizeAuthoring;
    next := Some(StepAuthorFinalize(c, s, w, held, evidence, fault).workers.authors[w]);
  }

  lemma AuthorSettleIsLocal(c: Config, s: State, t: State, w: nat, nonce: string,
      fault: Fault) returns (next: Option<Author>)
    requires SameTables(s, t) && AuthorOf(s, w) == AuthorOf(t, w)
    ensures
      var o := StepAuthorSettle(c, s, w, nonce, fault);
      o == PutAuthor(s, w, o, next) && StepAuthorSettle(c, t, w, nonce, fault) == PutAuthor(t, w, o, next)
  {
    hide AuthorOf, StepAuthorAsk, RejectOrRetry, StepAuthorFinalize;
    match AuthorOf(s, w)
    case Asking(held, ask) => next := AuthorAskIsLocal(s, t, w, held, ask, nonce);
    case Accepted(held, evidence) => next := AuthorFinalizeIsLocal(c, s, t, w, held, evidence, fault);
    case Refused(held, feedback, code) =>
      next := Some(if RejectOrRetry(c, s.a, s.clock, held, feedback, code).1 then AuthorIdle else Raised(held));
    case _ => next := None;
  }

  lemma AuthorStepIsLocal(c: Config, s: State, t: State, e: Event) returns (next: Option<Author>)
    requires IsAuthorEvent(e) && SameTables(s, t) && AuthorOf(s, e.w) == AuthorOf(t, e.w)
    ensures
      var o := AuthorStep(c, s, e);
      o == PutAuthor(s, e.w, o, next) && AuthorStep(c, t, e) == PutAuthor(t, e.w, o, next)
  {
    hide AuthorOf, StepAuthorClaim, StepAuthorSettle, AfterDraft, AfterReview, AfterGate, Handled;
    var a := AuthorOf(s, e.w);
    match e
    case AuthorClaim(w, token) => next := AuthorClaimIsLocal(c, s, t, w, token);
    case AuthorDraft(w, output) => next := if a.Claimed? then Some(AfterDraft(c, a.held, output)) else None;
    case AuthorReview(w, verdict) =>
      next := if a.Drafted? then Some(AfterReview(a.held, a.output, a.suite, verdict)) else None;
    case AuthorGate(w, runs) =>
      next := if a.Reviewed? then Some(AfterGate(c, a.held, a.output, a.suite, a.verdict, runs)) else None;
    case AuthorSettle(w, nonce, fault) => next := AuthorSettleIsLocal(c, s, t, w, nonce, fault);
    case AuthorHandle(w) => next := if a.Raised? then Some(AuthorIdle) else None;
    case AuthorCrash(w) => next := Some(AuthorIdle);
  }

  /** The same for the workers of the grading tables. */
  function PutGrader(s: State, w: nat, o: State, next: Option<Grader>): State {
    var t := o.(workers := s.workers);
    if next.Some? then SetGrader(t, w, next.value) else t
  }

  lemma GraderStepIsLocal(c: Config, s: State, t: State, e: Event) returns (next: Option<Grader>)
    requires IsGraderEvent(e) && SameTables(s, t) && GraderOf(s, e.w) == GraderOf(t, e.w)
    ensures
      var o := GraderStep(c, s, e);
      o == PutGrader(s, e.w, o, next) && GraderStep(c, t, e) == PutGrader(t, e.w, o, next)
  {
    hide GraderOf, ClaimGrading, CompleteGrading, ReleaseGrading, Evaluation;
    var g := GraderOf(s, e.w);
    match e
    case GraderClaim(w, token) =>
      var held := ClaimGrading(s.g, c.settings, s.clock, token).1;
      next := if g != GraderIdle || token in s.past.issued || held.None? then None else Some(Grader.Grading(held.value));
    case GraderEvaluate(w, result) =>
      next := if g.Grading? then Some(AfterEvaluation(g.held, Evaluation(c, s.vault, g.held.body, result))) else None;
    case GraderComplete(w) =>
      if g.Graded? {
        var r := CompleteGrading(s.g, g.held.id, Some(g.held.token), g.grade, s.clock).1;
        next := Some(if r == Success(true) then GraderIdle else GradingRaised(g.held));
      } else {
        next := None;
      }
    case GraderHandle(w) => next := if g.GradingRaised? then Some(GraderIdle) else None;
    case GraderCrash(w) => next := Some(GraderIdle);
  }

  function PutPublisher(s: State, w: nat, o: State, next: Option<Courier<Publication>>): State {
    var t := o.(workers := s.workers);
    if next.Some? then SetPublisher(t, w, next.value) else t
  }

  lemma PublisherStepIsLocal(c: Config, s: State, t: State, e: Event) returns (next: Option<Courier<Publication>>)
    requires IsPublisherEvent(e) && SameTables(s, t) && PublisherOf(s, e.w) == PublisherOf(t, e.w)
    ensures
      var o := PublisherStep(c, s, e);
      o == PutPublisher(s, e.w, o, next) && PublisherStep(c, t, e) == PutPublisher(t, e.w, o, next)
  {
    hide PublisherOf, ClaimPublication, CompletePublication, ReleasePublication;
    var p := PublisherOf(s, e.w);
    match e
    case PublisherClaim(w, token) =>
      var held := ClaimPublication(s.g, c.settings, s.clock, token).1;
      next := if p != CourierIdle || token in s.past.issued || held.None? then None else Some(Holding(held.value));
    case PublisherSend(w, ok) => next := if p.Holding? then Some(AfterSend(p.held, ok)) else None;
    case PublisherSettle(w) => next := if p.Sent? || p.SendFailed? then Some(CourierIdle) else None;
    case PublisherCrash(w) => next := Some(CourierIdle);
  }

  function PutBot(s: State, w: nat, o: State, next: Option<Courier<Note>>): State {
    var t := o.(workers := s.workers);
    if next.Some? then SetBot(t, w, next.value) else t
  }

  lemma BotStepIsLocal(c: Config, s: State, t: State, e: Event) returns (next: Option<Courier<Note>>)
    requires IsBotEvent(e) && SameTables(s, t) && BotOf(s, e.w) == BotOf(t, e.w)
    ensures
      var o := BotStep(c, s, e);
      o == PutBot(s, e.w, o, next) && BotStep(c, t, e) == PutBot(t, e.w, o, next)
  {
    hide BotOf, ClaimNote, SettleNote;
    var b := BotOf(s, e.w);
    match e
    case BotClaim(w, token) =>
      var held := ClaimNote(s.g, c.settings, s.clock, token).1;
      next := if b != CourierIdle || token in s.past.issued || held.None? then None else Some(Holding(held.value));
    case BotSend(w, ok) => next := if b.Holding? then Some(AfterSend(b.held, ok)) else None;
    case BotSettle(w) => next := if b.Sent? || b.SendFailed? then Some(CourierIdle) else None;
    case BotCrash(w) => next := Some(CourierIdle);
  }

  lemma PutAuthorCommutes(s: State, o: State, i: nat, worker: Worker, next: Option<Author>)
    requires worker != AuthorAt(i)
    ensures Killed(PutAuthor(s, i, o, next), worker) == PutAuthor(Killed(s, worker), i, o, next)
  {
    if worker.AuthorAt? && next.Some? { Swapped(s.workers.authors, i, next.value, worker.w, AuthorIdle); }
  }

  lemma PutGraderCommutes(s: State, o: State, i: nat, worker: Worker, next: Option<Grader>)
    requires worker != GraderAt(i)
    ensures Killed(PutGrader(s, i, o, next), worker) == PutGrader(Killed(s, worker), i, o, next)
  {
    if worker.GraderAt? && next.Some? { Swapped(s.workers.graders, i, next.value, worker.w, GraderIdle); }
  }

  lemma PutPublisherCommutes(s: State, o: State, i: nat, worker: Worker, next: Option<Courier<Publication>>)
    requires worker != PublisherAt(i)
    ensures Killed(PutPublisher(s, i, o, next), worker) == PutPublisher(Killed(s, worker), i, o, next)
  {
    if worker.PublisherAt? && next.Some? { Swapped(s.workers.publishers, i, next.value, worker.w, CourierIdle); }
  }

  lemma PutBotCommutes(s: State, o: State, i: nat, worker: Worker, next: Option<Courier<Note>>)
    requires worker != BotAt(i)
    ensures Killed(PutBot(s, i, o, next), worker) == PutBot(Killed(s, worker), i, o, next)
  {
    if worker.BotAt? && next.Some? { Swapped(s.workers.bots, i, next.value, worker.w, CourierIdle); }
  }

  lemma KilledKeepsTables(s: State, worker: Worker)
    ensures SameTables(s, Killed(s, worker))
    ensures forall w :: worker != AuthorAt(w) ==> AuthorOf(Killed(s, worker), w) == AuthorOf(s, w)
    ensures forall w :: worker != GraderAt(w) ==> GraderOf(Killed(s, worker), w) == GraderOf(s, w)
    ensures forall w :: worker != PublisherAt(w) ==> PublisherOf(Killed(s, worker), w) == PublisherOf(s, w)
    ensures forall w :: worker != BotAt(w) ==> BotOf(Killed(s, worker), w) == BotOf(s, w)
    ensures Killed(s, worker).workers.pushes == s.workers.pushes
  {}

  /** A worker never looks at where another one stands, nor moves it. */
  lemma OthersDoNotSee(c: Config, s: State, e: Event, worker: Worker)
    requires !By(e, worker)
    ensures Killed(Step(c, s, e), worker) == Step(c, Killed(s, worker), e)
  {
    hide AuthorStep, GraderStep, PublisherStep, BotStep, OutsideStep, Killed, PutAuthor, PutGrader, PutPublisher,
         PutBot;
    var t, o := Killed(s, worker), Step(c, s, e);
    KilledKeepsTables(s, worker);
    KilledKeepsTables(o, worker);
    if IsAuthorEvent(e) {
      var next := AuthorStepIsLocal(c, s, t, e);
      PutAuthorCommutes(s, o, e.w, worker, next);
    } else if IsGraderEvent(e) {
      var next := GraderStepIsLocal(c, s, t, e);
      PutGraderCommutes(s, o, e.w, worker, next);
    } else if IsPublisherEvent(e) {
      var next := PublisherStepIsLocal(c, s, t, e);
      PutPublisherCommutes(s, o, e.w, worker, next);
    } else if IsBotEvent(e) {
      var next := BotStepIsLocal(c, s, t, e);
      PutBotCommutes(s, o, e.w, worker, next);
    } else {
      OutsideStepIgnores(c, s, e, worker);
    }
  }

  lemma OutsideStepIgnores(c: Config, s: State, e: Event, worker: Worker)
    requires !IsAuthorEvent(e) && !IsGraderEvent(e) && !IsPublisherEvent(e) && !IsBotEvent(e)
    ensures Killed(OutsideStep(c, s, e), worker) == OutsideStep(c, Killed(s, worker), e)
  {
    hide EnqueueAuthoring, AnswerClarification, AnswerApplies, EnqueueGrading, RequeueFailed;
  }

  // ----- who may change a row -----

  /** A row changes only by a claim, while it is eligible, with a token never stored before; by the
      holder of its current token, who lets go of it; or, while nobody holds it, by being queued
      again (an answer arrives, or a failed row is migrated). */
  ghost predicate Fenced<P>(before: Row<P>, after: Row<P>, s: State, leaseSeconds: real, claim: Option<string>,
      holder: Option<string>) {
    || after == before
    || (&& claim.Some? && claim.value !in s.past.issued && Eligible(before, s.clock)
        && after == ClaimedRow(before, s.clock, claim.value, leaseSeconds))
    || (holder.Some? && before.phase == Leased && before.token == holder && after.phase != Leased && after.token.None?)
    || (before.token.None? && before.phase in {Waiting, Phase.Failed} && after.phase == Queued && after.token.None?)
  }

  /** The token a worker presents for row `id`. */
  function Presented<P>(held: Held<P>, id: string): Option<string> { if held.id == id then Some(held.token) else None }

  function JobHolder(s: State, e: Event, id: string): Option<string> {
    if IsAuthorEvent(e) && !AuthorOf(s, e.w).AuthorIdle? then Presented(AuthorOf(s, e.w).held, id) else None
  }

  function AttemptHolder(s: State, e: Event, id: string): Option<string> {
    if IsGraderEvent(e) && !GraderOf(s, e.w).GraderIdle? then Presented(GraderOf(s, e.w).held, id) else None
  }

  function PublicationHolder(s: State, e: Event, id: string): Option<string> {
    if IsPublisherEvent(e) && !PublisherOf(s, e.w).CourierIdle? then Presented(PublisherOf(s, e.w).held, id) else None
  }

  function NoteHolder(s: State, e: Event, id: string): Option<string> {
    if IsBotEvent(e) && !BotOf(s, e.w).CourierIdle? then Presented(BotOf(s, e.w).held, id) else None
  }

  ghost predicate JobFenced(c: Config, s: State, e: Event, s': State, id: string)
    requires id in s.a.jobs
  {
    && id in s'.a.jobs
    && Fenced(s.a.jobs[id], s'.a.jobs[id], s, c.settings.leaseSeconds,
              if e.AuthorClaim? then Some(e.token) else None, JobHolder(s, e, id))
  }

  ghost predicate AttemptFenced(c: Config, s: State, e: Event, s': State, id: string)
    requires id in s.g.attempts
  {
    && id in s'.g.attempts
    && Fenced(s.g.attempts[id], s'.g.attempts[id], s, c.settings.leaseSeconds,
              if e.GraderClaim? then Some(e.token) else None, AttemptHolder(s, e, id))
  }

  ghost predicate PublicationFenced(c: Config, s: State, e: Event, s': State, id: string)
    requires id in s.g.publications
  {
    && id in s'.g.publications
    && Fenced(s.g.publications[id], s'.g.publications[id], s, c.settings.leaseSeconds,
              if e.PublisherClaim? then Some(e.token) else None, PublicationHolder(s, e, id))
  }

  ghost predicate NoteFenced(c: Config, s: State, e: Event, s': State, id: string)
    requires id in s.g.notes
  {
    && id in s'.g.notes
    && Fenced(s.g.notes[id], s'.g.notes[id], s, c.settings.leaseSeconds,
              if e.BotClaim? then Some(e.token) else None, NoteHolder(s, e, id))
  }

  /** At most the row of `id` changed, let go of by whoever presented its current token. */
  ghost predicate FreedBy<P>(t: Table<P>, t': Table<P>, id: string, token: string) {
    || t' == t
    || (Owns(t, id, token) && id in t' && t' == t[id := t'[id]] && t'[id].phase != Leased && t'[id].token.None?)
  }

  lemma JobTransactionsFree(
    a: AuthoringTables, codec: Codec, task: string, token: string, text: string, nonce: string, delay: real, now: real,
    promoted: Result<StoredSuite>)
    ensures FreedBy(a.jobs, ReleaseAuthoring(a, task, token, now).0.jobs, task, token)
    ensures FreedBy(a.jobs, RequeueAfterCritic(a, codec, task, token, text, delay, now).0.jobs, task, token)
    ensures FreedBy(a.jobs, MarkAuthoringFailed(a, task, token, text, now).0.jobs, task, token)
    ensures FreedBy(a.jobs, FinalizeAuthoring(a, task, token, promoted, now).0.jobs, task, token)
    ensures FreedBy(a.jobs, RequestClarification(a, task, token, text, nonce, now).0.jobs, task, token)
  {
    hide ErrorCodeValid, BoundedText, RevisionTaken, IsHash;
  }

  lemma SettleFrees(c: Config, s: State, w: nat, nonce: string, fault: Fault)
    ensures
      var a, s' := AuthorOf(s, w), StepAuthorSettle(c, s, w, nonce, fault);
      s'.a.jobs == s.a.jobs || (!a.AuthorIdle? && FreedBy(s.a.jobs, s'.a.jobs, a.held.id, a.held.token))
  {
    hide AuthorOf, RequestClarification, RequeueAfterCritic, MarkAuthoringFailed, Freeze, ToPayload,
         FinalizeAuthoring, FreedBy;
    var failed: Result<StoredSuite> := Failure(Error.Fault);
    match AuthorOf(s, w)
    case Asking(held, ask) => JobTransactionsFree(s.a, c.codec, held.id, held.token, ask, nonce, 0.0, s.clock, failed);
    case Refused(held, feedback, code) =>
      JobTransactionsFree(s.a, c.codec, held.id, held.token, code, nonce, 0.0, s.clock, failed);
      JobTransactionsFree(s.a, c.codec, held.id, held.token, feedback, nonce, 0.0, s.clock, failed);
    case Accepted(held, evidence) =>
      var promoted := Freeze(s.vault, c.codec, held.id, held.body.starterSha, ToPayload(evidence.suite), c.authorModel).1;
      JobTransactionsFree(s.a, c.codec, held.id, held.token, "", nonce, 0.0, s.clock, promoted);
    case _ =>
  }

  lemma HandleFrees(c: Config, s: State, w: nat)
    ensures
      var a, s' := AuthorOf(s, w), StepAuthorHandle(c, s, w);
      s'.a.jobs == s.a.jobs || (!a.AuthorIdle? && FreedBy(s.a.jobs, s'.a.jobs, a.held.id, a.held.token))
  {
    hide AuthorOf, ReleaseAuthoring, MarkAuthoringFailed, FreedBy;
    match AuthorOf(s, w)
    case Raised(held) =>
      JobTransactionsFree(s.a, c.codec, held.id, held.token, "authoring-error", "", 0.0, s.clock, Failure(Error.Fault));
    case _ =>
  }

  lemma AuthorEventFenced(c: Config, s: State, e: Event, id: string)
    requires IsAuthorEvent(e) && id in s.a.jobs
    ensures JobFenced(c, s, e, AuthorStep(c, s, e), id)
  {
    hide AuthorOf, StepAuthorSettle, StepAuthorHandle, AfterDraft, AfterReview, AfterGate;
    match e
    case AuthorClaim(w, token) =>
    case AuthorDraft(w, output) =>
    case AuthorReview(w, verdict) =>
    case AuthorGate(w, runs) =>
    case AuthorSettle(w, nonce, fault) => SettleFrees(c, s, w, nonce, fault);
    case AuthorHandle(w) => HandleFrees(c, s, w);
    case AuthorCrash(w) =>
  }

  /** The acting author may move; no other place and no grading table changes. */
  lemma AuthorEventFrame(c: Config, s: State, e: Event)
    requires IsAuthorEvent(e)
    ensures AuthorStep(c, s, e).g == s.g && AuthorStep(c, s, e).clock == s.clock
  {
    hide AuthorOf, ClaimAuthoring, RequestClarification, RejectOrRetry, Owns, Freeze, ToPayload, FinalizeAuthoring,
         AfterDraft, AfterReview, AfterGate, Handled;
  }

  lemma GradingTransactionsFree(g: GradingTables, st: Settings, id: string, token: string, grade: Grade,
      code: string, now: real)
    ensures FreedBy(g.attempts, CompleteGrading(g, id, Some(token), grade, now).0.attempts, id, token)
    ensures FreedBy(g.attempts, ReleaseGrading(g, st, id, token, code, now).0.attempts, id, token)
  {
    hide IsHash, ErrorCodeValid, CountsValid, ReportValid, RetryDelay, InsertOrIgnore;
  }

  lemma OutboxTransactionsFree(g: GradingTables, id: string, token: string, code: string, delay: real, now: real)
    ensures FreedBy(g.publications, CompletePublication(g, id, token, now).0.publications, id, token)
    ensures FreedBy(g.publications, ReleasePublication(g, id, token, code, delay, now).0.publications, id, token)
    ensures FreedBy(g.notes, SettleNote(g, id, token, Done, now).0.notes, id, token)
    ensures FreedBy(g.notes, SettleNote(g, id, token, Queued, now).0.notes, id, token)
  {
    hide IsHash, ErrorCodeValid;
  }

  /** Outbox rows that exist stay as they are when a grading completes. */
  lemma CompleteKeepsOutbox(g: GradingTables, id: string, token: Option<string>, grade: Grade, now: real)
    ensures
      var g' := CompleteGrading(g, id, token, grade, now).0;
      && (forall x | x in g.publications :: x in g'.publications && g'.publications[x] == g.publications[x])
      && (forall x | x in g.notes :: x in g'.notes && g'.notes[x] == g.notes[x])
  {
    hide IsHash, CountsValid, ReportValid;
  }

  /** What a step of a grading worker may do to the grading tables. */
  ghost predicate GraderWrites(s: State, s': State, w: nat) {
    var held := GraderOf(s, w);
    && s'.a == s.a
    && (s'.g.attempts == s.g.attempts
        || (!held.GraderIdle? && FreedBy(s.g.attempts, s'.g.attempts, held.held.id, held.held.token)))
    && (forall x | x in s.g.publications :: x in s'.g.publications && s'.g.publications[x] == s.g.publications[x])
    && (forall x | x in s.g.notes :: x in s'.g.notes && s'.g.notes[x] == s.g.notes[x])
  }

  lemma GraderCompleteWrites(s: State, w: nat)
    ensures GraderWrites(s, StepGraderComplete(s, w), w)
  {
    hide GraderOf, CompleteGrading, FreedBy;
    var g := GraderOf(s, w);
    if g.Graded? {
      GradingTransactionsFree(s.g, Settings(0.0, 0, 0.0), g.held.id, g.held.token, g.grade, "", s.clock);
      CompleteKeepsOutbox(s.g, g.held.id, Some(g.held.token), g.grade, s.clock);
    }
  }

  lemma GraderHandleWrites(c: Config, s: State, w: nat)
    ensures GraderWrites(s, StepGraderHandle(c, s, w), w)
  {
    hide GraderOf, ReleaseGrading, FreedBy;
    var g := GraderOf(s, w);
    if g.GradingRaised? {
      var code := "grading-infrastructure-failure";
      GradingTransactionsFree(s.g, c.settings, g.held.id, g.held.token, GradeOf(Report(0, 0, [])), code, s.clock);
      ReleaseKeepsOutbox(s.g, c.settings, g.held.id, g.held.token, code, s.clock);
    }
  }

  lemma GraderEventFenced(c: Config, s: State, e: Event, id: string)
    requires IsGraderEvent(e)
    ensures GraderStep(c, s, e).a == s.a
    ensures id in s.g.attempts ==> AttemptFenced(c, s, e, GraderStep(c, s, e), id)
    ensures id in s.g.publications ==> PublicationFenced(c, s, e, GraderStep(c, s, e), id)
    ensures id in s.g.notes ==> NoteFenced(c, s, e, GraderStep(c, s, e), id)
  {
    hide GraderOf, StepGraderComplete, StepGraderHandle, Evaluation, AfterEvaluation;
    match e
    case GraderClaim(w, token) =>
    case GraderEvaluate(w, result) =>
    case GraderComplete(w) => GraderCompleteWrites(s, w);
    case GraderHandle(w) => GraderHandleWrites(c, s, w);
    case GraderCrash(w) =>
  }

  lemma ReleaseKeepsOutbox(g: GradingTables, st: Settings, id: string, token: string, code: string, now: real)
    ensures var g' := ReleaseGrading(g, st, id, token, code, now).0; g'.publications == g.publications && g'.notes == g.notes
  {
    hide ErrorCodeValid, ReleasedAttempt;
  }

  lemma CourierTransactionsFrame(g: GradingTables, id: string, token: string, code: string, delay: real, now: real)
    ensures CompletePublication(g, id, token, now).0 == g.(publications := CompletePublication(g, id, token, now).0.publications)
    ensures
      var g' := ReleasePublication(g, id, token, code, delay, now).0;
      g' == g.(publications := g'.publications)
    ensures SettleNote(g, id, token, Done, now).0 == g.(notes := SettleNote(g, id, token, Done, now).0.notes)
    ensures SettleNote(g, id, token, Queued, now).0 == g.(notes := SettleNote(g, id, token, Queued, now).0.notes)
  {
    hide ErrorCodeValid, IsHash, Owns;
  }

  lemma PublisherEventFrame(c: Config, s: State, e: Event)
    requires IsPublisherEvent(e)
    ensures
      var s' := PublisherStep(c, s, e);
      s'.a == s.a && s'.g == s.g.(publications := s'.g.publications) && s'.clock == s.clock
  {
    hide PublisherOf, Next, CompletePublication, ReleasePublication;
    var courier := PublisherOf(s, e.w);
    if !courier.CourierIdle? {
      CourierTransactionsFrame(s.g, courier.held.id, courier.held.token, "check-publication-failure", 30.0, s.clock);
    }
  }

  lemma PublisherSettleFrees(s: State, w: nat)
    ensures
      var courier, s' := PublisherOf(s, w), StepPublisherSettle(s, w);
      || s'.g.publications == s.g.publications
      || (!courier.CourierIdle? && FreedBy(s.g.publications, s'.g.publications, courier.held.id, courier.held.token))
  {
    hide PublisherOf, CompletePublication, ReleasePublication, FreedBy;
    var courier := PublisherOf(s, w);
    if !courier.CourierIdle? {
      OutboxTransactionsFree(s.g, courier.held.id, courier.held.token, "check-publication-failure", 30.0, s.clock);
    }
  }

  lemma PublisherEventFenced(c: Config, s: State, e: Event, id: string)
    requires IsPublisherEvent(e) && id in s.g.publications
    ensures PublicationFenced(c, s, e, PublisherStep(c, s, e), id)
  {
    hide PublisherOf, StepPublisherSettle;
    match e
    case PublisherClaim(w, token) =>
    case PublisherSend(w, ok) =>
    case PublisherSettle(w) => PublisherSettleFrees(s, w);
    case PublisherCrash(w) =>
  }

  lemma BotEventFrame(c: Config, s: State, e: Event)
    requires IsBotEvent(e)
    ensures var s' := BotStep(c, s, e); s'.a == s.a && s'.g == s.g.(notes := s'.g.notes) && s'.clock == s.clock
  {
    hide BotOf, Next, SettleNote;
    var courier := BotOf(s, e.w);
    if !courier.CourierIdle? {
      CourierTransactionsFrame(s.g, courier.held.id, courier.held.token, "check-publication-failure", 30.0, s.clock);
    }
  }

  lemma BotSettleFrees(s: State, w: nat)
    ensures
      var courier, s' := BotOf(s, w), StepBotSettle(s, w);
      || s'.g.notes == s.g.notes
      || (!courier.CourierIdle? && FreedBy(s.g.notes, s'.g.notes, courier.held.id, courier.held.token))
  {
    hide BotOf, SettleNote, FreedBy;
    var courier := BotOf(s, w);
    if !courier.CourierIdle? {
      OutboxTransactionsFree(s.g, courier.held.id, courier.held.token, "check-publication-failure", 30.0, s.clock);
    }
  }

  lemma BotEventFenced(c: Config, s: State, e: Event, id: string)
    requires IsBotEvent(e) && id in s.g.notes
    ensures NoteFenced(c, s, e, BotStep(c, s, e), id)
  {
    hide BotOf, StepBotSettle;
    match e
    case BotClaim(w, token) =>
    case BotSend(w, ok) =>
    case BotSettle(w) => BotSettleFrees(s, w);
    case BotCrash(w) =>
  }

  /** Outside the workers, rows are only added, and waiting or failed ones queued again. */
  lemma OutsideJobsFenced(c: Config, s: State, e: Event, id: string)
    requires WellLeased(s.a.jobs, s.past.issued) && id in s.a.jobs
    requires !IsAuthorEvent(e) && !IsGraderEvent(e) && !IsPublisherEvent(e) && !IsBotEvent(e)
    ensures JobFenced(c, s, e, OutsideStep(c, s, e), id)
  {
    hide EnqueueGrading, RequeueFailed, AnswerApplies, BoundedText, IdentityValid, RowTaken, BranchTaken;
  }

  lemma OutsideGradingFenced(c: Config, s: State, e: Event, id: string)
    requires WellLeased(s.g.attempts, s.past.issued)
    requires !IsAuthorEvent(e) && !IsGraderEvent(e) && !IsPublisherEvent(e) && !IsBotEvent(e)
    ensures var s' := OutsideStep(c, s, e); s'.g.publications == s.g.publications && s'.g.notes == s.g.notes
    ensures id in s.g.attempts ==> AttemptFenced(c, s, e, OutsideStep(c, s, e), id)
  {
    hide EnqueueAuthoring, AnswerClarification, AnswerApplies, IsTaskId, IsKey, IsBranch, IsSha, IsHash, CommitTaken;
  }

  /** Every step changes only rows it may change, in all four queues. */
  lemma StepIsFenced(c: Config, s: State, e: Event, id: string)
    requires WellLeased(s.a.jobs, s.past.issued) && WellLeased(s.g.attempts, s.past.issued)
    ensures id in s.a.jobs ==> JobFenced(c, s, e, Step(c, s, e), id)
    ensures id in s.g.attempts ==> AttemptFenced(c, s, e, Step(c, s, e), id)
    ensures id in s.g.publications ==> PublicationFenced(c, s, e, Step(c, s, e), id)
    ensures id in s.g.notes ==> NoteFenced(c, s, e, Step(c, s, e), id)
  {
    hide AuthorStep, GraderStep, PublisherStep, BotStep, OutsideStep, ClaimedRow, Eligible, WellLeased,
         JobHolder, AttemptHolder, PublicationHolder, NoteHolder;
    if IsAuthorEvent(e) {
      AuthorEventFrame(c, s, e);
      if id in s.a.jobs { AuthorEventFenced(c, s, e, id); }
    } else if IsGraderEvent(e) {
      GraderEventFenced(c, s, e, id);
    } else if IsPublisherEvent(e) {
      PublisherEventFrame(c, s, e);
      if id in s.g.publications { PublisherEventFenced(c, s, e, id); }
    } else if IsBotEvent(e) {
      BotEventFrame(c, s, e);
      if id in s.g.notes { BotEventFenced(c, s, e, id); }
    } else {
      if id in s.a.jobs { OutsideJobsFenced(c, s, e, id); }
      OutsideGradingFenced(c, s, e, id);
    }
  }

  // ----- staleness stays -----

  /** A token that was stored before never becomes a row's current token again. */
  lemma FencedStaysLost<P>(t: Table<P>, t': Table<P>, s: State, lease: real, claim: Option<string>, holder: Option<string>,
                           id: string, token: string)
    requires id in t && id in t' && Fenced(t[id], t'[id], s, lease, claim, holder)
    requires !Owns(t, id, token) && token in s.past.issued
    ensures !Owns(t', id, token)
  {}

  lemma HeldIsKnown(c: Config, s: State, worker: Worker)
    requires Inv(c, s)
    ensures worker.AuthorAt? && !AuthorOf(s, worker.w).AuthorIdle? ==>
      var held := AuthorOf(s, worker.w).held; held.token in s.past.issued && held.id in s.a.jobs
    ensures worker.GraderAt? && !GraderOf(s, worker.w).GraderIdle? ==>
      var held := GraderOf(s, worker.w).held; held.token in s.past.issued && held.id in s.g.attempts
    ensures worker.PublisherAt? && !PublisherOf(s, worker.w).CourierIdle? ==>
      var held := PublisherOf(s, worker.w).held; held.token in s.past.issued && held.id in s.g.publications
    ensures worker.BotAt? && !BotOf(s, worker.w).CourierIdle? ==>
      var held := BotOf(s, worker.w).held; held.token in s.past.issued && held.id in s.g.notes
  {
    hide LeasesOk, JobsOk, VaultOk, AttemptsOk, OutboxOk, ClarificationsOk, PushesOk, GradeSound, Sound, ParsedReady;
    if worker.AuthorAt? && worker.w in s.workers.authors {
      assert AuthorOk(c, s.a.jobs, s.past.issued, s.workers.authors[worker.w]);
    }
    if worker.GraderAt? && worker.w in s.workers.graders {
      assert GraderOk(s.g.attempts, s.past.origin, s.past.issued, s.workers.graders[worker.w]);
    }
  }

  lemma InvLeases(c: Config, s: State)
    requires Inv(c, s)
    ensures WellLeased(s.a.jobs, s.past.issued) && WellLeased(s.g.attempts, s.past.issued)
    ensures WellLeased(s.g.publications, s.past.issued) && WellLeased(s.g.notes, s.past.issued)
  {
    hide JobsOk, VaultOk, AttemptsOk, OutboxOk, ClarificationsOk, AuthorsOk, GradersOk, CouriersOk, PushesOk,
         WellLeased;
  }

  predicate SamePlace(s: State, s': State, worker: Worker) {
    match worker
    case AuthorAt(w) => AuthorOf(s', w) == AuthorOf(s, w)
    case GraderAt(w) => GraderOf(s', w) == GraderOf(s, w)
    case PublisherAt(w) => PublisherOf(s', w) == PublisherOf(s, w)
    case BotAt(w) => BotOf(s', w) == BotOf(s, w)
  }

  /** Nobody moves another worker. */
  lemma PlaceKept(c: Config, s: State, e: Event, worker: Worker)
    requires !By(e, worker)
    ensures SamePlace(s, Step(c, s, e), worker)
  {
    hide AuthorStep, GraderStep, PublisherStep, BotStep, OutsideStep, SamePlace, PutAuthor, PutGrader, PutPublisher,
         PutBot;
    var o := Step(c, s, e);
    if IsAuthorEvent(e) {
      var next := AuthorStepIsLocal(c, s, s, e);
      PutKeepsPlace(s, e.w, o, worker, next, None, None, None);
    } else if IsGraderEvent(e) {
      var next := GraderStepIsLocal(c, s, s, e);
      PutKeepsPlace(s, e.w, o, worker, None, next, None, None);
    } else if IsPublisherEvent(e) {
      var next := PublisherStepIsLocal(c, s, s, e);
      PutKeepsPlace(s, e.w, o, worker, None, None, next, None);
    } else if IsBotEvent(e) {
      var next := BotStepIsLocal(c, s, s, e);
      PutKeepsPlace(s, e.w, o, worker, None, None, None, next);
    } else {
      OutsideKeepsPlace(c, s, e, worker);
    }
  }

  lemma PutKeepsPlace(s: State, i: nat, o: State, worker: Worker, author: Option<Author>, grader: Option<Grader>,
                      publisher: Option<Courier<Publication>>, bot: Option<Courier<Note>>)
    ensures worker != AuthorAt(i) ==> SamePlace(s, PutAuthor(s, i, o, author), worker)
    ensures worker != GraderAt(i) ==> SamePlace(s, PutGrader(s, i, o, grader), worker)
    ensures worker != PublisherAt(i) ==> SamePlace(s, PutPublisher(s, i, o, publisher), worker)
    ensures worker != BotAt(i) ==> SamePlace(s, PutBot(s, i, o, bot), worker)
  {}

  lemma OutsideKeepsPlace(c: Config, s: State, e: Event, worker: Worker)
    requires !IsAuthorEvent(e) && !IsGraderEvent(e) && !IsPublisherEvent(e) && !IsBotEvent(e)
    ensures SamePlace(s, OutsideStep(c, s, e), worker)
  {
    hide EnqueueAuthoring, AnswerClarification, AnswerApplies, EnqueueGrading, RequeueFailed;
  }

  lemma StaleStays(c: Config, s: State, e: Event, worker: Worker)
    requires Inv(c, s) && Stale(s, worker) && !By(e, worker)
    ensures Stale(Step(c, s, e), worker)
  {
    hide Inv, Step, Owns, Fenced, By, AuthorOf, GraderOf, PublisherOf, BotOf, WellLeased, JobHolder, AttemptHolder,
         PublicationHolder, NoteHolder;
    var s' := Step(c, s, e);
    InvLeases(c, s);
    HeldIsKnown(c, s, worker);
    PlaceKept(c, s, e, worker);
    var lease := c.settings.leaseSeconds;
    match worker
    case AuthorAt(w) =>
      if !AuthorOf(s, w).AuthorIdle? {
        var held := AuthorOf(s, w).held;
        StepIsFenced(c, s, e, held.id);
        FencedStaysLost(s.a.jobs, s'.a.jobs, s, lease, if e.AuthorClaim? then Some(e.token) else None,
                        JobHolder(s, e, held.id), held.id, held.token);
      }
    case GraderAt(w) =>
      if !GraderOf(s, w).GraderIdle? {
        var held := GraderOf(s, w).held;
        StepIsFenced(c, s, e, held.id);
        FencedStaysLost(s.g.attempts, s'.g.attempts, s, lease, if e.GraderClaim? then Some(e.token) else None,
                        AttemptHolder(s, e, held.id), held.id, held.token);
      }
    case PublisherAt(w) =>
      if !PublisherOf(s, w).CourierIdle? {
        var held := PublisherOf(s, w).held;
        StepIsFenced(c, s, e, held.id);
        FencedStaysLost(s.g.publications, s'.g.publications, s, lease, if e.PublisherClaim? then Some(e.token) else None,
                        PublicationHolder(s, e, held.id), held.id, held.token);
      }
    case BotAt(w) =>
      if !BotOf(s, w).CourierIdle? {
        var held := BotOf(s, w).held;
        StepIsFenced(c, s, e, held.id);
        FencedStaysLost(s.g.notes, s'.g.notes, s, lease, if e.BotClaim? then Some(e.token) else None,
                        NoteHolder(s, e, held.id), held.id, held.token);
      }
  }

  // ----- the theorems -----

  predicate NeverClaims(events: seq<Event>, worker: Worker) {
    forall k | 0 <= k < |events| :: By(events[k], worker) ==> !IsClaim(events[k])
  }

  lemma EraseFirst(events: seq<Event>, worker: Worker)
    requires events != []
    ensures
      var rest := Erase(events[1..], worker);
      if By(events[0], worker) then Erase(events, worker) == rest
      else Erase(events, worker) != [] && Erase(events, worker)[0] == events[0] && Erase(events, worker)[1..] == rest
  {
    hide By;
    var rest := Erase(events[1..], worker);
    assert [] + rest == rest;
    assert ([events[0]] + rest)[1..] == rest;
  }

  /** Everything a worker without its row still does, exception handler included, amounts to
      having crashed at once: every table, the vault, the history and every other worker end the
      same. */
  lemma {:induction false} StaleWorkerLeavesNoTrace(c: Config, s: State, events: seq<Event>, worker: Worker)
    requires Inv(c, s) && Stale(s, worker) && NeverClaims(events, worker)
    ensures Killed(Run(c, s, events), worker) == Run(c, Killed(s, worker), Erase(events, worker))
    decreases events
  {
    hide Inv, Step, Stale, Killed, By, IsClaim;
    if events != [] {
      var e, next := events[0], Step(c, s, events[0]);
      StepKeeps(c, s, e);
      if By(e, worker) {
        StaleStep(c, s, e, worker);
        StaleWorkerLeavesNoTrace(c, next, events[1..], worker);
        EraseFirst(events, worker);
      } else {
        StaleStays(c, s, e, worker);
        OthersDoNotSee(c, s, e, worker);
        StaleWorkerLeavesNoTrace(c, next, events[1..], worker);
        EraseFirst(events, worker);
      }
    }
  }

  /** In every reachable state, whatever the next event, a row is leased exactly while it carries a
      token, no token is carried twice, and a row changes only as `Fenced` allows. */
  lemma OnlyTheHolderMovesARow(c: Config, events: seq<Event>, e: Event, id: string)
    ensures
      var s := Run(c, EMPTY, events);
      && WellLeased(s.a.jobs, s.past.issued) && WellLeased(s.g.attempts, s.past.issued)
      && WellLeased(s.g.publications, s.past.issued) && WellLeased(s.g.notes, s.past.issued)
      && (id in s.a.jobs ==> JobFenced(c, s, e, Step(c, s, e), id))
      && (id in s.g.attempts ==> AttemptFenced(c, s, e, Step(c, s, e), id))
      && (id in s.g.publications ==> PublicationFenced(c, s, e, Step(c, s, e), id))
      && (id in s.g.notes ==> NoteFenced(c, s, e, Step(c, s, e), id))
  {
    hide Inv, Step, WellLeased, JobFenced, AttemptFenced, PublicationFenced, NoteFenced;
    EmptyInv(c);
    RunKeeps(c, EMPTY, events);
    var s := Run(c, EMPTY, events);
    InvLeases(c, s);
    StepIsFenced(c, s, e, id);
  }

  /** The row that `worker` holds is not the same in `s'`. */
  ghost predicate HeldRowChanged(s: State, s': State, worker: Worker) {
    match worker
    case AuthorAt(w) =>
      var a := AuthorOf(s, w);
      !a.AuthorIdle? && a.held.id in s.a.jobs && a.held.id in s'.a.jobs && s'.a.jobs[a.held.id] != s.a.jobs[a.held.id]
    case GraderAt(w) =>
      var g := GraderOf(s, w);
      !g.GraderIdle? && g.held.id in s.g.attempts && g.held.id in s'.g.attempts && s'.g.attempts[g.held.id] != s.g.attempts[g.held.id]
    case PublisherAt(w) =>
      var p := PublisherOf(s, w);
      !p.CourierIdle? && p.held.id in s.g.publications && p.held.id in s'.g.publications
      && s'.g.publications[p.held.id] != s.g.publications[p.held.id]
    case BotAt(w) =>
      var b := BotOf(s, w);
      !b.CourierIdle? && b.held.id in s.g.notes && b.held.id in s'.g.notes && s'.g.notes[b.held.id] != s.g.notes[b.held.id]
  }

  lemma FencedChangeLoses<P>(t: Table<P>, t': Table<P>, s: State, lease: real, claim: Option<string>, holder: Option<string>,
                             id: string, token: string)
    requires id in t && id in t' && Fenced(t[id], t'[id], s, lease, claim, holder)
    requires t'[id] != t[id] && token in s.past.issued
    ensures !Owns(t', id, token)
  {}

  /** Whoever else changes the row a worker holds, typically by reclaiming it, makes it stale. */
  lemma ChangedRowIsLost(c: Config, s: State, e: Event, worker: Worker)
    requires Inv(c, s) && !By(e, worker) && HeldRowChanged(s, Step(c, s, e), worker)
    ensures Stale(Step(c, s, e), worker)
  {
    hide Inv, Step, Owns, Fenced, By, AuthorOf, GraderOf, PublisherOf, BotOf, WellLeased, JobHolder, AttemptHolder,
         PublicationHolder, NoteHolder;
    var s' := Step(c, s, e);
    InvLeases(c, s);
    HeldIsKnown(c, s, worker);
    PlaceKept(c, s, e, worker);
    var lease := c.settings.leaseSeconds;
    match worker
    case AuthorAt(w) =>
      var held := AuthorOf(s, w).held;
      StepIsFenced(c, s, e, held.id);
      FencedChangeLoses(s.a.jobs, s'.a.jobs, s, lease, if e.AuthorClaim? then Some(e.token) else None,
                        JobHolder(s, e, held.id), held.id, held.token);
    case GraderAt(w) =>
      var held := GraderOf(s, w).held;
      StepIsFenced(c, s, e, held.id);
      FencedChangeLoses(s.g.attempts, s'.g.attempts, s, lease, if e.GraderClaim? then Some(e.token) else None,
                        AttemptHolder(s, e, held.id), held.id, held.token);
    case PublisherAt(w) =>
      var held := PublisherOf(s, w).held;
      StepIsFenced(c, s, e, held.id);
      FencedChangeLoses(s.g.publications, s'.g.publications, s, lease, if e.PublisherClaim? then Some(e.token) else None,
                        PublicationHolder(s, e, held.id), held.id, held.token);
    case BotAt(w) =>
      var held := BotOf(s, w).held;
      StepIsFenced(c, s, e, held.id);
      FencedChangeLoses(s.g.notes, s'.g.notes, s, lease, if e.BotClaim? then Some(e.token) else None,
                        NoteHolder(s, e, held.id), held.id, held.token);
  }

  /** Once somebody else has reclaimed a worker's row, the rest of its `process_once` leaves every
      table, the vault and every other worker as if it had crashed at that moment. */
  lemma ReclaimedWorkerLeavesNoTrace(c: Config, before: seq<Event>, reclaim: Event, after: seq<Event>, worker: Worker)
    requires !By(reclaim, worker) && NeverClaims(after, worker)
    requires HeldRowChanged(Run(c, EMPTY, before), Step(c, Run(c, EMPTY, before), reclaim), worker)
    ensures
      var reclaimed := Step(c, Run(c, EMPTY, before), reclaim);
      Killed(Run(c, reclaimed, after), worker) == Run(c, Killed(reclaimed, worker), Erase(after, worker))
  {
    hide Inv, Step, By, Stale, Killed, HeldRowChanged;
    EmptyInv(c);
    RunKeeps(c, EMPTY, before);
    var s := Run(c, EMPTY, before);
    ChangedRowIsLost(c, s, reclaim, worker);
    StepKeeps(c, s, reclaim);
    StaleWorkerLeavesNoTrace(c, Step(c, s, reclaim), after, worker);
  }
}
