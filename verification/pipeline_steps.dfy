/** Every event keeps the invariant, whatever the oracles answer and whoever crashes. */
module PipelineSteps {
  import opened Text
  import opened Leases
  import opened Results
  import opened Tables
  import opened Contracts
  import opened Pipeline
  import opened PipelineInvariant

  // ----- building blocks -----

  lemma SetAuthorKeeps(c: Config, s: State, w: nat, a: Author)
    requires Inv(c, s) && AuthorOk(c, s.a.jobs, s.past.issued, a)
    ensures Inv(c, SetAuthor(s, w, a))
  {
    hide AuthorOk, LeasesOk, JobsOk, VaultOk, AttemptsOk, OutboxOk, ClarificationsOk, GradersOk, CouriersOk, PushesOk;
  }

  lemma SetGraderKeeps(c: Config, s: State, w: nat, g: Grader)
    requires Inv(c, s) && GraderOk(s.g.attempts, s.past.origin, s.past.issued, g)
    ensures Inv(c, SetGrader(s, w, g))
  {
    hide GraderOk, LeasesOk, JobsOk, VaultOk, AttemptsOk, OutboxOk, ClarificationsOk, AuthorsOk, CouriersOk, PushesOk;
  }

  /** The state with one job row rewritten, and the row's token drawn. */
  function Wrote(s: State, task: string, r: Row<Job>): State {
    var drawn := if r.token.Some? then {r.token.value} else {};
    s.(a := s.a.(jobs := s.a.jobs[task := r]), past := s.past.(issued := s.past.issued + drawn))
  }

  /** A job row is rewritten by its holder or by a claim. */
  lemma JobWriteKeeps(c: Config, s: State, task: string, r: Row<Job>)
    requires Inv(c, s) && task in s.a.jobs
    requires s.a.jobs[task].phase == Queued || s.a.jobs[task].phase == Leased
    requires SameIdentityFields(s.a.jobs[task].body, r.body) && r.body.revision == s.a.jobs[task].body.revision
    requires if r.phase == Done then Frozen(s.vault, task, r.body) else r.body.suiteHash == None
    requires r.phase != Waiting && LeaseColumnsMatch(r)
    requires r.token.Some? ==> r.token.value !in s.past.issued
    ensures JobsEvolve(s.a.jobs, s.a.jobs[task := r])
    ensures Inv(c, Wrote(s, task, r))
  {
    hide JobsOk, VaultOk, AttemptsOk, OutboxOk, ClarificationsOk, AuthorsOk, GradersOk, CouriersOk, PushesOk,
         WellLeased, Frozen;
    var issued := s.past.issued + (if r.token.Some? then {r.token.value} else {});
    var jobs := s.a.jobs[task := r];
    JobRowUpdate(c, s, task, r);
    ClarificationsOkUpdate(s.a.jobs, s.a.clarifications, s.past.applied, task, r);
    IssuedMono(c, s, issued);
    WellLeasedUpdate(s.a.jobs, s.past.issued, task, r);
    AuthorsOkMono(c, jobs, jobs, s.past.issued, issued, s.workers.authors);
  }

  /** The tables with at most the row of `task` let go of by its holder. */
  ghost predicate FreedWrite(s: State, task: string, a: AuthoringTables) {
    a == s.a ||
    (&& task in s.a.jobs && s.a.jobs[task].phase == Leased && task in a.jobs
     && a == s.a.(jobs := s.a.jobs[task := a.jobs[task]])
     && var r := a.jobs[task];
        && SameIdentityFields(s.a.jobs[task].body, r.body) && r.body.revision == s.a.jobs[task].body.revision
        && r.phase != Waiting && r.phase != Leased && r.token.None? && r.expiresAt.None?
        && if r.phase == Done then Frozen(s.vault, task, r.body) else r.body.suiteHash == None)
  }

  lemma FreedWriteKeeps(c: Config, s: State, task: string, a: AuthoringTables)
    requires Inv(c, s) && FreedWrite(s, task, a)
    ensures Inv(c, s.(a := a)) && JobsEvolve(s.a.jobs, a.jobs)
  {
    hide Inv, Frozen;
    if a != s.a {
      JobWriteKeeps(c, s, task, a.jobs[task]);
      assert s.past.issued + {} == s.past.issued;
    }
  }

  /** A row that is not ready carries no suite hash. */
  lemma NotReadyPlain(c: Config, s: State, task: string)
    requires Inv(c, s) && task in s.a.jobs && s.a.jobs[task].phase != Done
    ensures s.a.jobs[task].body.suiteHash == None
  {
    hide LeasesOk, VaultOk, AttemptsOk, OutboxOk, ClarificationsOk, AuthorsOk, GradersOk, CouriersOk, PushesOk,
         IdentityValid, Frozen;
  }

  /** Drawing another token disturbs nothing. */
  lemma IssuedMono(c: Config, s: State, issued: set<string>)
    requires Inv(c, s) && s.past.issued <= issued
    ensures Inv(c, s.(past := s.past.(issued := issued)))
  {
    hide JobsOk, VaultOk, AttemptsOk, OutboxOk, ClarificationsOk, AuthorsOk, GradersOk, PushesOk, WellLeased;
    WellLeasedMono(s.a.jobs, s.past.issued, issued);
    WellLeasedMono(s.g.attempts, s.past.issued, issued);
    WellLeasedMono(s.g.publications, s.past.issued, issued);
    WellLeasedMono(s.g.notes, s.past.issued, issued);
    AuthorsOkMono(c, s.a.jobs, s.a.jobs, s.past.issued, issued, s.workers.authors);
    GradersOkMono(s.g.attempts, s.past.origin, s.past.origin, s.past.issued, issued, s.workers.graders);
  }

  // ----- enqueueing -----

  lemma NewJobOk(jobs: Table<Job>, vault: Vault, task: string, row: Row<Job>)
    requires JobsOk(jobs, vault) && task !in jobs
    requires IdentityValid(task, row.body.rowId, row.body.project, row.body.branch, row.body.starterSha)
    requires row.phase == Queued && row.body.suiteHash == None
    requires !RowTaken(jobs, row.body.rowId) && !BranchTaken(jobs, row.body.branch)
    ensures JobsOk(jobs[task := row], vault)
    ensures JobsEvolve(jobs, jobs[task := row])
  {
    hide IdentityValid, Frozen;
  }

  lemma NewJobClarificationsOk(
    jobs: Table<Job>, asked: map<string, Clarification>, applied: map<string, nat>, task: string, row: Row<Job>)
    requires ClarificationsOk(jobs, asked, applied) && task !in jobs
    requires row.phase == Queued && row.body.revision == 0
    ensures ClarificationsOk(jobs[task := row], asked, applied)
  {}

  /** The tables with at most one new queued job. */
  lemma EnqueueAdds(
    a: AuthoringTables, codec: Codec, now: real,
    task: string, rowId: string, project: string, branch: string, starter: string, assignment: string)
    returns (row: Row<Job>)
    ensures
      var a' := EnqueueAuthoring(a, codec, now, task, rowId, project, branch, starter, assignment).0;
      || a' == a
      || (&& a' == a.(jobs := a.jobs[task := row]) && task !in a.jobs
          && IdentityValid(task, row.body.rowId, row.body.project, row.body.branch, row.body.starterSha)
          && row == NewRow(row.body, now) && row.body.suiteHash == None && row.body.revision == 0
          && !RowTaken(a.jobs, row.body.rowId) && !BranchTaken(a.jobs, row.body.branch))
  {
    hide IdentityValid, RowTaken, BranchTaken;
    var canonical := codec.assignment(assignment);
    row := NewRow(
      Job(rowId, project, branch, starter, if canonical.Some? then canonical.value else "", None, 0, None, None, None), now);
  }

  lemma EnsureKeeps(c: Config, s: State, e: Event)
    requires Inv(c, s) && e.EnsureSuite?
    ensures Inv(c, StepEnsure(c, s, e))
    ensures JobsEvolve(s.a.jobs, StepEnsure(c, s, e).a.jobs)
  {
    hide JobsOk, VaultOk, AttemptsOk, OutboxOk, ClarificationsOk, AuthorsOk, GradersOk, CouriersOk, PushesOk,
         WellLeased, IdentityValid, Frozen, EnqueueAuthoring, RowTaken, BranchTaken;
    var row := EnqueueAdds(s.a, c.codec, s.clock, e.task, e.rowId, e.project, e.branch, e.starter, e.assignment);
    var s' := StepEnsure(c, s, e);
    if s'.a != s.a {
      NewJobOk(s.a.jobs, s.vault, e.task, row);
      NewJobClarificationsOk(s.a.jobs, s.a.clarifications, s.past.applied, e.task, row);
      WellLeasedUpdate(s.a.jobs, s.past.issued, e.task, row);
      assert s.past.issued + {} == s.past.issued;
      VaultOkMono(c, s.a.jobs, s'.a.jobs, s.vault, s.past.origin);
      AttemptsOkMono(c, s.a.jobs, s'.a.jobs, s.past.origin, s.past.origin, s.g.attempts);
      AuthorsOkMono(c, s.a.jobs, s'.a.jobs, s.past.issued, s.past.issued, s.workers.authors);
      PushesOkMono(s.a.jobs, s'.a.jobs, s.workers.pushes);
    }
  }

  // ----- authoring -----

  lemma AuthorClaimKeeps(c: Config, s: State, w: nat, token: string)
    requires Inv(c, s)
    ensures Inv(c, StepAuthorClaim(c, s, w, token))
    ensures JobsEvolve(s.a.jobs, StepAuthorClaim(c, s, w, token).a.jobs)
  {
    hide Inv, AuthorOf, JobsEvolve;
    var next := Next(s.a.jobs, s.clock);
    if AuthorOf(s, w) == AuthorIdle && token !in s.past.issued && next.Some? {
      var id := next.value;
      NotReadyPlain(c, s, id);
      var row := ClaimedRow(s.a.jobs[id], s.clock, token, c.settings.leaseSeconds);
      JobWriteKeeps(c, s, id, row);
      SetAuthorKeeps(c, Wrote(s, id, row), w, Claimed(Held(id, token, row.attempts, row.body)));
      assert Draw(s, token).(a := s.a.(jobs := s.a.jobs[id := row])) == Wrote(s, id, row);
    } else {
      JobsEvolveReflexive(s.a.jobs);
    }
  }

  lemma JobsEvolveReflexive(jobs: Table<Job>)
    ensures JobsEvolve(jobs, jobs)
  {}

  lemma AuthorOkOf(c: Config, s: State, w: nat)
    requires Inv(c, s)
    ensures AuthorOk(c, s.a.jobs, s.past.issued, AuthorOf(s, w))
  {
    hide LeasesOk, JobsOk, VaultOk, AttemptsOk, OutboxOk, ClarificationsOk, GradersOk, CouriersOk, PushesOk, HeldJobOk,
         Sound;
  }

  lemma AfterDraftOk(c: Config, jobs: Table<Job>, issued: set<string>, held: Held<Job>, output: Option<Json.Value>)
    requires HeldJobOk(jobs, issued, held)
    ensures AuthorOk(c, jobs, issued, AfterDraft(c, held, output))
  {
    hide HeldJobOk, Sound, AcceptedAs;
    if output.Some? && Parse(output.value, c.codec.valueBytes).Some? {
      var draft := Parse(output.value, c.codec.valueBytes).value;
      assert draft.status.Ready? ==> ParsedReady(c, output.value, draft);
    }
  }

  lemma AfterReviewOk(
    c: Config, jobs: Table<Job>, issued: set<string>,
    held: Held<Job>, output: Json.Value, suite: SuiteDraft, verdict: Verdict)
    requires AuthorOk(c, jobs, issued, Drafted(held, output, suite))
    ensures AuthorOk(c, jobs, issued, AfterReview(held, output, suite, verdict))
  {
    hide HeldJobOk, Sound, ParsedReady;
    match verdict
    case CriticApproves =>
    case CriticRejects(feedback) =>
    case CriticAsks(ask) =>
    case CriticRaises =>
  }

  lemma AfterGateOk(
    c: Config, jobs: Table<Job>, issued: set<string>,
    held: Held<Job>, output: Json.Value, suite: SuiteDraft, verdict: Verdict, runs: Option<(SuiteResult, SuiteResult)>)
    requires AuthorOk(c, jobs, issued, Reviewed(held, output, suite, verdict))
    ensures AuthorOk(c, jobs, issued, AfterGate(c, held, output, suite, verdict, runs))
  {
    hide HeldJobOk, GateVerdict, DetectsDefect;
  }

  lemma AuthorDraftKeeps(c: Config, s: State, w: nat, output: Option<Json.Value>)
    requires Inv(c, s)
    ensures Inv(c, StepAuthorDraft(c, s, w, output))
  {
    hide Inv, AuthorOf, SetAuthor, AfterDraft, HeldJobOk;
    AuthorOkOf(c, s, w);
    match AuthorOf(s, w)
    case Claimed(held) =>
      AfterDraftOk(c, s.a.jobs, s.past.issued, held, output);
      SetAuthorKeeps(c, s, w, AfterDraft(c, held, output));
    case _ =>
  }

  lemma AuthorReviewKeeps(c: Config, s: State, w: nat, verdict: Verdict)
    requires Inv(c, s)
    ensures Inv(c, StepAuthorReview(s, w, verdict))
  {
    hide Inv, AuthorOf, SetAuthor, AfterReview, AuthorOk;
    AuthorOkOf(c, s, w);
    match AuthorOf(s, w)
    case Drafted(held, output, suite) =>
      AfterReviewOk(c, s.a.jobs, s.past.issued, held, output, suite, verdict);
      SetAuthorKeeps(c, s, w, AfterReview(held, output, suite, verdict));
    case _ =>
  }

  lemma AuthorGateKeeps(c: Config, s: State, w: nat, runs: Option<(SuiteResult, SuiteResult)>)
    requires Inv(c, s)
    ensures Inv(c, StepAuthorGate(c, s, w, runs))
  {
    hide Inv, AuthorOf, SetAuthor, AfterGate, AuthorOk;
    AuthorOkOf(c, s, w);
    match AuthorOf(s, w)
    case Reviewed(held, output, suite, verdict) =>
      AfterGateOk(c, s.a.jobs, s.past.issued, held, output, suite, verdict, runs);
      SetAuthorKeeps(c, s, w, AfterGate(c, held, output, suite, verdict, runs));
    case _ =>
  }

  lemma RejectWrites(c: Config, s: State, held: Held<Job>, feedback: string, code: string)
    requires Owns(s.a.jobs, held.id, held.token) ==> s.a.jobs[held.id].body.suiteHash == None
    ensures FreedWrite(s, held.id, RejectOrRetry(c, s.a, s.clock, held, feedback, code).0)
  {
    hide ErrorCodeValid, Frozen;
  }

  lemma HandlerWrites(c: Config, s: State, held: Held<Job>)
    requires Owns(s.a.jobs, held.id, held.token) ==> s.a.jobs[held.id].body.suiteHash == None
    ensures FreedWrite(s, held.id, Handled(c, s.a, s.clock, held))
  {
    hide ErrorCodeValid, Frozen;
  }

  lemma FinalizeWrites(s: State, held: Held<Job>, promoted: Result<StoredSuite>)
    requires Owns(s.a.jobs, held.id, held.token) ==> s.a.jobs[held.id].body.suiteHash == None
    requires promoted.Success? ==>
      && held.id in s.vault && promoted.value == s.vault[held.id]
      && (held.id in s.a.jobs ==> s.vault[held.id].starterSha == s.a.jobs[held.id].body.starterSha)
    ensures FreedWrite(s, held.id, FinalizeAuthoring(s.a, held.id, held.token, promoted, s.clock).0)
  {
    hide IsHash;
  }

  /** The rest of the table after a holder's write: still there for the next write. */
  lemma HeldAfterWrite(c: Config, s: State, held: Held<Job>, a: AuthoringTables)
    requires HeldJobOk(s.a.jobs, s.past.issued, held) && JobsEvolve(s.a.jobs, a.jobs)
    ensures HeldJobOk(a.jobs, s.past.issued, held)
    ensures AuthorOk(c, a.jobs, s.past.issued, AuthorIdle) && AuthorOk(c, a.jobs, s.past.issued, Raised(held))
  {
    hide Sound, ParsedReady;
  }

  lemma AuthorRefuseKeeps(c: Config, s: State, w: nat, held: Held<Job>, feedback: string, code: string)
    requires Inv(c, s) && HeldJobOk(s.a.jobs, s.past.issued, held)
    ensures Inv(c, StepAuthorRefuse(c, s, w, held, feedback, code))
    ensures JobsEvolve(s.a.jobs, StepAuthorRefuse(c, s, w, held, feedback, code).a.jobs)
  {
    hide Inv, HeldJobOk, JobsEvolve, AuthorOk, RejectOrRetry, FreedWrite;
    var (a, returned) := RejectOrRetry(c, s.a, s.clock, held, feedback, code);
    if Owns(s.a.jobs, held.id, held.token) { NotReadyPlain(c, s, held.id); }
    RejectWrites(c, s, held, feedback, code);
    FreedWriteKeeps(c, s, held.id, a);
    HeldAfterWrite(c, s, held, a);
    SetAuthorKeeps(c, s.(a := a), w, if returned then AuthorIdle else Raised(held));
  }

  lemma AuthorHandleKeeps(c: Config, s: State, w: nat)
    requires Inv(c, s)
    ensures Inv(c, StepAuthorHandle(c, s, w))
    ensures JobsEvolve(s.a.jobs, StepAuthorHandle(c, s, w).a.jobs)
  {
    hide Inv, JobsEvolve, Handled, FreedWrite, AuthorOf;
    match AuthorOf(s, w)
    case Raised(held) =>
      if Owns(s.a.jobs, held.id, held.token) { NotReadyPlain(c, s, held.id); }
      HandlerWrites(c, s, held);
      FreedWriteKeeps(c, s, held.id, Handled(c, s.a, s.clock, held));
      SetAuthorKeeps(c, s.(a := Handled(c, s.a, s.clock, held)), w, AuthorIdle);
    case _ => JobsEvolveReflexive(s.a.jobs);
  }

  /** What a promotion does to the vault: nothing, or one new complete entry. */
  lemma FreezeAdds(vault: Vault, codec: Codec, task: string, starter: string, payload: Json.Value, model: string)
    returns (entry: StoredSuite)
    ensures
      var (vault', r) := Freeze(vault, codec, task, starter, payload, model);
      && entry.taskId == task && entry.starterSha == starter && entry.payload == payload
      && entry.suiteHash == codec.suiteDigest(payload)
      && (vault' == vault || (task !in vault && vault' == vault[task := entry]))
      && (r.Success? ==> task in vault' && r.value == vault'[task] && vault'[task].starterSha == starter)
  {
    hide BoundedText, Json.IsFinite;
    var author := BoundedText(model, 100);
    entry := StoredSuite(task, starter, codec.suiteDigest(payload), if author.Some? then author.value else "", payload);
  }

  lemma JobsOkVault(jobs: Table<Job>, vault: Vault, vault': Vault)
    requires JobsOk(jobs, vault) && VaultGrows(vault, vault')
    ensures JobsOk(jobs, vault')
  {
    hide IdentityValid;
    forall t | t in jobs && jobs[t].phase == Done ensures Frozen(vault', t, jobs[t].body) {
      assert Frozen(vault, t, jobs[t].body);
    }
  }

  lemma NewEntryOk(
    c: Config, jobs: Table<Job>, vault: Vault, origin: map<string, Evidence>, entry: StoredSuite, evidence: Evidence)
    requires VaultOk(c, jobs, vault, origin)
    requires entry.taskId !in vault && entry.taskId in jobs
    requires EntryOk(c, entry.taskId, jobs[entry.taskId].body.starterSha, entry, evidence)
    ensures VaultOk(c, jobs, vault[entry.taskId := entry], origin[entry.taskId := evidence])
  {
    hide EntryOk;
  }

  /** A freeze adds at most the task's own entry, with the evidence at hand, and keeps the rest. */
  lemma FreezeKeeps(c: Config, s: State, held: Held<Job>, evidence: Evidence, vault: Vault,
      promoted: Result<StoredSuite>)
    requires Inv(c, s) && HeldJobOk(s.a.jobs, s.past.issued, held) && Sound(c, evidence)
    requires (vault, promoted)
      == Freeze(s.vault, c.codec, held.id, held.body.starterSha, ToPayload(evidence.suite), c.authorModel)
    ensures
      var origin := if held.id in s.vault || held.id !in vault then s.past.origin else s.past.origin[held.id := evidence];
      && Inv(c, s.(vault := vault, past := s.past.(origin := origin)))
      && VaultGrows(s.vault, vault) && OriginGrows(s.past.origin, origin)
    ensures promoted.Success? ==>
      && held.id in vault && promoted.value == vault[held.id]
      && vault[held.id].starterSha == s.a.jobs[held.id].body.starterSha
  {
    hide WellLeased, JobsOk, AttemptsOk, OutboxOk, ClarificationsOk, AuthorsOk, GradersOk, CouriersOk, PushesOk,
         Sound, ToPayload, Freeze;
    var entry := FreezeAdds(s.vault, c.codec, held.id, held.body.starterSha, ToPayload(evidence.suite), c.authorModel);
    var origin := if held.id in s.vault || held.id !in vault then s.past.origin else s.past.origin[held.id := evidence];
    if vault != s.vault {
      NewEntryOk(c, s.a.jobs, s.vault, s.past.origin, entry, evidence);
      JobsOkVault(s.a.jobs, s.vault, vault);
      AttemptsOkMono(c, s.a.jobs, s.a.jobs, s.past.origin, origin, s.g.attempts);
      GradersOkMono(s.g.attempts, s.past.origin, origin, s.past.issued, s.past.issued, s.workers.graders);
    }
  }

  lemma AuthorFinalizeKeeps(c: Config, s: State, w: nat, held: Held<Job>, evidence: Evidence, fault: Fault)
    requires Inv(c, s) && HeldJobOk(s.a.jobs, s.past.issued, held) && Sound(c, evidence)
    ensures Inv(c, StepAuthorFinalize(c, s, w, held, evidence, fault))
    ensures JobsEvolve(s.a.jobs, StepAuthorFinalize(c, s, w, held, evidence, fault).a.jobs)
    ensures VaultGrows(s.vault, StepAuthorFinalize(c, s, w, held, evidence, fault).vault)
    ensures OriginGrows(s.past.origin, StepAuthorFinalize(c, s, w, held, evidence, fault).past.origin)
  {
    hide Inv, HeldJobOk, JobsEvolve, VaultGrows, OriginGrows, AuthorOk, FreedWrite, FinalizeAuthoring, Freeze,
         ToPayload, Sound;
    JobsEvolveReflexive(s.a.jobs);
    GrowsReflexive(s.vault, s.past.origin);
    HeldAfterWrite(c, s, held, s.a);
    if Owns(s.a.jobs, held.id, held.token) && !fault.BeforeRename? {
      var (vault, promoted) :=
        Freeze(s.vault, c.codec, held.id, held.body.starterSha, ToPayload(evidence.suite), c.authorModel);
      FreezeKeeps(c, s, held, evidence, vault, promoted);
      var origin := if held.id in s.vault || held.id !in vault then s.past.origin else s.past.origin[held.id := evidence];
      var frozen := s.(vault := vault, past := s.past.(origin := origin));
      var (a, r) := FinalizeAuthoring(frozen.a, held.id, held.token, promoted, frozen.clock);
      NotReadyPlain(c, s, held.id);
      FinalizeWrites(frozen, held, promoted);
      FreedWriteKeeps(c, frozen, held.id, a);
      HeldAfterWrite(c, frozen, held, a);
      var after := if fault.AfterRename? then s.a else a;
      SetAuthorKeeps(c, frozen.(a := after), w,
        if fault.AfterRename? then AfterFault(held, fault.crash) else if r.Success? then AuthorIdle else Raised(held));
    } else if Owns(s.a.jobs, held.id, held.token) {
      SetAuthorKeeps(c, s, w, AfterFault(held, fault.crash));
    } else {
      SetAuthorKeeps(c, s, w, Raised(held));
    }
  }

  lemma GrowsReflexive(vault: Vault, origin: map<string, Evidence>)
    ensures VaultGrows(vault, vault) && OriginGrows(origin, origin)
  {}

  /** A new row or an answered row leaves the other revisions taken. */
  lemma RevisionsStayTaken(asked: map<string, Clarification>, nonce: string, row: Clarification, t: string, r: nat)
    requires RevisionTaken(asked, t, r)
    requires nonce in asked ==> asked[nonce].taskId == row.taskId && asked[nonce].revision == row.revision
    ensures RevisionTaken(asked[nonce := row], t, r)
  {
    var n :| n in asked && asked[n].taskId == t && asked[n].revision == r;
    assert asked[nonce := row][n].taskId == t && asked[nonce := row][n].revision == r;
  }

  lemma AskRevisionsOk(jobs: Table<Job>, asked: map<string, Clarification>, r: Row<Job>, nonce: string,
      row: Clarification)
    requires RevisionsOk(jobs, asked) && row.taskId in jobs && nonce !in asked
    requires r.body.revision == row.revision == jobs[row.taskId].body.revision + 1
    ensures RevisionsOk(jobs[row.taskId := r], asked[nonce := row])
  {
    hide RevisionTaken;
    var jobs', asked' := jobs[row.taskId := r], asked[nonce := row];
    forall t, k: nat | t in jobs' && 1 <= k <= jobs'[t].body.revision ensures RevisionTaken(asked', t, k) {
      if t == row.taskId && k == row.revision {
        NonceTakesRevision(asked', nonce);
      } else {
        RevisionsStayTaken(asked, nonce, row, t, k);
      }
    }
  }

  lemma NonceTakesRevision(asked: map<string, Clarification>, nonce: string)
    requires nonce in asked
    ensures RevisionTaken(asked, asked[nonce].taskId, asked[nonce].revision)
  {}

  /** The clarification part when the holder of `task` asks its next question. */
  lemma AskClarificationsOk(
    jobs: Table<Job>, asked: map<string, Clarification>, applied: map<string, nat>,
    task: string, r: Row<Job>, nonce: string, question: string, now: real)
    requires ClarificationsOk(jobs, asked, applied) && task in jobs && nonce !in asked
    requires jobs[task].phase == Leased && r.phase == Waiting && r.body.revision == jobs[task].body.revision + 1
    ensures ClarificationsOk(
      jobs[task := r], asked[nonce := Clarification(task, r.body.revision, question, None, now)], applied)
  {
    hide RevisionTaken;
    AskRevisionsOk(jobs, asked, r, nonce, Clarification(task, r.body.revision, question, None, now));
  }

  lemma AuthorAskKeeps(c: Config, s: State, w: nat, held: Held<Job>, ask: string, nonce: string)
    requires Inv(c, s) && HeldJobOk(s.a.jobs, s.past.issued, held)
    ensures Inv(c, StepAuthorAsk(s, w, held, ask, nonce))
    ensures JobsEvolve(s.a.jobs, StepAuthorAsk(s, w, held, ask, nonce).a.jobs)
  {
    hide VaultOk, AttemptsOk, OutboxOk, ClarificationsOk, AuthorsOk, GradersOk, CouriersOk, PushesOk,
         WellLeased, IdentityValid, Frozen, BoundedText, RevisionTaken;
    var s' := StepAuthorAsk(s, w, held, ask, nonce);
    if nonce !in s.past.issued {
      IssuedMono(c, s, s.past.issued + {nonce});
      var t := Draw(s, nonce);
      if s'.a != s.a {
        var r := s'.a.jobs[held.id];
        var asked := s'.a.clarifications[nonce];
        JobRowUpdate(c, t, held.id, r);
        AskClarificationsOk(s.a.jobs, s.a.clarifications, s.past.applied, held.id, r, nonce, asked.question, s.clock);
        WellLeasedUpdate(t.a.jobs, t.past.issued, held.id, r);
        assert t.past.issued + {} == t.past.issued;
        SetAuthorKeeps(c, t.(a := s'.a), w, AuthorIdle);
      } else {
        SetAuthorKeeps(c, s, w, Raised(held));
      }
    }
  }

  lemma AuthorSettleKeeps(c: Config, s: State, w: nat, nonce: string, fault: Fault)
    requires Inv(c, s)
    ensures Inv(c, StepAuthorSettle(c, s, w, nonce, fault))
    ensures JobsEvolve(s.a.jobs, StepAuthorSettle(c, s, w, nonce, fault).a.jobs)
    ensures VaultGrows(s.vault, StepAuthorSettle(c, s, w, nonce, fault).vault)
    ensures OriginGrows(s.past.origin, StepAuthorSettle(c, s, w, nonce, fault).past.origin)
  {
    hide StepAuthorAsk, StepAuthorRefuse, StepAuthorFinalize, Sound, HeldJobOk,
         LeasesOk, JobsOk, VaultOk, AttemptsOk, OutboxOk, ClarificationsOk, GradersOk, CouriersOk, PushesOk;
    AuthorOkOf(c, s, w);
    match AuthorOf(s, w)
    case Asking(held, ask) =>
      AuthorAskKeeps(c, s, w, held, ask, nonce);
      AskTouchesNoVault(s, w, held, ask, nonce);
    case Refused(held, feedback, code) =>
      AuthorRefuseKeeps(c, s, w, held, feedback, code);
      RefuseTouchesNoVault(c, s, w, held, feedback, code);
    case Accepted(held, evidence) =>
      AuthorFinalizeKeeps(c, s, w, held, evidence, fault);
    case _ =>
  }

  lemma AskTouchesNoVault(s: State, w: nat, held: Held<Job>, ask: string, nonce: string)
    ensures var s' := StepAuthorAsk(s, w, held, ask, nonce); s'.vault == s.vault && s'.past.origin == s.past.origin
  {
    hide RequestClarification;
  }

  lemma RefuseTouchesNoVault(c: Config, s: State, w: nat, held: Held<Job>, feedback: string, code: string)
    ensures var s' := StepAuthorRefuse(c, s, w, held, feedback, code); s'.vault == s.vault && s'.past.origin == s.past.origin
  {
    hide MarkAuthoringFailed, RequeueAfterCritic;
  }

  // ----- answers -----

  lemma AnswerRevisionsOk(jobs: Table<Job>, asked: map<string, Clarification>, nonce: string, text: string, r: Row<Job>)
    requires RevisionsOk(jobs, asked) && nonce in asked
    requires r.body.revision == jobs[asked[nonce].taskId].body.revision
    ensures RevisionsOk(jobs[asked[nonce].taskId := r], asked[nonce := asked[nonce].(answer := Some(text))])
  {
    hide RevisionTaken;
    var row := asked[nonce].(answer := Some(text));
    var jobs', asked' := jobs[row.taskId := r], asked[nonce := row];
    forall t, k: nat | t in jobs' && 1 <= k <= jobs'[t].body.revision ensures RevisionTaken(asked', t, k) {
      assert RevisionTaken(asked, t, k);
      RevisionsStayTaken(asked, nonce, row, t, k);
    }
  }

  lemma AnswerClarificationsOk(
    jobs: Table<Job>, asked: map<string, Clarification>, applied: map<string, nat>,
    nonce: string, text: string, r: Row<Job>)
    requires ClarificationsOk(jobs, asked, applied) && nonce in asked && asked[nonce].Pending()
    requires r.phase == Queued && r.body.revision == asked[nonce].revision
    ensures
      var task := asked[nonce].taskId;
      && task in jobs && jobs[task].phase == Waiting && jobs[task].body.revision == asked[nonce].revision
      && nonce !in applied
      && ClarificationsOk(
           jobs[task := r], asked[nonce := asked[nonce].(answer := Some(text))], applied[nonce := 1])
  {
    hide RevisionsOk;
    AnswerRevisionsOk(jobs, asked, nonce, text, r);
    assert forall n | n in asked && n != nonce && asked[n].taskId == asked[nonce].taskId ::
      asked[n].revision != asked[nonce].revision by { RevisionsDiffer(jobs, asked, nonce); }
  }

  lemma RevisionsDiffer(jobs: Table<Job>, asked: map<string, Clarification>, nonce: string)
    requires RevisionsOk(jobs, asked) && nonce in asked
    ensures forall n | n in asked && n != nonce && asked[n].taskId == asked[nonce].taskId ::
      asked[n].revision != asked[nonce].revision
  {
    hide RevisionTaken;
  }

  lemma PendingIsAwaited(c: Config, s: State, nonce: string)
    requires Inv(c, s) && nonce in s.a.clarifications && s.a.clarifications[nonce].Pending()
    ensures Awaits(s.a, s.a.clarifications[nonce])
    ensures nonce !in s.past.applied && nonce in s.past.issued
    ensures s.a.jobs[s.a.clarifications[nonce].taskId].token.None?
    ensures s.a.jobs[s.a.clarifications[nonce].taskId].expiresAt.None?
  {
    hide JobsOk, VaultOk, AttemptsOk, OutboxOk, AuthorsOk, GradersOk, CouriersOk, PushesOk;
  }

  lemma AnswerKeeps(c: Config, s: State, nonce: string, revision: int, text: string)
    requires Inv(c, s)
    ensures Inv(c, StepAnswer(s, nonce, revision, text))
    ensures JobsEvolve(s.a.jobs, StepAnswer(s, nonce, revision, text).a.jobs)
  {
    hide Inv, JobsEvolve, BoundedText;
    JobsEvolveReflexive(s.a.jobs);
    var answer := BoundedText(text, 1_000);
    if answer.Some? && nonce in s.a.clarifications && s.a.clarifications[nonce].revision == revision
       && s.a.clarifications[nonce].Pending()
    {
      PendingIsAwaited(c, s, nonce);
      var asked := s.a.clarifications[nonce];
      var row := s.a.jobs[asked.taskId];
      var r := row.(phase := Queued, updatedAt := s.clock, body := row.body.(answer := answer));
      AppliedAnswerKeeps(c, s, nonce, answer.value, r);
    }
  }

  lemma AppliedAnswerKeeps(c: Config, s: State, nonce: string, text: string, r: Row<Job>)
    requires Inv(c, s) && nonce in s.a.clarifications && s.a.clarifications[nonce].Pending()
    requires Awaits(s.a, s.a.clarifications[nonce])
    requires
      var row := s.a.jobs[s.a.clarifications[nonce].taskId];
      r == row.(phase := Queued, updatedAt := s.clock, body := row.body.(answer := Some(text)))
    ensures
      var asked := s.a.clarifications[nonce];
      var a := AuthoringTables(s.a.jobs[asked.taskId := r], s.a.clarifications[nonce := asked.(answer := Some(text))]);
      && Inv(c, s.(a := a, past := s.past.(applied := s.past.applied[nonce := 1])))
      && JobsEvolve(s.a.jobs, a.jobs)
  {
    hide JobsOk, VaultOk, AttemptsOk, OutboxOk, ClarificationsOk, AuthorsOk, GradersOk, CouriersOk, PushesOk,
         WellLeased, JobsEvolve;
    var task := s.a.clarifications[nonce].taskId;
    NotReadyPlain(c, s, task);
    PendingIsAwaited(c, s, nonce);
    JobRowUpdate(c, s, task, r);
    AnswerClarificationsOk(s.a.jobs, s.a.clarifications, s.past.applied, nonce, text, r);
    WellLeasedUpdate(s.a.jobs, s.past.issued, task, r);
    assert s.past.issued + {} == s.past.issued;
  }

  // ----- pushes -----

  lemma SetPushKeeps(c: Config, s: State, p: nat, push: Push)
    requires Inv(c, s)
    requires push.PushRead? ==> MatchesJob(s.a.jobs, push.task, push.project, push.branch, push.suiteHash)
    ensures Inv(c, SetPush(s, p, push))
  {
    hide LeasesOk, JobsOk, VaultOk, AttemptsOk, OutboxOk, ClarificationsOk, AuthorsOk, GradersOk, CouriersOk;
  }

  lemma PushOkOf(c: Config, s: State, p: nat)
    requires Inv(c, s)
    ensures
      var push := PushOf(s, p);
      push.PushRead? ==> MatchesJob(s.a.jobs, push.task, push.project, push.branch, push.suiteHash)
  {
    hide LeasesOk, JobsOk, VaultOk, AttemptsOk, OutboxOk, ClarificationsOk, AuthorsOk, GradersOk, CouriersOk,
         MatchesJob;
  }

  lemma PushLookKeeps(c: Config, s: State, e: Event)
    requires Inv(c, s) && e.PushLook?
    ensures Inv(c, StepPushLook(s, e))
  {
    hide Inv;
    var s' := StepPushLook(s, e);
    if e.task in s.a.jobs && s.a.jobs[e.task].body.project == e.project && s.a.jobs[e.task].body.branch == e.branch
       && s.a.jobs[e.task].phase == Done && s.a.jobs[e.task].body.suiteHash.Some?
    {
      SetPushKeeps(c, s, e.p, PushRead(e.task, e.project, e.branch, e.commit, s.a.jobs[e.task].body.suiteHash.value));
    }
  }

  /** The attempts with at most one new queued row. */
  lemma EnqueueGradingAdds(
    g: GradingTables, codec: Codec, now: real, task: string, project: string, branch: string, commit: string, suiteHash: string)
    returns (id: string, row: Row<Attempt>)
    ensures id == codec.attemptDigest(AttemptIdentity(task, commit, suiteHash))
    ensures row == NewRow(Attempt(task, project, branch, commit, suiteHash, None), now)
    ensures
      var g' := EnqueueGrading(g, codec, now, task, project, branch, commit, suiteHash).0;
      || g' == g
      || (g' == g.(attempts := g.attempts[id := row]) && id !in g.attempts && !CommitTaken(g.attempts, task, commit))
  {
    hide IsKey, IsTaskId, IsBranch, IsSha, IsHash, CommitTaken;
    id := codec.attemptDigest(AttemptIdentity(task, commit, suiteHash));
    row := NewRow(Attempt(task, project, branch, commit, suiteHash, None), now);
  }

  lemma NewAttemptOk(
    c: Config, jobs: Table<Job>, origin: map<string, Evidence>, attempts: Table<Attempt>, id: string, row: Row<Attempt>)
    requires AttemptsOk(c, jobs, origin, attempts) && id !in attempts
    requires !CommitTaken(attempts, row.body.taskId, row.body.commit)
    requires AttemptOk(c, jobs, origin, id, row)
    ensures AttemptsOk(c, jobs, origin, attempts[id := row])
  {
    hide AttemptOk;
  }

  lemma NewAttemptElsewhere(s: State, id: string, row: Row<Attempt>)
    requires OutboxOk(s.g.attempts, s.g.publications, s.g.notes)
    requires GradersOk(s.g.attempts, s.past.origin, s.past.issued, s.workers.graders)
    requires id !in s.g.attempts && row.phase == Queued
    ensures OutboxOk(s.g.attempts[id := row], s.g.publications, s.g.notes)
    ensures GradersOk(s.g.attempts[id := row], s.past.origin, s.past.issued, s.workers.graders)
  {
    hide GradeSound, Announced;
    forall w | w in s.workers.graders
      ensures GraderOk(s.g.attempts[id := row], s.past.origin, s.past.issued, s.workers.graders[w])
    {
      assert GraderOk(s.g.attempts, s.past.origin, s.past.issued, s.workers.graders[w]);
    }
  }

  lemma PushWriteKeeps(c: Config, s: State, p: nat)
    requires Inv(c, s)
    ensures Inv(c, StepPushWrite(c, s, p))
  {
    hide JobsOk, VaultOk, AttemptsOk, OutboxOk, ClarificationsOk, AuthorsOk, GradersOk, CouriersOk, PushesOk,
         WellLeased, EnqueueGrading, CommitTaken, PushOf, SetPush;
    PushOkOf(c, s, p);
    match PushOf(s, p)
    case PushRead(task, project, branch, commit, suiteHash) =>
      var id, row := EnqueueGradingAdds(s.g, c.codec, s.clock, task, project, branch, commit, suiteHash);
      var g := EnqueueGrading(s.g, c.codec, s.clock, task, project, branch, commit, suiteHash).0;
      if g != s.g {
        NewAttemptOk(c, s.a.jobs, s.past.origin, s.g.attempts, id, row);
        NewAttemptElsewhere(s, id, row);
        WellLeasedUpdate(s.g.attempts, s.past.issued, id, row);
        assert s.past.issued + {} == s.past.issued;
      }
      SetPushKeeps(c, s.(g := g), p, PushIdle);
    case PushIdle =>
  }

  // ----- grading -----

  /** Rows are rewritten without touching bodies or completion. */
  ghost predicate Rewritten<P>(t: Table<P>, t': Table<P>) {
    && t'.Keys == t.Keys
    && forall id | id in t :: t'[id].body == t[id].body && (t'[id].phase == Done <==> t[id].phase == Done)
  }

  lemma RewrittenAttemptsKeep(c: Config, s: State, attempts: Table<Attempt>, issued: set<string>)
    requires Inv(c, s) && Rewritten(s.g.attempts, attempts)
    requires s.past.issued <= issued && WellLeased(attempts, issued)
    ensures Inv(c, s.(g := s.g.(attempts := attempts), past := s.past.(issued := issued)))
  {
    hide Inv, WellLeased;
    IssuedMono(c, s, issued);
    RewrittenParts(c, s.(past := s.past.(issued := issued)), attempts);
  }

  lemma RewrittenAttempts(
    c: Config, jobs: Table<Job>, origin: map<string, Evidence>, attempts: Table<Attempt>, attempts': Table<Attempt>)
    requires AttemptsOk(c, jobs, origin, attempts) && Rewritten(attempts, attempts')
    ensures AttemptsOk(c, jobs, origin, attempts')
  {
    hide MatchesJob, GradeSound;
    forall id | id in attempts' ensures AttemptOk(c, jobs, origin, id, attempts'[id]) {
      assert AttemptOk(c, jobs, origin, id, attempts[id]);
    }
  }

  lemma RewrittenOutbox(
    attempts: Table<Attempt>, attempts': Table<Attempt>, publications: Table<Publication>, notes: Table<Note>)
    requires OutboxOk(attempts, publications, notes) && Rewritten(attempts, attempts')
    ensures OutboxOk(attempts', publications, notes)
  {
    hide Announced;
  }

  lemma RewrittenGraders(
    attempts: Table<Attempt>, attempts': Table<Attempt>, origin: map<string, Evidence>, issued: set<string>,
    graders: map<nat, Grader>)
    requires GradersOk(attempts, origin, issued, graders) && Rewritten(attempts, attempts')
    ensures GradersOk(attempts', origin, issued, graders)
  {
    hide GradeSound;
    forall w | w in graders ensures GraderOk(attempts', origin, issued, graders[w]) {
      assert GraderOk(attempts, origin, issued, graders[w]);
    }
  }

  lemma RewrittenParts(c: Config, s: State, attempts: Table<Attempt>)
    requires Inv(c, s) && Rewritten(s.g.attempts, attempts) && WellLeased(attempts, s.past.issued)
    ensures Inv(c, s.(g := s.g.(attempts := attempts)))
  {
    hide JobsOk, VaultOk, AttemptsOk, OutboxOk, ClarificationsOk, AuthorsOk, GradersOk, CouriersOk, PushesOk,
         WellLeased, Rewritten;
    RewrittenAttempts(c, s.a.jobs, s.past.origin, s.g.attempts, attempts);
    RewrittenOutbox(s.g.attempts, attempts, s.g.publications, s.g.notes);
    RewrittenGraders(s.g.attempts, attempts, s.past.origin, s.past.issued, s.workers.graders);
  }

  lemma RewriteOne<P>(t: Table<P>, id: string, r: Row<P>)
    requires id in t && r.body == t[id].body && (r.phase == Done <==> t[id].phase == Done)
    ensures Rewritten(t, t[id := r])
  {}

  lemma GraderOkOf(c: Config, s: State, w: nat)
    requires Inv(c, s)
    ensures GraderOk(s.g.attempts, s.past.origin, s.past.issued, GraderOf(s, w))
  {
    hide LeasesOk, JobsOk, VaultOk, AttemptsOk, OutboxOk, ClarificationsOk, AuthorsOk, CouriersOk, PushesOk, GradeSound;
  }

  lemma LeasesOf(c: Config, s: State)
    requires Inv(c, s)
    ensures LeasesOk(s.a, s.g, s.past.issued)
  {
    hide LeasesOk, JobsOk, VaultOk, AttemptsOk, OutboxOk, ClarificationsOk, AuthorsOk, GradersOk, CouriersOk, PushesOk;
  }

  lemma GraderClaimKeeps(c: Config, s: State, w: nat, token: string)
    requires Inv(c, s)
    ensures Inv(c, StepGraderClaim(c, s, w, token))
  {
    hide Inv, GraderOf, SetGrader, WellLeased, Rewritten;
    var next := Next(s.g.attempts, s.clock);
    if GraderOf(s, w) == GraderIdle && token !in s.past.issued && next.Some? {
      var id := next.value;
      var row := ClaimedRow(s.g.attempts[id], s.clock, token, c.settings.leaseSeconds);
      LeasesOf(c, s);
      WellLeasedUpdate(s.g.attempts, s.past.issued, id, row);
      RewriteOne(s.g.attempts, id, row);
      var attempts := s.g.attempts[id := row];
      RewrittenAttemptsKeep(c, s, attempts, s.past.issued + {token});
      var t := Draw(s, token).(g := s.g.(attempts := attempts));
      assert t == s.(g := s.g.(attempts := attempts), past := s.past.(issued := s.past.issued + {token}));
      SetGraderKeeps(c, t, w, Grader.Grading(Held(id, token, row.attempts, row.body)));
    }
  }

  /** Whatever the executor reports, the grade summarises the suite that was approved. */
  lemma EvaluationSound(c: Config, s: State, attempt: Attempt, result: Option<SuiteResult>)
    requires Inv(c, s)
    ensures
      var grade := Evaluation(c, s.vault, attempt, result);
      grade.Some? ==> GradeSound(s.past.origin, attempt.taskId, grade.value)
  {
    hide LeasesOk, JobsOk, AttemptsOk, OutboxOk, ClarificationsOk, AuthorsOk, GradersOk, CouriersOk, PushesOk,
         Summarize, ToPayload, DetectsDefect, AcceptedAs, IsTaskId;
    if Evaluation(c, s.vault, attempt, result).Some? {
      var o := s.past.origin[attempt.taskId];
      PayloadRoundTrip(o.output, c.codec.valueBytes, o.suite);
    }
  }

  lemma GraderEvaluateKeeps(c: Config, s: State, w: nat, result: Option<SuiteResult>)
    requires Inv(c, s)
    ensures Inv(c, StepGraderEvaluate(c, s, w, result))
  {
    hide Inv, GraderOf, SetGrader, Evaluation, GradeSound;
    GraderOkOf(c, s, w);
    match GraderOf(s, w)
    case Grading(held) =>
      EvaluationSound(c, s, held.body, result);
      SetGraderKeeps(c, s, w, AfterEvaluation(held, Evaluation(c, s.vault, held.body, result)));
    case _ =>
  }

  lemma GraderHandleKeeps(c: Config, s: State, w: nat)
    requires Inv(c, s)
    ensures Inv(c, StepGraderHandle(c, s, w))
  {
    hide Inv, GraderOf, SetGrader, WellLeased, Rewritten, ErrorCodeValid, RetryDelay;
    match GraderOf(s, w)
    case GradingRaised(held) =>
      var g := ReleaseGrading(s.g, c.settings, held.id, held.token, "grading-infrastructure-failure", s.clock).0;
      if g != s.g {
        LeasesOf(c, s);
        WellLeasedUpdate(s.g.attempts, s.past.issued, held.id, g.attempts[held.id]);
        RewriteOne(s.g.attempts, held.id, g.attempts[held.id]);
        assert s.past.issued + {} == s.past.issued;
        RewrittenAttemptsKeep(c, s, g.attempts, s.past.issued);
      }
      SetGraderKeeps(c, s.(g := g), w, GraderIdle);
    case _ =>
  }

  lemma CompletedAttempts(
    c: Config, jobs: Table<Job>, origin: map<string, Evidence>, attempts: Table<Attempt>, id: string, r: Row<Attempt>)
    requires AttemptsOk(c, jobs, origin, attempts) && id in attempts
    requires r.phase == Done && r.body.grade.Some? && r.body.(grade := None) == attempts[id].body.(grade := None)
    requires GradeSound(origin, r.body.taskId, r.body.grade.value)
    ensures AttemptsOk(c, jobs, origin, attempts[id := r])
  {
    hide GradeSound, MatchesJob;
    assert AttemptOk(c, jobs, origin, id, attempts[id]);
  }

  lemma CompletedGraders(
    attempts: Table<Attempt>, origin: map<string, Evidence>, issued: set<string>, graders: map<nat, Grader>,
    id: string, r: Row<Attempt>)
    requires GradersOk(attempts, origin, issued, graders) && id in attempts
    requires r.body.(grade := None) == attempts[id].body.(grade := None)
    ensures GradersOk(attempts[id := r], origin, issued, graders)
  {
    hide GradeSound;
    forall w | w in graders ensures GraderOk(attempts[id := r], origin, issued, graders[w]) {
      assert GraderOk(attempts, origin, issued, graders[w]);
    }
  }

  /** Completion: the attempt's grade and its two outbox rows appear together. */
  lemma CompletedOutbox(
    g: GradingTables, issued: set<string>, id: string, r: Row<Attempt>, p: Row<Publication>, n: Row<Note>,
    publishers: map<nat, Courier<Publication>>, bots: map<nat, Courier<Note>>)
    requires OutboxOk(g.attempts, g.publications, g.notes) && id in g.attempts && g.attempts[id].phase == Leased
    requires CouriersOk(g.publications, issued, publishers) && CouriersOk(g.notes, issued, bots)
    requires r.phase == Done && Announced(r.body, p.body, n.body)
    ensures id !in g.publications && id !in g.notes
    ensures OutboxOk(g.attempts[id := r], g.publications[id := p], g.notes[id := n])
    ensures CouriersOk(g.publications[id := p], issued, publishers) && CouriersOk(g.notes[id := n], issued, bots)
  {
    hide Announced;
  }

  lemma CompleteKeeps(c: Config, s: State, id: string, r: Row<Attempt>, p: Row<Publication>, n: Row<Note>)
    requires Inv(c, s) && id in s.g.attempts && s.g.attempts[id].phase == Leased
    requires r.phase == Done && r.token.None? && r.expiresAt.None? && r.body.grade.Some?
    requires r.body.(grade := None) == s.g.attempts[id].body.(grade := None)
    requires GradeSound(s.past.origin, r.body.taskId, r.body.grade.value)
    requires Announced(r.body, p.body, n.body)
    requires p == NewRow(p.body, s.clock) && n == NewRow(n.body, s.clock)
    ensures id !in s.g.publications && id !in s.g.notes
    ensures Inv(c, s.(g := GradingTables(s.g.attempts[id := r], s.g.publications[id := p], s.g.notes[id := n])))
  {
    hide JobsOk, VaultOk, AttemptsOk, OutboxOk, ClarificationsOk, AuthorsOk, GradersOk, CouriersOk, PushesOk,
         WellLeased, GradeSound, Announced;
    CompletedAttempts(c, s.a.jobs, s.past.origin, s.g.attempts, id, r);
    CompletedGraders(s.g.attempts, s.past.origin, s.past.issued, s.workers.graders, id, r);
    CompletedOutbox(s.g, s.past.issued, id, r, p, n, s.workers.publishers, s.workers.bots);
    assert s.past.issued + {} == s.past.issued;
    WellLeasedUpdate(s.g.attempts, s.past.issued, id, r);
    WellLeasedUpdate(s.g.publications, s.past.issued, id, p);
    WellLeasedUpdate(s.g.notes, s.past.issued, id, n);
  }

  lemma GraderCompleteKeeps(c: Config, s: State, w: nat)
    requires Inv(c, s)
    ensures Inv(c, StepGraderComplete(s, w))
  {
    hide Inv, GraderOf, SetGrader, CountsValid, ReportValid, IsHash, GradeSound;
    GraderOkOf(c, s, w);
    match GraderOf(s, w)
    case Graded(held, grade) =>
      var (g, r) := CompleteGrading(s.g, held.id, Some(held.token), grade, s.clock);
      if r == Success(true) {
        var row := g.attempts[held.id];
        CompleteKeeps(c, s, held.id, row,
          NewRow(Publication(row.body.commit, grade.passed), s.clock),
          NewRow(Note(row.body.taskId, row.body.commit, grade.report), s.clock));
      }
      SetGraderKeeps(c, s.(g := g), w, if r == Success(true) then GraderIdle else GradingRaised(held));
    case _ =>
  }

  lemma MigrateKeeps(c: Config, s: State)
    requires Inv(c, s)
    ensures Inv(c, s.(g := RequeueFailed(s.g, s.clock)))
  {
    hide Inv;
    LeasesOf(c, s);
    RewrittenAttemptsKeep(c, s, RequeueFailed(s.g, s.clock).attempts, s.past.issued);
  }

  // ----- outbox -----

  lemma SetPublisherKeeps(c: Config, s: State, w: nat, next: Courier<Publication>)
    requires Inv(c, s)
    requires !next.CourierIdle? ==>
      next.held.token in s.past.issued && next.held.id in s.g.publications
      && next.held.body == s.g.publications[next.held.id].body
    ensures Inv(c, SetPublisher(s, w, next))
  {
    hide LeasesOk, JobsOk, VaultOk, AttemptsOk, OutboxOk, ClarificationsOk, AuthorsOk, GradersOk, PushesOk;
  }

  lemma SetBotKeeps(c: Config, s: State, w: nat, next: Courier<Note>)
    requires Inv(c, s)
    requires !next.CourierIdle? ==>
      next.held.token in s.past.issued && next.held.id in s.g.notes && next.held.body == s.g.notes[next.held.id].body
    ensures Inv(c, SetBot(s, w, next))
  {
    hide LeasesOk, JobsOk, VaultOk, AttemptsOk, OutboxOk, ClarificationsOk, AuthorsOk, GradersOk, PushesOk;
  }

  /** An outbox row is rewritten by a claim or by its holder; its content stays. */
  lemma PublicationWriteKeeps(c: Config, s: State, id: string, r: Row<Publication>)
    requires Inv(c, s) && id in s.g.publications && r.body == s.g.publications[id].body && LeaseColumnsMatch(r)
    requires r.token.Some? ==> r.token.value !in s.past.issued
    ensures
      var drawn := if r.token.Some? then {r.token.value} else {};
      Inv(c, s.(g := s.g.(publications := s.g.publications[id := r]), past := s.past.(issued := s.past.issued + drawn)))
  {
    hide JobsOk, VaultOk, AttemptsOk, ClarificationsOk, AuthorsOk, GradersOk, PushesOk, WellLeased, Announced;
    IssuedMono(c, s, s.past.issued + (if r.token.Some? then {r.token.value} else {}));
    WellLeasedUpdate(s.g.publications, s.past.issued, id, r);
  }

  lemma NoteWriteKeeps(c: Config, s: State, id: string, r: Row<Note>)
    requires Inv(c, s) && id in s.g.notes && r.body == s.g.notes[id].body && LeaseColumnsMatch(r)
    requires r.token.Some? ==> r.token.value !in s.past.issued
    ensures
      var drawn := if r.token.Some? then {r.token.value} else {};
      Inv(c, s.(g := s.g.(notes := s.g.notes[id := r]), past := s.past.(issued := s.past.issued + drawn)))
  {
    hide JobsOk, VaultOk, AttemptsOk, ClarificationsOk, AuthorsOk, GradersOk, PushesOk, WellLeased, Announced;
    IssuedMono(c, s, s.past.issued + (if r.token.Some? then {r.token.value} else {}));
    WellLeasedUpdate(s.g.notes, s.past.issued, id, r);
  }

  lemma PublisherOkOf(c: Config, s: State, w: nat)
    requires Inv(c, s)
    ensures
      var p := PublisherOf(s, w);
      !p.CourierIdle? ==>
        p.held.token in s.past.issued && p.held.id in s.g.publications && p.held.body == s.g.publications[p.held.id].body
  {
    hide LeasesOk, JobsOk, VaultOk, AttemptsOk, OutboxOk, ClarificationsOk, AuthorsOk, GradersOk, PushesOk;
  }

  lemma BotOkOf(c: Config, s: State, w: nat)
    requires Inv(c, s)
    ensures
      var p := BotOf(s, w);
      !p.CourierIdle? ==>
        p.held.token in s.past.issued && p.held.id in s.g.notes && p.held.body == s.g.notes[p.held.id].body
  {
    hide LeasesOk, JobsOk, VaultOk, AttemptsOk, OutboxOk, ClarificationsOk, AuthorsOk, GradersOk, PushesOk;
  }

  lemma PublisherClaimKeeps(c: Config, s: State, w: nat, token: string)
    requires Inv(c, s)
    ensures Inv(c, StepPublisherClaim(c, s, w, token))
  {
    hide Inv, PublisherOf, SetPublisher;
    var next := Next(s.g.publications, s.clock);
    if PublisherOf(s, w) == CourierIdle && token !in s.past.issued && next.Some? {
      var id := next.value;
      var row := ClaimedRow(s.g.publications[id], s.clock, token, c.settings.leaseSeconds);
      PublicationWriteKeeps(c, s, id, row);
      var t := Draw(s, token).(g := s.g.(publications := s.g.publications[id := row]));
      SetPublisherKeeps(c, t, w, Holding(Held(id, token, row.attempts, row.body)));
    }
  }

  lemma PublisherSendKeeps(c: Config, s: State, w: nat, ok: bool)
    requires Inv(c, s)
    ensures Inv(c, StepPublisherSend(s, w, ok))
  {
    hide Inv, PublisherOf, SetPublisher;
    PublisherOkOf(c, s, w);
    match PublisherOf(s, w)
    case Holding(held) => SetPublisherKeeps(c, s, w, AfterSend(held, ok));
    case _ =>
  }

  lemma PublisherSettleKeeps(c: Config, s: State, w: nat)
    requires Inv(c, s)
    ensures Inv(c, StepPublisherSettle(s, w))
  {
    hide Inv, PublisherOf, SetPublisher, ErrorCodeValid;
    var courier := PublisherOf(s, w);
    if courier.Sent? || courier.SendFailed? {
      var g :=
        if courier.Sent? then CompletePublication(s.g, courier.held.id, courier.held.token, s.clock).0
        else ReleasePublication(s.g, courier.held.id, courier.held.token, "check-publication-failure", 30.0, s.clock).0;
      if g != s.g {
        PublicationWriteKeeps(c, s, courier.held.id, g.publications[courier.held.id]);
        assert s.past.issued + {} == s.past.issued;
      }
      SetPublisherKeeps(c, s.(g := g), w, CourierIdle);
    }
  }

  lemma BotClaimKeeps(c: Config, s: State, w: nat, token: string)
    requires Inv(c, s)
    ensures Inv(c, StepBotClaim(c, s, w, token))
  {
    hide Inv, BotOf, SetBot;
    var next := Next(s.g.notes, s.clock);
    if BotOf(s, w) == CourierIdle && token !in s.past.issued && next.Some? {
      var id := next.value;
      var row := ClaimedRow(s.g.notes[id], s.clock, token, c.settings.leaseSeconds);
      NoteWriteKeeps(c, s, id, row);
      var t := Draw(s, token).(g := s.g.(notes := s.g.notes[id := row]));
      SetBotKeeps(c, t, w, Holding(Held(id, token, row.attempts, row.body)));
    }
  }

  lemma BotSendKeeps(c: Config, s: State, w: nat, ok: bool)
    requires Inv(c, s)
    ensures Inv(c, StepBotSend(s, w, ok))
  {
    hide Inv, BotOf, SetBot;
    BotOkOf(c, s, w);
    match BotOf(s, w)
    case Holding(held) => SetBotKeeps(c, s, w, AfterSend(held, ok));
    case _ =>
  }

  lemma BotSettleKeeps(c: Config, s: State, w: nat)
    requires Inv(c, s)
    ensures Inv(c, StepBotSettle(s, w))
  {
    hide Inv, BotOf, SetBot, IsHash;
    var courier := BotOf(s, w);
    if courier.Sent? || courier.SendFailed? {
      var g := SettleNote(s.g, courier.held.id, courier.held.token, if courier.Sent? then Done else Queued, s.clock).0;
      if g != s.g {
        NoteWriteKeeps(c, s, courier.held.id, g.notes[courier.held.id]);
        assert s.past.issued + {} == s.past.issued;
      }
      SetBotKeeps(c, s.(g := g), w, CourierIdle);
    }
  }
}
