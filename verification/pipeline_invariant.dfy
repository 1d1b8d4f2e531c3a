/** What every step of the pipeline keeps. */
module PipelineInvariant {
  import opened Text
  import opened Leases
  import opened Results
  import opened Tables
  import opened Contracts
  import opened Pipeline
  import Json

  // ----- the invariant, part by part -----

  predicate SameIdentityFields(a: Job, b: Job) {
    a.rowId == b.rowId && a.project == b.project && a.branch == b.branch
    && a.starterSha == b.starterSha && a.assignment == b.assignment
  }

  /** The suite was parsed, approved by the critic and accepted by the gate. */
  ghost predicate Sound(c: Config, o: Evidence) {
    && ParsedReady(c, o.output, o.suite)
    && o.verdict == CriticApproves
    && DetectsDefect(o.first, o.second, o.suite)
  }

  /** The job's hash and starter are those of the task's vault entry. */
  predicate Frozen(vault: Vault, task: string, job: Job) {
    task in vault && job.suiteHash == Some(vault[task].suiteHash) && vault[task].starterSha == job.starterSha
  }

  ghost predicate JobsOk(jobs: Table<Job>, vault: Vault) {
    && (forall t | t in jobs ::
          IdentityValid(t, jobs[t].body.rowId, jobs[t].body.project, jobs[t].body.branch, jobs[t].body.starterSha))
    && (forall t | t in jobs :: if jobs[t].phase == Done then Frozen(vault, t, jobs[t].body) else jobs[t].body.suiteHash == None)
    && (forall t, u | t in jobs && u in jobs && jobs[t].body.rowId == jobs[u].body.rowId :: t == u)
    && (forall t, u | t in jobs && u in jobs && jobs[t].body.branch == jobs[u].body.branch :: t == u)
  }

  ghost predicate EntryOk(c: Config, task: string, starter: string, v: StoredSuite, o: Evidence) {
    && v.taskId == task && v.starterSha == starter
    && v.suiteHash == c.codec.suiteDigest(v.payload)
    && v.payload == ToPayload(o.suite)
    && Sound(c, o)
  }

  ghost predicate VaultOk(c: Config, jobs: Table<Job>, vault: Vault, origin: map<string, Evidence>) {
    && origin.Keys == vault.Keys
    && forall t | t in vault :: t in jobs && EntryOk(c, t, jobs[t].body.starterSha, vault[t], origin[t])
  }

  /** The grade is the summary of some result of the approved suite. */
  ghost predicate GradeSound(origin: map<string, Evidence>, task: string, grade: Grade) {
    && task in origin
    && exists r: SuiteResult ::
         Summarize(origin[task].suite, r) == Some(grade.report) && grade == GradeOf(grade.report)
  }

  /** The attempt belongs to the ready job of its task. */
  predicate MatchesJob(jobs: Table<Job>, task: string, project: string, branch: string, suiteHash: string) {
    && task in jobs && jobs[task].phase == Done && jobs[task].body.suiteHash == Some(suiteHash)
    && jobs[task].body.project == project && jobs[task].body.branch == branch
  }

  ghost predicate AttemptOk(c: Config, jobs: Table<Job>, origin: map<string, Evidence>, id: string, r: Row<Attempt>) {
    var a := r.body;
    && MatchesJob(jobs, a.taskId, a.project, a.branch, a.suiteHash)
    && id == c.codec.attemptDigest(AttemptIdentity(a.taskId, a.commit, a.suiteHash))
    && (r.phase == Done <==> a.grade.Some?)
    && (a.grade.Some? ==> GradeSound(origin, a.taskId, a.grade.value))
  }

  ghost predicate AttemptsOk(c: Config, jobs: Table<Job>, origin: map<string, Evidence>, attempts: Table<Attempt>) {
    && (forall id | id in attempts :: AttemptOk(c, jobs, origin, id, attempts[id]))
    && (forall x, y | x in attempts && y in attempts
          && attempts[x].body.taskId == attempts[y].body.taskId && attempts[x].body.commit == attempts[y].body.commit :: x == y)
  }

  /** Both outbox rows of a completed attempt, with its commit, verdict and report. */
  predicate Announced(a: Attempt, p: Publication, n: Note) {
    a.grade.Some? && p == Publication(a.commit, a.grade.value.passed) && n == Note(a.taskId, a.commit, a.grade.value.report)
  }

  ghost predicate OutboxOk(attempts: Table<Attempt>, publications: Table<Publication>, notes: Table<Note>) {
    && (forall id :: id in publications <==> id in attempts && attempts[id].phase == Done)
    && (forall id :: id in notes <==> id in attempts && attempts[id].phase == Done)
    && (forall id | id in publications :: Announced(attempts[id].body, publications[id].body, notes[id].body))
  }

  /** A task's rows carry the revisions 1..n, once each. */
  ghost predicate RevisionsOk(jobs: Table<Job>, asked: map<string, Clarification>) {
    && (forall n | n in asked :: asked[n].taskId in jobs && 1 <= asked[n].revision <= jobs[asked[n].taskId].body.revision)
    && (forall n, m | n in asked && m in asked
          && asked[n].taskId == asked[m].taskId && asked[n].revision == asked[m].revision :: n == m)
    && (forall t, r: nat | t in jobs && 1 <= r <= jobs[t].body.revision :: RevisionTaken(asked, t, r))
  }

  /** A row is pending exactly while its task waits for that revision; a stored answer was
      applied to its job exactly once. */
  ghost predicate AnswersOk(jobs: Table<Job>, asked: map<string, Clarification>, applied: map<string, nat>) {
    && (forall n | n in asked :: asked[n].taskId in jobs)
    && (forall n | n in asked :: asked[n].Pending() <==>
          jobs[asked[n].taskId].phase == Waiting && jobs[asked[n].taskId].body.revision == asked[n].revision)
    && (forall t | t in jobs && jobs[t].phase == Waiting :: 1 <= jobs[t].body.revision)
    && (forall n | n in applied :: n in asked && applied[n] == 1)
    && (forall n | n in asked :: n in applied <==> !asked[n].Pending())
  }

  ghost predicate ClarificationsOk(jobs: Table<Job>, asked: map<string, Clarification>, applied: map<string, nat>) {
    RevisionsOk(jobs, asked) && AnswersOk(jobs, asked, applied)
  }

  ghost predicate HeldJobOk(jobs: Table<Job>, issued: set<string>, held: Held<Job>) {
    held.token in issued && held.id in jobs && SameIdentityFields(held.body, jobs[held.id].body)
  }

  ghost predicate ParsedReady(c: Config, output: Json.Value, suite: SuiteDraft) {
    Parse(output, c.codec.valueBytes) == Some(suite) && suite.status.Ready?
  }

  ghost predicate AuthorOk(c: Config, jobs: Table<Job>, issued: set<string>, a: Author) {
    && (!a.AuthorIdle? ==> HeldJobOk(jobs, issued, a.held))
    && (a.Drafted? || a.Reviewed? ==> ParsedReady(c, a.output, a.suite))
    && (a.Reviewed? ==> a.verdict == CriticApproves)
    && (a.Accepted? ==> Sound(c, a.evidence))
  }

  ghost predicate AuthorsOk(c: Config, jobs: Table<Job>, issued: set<string>, authors: map<nat, Author>) {
    forall w | w in authors :: AuthorOk(c, jobs, issued, authors[w])
  }

  ghost predicate GraderOk(attempts: Table<Attempt>, origin: map<string, Evidence>, issued: set<string>, g: Grader) {
    g.GraderIdle? ||
    (&& g.held.token in issued && g.held.id in attempts
     && g.held.body.(grade := None) == attempts[g.held.id].body.(grade := None)
     && (g.Graded? ==> GradeSound(origin, g.held.body.taskId, g.grade)))
  }

  ghost predicate GradersOk(
    attempts: Table<Attempt>, origin: map<string, Evidence>, issued: set<string>, graders: map<nat, Grader>)
  {
    forall w | w in graders :: GraderOk(attempts, origin, issued, graders[w])
  }

  ghost predicate CouriersOk<P(!new)>(rows: Table<P>, issued: set<string>, couriers: map<nat, Courier<P>>) {
    forall w | w in couriers ::
      couriers[w].CourierIdle? ||
      (couriers[w].held.token in issued && couriers[w].held.id in rows && couriers[w].held.body == rows[couriers[w].held.id].body)
  }

  ghost predicate PushesOk(jobs: Table<Job>, pushes: map<nat, Push>) {
    forall p | p in pushes ::
      pushes[p].PushIdle? || MatchesJob(jobs, pushes[p].task, pushes[p].project, pushes[p].branch, pushes[p].suiteHash)
  }

  ghost predicate LeasesOk(a: AuthoringTables, g: GradingTables, issued: set<string>) {
    && WellLeased(a.jobs, issued) && WellLeased(g.attempts, issued)
    && WellLeased(g.publications, issued) && WellLeased(g.notes, issued)
    && (forall n | n in a.clarifications :: n in issued)
  }

  ghost predicate Inv(c: Config, s: State) {
    && LeasesOk(s.a, s.g, s.past.issued)
    && JobsOk(s.a.jobs, s.vault)
    && VaultOk(c, s.a.jobs, s.vault, s.past.origin)
    && AttemptsOk(c, s.a.jobs, s.past.origin, s.g.attempts)
    && OutboxOk(s.g.attempts, s.g.publications, s.g.notes)
    && ClarificationsOk(s.a.jobs, s.a.clarifications, s.past.applied)
    && AuthorsOk(c, s.a.jobs, s.past.issued, s.workers.authors)
    && GradersOk(s.g.attempts, s.past.origin, s.past.issued, s.workers.graders)
    && CouriersOk(s.g.publications, s.past.issued, s.workers.publishers)
    && CouriersOk(s.g.notes, s.past.issued, s.workers.bots)
    && PushesOk(s.a.jobs, s.workers.pushes)
  }

  // ----- what one step may do to rows -----

  /** Identities never change, revisions never go back, ready and failed rows never change. */
  ghost predicate JobsEvolve(before: Table<Job>, after: Table<Job>) {
    forall t | t in before ::
      && t in after
      && SameIdentityFields(before[t].body, after[t].body)
      && before[t].body.revision <= after[t].body.revision
      && (before[t].phase == Done || before[t].phase == Phase.Failed ==> after[t] == before[t])
  }

  ghost predicate VaultGrows(before: Vault, after: Vault) {
    forall t | t in before :: t in after && after[t] == before[t]
  }

  ghost predicate OriginGrows(before: map<string, Evidence>, after: map<string, Evidence>) {
    forall t | t in before :: t in after && after[t] == before[t]
  }

  // ----- monotonicity of the parts -----

  lemma VaultOkMono(c: Config, jobs: Table<Job>, jobs': Table<Job>, vault: Vault, origin: map<string, Evidence>)
    requires VaultOk(c, jobs, vault, origin) && JobsEvolve(jobs, jobs')
    ensures VaultOk(c, jobs', vault, origin)
  {
    hide Sound;
  }

  lemma AttemptsOkMono(
    c: Config, jobs: Table<Job>, jobs': Table<Job>, origin: map<string, Evidence>, origin': map<string, Evidence>,
    attempts: Table<Attempt>)
    requires AttemptsOk(c, jobs, origin, attempts) && JobsEvolve(jobs, jobs') && OriginGrows(origin, origin')
    ensures AttemptsOk(c, jobs', origin', attempts)
  {
    forall id | id in attempts ensures AttemptOk(c, jobs', origin', id, attempts[id]) {
      assert AttemptOk(c, jobs, origin, id, attempts[id]);
    }
  }

  lemma AuthorsOkMono(c: Config, jobs: Table<Job>, jobs': Table<Job>, issued: set<string>, issued': set<string>,
                      authors: map<nat, Author>)
    requires AuthorsOk(c, jobs, issued, authors) && JobsEvolve(jobs, jobs') && issued <= issued'
    ensures AuthorsOk(c, jobs', issued', authors)
  {
    hide Sound;
    forall w | w in authors ensures AuthorOk(c, jobs', issued', authors[w]) {
      assert AuthorOk(c, jobs, issued, authors[w]);
    }
  }

  lemma GradersOkMono(attempts: Table<Attempt>, origin: map<string, Evidence>, origin': map<string, Evidence>,
                      issued: set<string>, issued': set<string>, graders: map<nat, Grader>)
    requires GradersOk(attempts, origin, issued, graders) && OriginGrows(origin, origin') && issued <= issued'
    ensures GradersOk(attempts, origin', issued', graders)
  {
    forall w | w in graders ensures GraderOk(attempts, origin', issued', graders[w]) {
      assert GraderOk(attempts, origin, issued, graders[w]);
    }
  }

  lemma PushesOkMono(jobs: Table<Job>, jobs': Table<Job>, pushes: map<nat, Push>)
    requires PushesOk(jobs, pushes) && JobsEvolve(jobs, jobs')
    ensures PushesOk(jobs', pushes)
  {}

  /** Writing one row keeps the lease columns right when the row is free or has a new token. */
  lemma WellLeasedUpdate<P>(t: Table<P>, issued: set<string>, id: string, r: Row<P>)
    requires WellLeased(t, issued) && LeaseColumnsMatch(r)
    requires r.token.Some? ==> r.token.value !in issued || (id in t && t[id].token == r.token)
    ensures WellLeased(t[id := r], issued + (if r.token.Some? then {r.token.value} else {}))
  {}

  lemma WellLeasedMono<P>(t: Table<P>, issued: set<string>, issued': set<string>)
    requires WellLeased(t, issued) && issued <= issued'
    ensures WellLeased(t, issued')
  {}

  /** One job row is rewritten, keeping its identity, and is not ready before or after. */
  lemma JobRowUpdate(c: Config, s: State, task: string, r: Row<Job>)
    requires Inv(c, s) && task in s.a.jobs
    requires SameIdentityFields(s.a.jobs[task].body, r.body)
    requires s.a.jobs[task].phase != Done && s.a.jobs[task].phase != Phase.Failed
    requires s.a.jobs[task].body.revision <= r.body.revision
    requires if r.phase == Done then Frozen(s.vault, task, r.body) else r.body.suiteHash == None
    ensures JobsEvolve(s.a.jobs, s.a.jobs[task := r])
    ensures JobsOk(s.a.jobs[task := r], s.vault)
    ensures VaultOk(c, s.a.jobs[task := r], s.vault, s.past.origin)
    ensures AttemptsOk(c, s.a.jobs[task := r], s.past.origin, s.g.attempts)
    ensures AuthorsOk(c, s.a.jobs[task := r], s.past.issued, s.workers.authors)
    ensures PushesOk(s.a.jobs[task := r], s.workers.pushes)
  {
    hide VaultOk, AttemptsOk, AuthorsOk, PushesOk, IdentityValid, OutboxOk, ClarificationsOk, GradersOk, CouriersOk,
         WellLeased;
    var jobs := s.a.jobs[task := r];
    VaultOkMono(c, s.a.jobs, jobs, s.vault, s.past.origin);
    AttemptsOkMono(c, s.a.jobs, jobs, s.past.origin, s.past.origin, s.g.attempts);
    AuthorsOkMono(c, s.a.jobs, jobs, s.past.issued, s.past.issued, s.workers.authors);
    PushesOkMono(s.a.jobs, jobs, s.workers.pushes);
  }

  /** The clarification part does not mind a job row that keeps its revision and is not waiting. */
  lemma ClarificationsOkUpdate(
    jobs: Table<Job>, asked: map<string, Clarification>, applied: map<string, nat>, task: string, r: Row<Job>)
    requires ClarificationsOk(jobs, asked, applied) && task in jobs
    requires r.body.revision == jobs[task].body.revision
    requires jobs[task].phase != Waiting && r.phase != Waiting
    ensures ClarificationsOk(jobs[task := r], asked, applied)
  {}
}
