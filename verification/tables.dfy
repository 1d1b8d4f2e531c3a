/** The tables of the grading service and what each of its transactions does to them.
    A transaction is one atomic step; its result is a value or the error it raises. */
module Tables {
  import opened Text
  import opened Leases
  import opened Results
  import Json
  import Contracts

  datatype Error =
    | InvalidValue        // an argument check failed
    | InputChanged        // an identity was enqueued again with different immutable fields
    | IntegrityFailure    // a PRIMARY KEY or UNIQUE constraint
    | LeaseNotOwned
    | IdentityMismatch
    | VaultConflict
    | Missing
    | Fault               // an operating-system failure

  datatype Result<+T> = Success(value: T) | Failure(error: Error)

  /** Serialisers and digests. Nothing is assumed of the digests but their format: the primary
      keys refuse collisions. `assignment` and `feedback` are the canonical forms, if valid;
      `gateFeedback` is the feedback text for a refusal by the acceptance gate. */
  datatype Codec = Codec(
    suiteDigest: Json.Value -> Hash,
    suiteBytes: Json.Value -> nat,
    suiteText: Json.Value -> nat,
    valueBytes: Contracts.Sizer,
    attemptDigest: string -> Hash,
    assignment: string -> Option<string>,
    feedback: string -> Option<string>,
    gateFeedback: string -> string)

  datatype Settings = Settings(leaseSeconds: real, maxGradingAttempts: nat, retryBase: real) {
    predicate Valid() {
      0.0 < leaseSeconds && 1 <= maxGradingAttempts <= 20 && 0.0 < retryBase <= 3600.0
    }
  }

  datatype Job = Job(
    rowId: string,
    project: string,
    branch: string,
    starterSha: string,
    assignment: string,
    suiteHash: Option<string>,
    revision: nat,
    question: Option<string>,
    answer: Option<string>,
    feedback: Option<string>)

  datatype Grade = Grade(passed: bool, passedCount: int, totalCount: int, report: Report)

  datatype Attempt = Attempt(
    taskId: string, project: string, branch: string, commit: string, suiteHash: string, grade: Option<Grade>)

  datatype Publication = Publication(commit: string, passed: bool)

  datatype Note = Note(taskId: string, commit: string, report: Report)

  datatype Clarification = Clarification(
    taskId: string, revision: nat, question: string, answer: Option<string>, createdAt: real)
  {
    predicate Pending() { answer.None? }
  }

  /** `authoring_jobs` and `clarifications`. */
  datatype AuthoringTables = AuthoringTables(jobs: Table<Job>, clarifications: map<string, Clarification>)

  /** `grading_attempts`, `check_publications` and `mentor_notifications`. */
  datatype GradingTables = GradingTables(attempts: Table<Attempt>, publications: Table<Publication>, notes: Table<Note>)

  /** The row objects that claims hand to a worker. */
  datatype Held<+P> = Held(id: string, token: string, attempts: nat, body: P)

  datatype StoredSuite = StoredSuite(
    taskId: string, starterSha: string, suiteHash: string, authorModel: string, payload: Json.Value)

  // ----- authoring -----

  predicate IdentityValid(task: string, rowId: string, project: string, branch: string, starter: string) {
    && IsTaskId(task)
    && rowId != "" && |rowId| <= 200 && '\0' !in rowId
    && IsKey(project) && |project| <= 64
    && IsBranch(branch) && |branch| <= 200
    && IsSha(starter)
  }

  predicate SameIdentity(j: Job, rowId: string, project: string, branch: string, starter: string, assignment: string) {
    j.rowId == rowId && j.project == project && j.branch == branch && j.starterSha == starter && j.assignment == assignment
  }

  predicate RowTaken(jobs: Table<Job>, rowId: string) { exists t | t in jobs :: jobs[t].body.rowId == rowId }

  predicate BranchTaken(jobs: Table<Job>, branch: string) { exists t | t in jobs :: jobs[t].body.branch == branch }

  function EnqueueAuthoring(
    a: AuthoringTables, codec: Codec, now: real,
    task: string, rowId: string, project: string, branch: string, starter: string, assignmentText: string)
    : (AuthoringTables, Result<Row<Job>>)
  {
    var assignment := codec.assignment(assignmentText);
    if !IdentityValid(task, rowId, project, branch, starter) || assignment.None? then (a, Failure(InvalidValue))
    else if task in a.jobs && SameIdentity(a.jobs[task].body, rowId, project, branch, starter, assignment.value) then
      (a, Success(a.jobs[task]))
    else if task in a.jobs || RowTaken(a.jobs, rowId) then (a, Failure(InputChanged))
    else if BranchTaken(a.jobs, branch) then (a, Failure(IntegrityFailure))
    else
      var row := NewRow(Job(rowId, project, branch, starter, assignment.value, None, 0, None, None, None), now);
      (a.(jobs := a.jobs[task := row]), Success(row))
  }

  function ClaimAuthoring(a: AuthoringTables, s: Settings, now: real, token: string)
    : (AuthoringTables, Option<Held<Job>>)
  {
    match Next(a.jobs, now)
    case None => (a, None)
    case Some(id) =>
      var row := ClaimedRow(a.jobs[id], now, token, s.leaseSeconds);
      (a.(jobs := a.jobs[id := row]), Some(Held(id, token, row.attempts, row.body)))
  }

  function ReleaseAuthoring(a: AuthoringTables, task: string, token: string, now: real): (AuthoringTables, bool) {
    if Owns(a.jobs, task, token) then
      (a.(jobs := a.jobs[task := Freed(a.jobs[task], Queued, now)]), true)
    else (a, false)
  }

  function RequeueAfterCritic(
    a: AuthoringTables, codec: Codec, task: string, token: string, feedbackText: string, delay: real, now: real)
    : (AuthoringTables, Result<()>)
  {
    var feedback := codec.feedback(feedbackText);
    if delay < 0.0 || feedback.None? then (a, Failure(InvalidValue))
    else if !Owns(a.jobs, task, token) then (a, Failure(LeaseNotOwned))
    else
      var row := Freed(a.jobs[task], Queued, now).(nextAttemptAt := now + delay);
      (a.(jobs := a.jobs[task := row.(body := row.body.(feedback := feedback))]), Success(()))
  }

  predicate ErrorCodeValid(code: string) { IsKey(code) && |code| <= 64 }

  function MarkAuthoringFailed(a: AuthoringTables, task: string, token: string, code: string, now: real)
    : (AuthoringTables, Result<bool>)
  {
    if !ErrorCodeValid(code) then (a, Failure(InvalidValue))
    else if !Owns(a.jobs, task, token) then (a, Success(false))
    else
      (a.(jobs := a.jobs[task := Freed(a.jobs[task], Phase.Failed, now).(lastError := Some(code))]), Success(true))
  }

  /** `promoted` is what the vault promotion returned; it is only asked for under the lease. */
  function FinalizeAuthoring(a: AuthoringTables, task: string, token: string, promoted: Result<StoredSuite>, now: real)
    : (AuthoringTables, Result<StoredSuite>)
  {
    if !Owns(a.jobs, task, token) then (a, Failure(LeaseNotOwned))
    else if promoted.Failure? then (a, promoted)
    else
      var stored := promoted.value;
      if stored.taskId != task || stored.starterSha != a.jobs[task].body.starterSha || !IsHash(stored.suiteHash) then
        (a, Failure(IdentityMismatch))
      else
        var row := Freed(a.jobs[task], Done, now);
        (a.(jobs := a.jobs[task := row.(body := row.body.(suiteHash := Some(stored.suiteHash)))]), promoted)
  }

  // ----- clarifications -----

  predicate RevisionTaken(clarifications: map<string, Clarification>, task: string, revision: nat) {
    exists n | n in clarifications :: clarifications[n].taskId == task && clarifications[n].revision == revision
  }

  function RequestClarification(a: AuthoringTables, task: string, token: string, question: string, nonce: string,
      now: real)
    : (AuthoringTables, Result<Clarification>)
  {
    var text := BoundedText(question, 500);
    if text.None? then (a, Failure(InvalidValue))
    else if !Owns(a.jobs, task, token) then (a, Failure(LeaseNotOwned))
    else
      var row := a.jobs[task];
      var revision := row.body.revision + 1;
      if nonce in a.clarifications || RevisionTaken(a.clarifications, task, revision) then
        (a, Failure(IntegrityFailure))
      else
        var asked := Clarification(task, revision, text.value, None, now);
        var body := row.body.(revision := revision, question := text, answer := None);
        (a.(clarifications := a.clarifications[nonce := asked],
             jobs := a.jobs[task := Freed(row, Waiting, now).(body := body)]),
         Success(asked))
  }

  function AnswerClarification(a: AuthoringTables, nonce: string, revision: int, answer: string, now: real)
    : (AuthoringTables, Result<bool>)
  {
    var text := BoundedText(answer, 1_000);
    if text.None? then (a, Failure(InvalidValue))
    else if nonce !in a.clarifications || a.clarifications[nonce].revision != revision then (a, Success(false))
    else
      var c := a.clarifications[nonce];
      if c.answer.Some? then (a, Success(c.answer == text))
      else
        var answered := a.(clarifications := a.clarifications[nonce := c.(answer := text)]);
        if Awaits(a, c) then
          var row := a.jobs[c.taskId];
          (answered.(jobs := a.jobs[c.taskId := row.(phase := Queued, updatedAt := now, body := row.body.(answer := text))]),
           Success(true))
        else (answered, Success(true))
  }

  /** The job row that an answer to `c` would requeue. */
  predicate Awaits(a: AuthoringTables, c: Clarification) {
    c.taskId in a.jobs && a.jobs[c.taskId].phase == Waiting && a.jobs[c.taskId].body.revision == c.revision
  }

  // ----- grading -----

  function AttemptIdentity(task: string, commit: string, suiteHash: string): string {
    task + "\0" + commit + "\0" + suiteHash
  }

  predicate CommitTaken(attempts: Table<Attempt>, task: string, commit: string) {
    exists id | id in attempts :: attempts[id].body.taskId == task && attempts[id].body.commit == commit
  }

  function EnqueueGrading(
    g: GradingTables, codec: Codec, now: real, task: string, project: string, branch: string, commit: string, suiteHash: string)
    : (GradingTables, Result<string>)
  {
    if !IsTaskId(task) || !IsKey(project) || 64 < |project| || !IsBranch(branch) || 200 < |branch|
       || !IsSha(commit) || !IsHash(suiteHash)
    then (g, Failure(InvalidValue))
    else
      var id := codec.attemptDigest(AttemptIdentity(task, commit, suiteHash));
      var body := Attempt(task, project, branch, commit, suiteHash, None);
      if id in g.attempts && g.attempts[id].body.(grade := None) == body then (g, Success(id))
      else if CommitTaken(g.attempts, task, commit) then (g, Failure(InputChanged))
      else if id in g.attempts then (g, Failure(IntegrityFailure))
      else (g.(attempts := g.attempts[id := NewRow(body, now)]), Success(id))
  }

  function ClaimGrading(g: GradingTables, s: Settings, now: real, token: string)
    : (GradingTables, Option<Held<Attempt>>)
  {
    match Next(g.attempts, now)
    case None => (g, None)
    case Some(id) =>
      var row := ClaimedRow(g.attempts[id], now, token, s.leaseSeconds);
      (g.(attempts := g.attempts[id := row]), Some(Held(id, token, row.attempts, row.body)))
  }

  /** `INSERT OR IGNORE`. */
  function InsertOrIgnore<P>(t: Table<P>, id: string, body: P, now: real): Table<P> {
    if id in t then t else t[id := NewRow(body, now)]
  }

  /** The grade and both outbox rows are written in one transaction. */
  function CompleteGrading(g: GradingTables, id: string, token: Option<string>, grade: Grade, now: real)
    : (GradingTables, Result<bool>)
  {
    if !IsHash(id) || !CountsValid(grade.passed, grade.passedCount, grade.totalCount) || !ReportValid(grade.report) then
      (g, Failure(InvalidValue))
    else if token.None? || !Owns(g.attempts, id, token.value) then (g, Success(false))
    else
      var row := g.attempts[id];
      var body := row.body.(grade := Some(grade));
      (g.(attempts := g.attempts[id := Freed(row, Done, now).(body := body)],
           publications := InsertOrIgnore(g.publications, id, Publication(body.commit, grade.passed), now),
           notes := InsertOrIgnore(g.notes, id, Note(body.taskId, body.commit, grade.report), now)),
       Success(true))
  }

  /** `base * 2 ** k`. */
  function Doubled(base: real, k: nat): real { if k == 0 then base else 2.0 * Doubled(base, k - 1) }

  function MinReal(a: real, b: real): real { if a <= b then a else b }

  /** `min(base * 2 ** max(0, attempts - 1), 3600)`, or an hour once the attempts are used up. */
  function RetryDelay(s: Settings, attempts: nat): real {
    if s.maxGradingAttempts <= attempts then 3600.0
    else MinReal(Doubled(s.retryBase, if attempts == 0 then 0 else attempts - 1), 3600.0)
  }

  function ReleasedAttempt(r: Row<Attempt>, s: Settings, code: string, now: real): Row<Attempt> {
    Freed(r, Queued, now).(
      lastError := Some(code),
      nextAttemptAt := now + RetryDelay(s, r.attempts),
      attempts := if s.maxGradingAttempts <= r.attempts then 0 else r.attempts)
  }

  function ReleaseGrading(g: GradingTables, s: Settings, id: string, token: string, code: string, now: real)
    : (GradingTables, Result<bool>)
  {
    if !ErrorCodeValid(code) then (g, Failure(InvalidValue))
    else if !Owns(g.attempts, id, token) then (g, Success(false))
    else (g.(attempts := g.attempts[id := ReleasedAttempt(g.attempts[id], s, code, now)]), Success(true))
  }

  /** The start-up migration: rows left `failed` by an earlier version are queued again. */
  function RequeueFailed(g: GradingTables, now: real): GradingTables {
    g.(attempts := map id | id in g.attempts ::
      if g.attempts[id].phase == Phase.Failed then
        Freed(g.attempts[id], Queued, now).(attempts := 0, nextAttemptAt := now)
      else g.attempts[id])
  }

  // ----- outbox -----

  function ClaimPublication(g: GradingTables, s: Settings, now: real, token: string)
    : (GradingTables, Option<Held<Publication>>)
  {
    match Next(g.publications, now)
    case None => (g, None)
    case Some(id) =>
      var row := ClaimedRow(g.publications[id], now, token, s.leaseSeconds);
      (g.(publications := g.publications[id := row]), Some(Held(id, token, row.attempts, row.body)))
  }

  function CompletePublication(g: GradingTables, id: string, token: string, now: real): (GradingTables, bool) {
    if Owns(g.publications, id, token) then
      (g.(publications := g.publications[id := Freed(g.publications[id], Done, now)]), true)
    else (g, false)
  }

  function ReleasePublication(g: GradingTables, id: string, token: string, code: string, delay: real, now: real)
    : (GradingTables, Result<bool>)
  {
    if !ErrorCodeValid(code) || delay < 0.0 then (g, Failure(InvalidValue))
    else if !Owns(g.publications, id, token) then (g, Success(false))
    else
      var row := Freed(g.publications[id], Queued, now).(lastError := Some(code), nextAttemptAt := now + delay);
      (g.(publications := g.publications[id := row]), Success(true))
  }

  function ClaimNote(g: GradingTables, s: Settings, now: real, token: string): (GradingTables, Option<Held<Note>>) {
    match Next(g.notes, now)
    case None => (g, None)
    case Some(id) =>
      var row := ClaimedRow(g.notes[id], now, token, s.leaseSeconds);
      (g.(notes := g.notes[id := row]), Some(Held(id, token, row.attempts, row.body)))
  }

  function SettleNote(g: GradingTables, id: string, token: string, phase: Phase, now: real): (GradingTables, bool) {
    if IsHash(id) && IsHash(token) && Owns(g.notes, id, token) then
      (g.(notes := g.notes[id := Freed(g.notes[id], phase, now)]), true)
    else (g, false)
  }

  // ----- the vault -----

  /** A task's directory appears by one rename, so it is absent or complete. */
  type Vault = map<string, StoredSuite>

  /** `load`: the stored payload must still have the recorded digest. */
  function Load(vault: Vault, codec: Codec, task: string): Result<StoredSuite> {
    if !IsTaskId(task) then Failure(InvalidValue)
    else if task !in vault then Failure(VaultConflict)
    else if codec.suiteDigest(vault[task].payload) != vault[task].suiteHash then Failure(VaultConflict)
    else Success(vault[task])
  }

  function Freeze(vault: Vault, codec: Codec, task: string, starter: string, payload: Json.Value, model: string)
    : (Vault, Result<StoredSuite>)
  {
    var author := BoundedText(model, 100);
    if !IsTaskId(task) || !IsSha(starter) || author.None? || !Json.IsFinite(payload)
       || 1_000_000 < codec.suiteBytes(payload)
    then (vault, Failure(InvalidValue))
    else
      var suite := StoredSuite(task, starter, codec.suiteDigest(payload), author.value, payload);
      if task !in vault then (vault[task := suite], Success(suite))
      else
        match Load(vault, codec, task)
        case Failure(e) => (vault, Failure(e))
        case Success(stored) =>
          if stored.starterSha != starter || stored.suiteHash != suite.suiteHash || stored.authorModel != author.value then
            (vault, Failure(VaultConflict))
          else (vault, Success(stored))
  }
}
