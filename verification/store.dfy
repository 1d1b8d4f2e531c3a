/** `GraderStore` and `SuiteVault` as objects: each method is one transaction that rewrites rows in
    place, and does to the tables exactly what the function of the same name in `Tables` says. */
module Store {
  import opened Text
  import opened Leases
  import opened Results
  import opened Tables
  import Json

  /** The selected row of a claim, as the worker gets to see it. */
  function HeldRow<P>(id: string, r: Row<P>): Held<P>
    requires r.token.Some?
  {
    Held(id, r.token.value, r.attempts, r.body)
  }

  class GraderStore {
    const codec: Codec
    const settings: Settings
    var jobs: Table<Job>
    var clarifications: map<string, Clarification>
    var attempts: Table<Attempt>
    var publications: Table<Publication>
    var notes: Table<Note>

    ghost function Authoring(): AuthoringTables
      reads this
    {
      AuthoringTables(jobs, clarifications)
    }

    ghost function Grading(): GradingTables
      reads this
    {
      GradingTables(attempts, publications, notes)
    }

    /** Opening the database also queues the rows that an earlier version left failed. */
    constructor (codec: Codec, settings: Settings, a: AuthoringTables, g: GradingTables, now: real)
      ensures this.codec == codec && this.settings == settings
      ensures Authoring() == a && Grading() == RequeueFailed(g, now)
    {
      this.codec, this.settings := codec, settings;
      jobs, clarifications := a.jobs, a.clarifications;
      publications, notes := g.publications, g.notes;
      attempts := map id | id in g.attempts ::
        if g.attempts[id].phase == Phase.Failed then
          g.attempts[id].(phase := Queued, attempts := 0, token := None, expiresAt := None, nextAttemptAt := now, updatedAt := now)
        else g.attempts[id];
    }

    // ----- authoring -----

    method EnqueueAuthoring(
      now: real, task: string, rowId: string, project: string, branch: string, starter: string, assignmentText: string)
      returns (r: Result<Row<Job>>)
      modifies this`jobs
      ensures (Authoring(), r) ==
        Tables.EnqueueAuthoring(old(Authoring()), codec, now, task, rowId, project, branch, starter, assignmentText)
    {
      hide IdentityValid;
      if !IdentityValid(task, rowId, project, branch, starter) { return Failure(InvalidValue); }
      var assignment := codec.assignment(assignmentText);
      if assignment.None? { return Failure(InvalidValue); }
      if task in jobs {
        if SameIdentity(jobs[task].body, rowId, project, branch, starter, assignment.value) { return Success(jobs[task]); }
        return Failure(InputChanged);
      }
      if RowTaken(jobs, rowId) { return Failure(InputChanged); }
      if BranchTaken(jobs, branch) { return Failure(IntegrityFailure); }
      var job := Job(rowId, project, branch, starter, assignment.value, None, 0, None, None, None);
      jobs := jobs[task := Row(Queued, None, None, 0, None, 0.0, now, now, job)];
      r := Success(jobs[task]);
    }

    method ClaimNextAuthoring(now: real, token: string) returns (r: Option<Held<Job>>)
      modifies this`jobs
      ensures (Authoring(), r) == ClaimAuthoring(old(Authoring()), settings, now, token)
    {
      var next := Next(jobs, now);
      if next.None? { return None; }
      var id := next.value;
      jobs := jobs[id := jobs[id].(phase := Leased, token := Some(token), expiresAt := Some(now + settings.leaseSeconds),
                                   attempts := jobs[id].attempts + 1, lastError := None, nextAttemptAt := 0.0, updatedAt := now)];
      r := Some(HeldRow(id, jobs[id]));
    }

    method ReleaseAuthoring(task: string, token: string, now: real) returns (released: bool)
      modifies this`jobs
      ensures (Authoring(), released) == Tables.ReleaseAuthoring(old(Authoring()), task, token, now)
    {
      released := Owns(jobs, task, token);
      if released {
        jobs := jobs[task := jobs[task].(phase := Queued, token := None, expiresAt := None, updatedAt := now)];
      }
    }

    method RequeueAfterCritic(task: string, token: string, feedbackText: string, delay: real,
        now: real) returns (r: Result<()>)
      modifies this`jobs
      ensures (Authoring(), r) ==
        Tables.RequeueAfterCritic(old(Authoring()), codec, task, token, feedbackText, delay, now)
    {
      if delay < 0.0 { return Failure(InvalidValue); }
      var feedback := codec.feedback(feedbackText);
      if feedback.None? { return Failure(InvalidValue); }
      if !Owns(jobs, task, token) { return Failure(LeaseNotOwned); }
      var job := jobs[task].body.(feedback := feedback);
      jobs := jobs[task := jobs[task].(phase := Queued, token := None, expiresAt := None, nextAttemptAt := now + delay,
                                       updatedAt := now, body := job)];
      r := Success(());
    }

    method MarkAuthoringFailed(task: string, token: string, code: string, now: real) returns (r: Result<bool>)
      modifies this`jobs
      ensures (Authoring(), r) == Tables.MarkAuthoringFailed(old(Authoring()), task, token, code, now)
    {
      if !ErrorCodeValid(code) { return Failure(InvalidValue); }
      if !Owns(jobs, task, token) { return Success(false); }
      jobs := jobs[task := jobs[task].(phase := Phase.Failed, lastError := Some(code), token := None, expiresAt := None,
                                       updatedAt := now)];
      r := Success(true);
    }

    /** `vault` is only written to under the row's current token. */
    method FinalizeAuthoring(
      task: string, token: string, now: real, vault: SuiteVault, starter: string, payload: Json.Value, model: string)
      returns (r: Result<StoredSuite>)
      requires vault.codec == codec
      modifies this`jobs, vault
      ensures
        var (frozen, promoted) := Tables.Freeze(old(vault.entries), codec, task, starter, payload, model);
        && (Authoring(), r) == Tables.FinalizeAuthoring(old(Authoring()), task, token, promoted, now)
        && vault.entries == if Owns(old(jobs), task, token) then frozen else old(vault.entries)
    {
      hide IsHash, Tables.Freeze;
      if !Owns(jobs, task, token) { return Failure(LeaseNotOwned); }
      r := vault.Freeze(task, starter, payload, model);
      if r.Failure? { return; }
      var stored := r.value;
      if stored.taskId != task || stored.starterSha != jobs[task].body.starterSha || !IsHash(stored.suiteHash) {
        return Failure(IdentityMismatch);
      }
      var job := jobs[task].body.(suiteHash := Some(stored.suiteHash));
      jobs := jobs[task := jobs[task].(phase := Done, token := None, expiresAt := None, updatedAt := now, body := job)];
    }

    method RequestClarification(task: string, token: string, question: string, nonce: string, now: real)
      returns (r: Result<Clarification>)
      modifies this`jobs, this`clarifications
      ensures (Authoring(), r) == Tables.RequestClarification(old(Authoring()), task, token, question, nonce, now)
    {
      hide BoundedText;
      var text := BoundedText(question, 500);
      if text.None? { return Failure(InvalidValue); }
      if !Owns(jobs, task, token) { return Failure(LeaseNotOwned); }
      var revision := jobs[task].body.revision + 1;
      if nonce in clarifications || RevisionTaken(clarifications, task, revision) { return Failure(IntegrityFailure); }
      clarifications := clarifications[nonce := Clarification(task, revision, text.value, None, now)];
      var job := jobs[task].body.(revision := revision, question := text, answer := None);
      jobs := jobs[task := jobs[task].(phase := Waiting, token := None, expiresAt := None, updatedAt := now, body := job)];
      r := Success(clarifications[nonce]);
    }

    method AnswerClarification(nonce: string, revision: int, answer: string, now: real) returns (r: Result<bool>)
      modifies this`jobs, this`clarifications
      ensures (Authoring(), r) == Tables.AnswerClarification(old(Authoring()), nonce, revision, answer, now)
    {
      hide BoundedText;
      var text := BoundedText(answer, 1_000);
      if text.None? { return Failure(InvalidValue); }
      if nonce !in clarifications || clarifications[nonce].revision != revision { return Success(false); }
      var asked := clarifications[nonce];
      if asked.answer.Some? { return Success(asked.answer == text); }
      clarifications := clarifications[nonce := asked.(answer := text)];
      var task := asked.taskId;
      if task in jobs && jobs[task].phase == Waiting && jobs[task].body.revision == revision {
        var job := jobs[task].body.(answer := text);
        jobs := jobs[task := jobs[task].(phase := Queued, updatedAt := now, body := job)];
      }
      r := Success(true);
    }

    // ----- grading -----

    method EnqueueGrading(now: real, task: string, project: string, branch: string, commit: string, suiteHash: string)
      returns (r: Result<string>)
      modifies this`attempts
      ensures (Grading(), r) == Tables.EnqueueGrading(old(Grading()), codec, now, task, project, branch, commit, suiteHash)
    {
      hide IsTaskId, IsKey, IsBranch, IsSha, IsHash;
      if !IsTaskId(task) || !IsKey(project) || 64 < |project| || !IsBranch(branch) || 200 < |branch| || !IsSha(commit)
         || !IsHash(suiteHash)
      {
        return Failure(InvalidValue);
      }
      var id := codec.attemptDigest(AttemptIdentity(task, commit, suiteHash));
      var body := Attempt(task, project, branch, commit, suiteHash, None);
      if id in attempts && attempts[id].body.(grade := None) == body { return Success(id); }
      if CommitTaken(attempts, task, commit) { return Failure(InputChanged); }
      if id in attempts { return Failure(IntegrityFailure); }
      attempts := attempts[id := Row(Queued, None, None, 0, None, 0.0, now, now, body)];
      r := Success(id);
    }

    method ClaimNextGrading(now: real, token: string) returns (r: Option<Held<Attempt>>)
      modifies this`attempts
      ensures (Grading(), r) == ClaimGrading(old(Grading()), settings, now, token)
    {
      var next := Next(attempts, now);
      if next.None? { return None; }
      var id := next.value;
      attempts := attempts[id := attempts[id].(
        phase := Leased, token := Some(token), expiresAt := Some(now + settings.leaseSeconds),
        attempts := attempts[id].attempts + 1, lastError := None, nextAttemptAt := 0.0, updatedAt := now)];
      r := Some(HeldRow(id, attempts[id]));
    }

    method CompleteGrading(id: string, token: Option<string>, grade: Grade, now: real) returns (r: Result<bool>)
      modifies this`attempts, this`publications, this`notes
      ensures (Grading(), r) == Tables.CompleteGrading(old(Grading()), id, token, grade, now)
    {
      hide IsHash, CountsValid, ReportValid;
      if !IsHash(id) || !CountsValid(grade.passed, grade.passedCount, grade.totalCount) || !ReportValid(grade.report) {
        return Failure(InvalidValue);
      }
      if token.None? || !Owns(attempts, id, token.value) { return Success(false); }
      var attempt := attempts[id].body.(grade := Some(grade));
      attempts := attempts[id := attempts[id].(phase := Done, token := None, expiresAt := None, updatedAt := now, body := attempt)];
      if id !in publications {
        publications := publications[id := NewRow(Publication(attempt.commit, grade.passed), now)];
      }
      if id !in notes {
        notes := notes[id := NewRow(Note(attempt.taskId, attempt.commit, grade.report), now)];
      }
      r := Success(true);
    }

    method ReleaseGrading(id: string, token: string, code: string, now: real) returns (r: Result<bool>)
      modifies this`attempts
      ensures (Grading(), r) == Tables.ReleaseGrading(old(Grading()), settings, id, token, code, now)
    {
      hide ErrorCodeValid, Doubled;
      if !ErrorCodeValid(code) { return Failure(InvalidValue); }
      if !Owns(attempts, id, token) { return Success(false); }
      var freed := attempts[id].(phase := Queued, lastError := Some(code), token := None, expiresAt := None, updatedAt := now);
      if settings.maxGradingAttempts <= freed.attempts {
        attempts := attempts[id := freed.(attempts := 0, nextAttemptAt := now + 3600.0)];
        return Success(true);
      }
      var delay := MinReal(Doubled(settings.retryBase, if freed.attempts == 0 then 0 else freed.attempts - 1), 3600.0);
      attempts := attempts[id := freed.(nextAttemptAt := now + delay)];
      r := Success(true);
    }

    // ----- outbox -----

    method ClaimNextPublication(now: real, token: string) returns (r: Option<Held<Publication>>)
      modifies this`publications
      ensures (Grading(), r) == ClaimPublication(old(Grading()), settings, now, token)
    {
      var next := Next(publications, now);
      if next.None? { return None; }
      var id := next.value;
      publications := publications[id := publications[id].(
        phase := Leased, token := Some(token), expiresAt := Some(now + settings.leaseSeconds),
        attempts := publications[id].attempts + 1, lastError := None, nextAttemptAt := 0.0, updatedAt := now)];
      r := Some(HeldRow(id, publications[id]));
    }

    method CompletePublication(id: string, token: string, now: real) returns (completed: bool)
      modifies this`publications
      ensures (Grading(), completed) == Tables.CompletePublication(old(Grading()), id, token, now)
    {
      completed := Owns(publications, id, token);
      if completed {
        publications := publications[id := publications[id].(phase := Done, token := None, expiresAt := None, updatedAt := now)];
      }
    }

    method ReleasePublication(id: string, token: string, code: string, delay: real, now: real) returns (r: Result<bool>)
      modifies this`publications
      ensures (Grading(), r) == Tables.ReleasePublication(old(Grading()), id, token, code, delay, now)
    {
      hide ErrorCodeValid;
      if !ErrorCodeValid(code) || delay < 0.0 { return Failure(InvalidValue); }
      if !Owns(publications, id, token) { return Success(false); }
      publications := publications[id := publications[id].(
        phase := Queued, lastError := Some(code), token := None, expiresAt := None, nextAttemptAt := now + delay, updatedAt := now)];
      r := Success(true);
    }

    method ClaimNextNote(now: real, token: string) returns (r: Option<Held<Note>>)
      modifies this`notes
      ensures (Grading(), r) == ClaimNote(old(Grading()), settings, now, token)
    {
      var next := Next(notes, now);
      if next.None? { return None; }
      var id := next.value;
      notes := notes[id := notes[id].(
        phase := Leased, token := Some(token), expiresAt := Some(now + settings.leaseSeconds),
        attempts := notes[id].attempts + 1, lastError := None, nextAttemptAt := 0.0, updatedAt := now)];
      r := Some(HeldRow(id, notes[id]));
    }

    method MarkNoteSent(id: string, token: string, now: real) returns (sent: bool)
      modifies this`notes
      ensures (Grading(), sent) == SettleNote(old(Grading()), id, token, Done, now)
    {
      hide IsHash;
      sent := IsHash(id) && IsHash(token) && Owns(notes, id, token);
      if sent {
        notes := notes[id := notes[id].(phase := Done, token := None, expiresAt := None, updatedAt := now)];
      }
    }

    method ReleaseNote(id: string, token: string, now: real) returns (released: bool)
      modifies this`notes
      ensures (Grading(), released) == SettleNote(old(Grading()), id, token, Queued, now)
    {
      hide IsHash;
      released := IsHash(id) && IsHash(token) && Owns(notes, id, token);
      if released {
        notes := notes[id := notes[id].(phase := Queued, token := None, expiresAt := None, updatedAt := now)];
      }
    }
  }

  /** Write-once storage: a suite is staged aside and published by one rename. */
  class SuiteVault {
    const codec: Codec
    var entries: Vault

    constructor (codec: Codec)
      ensures this.codec == codec && entries == map[]
    {
      this.codec := codec;
      entries := map[];
    }

    method Load(task: string) returns (r: Result<StoredSuite>)
      ensures r == Tables.Load(entries, codec, task)
    {
      if !IsTaskId(task) { return Failure(InvalidValue); }
      if task !in entries { return Failure(VaultConflict); }
      var stored := entries[task];
      if codec.suiteDigest(stored.payload) != stored.suiteHash { return Failure(VaultConflict); }
      r := Success(stored);
    }

    method Freeze(task: string, starter: string, payload: Json.Value, model: string) returns (r: Result<StoredSuite>)
      modifies this
      ensures (entries, r) == Tables.Freeze(old(entries), codec, task, starter, payload, model)
    {
      hide IsTaskId, IsSha, BoundedText, Json.IsFinite;
      if !IsTaskId(task) || !IsSha(starter) { return Failure(InvalidValue); }
      var author := BoundedText(model, 100);
      if author.None? || !Json.IsFinite(payload) || 1_000_000 < codec.suiteBytes(payload) { return Failure(InvalidValue); }
      var digest := codec.suiteDigest(payload);
      if task in entries {
        r := Load(task);
        if r.Success?
           && (r.value.starterSha != starter || r.value.suiteHash != digest || r.value.authorModel != author.value)
        {
          r := Failure(VaultConflict);
        }
        return;
      }
      var staged := StoredSuite(task, starter, digest, author.value, payload);
      entries := entries[task := staged];
      r := Success(staged);
    }
  }
}
