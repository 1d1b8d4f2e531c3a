/** `SQLiteGraderGateway`: the two calls through which the bridge reaches the grading tables. */
module Gateway {
  import opened Text
  import opened Leases
  import opened Tables
  import opened Pipeline
  import opened Store
  import C = Coordinators

  /** `SuiteNotReadyError`, a push that does not match the job, or the result of enqueueing. */
  datatype Enqueued = SuiteNotReady | WrongBranch | Enqueues(result: Result<string>)

  lemma PushScriptRuns(c: Config, s: State, task: string, project: string, branch: string, commit: string)
    ensures
      var look := PushLook(0, task, project, branch, commit);
      Run(c, s, [look, PushWrite(0)]) == StepPushWrite(c, StepPushLook(s, look), 0)
  {
    hide Run, StepPushLook, StepPushWrite;
    C.RunPair(c, s, PushLook(0, task, project, branch, commit), PushWrite(0));
  }

  predicate AttemptFor(attempts: Table<Attempt>, id: string, task: string, branch: string, commit: string) {
    id in attempts && attempts[id].body.taskId == task && attempts[id].body.branch == branch
    && attempts[id].body.commit == commit
  }

  lemma EnqueuedAttempt(g: GradingTables, codec: Codec, now: real, task: string, project: string, branch: string,
      commit: string, suiteHash: string)
    ensures
      var (g', r) := Tables.EnqueueGrading(g, codec, now, task, project, branch, commit, suiteHash);
      r.Success? ==> AttemptFor(g'.attempts, r.value, task, branch, commit)
  {
    hide IsTaskId, IsKey, IsBranch, IsSha, IsHash;
  }

  class GraderGateway {
    const store: GraderStore
    const config: Config

    ghost predicate Valid() { store.codec == config.codec && store.settings == config.settings }

    constructor (store: GraderStore, config: Config)
      requires store.codec == config.codec && store.settings == config.settings
      ensures Valid() && this.store == store && this.config == config
    {
      this.store, this.config := store, config;
    }

    /** Enqueues the suite of a task. It succeeds only if the task's job has exactly these inputs. */
    method Ensure(
      now: real, task: string, rowId: string, project: string, branch: string, starter: string, assignment: string,
      ghost s: State)
      returns (r: Result<Phase>)
      requires Valid() && s.a == store.Authoring() && s.clock == now
      modifies store`jobs
      ensures store.Authoring() == Run(config, s, [EnsureSuite(task, rowId, project, branch, starter, assignment)]).a
      ensures
        var e := EnqueueAuthoring(old(store.Authoring()), config.codec, now, task, rowId, project, branch, starter, assignment).1;
        r == if e.Success? then Success(e.value.phase) else Failure(e.error)
      ensures r.Success? ==>
        && task in store.jobs && store.jobs[task].phase == r.value
        && store.jobs[task].body.starterSha == starter && store.jobs[task].body.branch == branch
        && store.jobs[task].body.project == project && store.jobs[task].body.rowId == rowId
        && Some(store.jobs[task].body.assignment) == config.codec.assignment(assignment)
      ensures r.Failure? ==> store.jobs == old(store.jobs)
    {
      hide IdentityValid, RowTaken, BranchTaken, Run;
      C.RunOne(config, s, EnsureSuite(task, rowId, project, branch, starter, assignment));
      var job := store.EnqueueAuthoring(now, task, rowId, project, branch, starter, assignment);
      r := if job.Success? then Success(job.value.phase) else Failure(job.error);
    }

    /** A commit is graded only under the job it was pushed for, and only once its suite is frozen. */
    method EnqueueCommit(now: real, task: string, project: string, branch: string, commit: string, ghost s: State)
      returns (r: Enqueued)
      requires Valid() && s.a == store.Authoring() && s.g == store.Grading() && s.clock == now && PushOf(s, 0) == PushIdle
      modifies store`attempts
      ensures store.Grading() == Run(config, s, [PushLook(0, task, project, branch, commit), PushWrite(0)]).g
      ensures r.Enqueues? <==>
        && task in store.jobs && store.jobs[task].body.project == project && store.jobs[task].body.branch == branch
        && store.jobs[task].phase == Done && store.jobs[task].body.suiteHash.Some?
      ensures r.Enqueues? && r.result.Success? ==> AttemptFor(store.attempts, r.result.value, task, branch, commit)
    {
      hide Run, Tables.EnqueueGrading;
      PushScriptRuns(config, s, task, project, branch, commit);
      if task !in store.jobs { return SuiteNotReady; }
      var job := store.jobs[task];
      if job.body.project != project || job.body.branch != branch { return WrongBranch; }
      if job.phase != Done || job.body.suiteHash.None? { return SuiteNotReady; }
      EnqueuedAttempt(store.Grading(), store.codec, now, task, project, branch, commit, job.body.suiteHash.value);
      var attempt := store.EnqueueGrading(now, task, project, branch, commit, job.body.suiteHash.value);
      r := Enqueues(attempt);
    }
  }
}
