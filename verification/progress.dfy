/** What the holder of a row achieves in any reachable state: an accepted suite makes the job ready, a question
    makes it wait, and a grade is stored, in each case exactly under a condition on the inputs. */
module Progress {
  import opened Text
  import opened Leases
  import opened Results
  import opened Tables
  import opened Contracts
  import opened Pipeline
  import opened PipelineInvariant
  import opened PipelineTheorems
  import Json

  // ----- an accepted suite -----

  /** The vault takes the suite: the author's name and the size fit, and the task has no other suite. */
  predicate VaultTakes(c: Config, vault: Vault, task: string, suite: SuiteDraft) {
    var payload := ToPayload(suite);
    && BoundedText(c.authorModel, 100).Some? && c.codec.suiteBytes(payload) <= 1_000_000
    && (task in vault ==>
          vault[task].suiteHash == c.codec.suiteDigest(payload) && vault[task].authorModel == Strip(c.authorModel))
  }

  /** The job is ready with the hash of this suite, which is in the vault; no other job and no other entry changed. */
  predicate BecameReady(c: Config, s: State, s': State, task: string, suite: SuiteDraft) {
    && task in s'.a.jobs && task in s'.vault && task in s.a.jobs
    && s'.a.jobs[task].phase == Done && s'.a.jobs[task].body.suiteHash == Some(c.codec.suiteDigest(ToPayload(suite)))
    && s'.vault[task].suiteHash == c.codec.suiteDigest(ToPayload(suite))
    && (task !in s.vault ==> s'.vault[task].payload == ToPayload(suite))
    && s'.a.jobs == s.a.jobs[task := s'.a.jobs[task]] && s'.vault == s.vault[task := s'.vault[task]]
    && s'.a.clarifications == s.a.clarifications
  }

  lemma AcceptedParts(c: Config, s: State, w: nat)
    requires Inv(c, s) && AuthorOf(s, w).Accepted?
    ensures
      var held, suite := AuthorOf(s, w).held, AuthorOf(s, w).evidence.suite;
      && held.id in s.a.jobs && IsTaskId(held.id) && IsSha(held.body.starterSha)
      && held.body.starterSha == s.a.jobs[held.id].body.starterSha
      && Json.IsFinite(ToPayload(suite))
      && (held.id in s.vault ==>
            && s.vault[held.id].starterSha == held.body.starterSha && s.vault[held.id].taskId == held.id
            && s.vault[held.id].suiteHash == c.codec.suiteDigest(s.vault[held.id].payload))
  {
    hide LeasesOk, AttemptsOk, OutboxOk, ClarificationsOk, GradersOk, CouriersOk, PushesOk, IsTaskId, IsSha, IsKey, IsBranch,
         Parse, ToPayload, DetectsDefect;
    var held, evidence := AuthorOf(s, w).held, AuthorOf(s, w).evidence;
    assert AuthorOk(c, s.a.jobs, s.past.issued, s.workers.authors[w]);
    PayloadIsSerialisable(evidence.output, c.codec.valueBytes, evidence.suite);
    if held.id in s.vault {
      assert EntryOk(c, held.id, s.a.jobs[held.id].body.starterSha, s.vault[held.id], s.past.origin[held.id]);
    }
  }

  lemma TakenExactly(c: Config, vault: Vault, task: string, starter: string, suite: SuiteDraft)
    requires IsTaskId(task) && IsSha(starter) && Json.IsFinite(ToPayload(suite))
    requires task in vault ==>
      && vault[task].starterSha == starter && vault[task].taskId == task
      && vault[task].suiteHash == c.codec.suiteDigest(vault[task].payload)
    ensures
      var (vault', promoted) := Freeze(vault, c.codec, task, starter, ToPayload(suite), c.authorModel);
      && (promoted.Success? <==> VaultTakes(c, vault, task, suite))
      && (promoted.Failure? ==> vault' == vault)
      && (promoted.Success? ==>
            && promoted.value.taskId == task && promoted.value.starterSha == starter
            && promoted.value.suiteHash == c.codec.suiteDigest(ToPayload(suite)) && IsHash(promoted.value.suiteHash)
            && vault' == vault[task := promoted.value]
            && (task !in vault ==> promoted.value.payload == ToPayload(suite)))
  {
    hide IsTaskId, IsSha, IsHash, ToPayload, Strip;
    if task in vault { assert vault[task := vault[task]] == vault; }
  }

  lemma FinalizedExactly(c: Config, s: State, w: nat, nonce: string)
    requires AuthorOf(s, w).Accepted?
    requires Owns(s.a.jobs, AuthorOf(s, w).held.id, AuthorOf(s, w).held.token)
    requires
      var held, suite := AuthorOf(s, w).held, AuthorOf(s, w).evidence.suite;
      && IsTaskId(held.id) && IsSha(held.body.starterSha) && Json.IsFinite(ToPayload(suite))
      && held.body.starterSha == s.a.jobs[held.id].body.starterSha
      && (held.id in s.vault ==>
            && s.vault[held.id].starterSha == held.body.starterSha && s.vault[held.id].taskId == held.id
            && s.vault[held.id].suiteHash == c.codec.suiteDigest(s.vault[held.id].payload))
    ensures
      var held, suite := AuthorOf(s, w).held, AuthorOf(s, w).evidence.suite;
      var s' := StepAuthorFinalize(c, s, w, held, AuthorOf(s, w).evidence, NoFault);
      if VaultTakes(c, s.vault, held.id, suite) then BecameReady(c, s, s', held.id, suite) && AuthorOf(s', w) == AuthorIdle
      else s'.a == s.a && s'.vault == s.vault && AuthorOf(s', w) == Raised(held)
  {
    hide IsTaskId, IsSha, IsHash, ToPayload, Freeze, VaultTakes;
    var held, suite := AuthorOf(s, w).held, AuthorOf(s, w).evidence.suite;
    TakenExactly(c, s.vault, held.id, held.body.starterSha, suite);
    var frozen := Freeze(s.vault, c.codec, held.id, held.body.starterSha, ToPayload(suite), c.authorModel);
    if !VaultTakes(c, s.vault, held.id, suite) { assert frozen.1.Failure? && frozen.0 == s.vault; }
  }

  /** In every reachable state, the author that owns a job and had its suite accepted makes the job ready with this
      suite exactly if the vault takes it; otherwise nothing changes and the pass fails. */
  lemma AcceptedBecomesReady(c: Config, events: seq<Event>, w: nat, nonce: string)
    ensures
      var s := Run(c, EMPTY, events);
      var author := AuthorOf(s, w);
      author.Accepted? && Owns(s.a.jobs, author.held.id, author.held.token) ==>
        var s' := Step(c, s, AuthorSettle(w, nonce, NoFault));
        if VaultTakes(c, s.vault, author.held.id, author.evidence.suite) then
          BecameReady(c, s, s', author.held.id, author.evidence.suite) && AuthorOf(s', w) == AuthorIdle
        else s'.a == s.a && s'.vault == s.vault && AuthorOf(s', w) == Raised(author.held)
  {
    hide Run, Inv, Owns, IsTaskId, IsSha, ToPayload, VaultTakes, BecameReady, StepAuthorFinalize, Evolves;
    EmptyInv(c);
    RunKeeps(c, EMPTY, events);
    var s := Run(c, EMPTY, events);
    if AuthorOf(s, w).Accepted? && Owns(s.a.jobs, AuthorOf(s, w).held.id, AuthorOf(s, w).held.token) {
      AcceptedParts(c, s, w);
      FinalizedExactly(c, s, w, nonce);
    }
  }

  // ----- a question -----

  /** The question is stored under the next revision, and the job waits for its answer. */
  predicate BecameWaiting(a: AuthoringTables, a': AuthoringTables, task: string, nonce: string, question: string,
      now: real) {
    && task in a.jobs && task in a'.jobs
    && var revision := a.jobs[task].body.revision + 1;
    && a'.clarifications == a.clarifications[nonce := Clarification(task, revision, question, None, now)]
    && a'.jobs[task].phase == Waiting && a'.jobs[task].token.None?
    && a'.jobs[task].body == a.jobs[task].body.(revision := revision, question := Some(question), answer := None)
    && a'.jobs == a.jobs[task := a'.jobs[task]]
  }

  lemma AskedExactly(a: AuthoringTables, task: string, token: string, question: string, nonce: string, now: real)
    requires Owns(a.jobs, task, token) && RevisionsOk(a.jobs, a.clarifications) && nonce !in a.clarifications
    ensures
      var (a', r) := RequestClarification(a, task, token, question, nonce, now);
      && (r.Success? <==> BoundedText(question, 500).Some?)
      && (if r.Success? then BecameWaiting(a, a', task, nonce, Strip(question), now) else a' == a)
  {
    hide Strip;
  }

  lemma InvAsks(c: Config, s: State)
    requires Inv(c, s)
    ensures RevisionsOk(s.a.jobs, s.a.clarifications)
    ensures forall n | n in s.a.clarifications :: n in s.past.issued
  {
    hide JobsOk, VaultOk, AttemptsOk, OutboxOk, AuthorsOk, GradersOk, CouriersOk, PushesOk, RevisionsOk, AnswersOk, WellLeased;
  }

  /** In every reachable state, the author that owns a job and has a question makes the job wait with the question
      exactly if its text can be stored; otherwise nothing changes and the pass fails. (The nonce is new.) */
  lemma QuestionIsAsked(c: Config, events: seq<Event>, w: nat, nonce: string, fault: Fault)
    ensures
      var s := Run(c, EMPTY, events);
      var author := AuthorOf(s, w);
      author.Asking? && Owns(s.a.jobs, author.held.id, author.held.token) && nonce !in s.past.issued ==>
        var s' := Step(c, s, AuthorSettle(w, nonce, fault));
        if BoundedText(author.ask, 500).Some? then
          BecameWaiting(s.a, s'.a, author.held.id, nonce, Strip(author.ask), s.clock) && AuthorOf(s', w) == AuthorIdle
        else s'.a == s.a && AuthorOf(s', w) == Raised(author.held)
  {
    hide Run, Inv, Owns, BecameWaiting, RequestClarification, Evolves, Strip, RevisionsOk;
    EmptyInv(c);
    RunKeeps(c, EMPTY, events);
    var s := Run(c, EMPTY, events);
    InvAsks(c, s);
    var author := AuthorOf(s, w);
    if author.Asking? && Owns(s.a.jobs, author.held.id, author.held.token) && nonce !in s.past.issued {
      AskedExactly(s.a, author.held.id, author.held.token, author.ask, nonce, s.clock);
    }
  }

  // ----- an answer -----

  /** The call fails exactly on a text that cannot be stored, and otherwise says truly whether this text is now the
      answer of this question under this revision. */
  lemma AnswerTellsTruly(a: AuthoringTables, nonce: string, revision: int, text: string, now: real)
    ensures
      var (a', r) := AnswerClarification(a, nonce, revision, text, now);
      && (r.Failure? <==> BoundedText(text, 1_000).None?)
      && (r.Success? ==>
            (r.value <==> nonce in a'.clarifications && a'.clarifications[nonce].revision == revision
                          && a'.clarifications[nonce].answer == Some(Strip(text))))
  {
    hide Strip;
  }

  // ----- a grade -----

  /** The attempt is completed with this grade, and both outbox rows wait with its content. */
  predicate BecameGraded(g: GradingTables, g': GradingTables, id: string, grade: Grade) {
    && id in g.attempts && id in g'.attempts && id in g'.publications && id in g'.notes
    && g'.attempts[id].phase == Done && g'.attempts[id].body == g.attempts[id].body.(grade := Some(grade))
    && g'.attempts == g.attempts[id := g'.attempts[id]]
    && g'.publications[id].phase == Queued && g'.publications[id].nextAttemptAt == 0.0
    && g'.publications[id].body == Publication(g.attempts[id].body.commit, grade.passed)
    && g'.publications == g.publications[id := g'.publications[id]]
    && g'.notes[id].phase == Queued && g'.notes[id].nextAttemptAt == 0.0
    && g'.notes[id].body == Note(g.attempts[id].body.taskId, g.attempts[id].body.commit, grade.report)
    && g'.notes == g.notes[id := g'.notes[id]]
  }

  lemma CompletedExactly(g: GradingTables, id: string, token: string, grade: Grade, now: real)
    requires IsHash(id) && Owns(g.attempts, id, token) && id !in g.publications && id !in g.notes
    requires CountsValid(grade.passed, grade.passedCount, grade.totalCount) && ReportValid(grade.report)
    ensures
      var (g', r) := CompleteGrading(g, id, Some(token), grade, now);
      r == Success(true) && BecameGraded(g, g', id, grade)
  {
    hide IsHash, CountsValid, ReportValid;
  }

  /** A computed grade always passes the store's own checks. */
  lemma GradedParts(c: Config, s: State, w: nat)
    requires Inv(c, s) && GraderOf(s, w).Graded? && Owns(s.g.attempts, GraderOf(s, w).held.id, GraderOf(s, w).held.token)
    ensures
      var id, grade := GraderOf(s, w).held.id, GraderOf(s, w).grade;
      && IsHash(id) && id !in s.g.publications && id !in s.g.notes
      && CountsValid(grade.passed, grade.passedCount, grade.totalCount) && ReportValid(grade.report)
  {
    hide ClarificationsOk, AuthorsOk, CouriersOk, PushesOk, IsTaskId, IsSha, IsKey, IsBranch, Parse, ToPayload, DetectsDefect,
         ReportValid, CountsValid, Summarize, Matches, IdentityValid, WellLeased;
    var held, grade := GraderOf(s, w).held, GraderOf(s, w).grade;
    assert GraderOk(s.g.attempts, s.past.origin, s.past.issued, s.workers.graders[w]);
    assert AttemptOk(c, s.a.jobs, s.past.origin, held.id, s.g.attempts[held.id]);
    var task := held.body.taskId;
    var o := s.past.origin[task];
    assert EntryOk(c, task, s.a.jobs[task].body.starterSha, s.vault[task], o);
    var r: SuiteResult :| Summarize(o.suite, r) == Some(grade.report) && grade == GradeOf(grade.report);
    ParsedReadySuite(o.output, c.codec.valueBytes, o.suite);
    SummaryIsValid(o.suite, r);
  }

  lemma SummaryIsValid(suite: SuiteDraft, r: SuiteResult)
    requires ReadySuite(suite) && Summarize(suite, r).Some?
    ensures
      var report := Summarize(suite, r).value;
      ReportValid(report) && CountsValid(report.passed == report.total, report.passed, report.total)
  {
    hide Summarize, ReportValid, CountsValid, Matches, ListsFailures;
    SummaryFaithful(suite, r);
  }

  /** In every reachable state, a grader that owns its attempt and has computed a grade stores it, with both outbox
      rows: the store's own checks never refuse it. */
  lemma GradeIsStored(c: Config, events: seq<Event>, w: nat)
    ensures
      var s := Run(c, EMPTY, events);
      var grader := GraderOf(s, w);
      grader.Graded? && Owns(s.g.attempts, grader.held.id, grader.held.token) ==>
        var s' := Step(c, s, GraderComplete(w));
        BecameGraded(s.g, s'.g, grader.held.id, grader.grade) && GraderOf(s', w) == GraderIdle
  {
    hide Run, Inv, Owns, BecameGraded, CompleteGrading, Evolves, IsHash, CountsValid, ReportValid;
    EmptyInv(c);
    RunKeeps(c, EMPTY, events);
    var s := Run(c, EMPTY, events);
    var grader := GraderOf(s, w);
    if grader.Graded? && Owns(s.g.attempts, grader.held.id, grader.held.token) {
      GradedParts(c, s, w);
      CompletedExactly(s.g, grader.held.id, grader.held.token, grader.grade, s.clock);
    }
  }

  // ----- the start-up migration -----

  /** After it no attempt is failed: those that were wait to be graded at once, with fresh attempts and their content,
      and no other row changed. */
  lemma MigrationRequeuesFailed(g: GradingTables, now: real, id: string)
    ensures
      var g' := RequeueFailed(g, now);
      && g'.attempts.Keys == g.attempts.Keys && g'.publications == g.publications && g'.notes == g.notes
      && (id in g.attempts ==>
            if g.attempts[id].phase == Phase.Failed then
              && Leases.Eligible(g'.attempts[id], now) && g'.attempts[id].phase == Queued && g'.attempts[id].attempts == 0
              && g'.attempts[id].token.None? && g'.attempts[id].body == g.attempts[id].body
            else g'.attempts[id] == g.attempts[id])
  {}
}
