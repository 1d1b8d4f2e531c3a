/** `GitHubWebhookHandler` as an object: it drives the store and Yonote step by step, and what it does to
    them is what the machine in `Webhook` does on the script of the call. */
module WebhookHandler {
  import opened Text
  import opened Mappings
  import opened BridgeStore
  import T = Tables
  import D = Deliveries
  import PR = PullRequests
  import W = Webhook
  import A = Agreement
  import G = Gateway
  import P = Pipeline

  /** Where a call fails, if one does: the API's answer, or Yonote before or after it took effect. */
  datatype Fault = NoFault | NoAnswer | BeforeWrite | AfterWrite

  function Branches(t: MappingTable): set<string> { set row | row in t && t[row].branch.Some? :: t[row].branch.value }

  /** Whether handling asks the API. */
  predicate AsksApi(c: W.Config, s: W.State, payload: W.Payload) {
    var ask := W.Request(payload);
    && c.lookup && ask.Some? && ask.value.branch in s.mapped
    && PR.Conflicts(W.RecordOf(s, ask.value.branch), ask.value.change)
  }

  /** Whether handling a pull-request event ends in an exception. */
  predicate Breaks(c: W.Config, s: W.State, w: nat, payload: W.Payload, fault: Fault) {
    if fault.NoAnswer? then AsksApi(c, s, payload) else !fault.NoFault? && W.At(W.StepWrite(c, s, w), w).Written?
  }

  /** The events of handling the delivery that handler `w` holds. */
  function Script(w: nat, now: real, delay: real, fault: Fault, broken: bool): seq<W.Event> {
    if !broken then [W.Write(w), W.Record(w), W.Complete(w, now)]
    else if fault.AfterWrite? then [W.Write(w), W.Fail(w, now, delay)]
    else [W.Fail(w, now, delay)]
  }

  lemma RunOne(c: W.Config, s: W.State, e: W.Event)
    ensures W.Run(c, s, [e]) == W.Step(c, s, e)
  {
    hide W.Step;
    A.RunsOn(c, s, [e]);
    assert [e][1..] == [];
  }

  lemma RunTwo(c: W.Config, s: W.State, e: W.Event, f: W.Event)
    ensures W.Run(c, s, [e, f]) == W.Step(c, W.Step(c, s, e), f)
  {
    hide W.Step, W.Run;
    A.RunsOn(c, s, [e, f]);
    assert [e, f][1..] == [f];
    RunOne(c, W.Step(c, s, e), f);
  }

  lemma RunThree(c: W.Config, s: W.State, e: W.Event, f: W.Event, g: W.Event)
    ensures W.Run(c, s, [e, f, g]) == W.Step(c, W.Step(c, W.Step(c, s, e), f), g)
  {
    hide W.Step, W.Run;
    A.RunsOn(c, s, [e, f, g]);
    assert [e, f, g][1..] == [f, g];
    RunTwo(c, W.Step(c, s, e), f, g);
  }

  lemma ScriptRuns(c: W.Config, s: W.State, w: nat, now: real, delay: real, fault: Fault, broken: bool)
    ensures
      var written := W.StepWrite(c, s, w);
      W.Run(c, s, Script(w, now, delay, fault, broken)) ==
        if !broken then W.StepComplete(c, W.StepRecord(written, w), w, now)
        else W.StepFail(if fault.AfterWrite? then written else s, w, now, delay)
  {
    hide W.Run, W.StepWrite, W.StepRecord, W.StepComplete, W.StepFail, W.At;
    RunThree(c, s, W.Write(w), W.Record(w), W.Complete(w, now));
    RunTwo(c, s, W.Write(w), W.Fail(w, now, delay));
    RunOne(c, s, W.Fail(w, now, delay));
  }

  /** What a push asks of grading: nothing, nothing yet since the task is not fully recorded, or a grade. */
  datatype Pushed = Nothing | NotReady | Grade(task: string, project: string, branch: string, commit: string)

  const HEADS := "refs/heads/"

  ghost function PushAsks(t: MappingTable, push: W.Payload): Pushed
    requires push.Push?
  {
    if !push.ours || push.deleted || push.ref.None? || !(HEADS <= push.ref.value) || push.after.None?
       || !IsCommit(push.after.value)
    then Nothing
    else
      var branch, commit := push.ref.value[|HEADS|..], push.after.value;
      match MappingOf(t, branch)
      case None => Nothing
      case Some(m) =>
        if m.project.None? || m.starter.None? then NotReady
        else if push.created && m.starter == Some(commit) then Nothing
        else Grade(m.taskId, m.project.value, branch, commit)
  }

  /** The push moved this head of the repository to this commit. */
  predicate Moves(push: W.Payload, branch: string, commit: string)
    requires push.Push?
  {
    push.ours && !push.deleted && push.ref == Some(HEADS + branch) && push.after == Some(commit) && IsCommit(commit)
  }

  /** A push asks for a grade exactly if it moved the head of a task's recorded branch to a commit, and did not
      just create the branch at its starter; and not yet exactly if the project or the starter is not recorded. */
  lemma PushAsksExactly(
    t: MappingTable, push: W.Payload, task: string, project: string, branch: string, commit: string)
    requires push.Push? && WellFormed(t)
    ensures PushAsks(t, push) == Grade(task, project, branch, commit) <==>
      && Moves(push, branch, commit)
      && exists row | row in t ::
           && t[row].taskId == task && t[row].branch == Some(branch) && t[row].project == Some(project)
           && t[row].starter.Some? && !(push.created && t[row].starter == Some(commit))
    ensures PushAsks(t, push) == NotReady <==>
      exists row, b, k | row in t ::
        Moves(push, b, k) && t[row].branch == Some(b) && (t[row].project.None? || t[row].starter.None?)
  {
    hide IsCommit;
    var asked := PushAsks(t, push);
    if push.ref.Some? && push.after.Some? && HEADS <= push.ref.value {
      var b := push.ref.value[|HEADS|..];
      assert push.ref.value == HEADS + b;
      forall x, k | Moves(push, x, k) ensures x == b && k == push.after.value {
        assert (HEADS + x)[|HEADS|..] == x;
      }
      forall row | row in t && t[row].branch == Some(b) ensures MappingOf(t, b) == Some(t[row]) {}
      if asked == NotReady {
        assert Moves(push, b, push.after.value);
        var row :| row in t && t[row].branch == Some(b);
        assert t[row].project.None? || t[row].starter.None?;
      }
    } else {
      assert forall x, k :: !Moves(push, x, k);
    }
  }

  /** The event is one of this repository's, its action matters, it is well-formed, and its branch is mapped. */
  predicate Asks(e: W.Payload, mapped: set<string>)
    requires e.PullRequest?
  {
    e.ours && !e.action.OtherAction? && e.number.Some? && e.time.Some? && e.branch in mapped
  }

  /** What the first event of a branch writes: a merge exactly for a merged close, a review exactly for a ready
      pull request that was opened, reopened or made ready, and progress for every other. */
  ghost predicate Follows(
    e: W.Payload, record: map<string, PR.Change>, cards: map<string, W.Card>, record': map<string, PR.Change>,
    cards': map<string, W.Card>)
    requires e.PullRequest? && e.number.Some? && e.time.Some?
  {
    && e.branch in record' && record' == record[e.branch := record'[e.branch]]
    && record'[e.branch].number == e.number.value && record'[e.branch].time == e.time.value
    && (record'[e.branch].state == PR.Merged <==> e.action.Closed? && e.merged)
    && (record'[e.branch].state == PR.Review <==>
          e.action.ReadyForReview? || ((e.action.Opened? || e.action.Reopened?) && !e.draft))
    && cards' == cards[e.branch := W.Card(record'[e.branch].number, record'[e.branch].state)]
  }

  lemma FirstApplies(current: PR.Record, change: PR.Change)
    ensures current.None? ==> PR.ShouldApply(current, change, false) && !PR.Conflicts(current, change)
  {}

  class GitHubWebhookHandler {
    const store: SQLiteStore
    const grader: G.GraderGateway?
    const config: W.Config
    var shown: map<string, W.Card>   // the pull-request fields of the cards in Yonote

    ghost predicate Valid() {
      && store.lease == config.lease && store.retention == config.retention
      && (grader != null ==> grader.Valid())
    }

    constructor (store: SQLiteStore, grader: G.GraderGateway?, config: W.Config)
      requires store.lease == config.lease && store.retention == config.retention
      requires grader != null ==> grader.Valid()
      ensures Valid() && this.store == store && this.grader == grader && this.config == config && shown == map[]
    {
      this.store, this.grader, this.config, shown := store, grader, config, map[];
    }

    /** The machine's state is the one in the databases. */
    ghost predicate Sees(s: W.State)
      reads this, store
    {
      s.q == store.deliveries && s.record == store.pulls && s.shown == shown && s.mapped == Branches(store.mappings)
    }

    /** The grading database, if there is one. */
    ghost function Grading(): set<object> { if grader == null then {} else {grader.store} }

    /** The grading pipeline's state is the one in its database. */
    ghost predicate SeesGrading(p: P.State, now: real)
      reads Grading()
    {
      grader != null ==>
        p.a == grader.store.Authoring() && p.g == grader.store.Grading() && p.clock == now && P.PushOf(p, 0) == P.PushIdle
    }

    /** What a delivery leaves in the grading tables. */
    ghost function GradingAfter(p: P.State, payload: W.Payload): T.GradingTables
      reads store`mappings
    {
      var asked := if grader != null && payload.Push? then PushAsks(store.mappings, payload) else Nothing;
      if grader == null || !asked.Grade? then p.g
      else
        var look := P.PushLook(0, asked.task, asked.project, asked.branch, asked.commit);
        P.Run(grader.config, p, [look, P.PushWrite(0)]).g
    }

    /** A push that asks for a grade has its attempt, if pushes are graded at all. */
    ghost predicate Served(payload: W.Payload)
      reads store`mappings, Grading()
    {
      grader != null && payload.Push? ==>
        match PushAsks(store.mappings, payload)
        case Nothing => true
        case NotReady => false
        case Grade(task, _, branch, commit) => exists id :: G.AttemptFor(grader.store.attempts, id, task, branch, commit)
    }

    ghost predicate Grades(p: P.State, payload: W.Payload)
      reads store`mappings, Grading()
    {
      grader != null ==> grader.store.Authoring() == p.a && grader.store.Grading() == GradingAfter(p, payload)
    }

    /** A push of a branch head is passed on to grading; without an exception there is an attempt for it. */
    method HandlePush(push: W.Payload, now: real, ghost p: P.State) returns (returned: bool)
      requires Valid() && push.Push? && WellFormed(store.mappings) && SeesGrading(p, now)
      modifies Grading()
      ensures returned ==> Served(push)
      ensures grader == null || PushAsks(store.mappings, push).Nothing? ==> returned
      ensures Grades(p, push)
    {
      hide P.Run, IsCommit, WellFormed;
      if !push.ours || push.deleted || push.ref.None? || !(HEADS <= push.ref.value) { return true; }
      var branch := push.ref.value[|HEADS|..];
      if push.after.None? || !IsCommit(push.after.value) { return true; }
      var mapping := store.FindByBranch(branch);
      if mapping.None? || grader == null { return true; }
      if mapping.value.project.None? || mapping.value.starter.None? { return false; }
      if push.created && push.after == mapping.value.starter { return true; }
      var r := grader.EnqueueCommit(now, mapping.value.taskId, mapping.value.project.value, branch, push.after.value, p);
      returned := r.Enqueues? && r.result.Success?;
    }

    /** The lifecycle section of a pull-request event; the result says whether it was left without an exception.
        `answer` is what the API answers in this call, if it is asked and answers. */
    method HandlePullRequest(payload: W.Payload, fault: Fault, answer: PR.Answer, ghost s: W.State, ghost w: nat,
        ghost id: string, ghost token: string)
      returns (returned: bool)
      requires Valid() && Sees(s) && W.At(s, w) == W.Got(id, token, payload) && W.LockFree(s)
      requires payload.PullRequest? && WellFormed(store.mappings)
      requires W.Request(payload).Some? ==> answer == s.api(W.Request(payload).value.change.number)
      modifies store`pulls, this`shown
      ensures
        var written := W.StepWrite(config, s, w);
        && returned == !Breaks(config, s, w, payload, fault)
        && store.pulls == (if returned then W.StepRecord(written, w).record else s.record)
        && shown == (if !returned && !fault.AfterWrite? then s.shown else written.shown)
      ensures fault.NoFault? && payload.branch !in s.record ==>
        if Asks(payload, Branches(store.mappings)) then Follows(payload, s.record, s.shown, store.pulls, shown)
        else store.pulls == s.record && shown == s.shown
    {
      hide PR.ShouldApply, WellFormed, W.StepWrite, W.StepRecord, W.At, W.LockFree;
      WriteIs(config, s, w, id, token, payload);
      RecordIs(W.StepWrite(config, s, w), w);
      if !payload.ours { return true; }
      var branch := payload.branch;
      var mapping := store.FindByBranch(branch);
      if mapping.None? {
        assert branch !in Branches(store.mappings);
        return true;
      }
      assert branch in Branches(store.mappings);
      var state := PR.StateOf(payload.action, payload.draft, payload.merged);
      if state.None? || payload.number.None? || payload.time.None? { return true; }
      var change := PR.Change(payload.number.value, state.value, payload.time.value);
      var current := if branch in store.pulls then Some(store.pulls[branch]) else None;
      FirstApplies(current, change);
      var resolved, allowEqual := change, false;
      if PR.Conflicts(current, change) {
        if !config.lookup { return true; }
        if fault.NoAnswer? { return false; }
        resolved, allowEqual := PR.Resolved(change.number, answer), true;
      }
      if !PR.ShouldApply(current, resolved, allowEqual) { return true; }
      if fault.BeforeWrite? { return false; }
      shown := shown[branch := W.Card(resolved.number, resolved.state)];
      if fault.AfterWrite? { return false; }
      store.RecordPullRequest(branch, resolved);
      returned := true;
    }

    /** What a claimed delivery asks for; the result says whether it was left without an exception. */
    method HandleClaimed(payload: W.Payload, now: real, fault: Fault, answer: PR.Answer, ghost s: W.State, ghost w: nat,
        ghost id: string, ghost token: string, ghost p: P.State)
      returns (returned: bool)
      requires Valid() && Sees(s) && W.At(s, w) == W.Got(id, token, payload) && W.LockFree(s)
      requires WellFormed(store.mappings) && SeesGrading(p, now)
      requires W.Request(payload).Some? ==> answer == s.api(W.Request(payload).value.change.number)
      modifies store`pulls, this`shown, Grading()
      ensures payload.PullRequest? ==> returned == !Breaks(config, s, w, payload, fault)
      ensures payload.OtherEvent? ==> returned
      ensures Grades(p, payload) && (returned ==> Served(payload))
      ensures store.pulls == (if returned then W.StepRecord(W.StepWrite(config, s, w), w).record else s.record)
      ensures shown ==
        if !returned && (payload.Push? || !fault.AfterWrite?) then s.shown else W.StepWrite(config, s, w).shown
    {
      hide W.LockFree, Branches, W.Request, Breaks, W.StepWrite, W.StepRecord, W.At, WellFormed, P.Run;
      HandledBy(config, s, w, id, token, payload);
      match payload {
        case Push(_, _, _, _, _) => returned := HandlePush(payload, now, p);
        case PullRequest(_, _, _, _, _, _, _) => returned := HandlePullRequest(payload, fault, answer, s, w, id, token);
        case OtherEvent(_, _) => returned := true;
      }
    }

    /** Handles a claimed delivery and completes or releases it. */
    method ProcessDelivery(
      now: real, delay: real, id: string, token: string, payload: W.Payload, fault: Fault, answer: PR.Answer,
      ghost s: W.State, ghost w: nat, ghost p: P.State)
      returns (completed: bool, returned: bool)
      requires Valid() && Sees(s) && W.At(s, w) == W.Got(id, token, payload) && W.LockFree(s)
      requires WellFormed(store.mappings) && SeesGrading(p, now)
      requires W.Request(payload).Some? ==> answer == s.api(W.Request(payload).value.change.number)
      modifies store`pulls, store`deliveries, this`shown, Grading()
      ensures payload.PullRequest? ==> returned == !Breaks(config, s, w, payload, fault)
      ensures payload.OtherEvent? ==> returned
      ensures Grades(p, payload) && (completed ==> returned) && (returned ==> Served(payload))
      ensures Sees(W.Run(config, s, Script(w, now, delay, if payload.Push? then NoFault else fault, !returned)))
    {
      hide W.Run, W.LockFree, D.CompleteDelivery, D.ReleaseDelivery, Branches, Script, W.Request, Breaks, W.StepWrite,
        W.StepRecord, W.At, WellFormed, SeesGrading, Served, Grades;
      returned := HandleClaimed(payload, now, fault, answer, s, w, id, token, p);
      ScriptLeaves(config, s, w, id, token, payload, now, delay, if payload.Push? then NoFault else fault, !returned);
      if returned {
        completed := store.CompleteDelivery(id, token, now);
      } else {
        var _ := store.ReleaseDelivery(id, token, delay, now);
        completed := false;
      }
    }

    /** The HTTP entry point, once the signature is verified. */
    method Handle(
      now: real, token: string, rowid: nat, id: string, payload: W.Payload, fault: Fault, answer: PR.Answer,
      ghost s: W.State, ghost w: nat, ghost p: P.State)
      returns (claim: D.Claim, returned: bool)
      requires Valid() && Sees(s) && W.At(s, w) == W.Idle && W.LockFree(s)
      requires token !in s.issued && D.TopRow(store.deliveries, rowid)
      requires WellFormed(store.mappings) && SeesGrading(p, now)
      requires W.Request(payload).Some? ==> answer == s.api(W.Request(payload).value.change.number)
      modifies store`pulls, store`deliveries, this`shown, Grading()
      ensures
        var t := W.Step(config, s, W.Receive(w, now, token, rowid, id, payload));
        && (claim == D.Claimed(token) && payload.PullRequest? ==> returned == !Breaks(config, t, w, payload, fault))
        && (claim == D.Claimed(token) ==> Grades(p, payload) && (returned ==> Served(payload)))
        && (claim != D.Claimed(token) ==> SeesGrading(p, now))
        && Sees(
          if claim != D.Claimed(token) then t
          else W.Run(config, t, Script(w, now, 0.0, if payload.Push? then NoFault else fault, !returned)))
    {
      hide W.Run, Script, D.ClaimDelivery, D.TopRow, Branches, W.LockFree, W.Request, Breaks, WellFormed, SeesGrading, Served, Grades;
      ghost var t := W.StepReceive(config, s, W.Receive(w, now, token, rowid, id, payload));
      ClaimOrNothing(store.deliveries, now, store.lease, token, rowid, id, Some(W.EventName(payload)), Some(payload));
      claim := store.ClaimDelivery(now, token, rowid, id, Some(W.EventName(payload)), Some(payload));
      returned := claim == D.Claimed(token) || claim == D.AlreadyCompleted;
      if claim == D.Claimed(token) {
        StillFree(s, t, w);
        var _, done := ProcessDelivery(now, 0.0, id, token, payload, fault, answer, t, w, p);
        returned := done;
      }
    }

    /** The poller's entry point: it works exactly when some delivery is due. */
    method RetryPendingOnce(now: real, token: string, fault: Fault, answers: int -> PR.Answer, ghost s: W.State,
        ghost w: nat, ghost p: P.State)
      returns (next: Option<string>, returned: bool)
      requires Valid() && Sees(s) && W.At(s, w) == W.Idle && W.LockFree(s) && token !in s.issued
      requires D.DistinctRows(store.deliveries) && WellFormed(store.mappings) && SeesGrading(p, now)
      requires answers == s.api
      modifies store`pulls, store`deliveries, this`shown, Grading()
      ensures next.Some? <==> exists id | id in s.q :: D.Due(s.q[id], now)
      ensures
        var t := W.Step(config, s, W.Retry(w, now, token, next));
        if next.None? then Sees(s) && SeesGrading(p, now)
        else
          && next.value in s.q && s.q[next.value].payload.Some?
          && var payload := s.q[next.value].payload.value;
          && (payload.PullRequest? ==> returned == !Breaks(config, t, w, payload, fault))
          && Grades(p, payload) && (returned ==> Served(payload))
          && Sees(W.Run(config, t, Script(w, now, 30.0, if payload.Push? then NoFault else fault, !returned)))
    {
      hide W.Run, Script, D.IsNext, Branches, W.LockFree, D.ClaimNextDelivery, D.Due, D.DistinctRows, W.Request, Breaks,
        WellFormed, SeesGrading, Served, Grades;
      next := store.ClaimNextDelivery(now, token);
      if next.None? {
        assert D.ClaimNextDelivery(s.q, now, store.lease, token, next) == s.q by { NothingDue(s.q, now, store.lease, token); }
        returned := true;
        return;
      }
      NextIsDue(s.q, now, next.value);
      ClaimKeepsPayload(s.q, now, store.lease, token, next.value);
      var payload := store.deliveries[next.value].payload.value;
      ghost var t := W.StepRetry(config, s, w, now, token, next);
      StillFree(s, t, w);
      var answer := if W.Request(payload).Some? then answers(W.Request(payload).value.change.number) else PR.Answer(PR.Review, now);
      var _, done := ProcessDelivery(now, 30.0, next.value, token, payload, fault, answer, t, w, p);
      returned := done;
    }
  }

  lemma ClaimKeepsPayload(q: D.Queue<W.Payload>, now: real, lease: real, token: string, id: string)
    requires D.IsNext(q, now, id)
    ensures
      var q' := D.ClaimNextDelivery(q, now, lease, token, Some(id));
      id in q && id in q' && q'[id].payload == q[id].payload
  {}

  lemma NothingDue(q: D.Queue<W.Payload>, now: real, lease: real, token: string)
    ensures D.ClaimNextDelivery(q, now, lease, token, None) == q
  {}

  lemma NextIsDue(q: D.Queue<W.Payload>, now: real, id: string)
    requires D.IsNext(q, now, id)
    ensures id in q && q[id].payload.Some? && D.Due(q[id], now)
  {}

  lemma ClaimOrNothing(
    q: D.Queue<W.Payload>, now: real, lease: real, token: string, rowid: nat, id: string, event: Option<string>,
    payload: Option<W.Payload>)
    ensures
      var (q', claim) := D.ClaimDelivery(q, now, lease, token, rowid, id, event, payload);
      claim == D.Claimed(token) || q' == q
  {}

  lemma StillFree(s: W.State, t: W.State, w: nat)
    requires W.LockFree(s) && W.At(t, w).Got? && t.handlers == s.handlers[w := W.At(t, w)]
    ensures W.LockFree(t)
  {}

  /** Where the change that the delivery asks for is written, if it is. */
  ghost function Writing(c: W.Config, s: W.State, payload: W.Payload): Option<PR.Change> {
    var ask := W.Request(payload);
    if ask.None? || ask.value.branch !in s.mapped then None
    else W.Decision(c, s, ask.value.branch, ask.value.change)
  }

  lemma WriteIs(c: W.Config, s: W.State, w: nat, id: string, token: string, payload: W.Payload)
    requires W.At(s, w) == W.Got(id, token, payload) && W.LockFree(s)
    ensures
      var t, write := W.StepWrite(c, s, w), Writing(c, s, payload);
      && t.q == s.q && t.mapped == s.mapped && t.record == s.record
      && (write.None? ==>
            W.At(t, w).Handled? && W.At(t, w).id == id && W.At(t, w).token == token && t.shown == s.shown)
      && (write.Some? ==>
            W.At(t, w) == W.Written(id, token, payload, write.value) && W.Request(payload).Some?
            && t.shown == s.shown[W.Request(payload).value.branch := W.CardOf(write.value)])
  {
    hide W.Decision, W.Request, W.Rivals, W.Spent, D.Holds;
  }

  lemma RecordIs(s: W.State, w: nat)
    ensures
      var h, t := W.At(s, w), W.StepRecord(s, w);
      && t.q == s.q && t.mapped == s.mapped && t.shown == s.shown
      && (!h.Written? ==> t == s)
      && (h.Written? && W.Request(h.payload).Some? ==>
            W.At(t, w) == W.Handled(h.id, h.token, h.payload, false)
            && t.record == s.record[W.Request(h.payload).value.branch := h.write])
  {
    hide W.Request;
  }

  /** What handling leaves in the databases. */
  lemma HandledBy(c: W.Config, s: W.State, w: nat, id: string, token: string, payload: W.Payload)
    requires W.At(s, w) == W.Got(id, token, payload) && W.LockFree(s)
    ensures
      var written := W.StepWrite(c, s, w);
      var recorded := W.StepRecord(written, w);
      && W.At(recorded, w).Handled? && W.At(recorded, w).id == id && W.At(recorded, w).token == token
      && written.q == s.q && recorded.q == s.q && written.mapped == s.mapped && recorded.mapped == s.mapped
      && written.record == s.record && recorded.shown == written.shown
      && W.At(written, w) != W.Idle && W.At(written, w).id == id && W.At(written, w).token == token
      && (!payload.PullRequest? ==> written.shown == s.shown && recorded.record == s.record)
  {
    hide W.StepWrite, W.StepRecord, W.Decision, W.At, W.LockFree;
    WriteIs(c, s, w, id, token, payload);
    RecordIs(W.StepWrite(c, s, w), w);
  }

  lemma ReleasedBy(s: W.State, w: nat, now: real, delay: real)
    requires W.At(s, w) != W.Idle
    ensures
      var h, t := W.At(s, w), W.StepFail(s, w, now, delay);
      && t.q == D.ReleaseDelivery(s.q, h.id, h.token, delay, now).0
      && t.record == s.record && t.shown == s.shown && t.mapped == s.mapped
  {
    hide D.ReleaseDelivery, W.Request, W.IsNews, W.Spent;
  }

  /** What the script leaves in the databases. */
  lemma ScriptLeaves(
    c: W.Config, s: W.State, w: nat, id: string, token: string, payload: W.Payload, now: real, delay: real, fault: Fault,
    broken: bool)
    requires W.At(s, w) == W.Got(id, token, payload) && W.LockFree(s)
    ensures
      var written := W.StepWrite(c, s, w);
      var t := W.Run(c, s, Script(w, now, delay, fault, broken));
      && t.mapped == s.mapped
      && t.q == (if broken then D.ReleaseDelivery(s.q, id, token, delay, now).0
                 else D.CompleteDelivery(s.q, id, token, now, c.retention).0)
      && t.record == (if broken then s.record else W.StepRecord(written, w).record)
      && t.shown == (if broken && !fault.AfterWrite? then s.shown else written.shown)
      && (!payload.PullRequest? ==> written.shown == s.shown && W.StepRecord(written, w).record == s.record)
  {
    hide W.Run, W.LockFree, D.CompleteDelivery, D.ReleaseDelivery, Script, W.Request, W.StepWrite, W.StepRecord,
      W.StepComplete, W.StepFail, W.At;
    HandledBy(c, s, w, id, token, payload);
    ScriptRuns(c, s, w, now, delay, fault, broken);
    if broken {
      var stop := if fault.AfterWrite? then W.StepWrite(c, s, w) else s;
      assert W.At(s, w) != W.Idle && W.At(s, w).id == id && W.At(s, w).token == token;
      ReleasedBy(stop, w, now, delay);
    } else {
      A.CompletingCloses(c, W.StepRecord(W.StepWrite(c, s, w), w), w, now);
    }
  }
}
