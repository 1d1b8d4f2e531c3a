/** One card from the look to the end: what a reconcile does with it when nothing fails on the way, and
    what it leaves alone. */
module ReconcileCards {
  import opened Text
  import opened Leases
  import opened Tables
  import opened Naming
  import opened Mappings
  import R = Reconcile
  import P = Pipeline

  /** A bound on the steps that a card still takes. */
  function Rank(p: R.Place): nat {
    match p
    case Off => 0
    case Posting(_, _) => 1
    case Checking(_, _) => 1
    case Linked(_, _) => 2
    case Adopting(_, _) => 2
    case Pushed(_, _) => 3
    case Pinned(_, _) => 4
    case Prepared(_, _, _) => 5
    case Intended(_, _) => 6
    case Reserving(_, _) => 7
    case Allocating(_) => 8
  }

  lemma RanksEnd(p: R.Place)
    ensures Rank(p) == 0 <==> p == R.Off
  {}

  const LONGEST := 8

  ghost function GoOn(c: R.Config, s: R.State, w: nat, prepared: Option<string>, n: nat): R.State {
    if n == 0 then s else R.StepGo(c, GoOn(c, s, w, prepared, n - 1), w, prepared)
  }

  /** The machine's state once `w` has finished with the card. */
  ghost function CardDone(c: R.Config, s: R.State, w: nat, task: R.Task, prepared: Option<string>): R.State {
    GoOn(c, R.Step(c, s, R.Look(w, task)), w, prepared, LONGEST)
  }

  lemma {:induction false} GoOnAtOff(c: R.Config, s: R.State, w: nat, prepared: Option<string>, k: nat, n: nat)
    requires k <= n && R.At(GoOn(c, s, w, prepared, k), w) == R.Off
    ensures GoOn(c, s, w, prepared, n) == GoOn(c, s, w, prepared, k)
    decreases n - k
  {
    hide R.At;
    if k < n {
      GoOnAtOff(c, s, w, prepared, k, n - 1);
      OffGoesNowhere(c, GoOn(c, s, w, prepared, n - 1), w, prepared);
    }
  }

  lemma OffGoesNowhere(c: R.Config, s: R.State, w: nat, prepared: Option<string>)
    requires R.At(s, w) == R.Off
    ensures R.StepGo(c, s, w, prepared) == s
  {}

  /** What a place says about its card beyond the invariant. */
  predicate Placed(p: R.Place) {
    && (p.Adopting? || p.Allocating? || p.Reserving? ==> R.Directory(p.task).Some?)
    && (p.Adopting? ==> p.m.branch.Some?)
  }

  lemma LookedAt(c: R.Config, s: R.State, w: nat, task: R.Task)
    requires R.At(s, w) == R.Off
    ensures
      var place := R.AfterLook(c, task, if task.rowId in s.mappings then Some(s.mappings[task.rowId]) else None);
      && R.Step(c, s, R.Look(w, task)) == R.Put(s, w, place) && R.At(R.Put(s, w, place), w) == place
      && Placed(place) && Rank(place) <= LONGEST
  {
    hide R.StepGo, P.Step, R.Directory;
  }

  lemma GoOnFrom(c: R.Config, s: R.State, w: nat, prepared: Option<string>, n: nat)
    ensures GoOn(c, s, w, prepared, 0) == s
    ensures GoOn(c, s, w, prepared, n + 1) == R.StepGo(c, GoOn(c, s, w, prepared, n), w, prepared)
  {
    hide R.StepGo;
  }

  lemma PlaceHas(c: R.Config, s: R.State, w: nat)
    requires R.Inv(c, s)
    ensures
      var place := R.At(s, w);
      place.Pinned? || place.Pushed? || place.Linked? || place.Posting? || place.Checking? ==>
        && place.m.branch.Some? && place.m.project.Some? && place.m.starter.Some?
        && (place.Linked? || place.Posting? ==> place.m.url.Some?)
  {
    hide R.Inv, R.Known, R.SuiteFrozen, R.At;
    R.PlaceOkOf(c, s, w);
  }

  /** Each step keeps the invariant and brings the card closer to its end. */
  lemma GoFits(c: R.Config, s: R.State, w: nat, prepared: Option<string>)
    requires R.Inv(c, s) && R.At(s, w) != R.Off && Placed(R.At(s, w))
    ensures
      var t := R.StepGo(c, s, w, prepared);
      R.Inv(c, t) && Rank(R.At(t, w)) < Rank(R.At(s, w)) && Placed(R.At(t, w))
  {
    hide R.Inv, R.StepGo;
    R.GoKeeps(c, s, w, prepared);
    PlaceHas(c, s, w);
    NextPlaceFits(c, s, w, prepared);
  }

  lemma NextPlaceFits(c: R.Config, s: R.State, w: nat, prepared: Option<string>)
    requires R.At(s, w) != R.Off && Placed(R.At(s, w))
    requires
      var place := R.At(s, w);
      place.Pinned? || place.Pushed? || place.Linked? || place.Posting? || place.Checking? ==>
        && place.m.branch.Some? && place.m.project.Some? && place.m.starter.Some?
        && (place.Linked? || place.Posting? ==> place.m.url.Some?)
    ensures
      var t := R.StepGo(c, s, w, prepared);
      Rank(R.At(t, w)) < Rank(R.At(s, w)) && Placed(R.At(t, w))
  {
    hide P.Step, Mappings.ReserveBranch, Mappings.GetOrAllocate, Mappings.RecordStarter, Mappings.RecordBranch, R.Directory,
         R.SuiteState, R.ReservedName;
  }

  // ----- what a reconcile comes to -----

  /** The call that the reconciler makes next raises. */
  ghost predicate Fails(c: R.Config, s: R.State, w: nat, prepared: Option<string>) {
    match R.At(s, w)
    case Off => false
    case Adopting(task, m) =>
      && m.branch.Some? && R.Directory(task).Some?
      && ReserveBranch(s.mappings, task.rowId, m.branch.value, R.Directory(task).value).1.Failure?
    case Allocating(task) => GetOrAllocate(s.mappings, task.rowId, task.taskId).1.Failure?
    case Reserving(task, m) =>
      && R.Directory(task).Some?
      && ReserveBranch(s.mappings, task.rowId, R.ReservedName(c, task, m), R.Directory(task).value).1.Failure?
    case Intended(task, m) => m.starter.None? && prepared.None?
    case Prepared(task, m, sha) => RecordStarter(s.mappings, task.rowId, sha).1.Failure?
    case Pinned(task, m) =>
      && m.branch.Some? && m.starter.Some? && m.url.None?
      && m.branch.value in s.remote && s.remote[m.branch.value] != m.starter.value
    case Pushed(task, m) =>
      m.branch.Some? && RecordBranch(s.mappings, task.rowId, m.branch.value, c.urlOf(m.branch.value)).1.Failure?
    case Linked(task, m) =>
      m.branch.Some? && m.project.Some? && m.starter.Some? && R.Graded(c, task) && R.SuiteState(c, s, task, m).None?
    case Posting(task, m) => false
    case Checking(task, m) =>
      m.branch.Some? && m.project.Some? && m.starter.Some? && R.SuiteState(c, s, task, m).None?
  }

  /** None of the next `n` calls raises. */
  ghost predicate Smooth(c: R.Config, s: R.State, w: nat, prepared: Option<string>, n: nat) {
    forall k: nat | k < n :: !Fails(c, GoOn(c, s, w, prepared, k), w, prepared)
  }

  /** No call raises from the look at the card to the end. */
  ghost predicate Undisturbed(c: R.Config, s: R.State, w: nat, task: R.Task, prepared: Option<string>) {
    Smooth(c, R.Step(c, s, R.Look(w, task)), w, prepared, LONGEST)
  }

  /** The row of a card, or the one that it gets. */
  ghost function RowOf(t: MappingTable, task: R.Task): Mapping {
    if task.rowId in t then t[task.rowId]
    else Mapping(if Given(task.taskId) then task.taskId.value else NextId(t), None, None, None, None)
  }

  predicate HasIntent(m: Mapping) { m.branch.Some? && m.project.Some? }

  predicate SuiteReady(s: R.State, taskId: string) {
    taskId in s.pipe.a.jobs && s.pipe.a.jobs[taskId].phase == Done
  }

  /** The task's job has the card's row, title and description, and the project, branch and starter of the mapping. */
  predicate JobIs(c: R.Config, jobs: Table<Job>, task: R.Task, m: Mapping) {
    && m.taskId in jobs
    && var job := jobs[m.taskId].body;
    && job.rowId == task.rowId && Some(job.project) == m.project && Some(job.branch) == m.branch
    && Some(job.starterSha) == m.starter
    && Some(job.assignment) == c.pipeline.codec.assignment(c.assignment(task.title, task.description))
  }

  /** The row that a card without an address ends with: what was recorded stays, and only what was missing
      is filled in. */
  ghost predicate Filled(c: R.Config, was: Mapping, task: R.Task, prepared: Option<string>, m: Mapping) {
    && m.taskId == was.taskId
    && m.branch == Some(if was.branch.Some? then was.branch.value else BranchName(was.taskId, c.normalize(task.title)))
    && m.project == (if HasIntent(was) then was.project else R.Directory(task)) && m.project.Some?
    && m.starter == (if was.starter.Some? then was.starter else prepared) && m.starter.Some?
    && m.url == Some(if was.url.Some? then was.url.value else c.urlOf(m.branch.value))
  }

  /** From `s` to `t` one card without an address was worked on to the end: its row is filled in and no
      other row changed; a branch without a recorded address is at the starter, pushed there if it was
      missing; and the address is on the card exactly when the card is not graded or its suite is ready. */
  ghost predicate Reached(c: R.Config, s: R.State, t: R.State, task: R.Task, prepared: Option<string>) {
    && task.rowId in t.mappings
    && var was, m := RowOf(s.mappings, task), t.mappings[task.rowId];
    && Filled(c, was, task, prepared, m)
    && t.mappings == s.mappings[task.rowId := m]
    && var branch, starter := m.branch.value, m.starter.value;
    && var missing := was.url.None? && branch !in s.remote;
    && (was.url.None? ==> branch in t.remote && t.remote[branch] == starter)
    && t.remote == (if missing then s.remote[branch := starter] else s.remote)
    && t.past.pushes == s.past.pushes + (if missing then {R.Push(task, branch, starter)} else {})
    && t.past.reserved == s.past.reserved
         + (if HasIntent(was) then {} else {R.Reservation(task, branch, m.project.value)})
    && t.past.asks == s.past.asks + (if R.Graded(c, task) then {R.Ask(task, m.taskId, branch, starter)} else {})
    && t.past.posts == s.past.posts
         + (if R.Graded(c, task) && !SuiteReady(t, m.taskId) then {}
            else {R.Post(task, m.taskId, branch, starter, m.url.value)})
    && (if R.Graded(c, task) then JobIs(c, t.pipe.a.jobs, task, m) else t.pipe == s.pipe)
  }

  /** Where an undisturbed reconciler of a card without an address stands: its copy is the row. */
  ghost predicate OnItsWay(c: R.Config, s: R.State, w: nat, task: R.Task, prepared: Option<string>) {
    var p := R.At(s, w);
    && !p.Off? && !p.Adopting? && !p.Checking? && !p.Posting? && p.task == task
    && (p.Allocating? ==> task.rowId !in s.mappings && R.Directory(task).Some?)
    && (!p.Allocating? ==> task.rowId in s.mappings && p.m == s.mappings[task.rowId])
    && (p.Reserving? ==> !HasIntent(p.m) && R.Directory(task).Some?)
    && (!p.Allocating? && !p.Reserving? ==> HasIntent(p.m))
    && (p.Prepared? ==> p.m.starter.None? && prepared == Some(p.sha))
    && (p.Pinned? || p.Pushed? || p.Linked? ==> p.m.starter.Some?)
    && (p.Pushed? ==> p.m.url.None? && p.m.branch.value in s.remote && s.remote[p.m.branch.value] == p.m.starter.value)
    && (p.Linked? ==> p.m.url.Some?)
  }

  lemma {:induction false} GoOnShifts(c: R.Config, s: R.State, w: nat, prepared: Option<string>, n: nat)
    ensures GoOn(c, s, w, prepared, n + 1) == GoOn(c, R.StepGo(c, s, w, prepared), w, prepared, n)
  {
    hide R.StepGo;
    if n > 0 { GoOnShifts(c, s, w, prepared, n - 1); } else { GoOnFrom(c, s, w, prepared, 0); }
  }

  lemma SmoothSteps(c: R.Config, s: R.State, w: nat, prepared: Option<string>, n: nat)
    ensures Smooth(c, s, w, prepared, 0)
    ensures Smooth(c, s, w, prepared, n + 1) <==>
      Smooth(c, s, w, prepared, n) && !Fails(c, GoOn(c, s, w, prepared, n), w, prepared)
  {
    hide R.StepGo, Fails;
  }

  /** Nothing fails once the card is done with. */
  lemma SmoothToTheEnd(c: R.Config, s: R.State, w: nat, prepared: Option<string>, n: nat)
    requires n <= LONGEST && R.At(GoOn(c, s, w, prepared, n), w) == R.Off
    ensures Smooth(c, s, w, prepared, n) ==> Smooth(c, s, w, prepared, LONGEST)
    decreases LONGEST - n
  {
    hide R.StepGo, Fails, R.At, Smooth;
    if n < LONGEST {
      GoOnAtOff(c, s, w, prepared, n, n + 1);
      SmoothSteps(c, s, w, prepared, n);
      OffCannotFail(c, GoOn(c, s, w, prepared, n), w, prepared);
      SmoothToTheEnd(c, s, w, prepared, n + 1);
    }
  }

  lemma OffCannotFail(c: R.Config, s: R.State, w: nat, prepared: Option<string>)
    requires R.At(s, w) == R.Off
    ensures !Fails(c, s, w, prepared)
  {}

  lemma SmoothPart(c: R.Config, s: R.State, w: nat, prepared: Option<string>, k: nat, n: nat)
    requires Smooth(c, s, w, prepared, n) && k < n
    ensures !Fails(c, GoOn(c, s, w, prepared, k), w, prepared)
  {
    hide R.StepGo, Fails;
  }

  lemma SmoothShifts(c: R.Config, s: R.State, w: nat, prepared: Option<string>, n: nat)
    requires Smooth(c, s, w, prepared, n + 1)
    ensures !Fails(c, s, w, prepared) && Smooth(c, R.StepGo(c, s, w, prepared), w, prepared, n)
  {
    hide R.StepGo, Fails;
    GoOnFrom(c, s, w, prepared, 0);
    assert !Fails(c, GoOn(c, s, w, prepared, 0), w, prepared);
    forall k: nat | k < n
      ensures !Fails(c, GoOn(c, R.StepGo(c, s, w, prepared), w, prepared, k), w, prepared)
    {
      GoOnShifts(c, s, w, prepared, k);
      assert !Fails(c, GoOn(c, s, w, prepared, k + 1), w, prepared);
    }
  }

  /** One smooth step before the last ones stays on its way, and the rest of the way makes up the whole. */
  lemma StepOnItsWay(c: R.Config, s: R.State, w: nat, task: R.Task, prepared: Option<string>)
    requires OnItsWay(c, s, w, task, prepared) && !Fails(c, s, w, prepared) && !R.At(s, w).Linked?
    ensures
      var s' := R.StepGo(c, s, w, prepared);
      OnItsWay(c, s', w, task, prepared) && Rank(R.At(s', w)) < Rank(R.At(s, w))
  {
    hide P.Step, R.Directory, R.SuiteState, R.ReservedName, BranchUsed, NextId, TaskIds, IsCommit, P.Run;
  }

  /** Recording a part of the intent, with everything else as it was. */
  lemma RecordingMakesUp(c: R.Config, s: R.State, s': R.State, t: R.State, task: R.Task, prepared: Option<string>)
    requires s'.mappings == s.mappings[task.rowId := RowOf(s'.mappings, task)]
    requires s'.pipe == s.pipe && s'.remote == s.remote && s'.past.pushes == s.past.pushes
    requires s'.past.asks == s.past.asks && s'.past.posts == s.past.posts
    requires RowOf(s'.mappings, task).url == RowOf(s.mappings, task).url
    requires forall m: Mapping ::
      Filled(c, RowOf(s'.mappings, task), task, prepared, m) ==> Filled(c, RowOf(s.mappings, task), task, prepared, m)
    requires
      if HasIntent(RowOf(s'.mappings, task)) && !HasIntent(RowOf(s.mappings, task)) then
        s'.past.reserved == s.past.reserved + {
          R.Reservation(task, RowOf(s'.mappings, task).branch.value, RowOf(s'.mappings, task).project.value)}
      else s'.past.reserved == s.past.reserved && HasIntent(RowOf(s'.mappings, task)) == HasIntent(RowOf(s.mappings, task))
    requires Reached(c, s', t, task, prepared)
    ensures Reached(c, s, t, task, prepared)
  {
    hide R.Directory, NextId, BranchName;
  }

  lemma AllocatingMakesUp(c: R.Config, s: R.State, t: R.State, w: nat, task: R.Task, prepared: Option<string>)
    requires OnItsWay(c, s, w, task, prepared) && !Fails(c, s, w, prepared) && R.At(s, w).Allocating?
    requires Reached(c, R.StepGo(c, s, w, prepared), t, task, prepared)
    ensures Reached(c, s, t, task, prepared)
  {
    hide Reached, R.Directory, TaskIds, NextId, BranchName;
    RecordingMakesUp(c, s, R.StepGo(c, s, w, prepared), t, task, prepared);
  }

  lemma ReservingMakesUp(c: R.Config, s: R.State, t: R.State, w: nat, task: R.Task, prepared: Option<string>)
    requires OnItsWay(c, s, w, task, prepared) && !Fails(c, s, w, prepared) && R.At(s, w).Reserving?
    requires Reached(c, R.StepGo(c, s, w, prepared), t, task, prepared)
    ensures Reached(c, s, t, task, prepared)
  {
    hide Reached, R.Directory, BranchUsed, NextId, BranchName;
    RecordingMakesUp(c, s, R.StepGo(c, s, w, prepared), t, task, prepared);
  }

  lemma StarterMakesUp(c: R.Config, s: R.State, t: R.State, w: nat, task: R.Task, prepared: Option<string>)
    requires OnItsWay(c, s, w, task, prepared) && !Fails(c, s, w, prepared)
    requires R.At(s, w).Intended? || R.At(s, w).Prepared?
    requires Reached(c, R.StepGo(c, s, w, prepared), t, task, prepared)
    ensures Reached(c, s, t, task, prepared)
  {
    hide Reached, R.Directory, IsCommit, NextId, BranchName;
    var s' := R.StepGo(c, s, w, prepared);
    assert R.At(s, w).Intended? ==> s.mappings[task.rowId := RowOf(s.mappings, task)] == s.mappings;
    RecordingMakesUp(c, s, s', t, task, prepared);
  }

  /** Pushing a missing branch, or finding it at the starter. */
  lemma PushMakesUp(c: R.Config, s: R.State, s': R.State, t: R.State, task: R.Task, prepared: Option<string>, m: Mapping)
    requires task.rowId in s.mappings && s.mappings[task.rowId] == m && HasIntent(m) && m.starter.Some?
    requires s'.mappings == s.mappings && s'.pipe == s.pipe && s'.past == s.past.(pushes := s'.past.pushes)
    requires
      if m.url.None? && m.branch.value !in s.remote then
        && s'.remote == s.remote[m.branch.value := m.starter.value]
        && s'.past.pushes == s.past.pushes + {R.Push(task, m.branch.value, m.starter.value)}
      else s'.remote == s.remote && s'.past.pushes == s.past.pushes
    requires Reached(c, s', t, task, prepared)
    ensures Reached(c, s, t, task, prepared)
  {
    hide Filled, RowOf, R.Directory, NextId, BranchName;
    RowIs(s.mappings, task);
    FilledKeeps(c, m, task, prepared, t.mappings[task.rowId]);
  }

  lemma PushingMakesUp(c: R.Config, s: R.State, t: R.State, w: nat, task: R.Task, prepared: Option<string>)
    requires OnItsWay(c, s, w, task, prepared) && !Fails(c, s, w, prepared) && R.At(s, w).Pinned?
    requires Reached(c, R.StepGo(c, s, w, prepared), t, task, prepared)
    ensures Reached(c, s, t, task, prepared)
  {
    hide Reached;
    PushMakesUp(c, s, R.StepGo(c, s, w, prepared), t, task, prepared, R.At(s, w).m);
  }

  lemma FilledKeeps(c: R.Config, was: Mapping, task: R.Task, prepared: Option<string>, m: Mapping)
    requires Filled(c, was, task, prepared, m)
    ensures m.taskId == was.taskId && m.branch.Some? && m.project.Some? && m.starter.Some? && m.url.Some?
    ensures HasIntent(was) ==> m.branch == was.branch && m.project == was.project
    ensures was.starter.Some? ==> m.starter == was.starter
    ensures was.url.Some? ==> m.url == was.url
  {
    hide BranchName, R.Directory;
  }

  lemma RowIs(t: MappingTable, task: R.Task)
    ensures task.rowId in t ==> RowOf(t, task) == t[task.rowId]
  {}

  lemma LinkingMakesUp(c: R.Config, s: R.State, t: R.State, w: nat, task: R.Task, prepared: Option<string>)
    requires OnItsWay(c, s, w, task, prepared) && !Fails(c, s, w, prepared) && R.At(s, w).Pushed?
    requires Reached(c, R.StepGo(c, s, w, prepared), t, task, prepared)
    ensures Reached(c, s, t, task, prepared)
  {
    hide R.Directory, BranchUsed, NextId, BranchName;
  }

  /** A ready suite is what `ensure_suite` tells. */
  lemma ToldWhenReady(c: R.Config, s: R.State, task: R.Task, m: Mapping)
    requires m.branch.Some? && m.project.Some? && m.starter.Some? && R.SuiteState(c, s, task, m).Some?
    ensures SuiteReady(R.Asked(c, s, task, m), m.taskId) <==> R.SuiteState(c, s, task, m) == Some(Done)
    ensures JobIs(c, R.Asked(c, s, task, m).pipe.a.jobs, task, m)
  {
    hide IdentityValid, RowTaken, Tables.BranchTaken;
  }

  /** The end of the way: the suite is ensured and the card written. */
  lemma LastSteps(c: R.Config, s: R.State, w: nat, task: R.Task, prepared: Option<string>)
    requires OnItsWay(c, s, w, task, prepared) && !Fails(c, s, w, prepared) && R.At(s, w).Linked?
    ensures
      var t := R.StepGo(c, R.StepGo(c, s, w, prepared), w, prepared);
      R.At(t, w) == R.Off && Reached(c, s, t, task, prepared)
  {
    hide R.Directory, NextId, BranchName, P.Step, R.SuiteState, JobIs;
    var m := R.At(s, w).m;
    if R.Graded(c, task) { ToldWhenReady(c, s, task, m); }
  }

  lemma {:induction false} WayReaches(c: R.Config, s: R.State, w: nat, task: R.Task, prepared: Option<string>, n: nat)
    requires OnItsWay(c, s, w, task, prepared) && Rank(R.At(s, w)) <= n && Smooth(c, s, w, prepared, n)
    ensures Reached(c, s, GoOn(c, s, w, prepared, n), task, prepared)
    decreases n
  {
    hide R.StepGo, OnItsWay, Fails, Reached, Smooth, Rank, R.At;
    WayGoesOn(c, s, w, task, prepared);
    SmoothShifts(c, s, w, prepared, n - 1);
    if R.At(s, w).Linked? {
      LastSteps(c, s, w, task, prepared);
      GoOnFrom(c, s, w, prepared, 0);
      GoOnFrom(c, s, w, prepared, 1);
      GoOnAtOff(c, s, w, prepared, 2, n);
    } else {
      var s' := R.StepGo(c, s, w, prepared);
      StepOnItsWay(c, s, w, task, prepared);
      WayReaches(c, s', w, task, prepared, n - 1);
      GoOnShifts(c, s, w, prepared, n - 1);
      var t := GoOn(c, s', w, prepared, n - 1);
      if R.At(s, w).Allocating? { AllocatingMakesUp(c, s, t, w, task, prepared); }
      if R.At(s, w).Reserving? { ReservingMakesUp(c, s, t, w, task, prepared); }
      if R.At(s, w).Intended? || R.At(s, w).Prepared? { StarterMakesUp(c, s, t, w, task, prepared); }
      if R.At(s, w).Pinned? { PushingMakesUp(c, s, t, w, task, prepared); }
      if R.At(s, w).Pushed? { LinkingMakesUp(c, s, t, w, task, prepared); }
    }
  }

  lemma WayGoesOn(c: R.Config, s: R.State, w: nat, task: R.Task, prepared: Option<string>)
    requires OnItsWay(c, s, w, task, prepared)
    ensures Rank(R.At(s, w)) >= 2
    ensures var p := R.At(s, w);
      p.Linked? || p.Allocating? || p.Reserving? || p.Intended? || p.Prepared? || p.Pinned? || p.Pushed?
  {}

  /** An undisturbed reconcile of a card in progress with an accepted assignee and without an address, whose
      branch and project are recorded or whose project is accepted, runs to the end. */
  lemma CardReachesItsEnd(c: R.Config, s: R.State, w: nat, task: R.Task, prepared: Option<string>)
    requires R.At(s, w) == R.Off && R.Workable(task) && !task.hasBranchUrl
    requires HasIntent(RowOf(s.mappings, task)) || R.Directory(task).Some?
    requires Undisturbed(c, s, w, task, prepared)
    ensures Reached(c, s, CardDone(c, s, w, task, prepared), task, prepared)
  {
    hide R.StepGo, Fails, Reached, Smooth, GoOn, R.Step;
    var looked := R.Step(c, s, R.Look(w, task));
    LookedAt(c, s, w, task);
    LookSetsOut(c, s, w, task, prepared);
    WayReaches(c, looked, w, task, prepared, LONGEST);
    PlacesDoNotCount(c, s, looked, CardDone(c, s, w, task, prepared), task, prepared);
  }

  lemma LookSetsOut(c: R.Config, s: R.State, w: nat, task: R.Task, prepared: Option<string>)
    requires R.At(s, w) == R.Off && R.Workable(task) && !task.hasBranchUrl
    requires HasIntent(RowOf(s.mappings, task)) || R.Directory(task).Some?
    ensures
      var place := R.AfterLook(c, task, if task.rowId in s.mappings then Some(s.mappings[task.rowId]) else None);
      OnItsWay(c, R.Put(s, w, place), w, task, prepared)
  {
    hide R.Directory, NextId, R.AfterAdopting;
  }

  lemma PlacesDoNotCount(c: R.Config, s: R.State, s': R.State, t: R.State, task: R.Task, prepared: Option<string>)
    requires s' == s.(places := s'.places) && Reached(c, s', t, task, prepared)
    ensures Reached(c, s, t, task, prepared)
  {
    hide Filled, R.Directory, NextId;
  }

  // ----- the other cards -----

  /** A card that is not in progress or has no accepted assignee, a card without an address, an intent and
      an accepted project, and a card with an address that the bridge did not write are left alone. */
  lemma CardIsLeftAlone(c: R.Config, s: R.State, w: nat, task: R.Task, prepared: Option<string>)
    requires R.At(s, w) == R.Off
    requires
      || !R.Workable(task)
      || (!task.hasBranchUrl && !HasIntent(RowOf(s.mappings, task)) && R.Directory(task).None?)
      || (task.hasBranchUrl && RowOf(s.mappings, task).branch.None?)
    ensures CardDone(c, s, w, task, prepared) == R.Put(s, w, R.Off)
    ensures Undisturbed(c, s, w, task, prepared)
  {
    hide R.StepGo, GoOn, R.Step, R.Directory, NextId;
    LookedAt(c, s, w, task);
    StaysOff(c, R.Step(c, s, R.Look(w, task)), w, prepared);
  }

  lemma StaysOff(c: R.Config, s: R.State, w: nat, prepared: Option<string>)
    requires R.At(s, w) == R.Off
    ensures GoOn(c, s, w, prepared, LONGEST) == s && Smooth(c, s, w, prepared, LONGEST)
  {
    hide R.StepGo, R.At;
    forall k: nat | k <= LONGEST ensures GoOn(c, s, w, prepared, k) == s {
      GoOnFrom(c, s, w, prepared, 0);
      GoOnAtOff(c, s, w, prepared, 0, k);
    }
  }

  /** From `s` to `t` a card that has its address was looked after: an old row got its project, and the suite
      of a graded card with a recorded starter was ensured. */
  ghost predicate Rechecked(c: R.Config, s: R.State, t: R.State, task: R.Task) {
    && task.rowId in s.mappings && task.rowId in t.mappings
    && var was, m := s.mappings[task.rowId], t.mappings[task.rowId];
    && was.branch.Some?
    && var project := if was.project.Some? then was.project else R.Directory(task);
    && project.Some?
    && m == was.(project := project) && t.mappings == s.mappings[task.rowId := m]
    && t.remote == s.remote && t.past.pushes == s.past.pushes && t.past.posts == s.past.posts
    && t.past.reserved == s.past.reserved
         + (if was.project.Some? then {} else {R.Reservation(task, was.branch.value, project.value)})
    && (if R.Graded(c, task) && was.starter.Some? then
          && t.past.asks == s.past.asks + {R.Ask(task, was.taskId, was.branch.value, was.starter.value)}
          && JobIs(c, t.pipe.a.jobs, task, m)
        else t.past.asks == s.past.asks && t.pipe == s.pipe)
  }

  lemma CheckedNext(c: R.Config, s: R.State, w: nat, task: R.Task, prepared: Option<string>)
    requires !R.At(s, w).Off? && R.At(s, w).task == task && R.At(s, w).Checking? && !Fails(c, s, w, prepared)
    requires task.rowId in s.mappings && s.mappings[task.rowId] == R.At(s, w).m
    requires HasIntent(R.At(s, w).m) && R.At(s, w).m.starter.Some? && R.Graded(c, task)
    ensures
      var t := R.StepGo(c, s, w, prepared);
      R.At(t, w) == R.Off && Rechecked(c, s, t, task)
  {
    hide P.Step, R.Directory, R.SuiteState, JobIs;
    var m := R.At(s, w).m;
    ToldWhenReady(c, s, task, m);
    assert m == m.(project := m.project) && s.mappings[task.rowId := m] == s.mappings;
  }

  lemma AdoptedNext(c: R.Config, s: R.State, w: nat, task: R.Task, prepared: Option<string>)
    requires R.At(s, w).Adopting? && R.At(s, w).task == task && !Fails(c, s, w, prepared)
    requires task.rowId in s.mappings && s.mappings[task.rowId] == R.At(s, w).m
    requires R.At(s, w).m.branch.Some? && R.At(s, w).m.project.None? && R.Directory(task).Some?
    ensures
      var t := R.StepGo(c, s, w, prepared);
      && (R.At(t, w).Off? ==> Rechecked(c, s, t, task))
      && (!R.At(t, w).Off? && !Fails(c, t, w, prepared) ==>
            R.At(R.StepGo(c, t, w, prepared), w).Off? && Rechecked(c, s, R.StepGo(c, t, w, prepared), task))
  {
    hide P.Step, R.Directory, R.SuiteState, BranchUsed, JobIs;
    var t := R.StepGo(c, s, w, prepared);
    if !R.At(t, w).Off? && !Fails(c, t, w, prepared) {
      assert R.At(t, w).Checking?;
      ToldWhenReady(c, t, task, R.At(t, w).m);
    }
  }

  lemma LookedWithAddress(c: R.Config, s: R.State, w: nat, task: R.Task)
    requires R.At(s, w) == R.Off && R.Workable(task) && task.hasBranchUrl && RowOf(s.mappings, task).branch.Some?
    ensures
      var place := R.AfterLook(c, task, Some(RowOf(s.mappings, task)));
      var looked := R.Put(s, w, place);
      && task.rowId in s.mappings
      && (place.Off? || place.Adopting? || place.Checking?)
      && (place.Adopting? ==>
            && place == R.Adopting(task, s.mappings[task.rowId])
            && place.m.project.None? && R.Directory(task).Some?)
      && (place.Checking? ==>
            && place == R.Checking(task, s.mappings[task.rowId])
            && R.Graded(c, task) && HasIntent(place.m) && place.m.starter.Some?)
      && (place.Off? && (HasIntent(RowOf(s.mappings, task)) || R.Directory(task).Some?) ==> Rechecked(c, s, looked, task))
  {
    hide R.Directory, NextId;
    var m := RowOf(s.mappings, task);
    assert task.rowId in s.mappings ==> m == m.(project := m.project) && s.mappings[task.rowId := m] == s.mappings;
  }

  lemma RecheckedFrom(c: R.Config, s: R.State, s': R.State, t: R.State, task: R.Task)
    requires s' == s.(places := s'.places) && Rechecked(c, s', t, task)
    ensures Rechecked(c, s, t, task)
  {}

  /** An undisturbed reconcile of a card with an address writes nothing to the card and pushes nothing. */
  lemma CardWithAddress(c: R.Config, s: R.State, w: nat, task: R.Task, prepared: Option<string>)
    requires R.At(s, w) == R.Off && R.Workable(task) && task.hasBranchUrl && RowOf(s.mappings, task).branch.Some?
    requires Undisturbed(c, s, w, task, prepared)
    ensures
      var t := CardDone(c, s, w, task, prepared);
      if HasIntent(RowOf(s.mappings, task)) || R.Directory(task).Some? then Rechecked(c, s, t, task)
      else t == R.Put(s, w, R.Off)
  {
    hide R.StepGo, Fails, Rechecked, GoOn, R.Step, R.Directory, NextId, R.AfterLook;
    var looked := R.Step(c, s, R.Look(w, task));
    LookedAt(c, s, w, task);
    LookedWithAddress(c, s, w, task);
    GoOnFrom(c, looked, w, prepared, 0);
    GoOnFrom(c, looked, w, prepared, 1);
    if R.At(looked, w).Off? {
      StaysOff(c, looked, w, prepared);
    } else {
      SmoothShifts(c, looked, w, prepared, LONGEST - 1);
      var next := R.StepGo(c, looked, w, prepared);
      if R.At(looked, w).Checking? {
        CheckedNext(c, looked, w, task, prepared);
        GoOnAtOff(c, looked, w, prepared, 1, LONGEST);
      } else {
        AdoptedNext(c, looked, w, task, prepared);
        SmoothShifts(c, next, w, prepared, LONGEST - 2);
        GoOnAtOff(c, looked, w, prepared, if R.At(next, w).Off? then 1 else 2, LONGEST);
      }
      RecheckedFrom(c, s, looked, CardDone(c, s, w, task, prepared), task);
    }
  }

  /** What a reconcile that raised nothing has done with its card. */
  ghost predicate Outcome(c: R.Config, s: R.State, t: R.State, w: nat, task: R.Task, prepared: Option<string>) {
    var was := RowOf(s.mappings, task);
    if !R.Workable(task) || (!HasIntent(was) && R.Directory(task).None?) || (task.hasBranchUrl && was.branch.None?) then
      t == R.Put(s, w, R.Off)
    else if task.hasBranchUrl then Rechecked(c, s, t, task)
    else Reached(c, s, t, task, prepared)
  }

  lemma UndisturbedOutcome(c: R.Config, s: R.State, w: nat, task: R.Task, prepared: Option<string>)
    requires R.At(s, w) == R.Off && Undisturbed(c, s, w, task, prepared)
    ensures Outcome(c, s, CardDone(c, s, w, task, prepared), w, task, prepared)
  {
    hide CardDone, Undisturbed, Reached, Rechecked, R.Directory, R.Put, RowOf;
    var was := RowOf(s.mappings, task);
    if !R.Workable(task) || (!HasIntent(was) && R.Directory(task).None? && !task.hasBranchUrl)
      || (task.hasBranchUrl && was.branch.None?) {
      CardIsLeftAlone(c, s, w, task, prepared);
    } else if task.hasBranchUrl {
      CardWithAddress(c, s, w, task, prepared);
    } else {
      CardReachesItsEnd(c, s, w, task, prepared);
    }
  }
}
