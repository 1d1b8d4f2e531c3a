/** `BridgeService` as an object. Reconciling a card is cut at its durable writes and calls; each of them
    is one step of the machine in `Reconcile`, and a whole pass is a run of the machine. */
module BridgePasses {
  import opened Text
  import opened Leases
  import opened Tables
  import opened Mappings
  import opened BridgeStore
  import opened ReconcileCards
  import R = Reconcile
  import P = Pipeline
  import C = Coordinators
  import G = Gateway

  class GitBranchClient {
    var remote: map<string, string>
    ghost var pushes: set<R.Push>

    constructor ()
      ensures remote == map[] && pushes == {}
    {
      remote, pushes := map[], {};
    }

    /** An existing branch must be the starter; a missing one is pushed. */
    method EnsurePrepared(ghost task: R.Task, branch: string, starter: string) returns (ok: bool)
      modifies this
      ensures ok == (branch in old(remote) ==> old(remote)[branch] == starter)
      ensures remote == if branch in old(remote) then old(remote) else old(remote)[branch := starter]
      ensures pushes == if branch in old(remote) then old(pushes) else old(pushes) + {R.Push(task, branch, starter)}
    {
      if branch in remote { return remote[branch] == starter; }
      remote := remote[branch := starter];
      pushes := pushes + {R.Push(task, branch, starter)};
      ok := true;
    }
  }

  predicate Accepted(task: R.Task) { task.learner || task.mentor }

  /** The state after registering the known IDs of the first `n` cards. */
  ghost function Registered(c: R.Config, s: R.State, tasks: seq<R.Task>, n: nat): R.State
    requires n <= |tasks|
  {
    if n == 0 then s
    else
      var before := Registered(c, s, tasks, n - 1);
      var task := tasks[n - 1];
      if Accepted(task) && Given(task.taskId) then R.Step(c, before, R.Register(task.rowId, task.taskId)) else before
  }

  /** The state after working on the first `n` cards. */
  ghost function CardsDone(c: R.Config, s: R.State, w: nat, tasks: seq<R.Task>, prepared: seq<Option<string>>, n: nat): R.State
    requires n <= |tasks| == |prepared|
  {
    if n == 0 then s else CardDone(c, CardsDone(c, s, w, tasks, prepared, n - 1), w, tasks[n - 1], prepared[n - 1])
  }

  class BridgeService {
    const store: SQLiteStore
    const git: GitBranchClient
    const gateway: G.GraderGateway
    const config: R.Config
    ghost var posts: set<R.Post>

    ghost predicate Valid() { gateway.Valid() && gateway.config == config.pipeline }

    constructor (store: SQLiteStore, git: GitBranchClient, gateway: G.GraderGateway, config: R.Config)
      requires gateway.Valid() && gateway.config == config.pipeline
      ensures Valid() && this.store == store && this.git == git && this.gateway == gateway && this.config == config
      ensures posts == {}
    {
      this.store, this.git, this.gateway, this.config, posts := store, git, gateway, config, {};
    }

    /** The machine's state is the one in the databases, the repository and the cards. */
    ghost predicate Sees(s: R.State, now: real)
      reads this, store, git, gateway.store
    {
      && s.mappings == store.mappings && s.remote == git.remote && s.past.pushes == git.pushes && s.past.posts == posts
      && s.pipe.a == gateway.store.Authoring() && s.pipe.clock == now
    }

    method EnsureSuite(now: real, task: R.Task, m: Mapping, ghost s: R.State) returns (state: Option<Phase>)
      requires Valid() && Sees(s, now) && m.branch.Some? && m.project.Some? && m.starter.Some?
      modifies gateway.store`jobs
      ensures state == R.SuiteState(config, s, task, m)
      ensures Sees(R.Asked(config, s, task, m), now)
    {
      hide P.Run, P.Step, EnqueueAuthoring;
      ghost var e := R.EnsureSuiteEvent(config, task, m);
      C.RunOne(config.pipeline, s.pipe, e);
      EnsureFrame(config.pipeline, s.pipe, e);
      var r := gateway.Ensure(
        now, m.taskId, task.rowId, m.project.value, m.branch.value, m.starter.value,
        config.assignment(task.title, task.description), s.pipe);
      state := if r.Success? then Some(r.value) else None;
    }

    /** The steps up to the reserved intent. An exception ends the whole pass. */
    method ReserveIntent(now: real, place: R.Place, ghost s: R.State, ghost w: nat, ghost prepared: Option<string>)
      returns (next: R.Place, raised: bool)
      requires Valid() && Sees(s, now) && R.At(s, w) == place && Placed(place)
      requires place.Adopting? || place.Allocating? || place.Reserving?
      modifies store`mappings
      ensures
        var t := R.StepGo(config, s, w, prepared);
        Sees(t, now) && next == R.At(t, w) && raised == Fails(config, s, w, prepared) && (raised ==> next == R.Off)
    {
      hide Mappings.ReserveBranch, Mappings.GetOrAllocate, R.Directory, R.AfterAdopting, R.ReservedName;
      var r: Result<Mapping>;
      if place.Adopting? {
        r := store.ReserveBranch(place.task.rowId, place.m.branch.value, R.Directory(place.task).value);
        next := if r.Success? then R.AfterAdopting(config, place.task, r.value) else R.Off;
      } else if place.Allocating? {
        r := store.GetOrAllocate(place.task.rowId, place.task.taskId);
        next := if r.Success? then R.Reserving(place.task, r.value) else R.Off;
      } else {
        var name := R.ReservedName(config, place.task, place.m);
        r := store.ReserveBranch(place.task.rowId, name, R.Directory(place.task).value);
        next := if r.Success? then R.Intended(place.task, r.value) else R.Off;
      }
      raised := r.Failure?;
    }

    /** The steps that record the starter and the address. */
    method RecordProgress(now: real, place: R.Place, ghost s: R.State, ghost w: nat, ghost prepared: Option<string>)
      returns (next: R.Place, raised: bool)
      requires Valid() && Sees(s, now) && R.At(s, w) == place
      requires place.Prepared? || (place.Pushed? && place.m.branch.Some?)
      modifies store`mappings
      ensures
        var t := R.StepGo(config, s, w, prepared);
        Sees(t, now) && next == R.At(t, w) && raised == Fails(config, s, w, prepared) && (raised ==> next == R.Off)
    {
      hide Mappings.RecordStarter, Mappings.RecordBranch;
      var r: Result<Mapping>;
      if place.Prepared? {
        r := store.RecordStarter(place.task.rowId, place.sha);
        next := if r.Success? then R.Pinned(place.task, r.value) else R.Off;
      } else {
        r := store.RecordBranch(place.task.rowId, place.m.branch.value, config.urlOf(place.m.branch.value));
        next := if r.Success? then R.Linked(place.task, r.value) else R.Off;
      }
      raised := r.Failure?;
    }

    /** The steps that reach outside: preparing the starter, pushing the branch, writing the card. */
    method ReachOut(now: real, place: R.Place, ghost s: R.State, ghost w: nat, prepared: Option<string>)
      returns (next: R.Place, raised: bool)
      requires Valid() && Sees(s, now) && R.At(s, w) == place
      requires place.Intended? || place.Pinned? || place.Posting?
      requires place.Pinned? || place.Posting? ==> place.m.branch.Some? && place.m.starter.Some?
      requires place.Posting? ==> place.m.url.Some?
      modifies git, this`posts
      ensures
        var t := R.StepGo(config, s, w, prepared);
        Sees(t, now) && next == R.At(t, w) && raised == Fails(config, s, w, prepared) && (raised ==> next == R.Off)
    {
      var task, m := place.task, place.m;
      raised := false;
      if place.Intended? {
        if m.starter.Some? { return R.Pinned(task, m), false; }
        if prepared.None? { return R.Off, true; }
        return R.Prepared(task, m, prepared.value), false;
      } else if place.Pinned? {
        if m.url.Some? { return R.Linked(task, m), false; }
        var ok := git.EnsurePrepared(task, m.branch.value, m.starter.value);
        return if ok then R.Pushed(task, m) else R.Off, !ok;
      } else {
        posts := posts + {R.Post(task, m.taskId, m.branch.value, m.starter.value, m.url.value)};
        return R.Off, false;
      }
    }

    /** The steps that ensure the suite. */
    method AskSuite(now: real, place: R.Place, ghost s: R.State, ghost w: nat, prepared: Option<string>)
      returns (next: R.Place, raised: bool)
      requires Valid() && Sees(s, now) && R.At(s, w) == place
      requires (place.Linked? || place.Checking?) && place.m.branch.Some? && place.m.project.Some? && place.m.starter.Some?
      modifies gateway.store`jobs
      ensures
        var t := R.StepGo(config, s, w, prepared);
        Sees(t, now) && next == R.At(t, w) && raised == Fails(config, s, w, prepared) && (raised ==> next == R.Off)
    {
      hide P.Step, R.SuiteState, R.EnsureSuiteEvent;
      var task, m := place.task, place.m;
      if place.Linked? && !(config.grading && task.learner) { return R.Posting(task, m), false; }
      var state := EnsureSuite(now, task, m, s);
      next := if place.Linked? && state == Some(Done) then R.Posting(task, m) else R.Off;
      raised := state.None?;
    }

    /** One durable write or call. */
    method Advance(now: real, place: R.Place, ghost s: R.State, ghost w: nat, prepared: Option<string>)
      returns (next: R.Place, raised: bool)
      requires Valid() && Sees(s, now) && R.Inv(config, s) && R.At(s, w) == place && Placed(place) && place != R.Off
      modifies store`mappings, git, this`posts, gateway.store`jobs
      ensures
        var t := R.StepGo(config, s, w, prepared);
        Sees(t, now) && next == R.At(t, w) && raised == Fails(config, s, w, prepared) && (raised ==> next == R.Off)
    {
      hide R.Inv, R.StepGo, R.At, R.Directory, Sees;
      PlaceHas(config, s, w);
      if place.Linked? || place.Checking? {
        next, raised := AskSuite(now, place, s, w, prepared);
      } else if place.Intended? || place.Pinned? || place.Posting? {
        next, raised := ReachOut(now, place, s, w, prepared);
      } else if place.Prepared? || place.Pushed? {
        next, raised := RecordProgress(now, place, s, w, prepared);
      } else {
        next, raised := ReserveIntent(now, place, s, w, prepared);
      }
    }

    /** Works on one card until it is done with it. */
    method ReconcileCard(now: real, task: R.Task, prepared: Option<string>, ghost s: R.State, ghost w: nat)
      returns (raised: bool)
      requires Valid() && Sees(s, now) && R.Inv(config, s) && R.At(s, w) == R.Off
      modifies store`mappings, git, this`posts, gateway.store`jobs
      ensures Sees(CardDone(config, s, w, task, prepared), now)
      ensures raised <==> !Undisturbed(config, s, w, task, prepared)
      ensures !raised ==> Outcome(config, s, CardDone(config, s, w, task, prepared), w, task, prepared)
      ensures R.Inv(config, CardDone(config, s, w, task, prepared))
        && R.At(CardDone(config, s, w, task, prepared), w) == R.Off
    {
      hide R.Inv, R.StepGo, R.Step, R.AfterLook, R.At, GoOn, Rank, Placed, Fails, Smooth, Outcome;
      ghost var looked := R.Step(config, s, R.Look(w, task));
      LookedAt(config, s, w, task);
      R.StepKeeps(config, s, R.Look(w, task));
      var seen := if task.rowId in store.mappings then Some(store.mappings[task.rowId]) else None;
      var place := R.AfterLook(config, task, seen);
      raised := false;
      ghost var steps: nat, t := 0, looked;
      GoOnFrom(config, looked, w, prepared, 0);
      SmoothSteps(config, looked, w, prepared, 0);
      while place != R.Off
        invariant t == GoOn(config, looked, w, prepared, steps)
        invariant Sees(t, now) && R.Inv(config, t) && R.At(t, w) == place && Placed(place)
        invariant steps + Rank(place) <= LONGEST
        invariant if raised then place == R.Off && !Smooth(config, looked, w, prepared, LONGEST)
                  else Smooth(config, looked, w, prepared, steps)
        decreases Rank(place)
      {
        GoFits(config, t, w, prepared);
        GoOnFrom(config, looked, w, prepared, steps);
        SmoothSteps(config, looked, w, prepared, steps);
        if Smooth(config, looked, w, prepared, LONGEST) { SmoothPart(config, looked, w, prepared, steps, LONGEST); }
        RanksEnd(place);
        place, raised := Advance(now, place, t, w, prepared);
        steps, t := steps + 1, R.StepGo(config, t, w, prepared);
      }
      GoOnAtOff(config, looked, w, prepared, steps, LONGEST);
      SmoothToTheEnd(config, looked, w, prepared, steps);
      if !raised { UndisturbedOutcome(config, s, w, task, prepared); }
    }

    /** Registers one known ID. */
    method RegisterOne(now: real, task: R.Task, ghost s: R.State, ghost w: nat) returns (raised: bool)
      requires Valid() && Sees(s, now) && R.Inv(config, s) && R.At(s, w) == R.Off && Accepted(task) && Given(task.taskId)
      modifies store`mappings
      ensures
        var t := R.Step(config, s, R.Register(task.rowId, task.taskId));
        Sees(t, now) && R.Inv(config, t) && R.At(t, w) == R.Off
    {
      hide R.Inv, Mappings.GetOrAllocate, R.StepGo, P.Step;
      R.StepKeeps(config, s, R.Register(task.rowId, task.taskId));
      var r := store.GetOrAllocate(task.rowId, task.taskId);
      raised := r.Failure?;
    }

    /** One pass over the cards, oldest first; an exception ends it. What it leaves behind is what the
        machine leaves after registering some cards and working on some cards, all of them unless it
        raised. `prepared` says what preparing a starter yields for each card. */
    method ReconcileOnce(now: real, tasks: seq<R.Task>, prepared: seq<Option<string>>, ghost s: R.State, ghost w: nat)
      returns (raised: bool, ghost registered: nat, ghost done: nat)
      requires Valid() && Sees(s, now) && R.Inv(config, s) && R.At(s, w) == R.Off && |prepared| == |tasks|
      modifies store`mappings, git, this`posts, gateway.store`jobs
      ensures registered <= |tasks| && done <= |tasks|
      ensures Sees(CardsDone(config, Registered(config, s, tasks, registered), w, tasks, prepared, done), now)
      ensures !raised ==> registered == |tasks| && done == |tasks|
      ensures R.Inv(config, CardsDone(config, Registered(config, s, tasks, registered), w, tasks, prepared, done))
    {
      hide R.Inv, R.Step, R.At, CardDone, Sees;
      registered, done, raised := 0, 0, false;
      ghost var t := s;
      var i := 0;
      while i < |tasks|
        invariant 0 <= i <= |tasks| && registered == i && done == 0 && t == Registered(config, s, tasks, i)
        invariant Sees(t, now) && R.Inv(config, t) && R.At(t, w) == R.Off
      {
        if Accepted(tasks[i]) && Given(tasks[i].taskId) {
          raised := RegisterOne(now, tasks[i], t, w);
          t := R.Step(config, t, R.Register(tasks[i].rowId, tasks[i].taskId));
          if raised {
            registered := i + 1;
            return;
          }
        }
        i := i + 1;
        registered := i;
      }
      ghost var begun := t;
      i := 0;
      while i < |tasks|
        invariant 0 <= i <= |tasks| && done == i && t == CardsDone(config, begun, w, tasks, prepared, i)
        invariant Sees(t, now) && R.Inv(config, t) && R.At(t, w) == R.Off
      {
        raised := ReconcileCard(now, tasks[i], prepared[i], t, w);
        t := CardDone(config, t, w, tasks[i], prepared[i]);
        i := i + 1;
        done := i;
        if raised { return; }
      }
    }
  }

  lemma EnsureFrame(c: P.Config, pipe: P.State, e: P.Event)
    requires e.EnsureSuite?
    ensures P.Step(c, pipe, e).clock == pipe.clock
  {
    hide EnqueueAuthoring;
  }
}
