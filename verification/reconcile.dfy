/** The reconcile loop joined to the grading pipeline. Any number of reconcilers work on cards at the
    same time, each on a snapshot of its card that may be out of date, and may stop anywhere. */
module Reconcile {
  import opened Text
  import opened Leases
  import opened Tables
  import opened Naming
  import opened Mappings
  import P = Pipeline
  import PI = PipelineInvariant
  import PT = PipelineTheorems

  /** A card as `list_tasks` returned it. */
  datatype Task = Task(
    rowId: string, title: string, project: Option<string>, taskId: Option<string>, hasBranchUrl: bool,
    inProgress: bool, learner: bool, mentor: bool, description: string)

  datatype Config = Config(
    pipeline: P.Config,
    grading: bool,                          // a gateway to the grading tables is configured
    urlOf: string -> string,                // the web address of a branch
    normalize: string -> string,            // lower case and transliteration
    assignment: (string, string) -> string) // title and description as JSON text

  /** Where a reconciler stands with its card: about to add a project to an old mapping, to allocate an
      ID, to reserve a branch, to prepare its starter, to record it, to push, to record the address, to
      ensure the suite, to write the card, or to ensure the suite of a card that has its address. */
  datatype Place =
    | Off
    | Adopting(task: Task, m: Mapping)
    | Allocating(task: Task)
    | Reserving(task: Task, m: Mapping)
    | Intended(task: Task, m: Mapping)
    | Prepared(task: Task, m: Mapping, sha: string)
    | Pinned(task: Task, m: Mapping)
    | Pushed(task: Task, m: Mapping)
    | Linked(task: Task, m: Mapping)
    | Posting(task: Task, m: Mapping)
    | Checking(task: Task, m: Mapping)

  /** A branch reserved, or a project added to one. The task is the card as the reconciler looked at it. */
  datatype Reservation = Reservation(task: Task, branch: string, project: string)

  /** A branch pushed at its starter. */
  datatype Push = Push(task: Task, branch: string, sha: string)

  /** A suite asked for. */
  datatype Ask = Ask(task: Task, taskId: string, branch: string, starter: string)

  /** A branch address written to a card. */
  datatype Post = Post(task: Task, taskId: string, branch: string, starter: string, url: string)

  datatype History = History(reserved: set<Reservation>, pushes: set<Push>, asks: set<Ask>, posts: set<Post>)

  /** `remote` are the branches of the hosted repository; `past` is what reconcilers did. */
  datatype State = State(
    pipe: P.State, mappings: MappingTable, remote: map<string, string>, places: map<nat, Place>, past: History)

  datatype Event =
    | Grading(e: P.Event)
    | Register(rowId: string, taskId: Option<string>)
    | RemoteMoves(branch: string, sha: Option<string>)
    | Look(w: nat, task: Task)
    | Go(w: nat, prepared: Option<string>)
    | Stop(w: nat)

  function Begin(t: MappingTable): State { State(P.EMPTY, t, map[], map[], History({}, {}, {}, {})) }

  function At(s: State, w: nat): Place { if w in s.places then s.places[w] else Off }

  function Put(s: State, w: nat, p: Place): State { s.(places := s.places[w := p]) }

  function Directory(task: Task): Option<string> {
    if task.project.None? then None else ProjectDirectory(task.project.value)
  }

  /** In progress, and assigned to the learner or the mentor. */
  predicate Workable(task: Task) { task.inProgress && (task.learner || task.mentor) }

  predicate Graded(c: Config, task: Task) { c.grading && task.learner }

  /** What `reconcile_once` decides after reading the mapping of a card. */
  function AfterLook(c: Config, task: Task, seen: Option<Mapping>): Place {
    if !task.inProgress || !(task.learner || task.mentor) then Off
    else if task.hasBranchUrl then
      if seen.None? || seen.value.branch.None? then Off
      else if seen.value.project.None? then (if Directory(task).Some? then Adopting(task, seen.value) else Off)
      else AfterAdopting(c, task, seen.value)
    else if seen.Some? && seen.value.branch.Some? && seen.value.project.Some? then Intended(task, seen.value)
    else if Directory(task).None? then Off
    else if seen.None? then Allocating(task)
    else Reserving(task, seen.value)
  }

  function AfterAdopting(c: Config, task: Task, m: Mapping): Place {
    if m.starter.Some? && Graded(c, task) then Checking(task, m) else Off
  }

  function ReservedName(c: Config, task: Task, m: Mapping): string {
    if m.branch.Some? then m.branch.value else BranchName(m.taskId, c.normalize(task.title))
  }

  function EnsureSuiteEvent(c: Config, task: Task, m: Mapping): P.Event
    requires m.branch.Some? && m.project.Some? && m.starter.Some?
  {
    P.EnsureSuite(m.taskId, task.rowId, m.project.value, m.branch.value, m.starter.value,
                  c.assignment(task.title, task.description))
  }

  /** The state of the job that `ensure_suite` returns, if it returns. */
  function SuiteState(c: Config, s: State, task: Task, m: Mapping): Option<Phase>
    requires m.branch.Some? && m.project.Some? && m.starter.Some?
  {
    var r := EnqueueAuthoring(
      s.pipe.a, c.pipeline.codec, s.pipe.clock, m.taskId, task.rowId, m.project.value, m.branch.value, m.starter.value,
      c.assignment(task.title, task.description)).1;
    if r.Success? then Some(r.value.phase) else None
  }

  // ----- steps -----

  /** The history with a reservation that the table took. */
  function Reserved(s: State, task: Task, branch: string, project: string, took: bool): State {
    if took then s.(past := s.past.(reserved := s.past.reserved + {Reservation(task, branch, project)})) else s
  }

  function StepAdopt(c: Config, s: State, w: nat, task: Task, m: Mapping): State {
    if m.branch.None? || Directory(task).None? then s
    else
      var (t, r) := ReserveBranch(s.mappings, task.rowId, m.branch.value, Directory(task).value);
      Put(Reserved(s, task, m.branch.value, Directory(task).value, r.Success?).(mappings := t), w,
          if r.Success? then AfterAdopting(c, task, r.value) else Off)
  }

  ghost function StepAllocate(s: State, w: nat, task: Task): State {
    var (t, r) := GetOrAllocate(s.mappings, task.rowId, task.taskId);
    Put(s.(mappings := t), w, if r.Success? then Reserving(task, r.value) else Off)
  }

  function StepReserve(c: Config, s: State, w: nat, task: Task, m: Mapping): State {
    if Directory(task).None? then s
    else
      var (t, r) := ReserveBranch(s.mappings, task.rowId, ReservedName(c, task, m), Directory(task).value);
      Put(Reserved(s, task, ReservedName(c, task, m), Directory(task).value, r.Success?).(mappings := t), w,
          if r.Success? then Intended(task, r.value) else Off)
  }

  function StepPrepare(s: State, w: nat, task: Task, m: Mapping, prepared: Option<string>): State {
    Put(s, w, if m.starter.Some? then Pinned(task, m) else if prepared.Some? then Prepared(task, m, prepared.value) else Off)
  }

  function StepPin(s: State, w: nat, task: Task, m: Mapping, sha: string): State {
    var (t, r) := RecordStarter(s.mappings, task.rowId, sha);
    Put(s.(mappings := t), w, if r.Success? then Pinned(task, r.value) else Off)
  }

  /** `ensure_prepared_branch`: an existing branch must be the starter, a missing one is pushed. */
  function StepPush(s: State, w: nat, task: Task, m: Mapping): State {
    if m.branch.None? || m.starter.None? then s
    else if m.url.Some? then Put(s, w, Linked(task, m))
    else if m.branch.value in s.remote then
      Put(s, w, if s.remote[m.branch.value] == m.starter.value then Pushed(task, m) else Off)
    else
      Put(s.(remote := s.remote[m.branch.value := m.starter.value],
             past := s.past.(pushes := s.past.pushes + {Push(task, m.branch.value, m.starter.value)})), w,
          Pushed(task, m))
  }

  function StepLink(c: Config, s: State, w: nat, task: Task, m: Mapping): State {
    if m.branch.None? then s
    else
      var (t, r) := RecordBranch(s.mappings, task.rowId, m.branch.value, c.urlOf(m.branch.value));
      Put(s.(mappings := t), w, if r.Success? then Linked(task, r.value) else Off)
  }

  /** The state after a call of `ensure_suite`. */
  ghost function Asked(c: Config, s: State, task: Task, m: Mapping): State
    requires m.branch.Some? && m.project.Some? && m.starter.Some?
  {
    s.(pipe := P.Step(c.pipeline, s.pipe, EnsureSuiteEvent(c, task, m)),
       past := s.past.(asks := s.past.asks + {Ask(task, m.taskId, m.branch.value, m.starter.value)}))
  }

  ghost function StepSuite(c: Config, s: State, w: nat, task: Task, m: Mapping): State {
    if m.branch.None? || m.project.None? || m.starter.None? then s
    else if !Graded(c, task) then Put(s, w, Posting(task, m))
    else
      Put(Asked(c, s, task, m), w,
          if SuiteState(c, s, task, m) == Some(Done) then Posting(task, m) else Off)
  }

  function Posted(s: State, post: Post): State { s.(past := s.past.(posts := s.past.posts + {post})) }

  function StepPost(s: State, w: nat, task: Task, m: Mapping): State {
    if m.branch.None? || m.starter.None? || m.url.None? then s
    else Put(Posted(s, Post(task, m.taskId, m.branch.value, m.starter.value, m.url.value)), w, Off)
  }

  ghost function StepCheck(c: Config, s: State, w: nat, task: Task, m: Mapping): State {
    if m.branch.None? || m.project.None? || m.starter.None? then s
    else Put(Asked(c, s, task, m), w, Off)
  }

  ghost function StepGo(c: Config, s: State, w: nat, prepared: Option<string>): State {
    match At(s, w)
    case Off => s
    case Adopting(task, m) => StepAdopt(c, s, w, task, m)
    case Allocating(task) => StepAllocate(s, w, task)
    case Reserving(task, m) => StepReserve(c, s, w, task, m)
    case Intended(task, m) => StepPrepare(s, w, task, m, prepared)
    case Prepared(task, m, sha) => StepPin(s, w, task, m, sha)
    case Pinned(task, m) => StepPush(s, w, task, m)
    case Pushed(task, m) => StepLink(c, s, w, task, m)
    case Linked(task, m) => StepSuite(c, s, w, task, m)
    case Posting(task, m) => StepPost(s, w, task, m)
    case Checking(task, m) => StepCheck(c, s, w, task, m)
  }

  ghost function Step(c: Config, s: State, e: Event): State {
    match e
    case Grading(p) => s.(pipe := P.Step(c.pipeline, s.pipe, p))
    case Register(rowId, taskId) => s.(mappings := GetOrAllocate(s.mappings, rowId, taskId).0)
    case RemoteMoves(branch, sha) => s.(remote := if sha.Some? then s.remote[branch := sha.value] else s.remote - {branch})
    case Look(w, task) =>
      if At(s, w) != Off then s
      else Put(s, w, AfterLook(c, task, if task.rowId in s.mappings then Some(s.mappings[task.rowId]) else None))
    case Go(w, prepared) => StepGo(c, s, w, prepared)
    case Stop(w) => Put(s, w, Off)
  }

  ghost function Run(c: Config, s: State, events: seq<Event>): State
    decreases events
  {
    if events == [] then s else Run(c, Step(c, s, events[0]), events[1..])
  }

  // ----- the invariant -----

  /** The reconciler's copy is the row, or the row before something more was set. */
  ghost predicate Known(t: MappingTable, row: string, m: Mapping) { row in t && MappingGrows(m, t[row]) }

  /** The task's suite is frozen in the vault for this starter, and its job is ready under this branch. */
  predicate SuiteFrozen(pipe: P.State, taskId: string, branch: string, starter: string) {
    && taskId in pipe.vault && pipe.vault[taskId].starterSha == starter
    && taskId in pipe.a.jobs && pipe.a.jobs[taskId].phase == Done
    && pipe.a.jobs[taskId].body.suiteHash == Some(pipe.vault[taskId].suiteHash)
    && pipe.a.jobs[taskId].body.branch == branch && pipe.a.jobs[taskId].body.starterSha == starter
  }

  ghost predicate PlaceOk(c: Config, pipe: P.State, t: MappingTable, p: Place) {
    && (!p.Off? && !p.Allocating? ==> Known(t, p.task.rowId, p.m))
    && (p.Intended? || p.Prepared? ==> p.m.branch.Some? && p.m.project.Some?)
    && (p.Pinned? || p.Pushed? || p.Linked? || p.Posting? || p.Checking? ==>
          p.m.branch.Some? && p.m.project.Some? && p.m.starter.Some?)
    && (p.Linked? || p.Posting? ==> p.m.url.Some?)
    && (p.Posting? && Graded(c, p.task) ==> SuiteFrozen(pipe, p.m.taskId, p.m.branch.value, p.m.starter.value))
  }

  ghost predicate PlacesOk(c: Config, pipe: P.State, t: MappingTable, places: map<nat, Place>) {
    forall w | w in places :: PlaceOk(c, pipe, t, places[w])
  }

  ghost predicate PushesOk(t: MappingTable, pushes: set<Push>) {
    forall p | p in pushes ::
      && p.task.rowId in t && t[p.task.rowId].branch == Some(p.branch) && t[p.task.rowId].starter == Some(p.sha)
  }

  ghost predicate PostOk(c: Config, pipe: P.State, t: MappingTable, p: Post) {
    && p.task.rowId in t && t[p.task.rowId].taskId == p.taskId
    && t[p.task.rowId].branch == Some(p.branch) && t[p.task.rowId].starter == Some(p.starter)
    && (Graded(c, p.task) ==> SuiteFrozen(pipe, p.taskId, p.branch, p.starter))
  }

  ghost predicate PostsOk(c: Config, pipe: P.State, t: MappingTable, posts: set<Post>) {
    forall p | p in posts :: PostOk(c, pipe, t, p)
  }

  ghost predicate Inv(c: Config, s: State) {
    && PI.Inv(c.pipeline, s.pipe)
    && WellFormed(s.mappings)
    && PlacesOk(c, s.pipe, s.mappings, s.places)
    && PushesOk(s.mappings, s.past.pushes)
    && PostsOk(c, s.pipe, s.mappings, s.past.posts)
  }

  // ----- what moves on keeps it -----

  lemma SuiteStaysFrozen(c: P.Config, pipe: P.State, pipe': P.State, taskId: string, branch: string, starter: string)
    requires SuiteFrozen(pipe, taskId, branch, starter) && PT.Evolves(pipe, pipe')
    ensures SuiteFrozen(pipe', taskId, branch, starter)
  {
    hide PT.GradingEvolves, PT.AsksEvolve, PI.OriginGrows;
  }

  /** The mappings grow and the pipeline evolves. */
  lemma GrowthKeeps(c: Config, s: State, pipe: P.State, t: MappingTable)
    requires Inv(c, s) && Grows(s.mappings, t) && WellFormed(t) && PT.Evolves(s.pipe, pipe) && PI.Inv(c.pipeline, pipe)
    ensures Inv(c, s.(pipe := pipe, mappings := t))
  {
    hide PI.Inv, WellFormed, SuiteFrozen, PT.Evolves;
    forall w | w in s.places ensures PlaceOk(c, pipe, t, s.places[w]) {
      var p := s.places[w];
      assert PlaceOk(c, s.pipe, s.mappings, p);
      if p.Posting? && Graded(c, p.task) {
        SuiteStaysFrozen(c.pipeline, s.pipe, pipe, p.m.taskId, p.m.branch.value, p.m.starter.value);
      }
    }
    forall p | p in s.past.posts ensures PostOk(c, pipe, t, p) {
      assert PostOk(c, s.pipe, s.mappings, p);
      if Graded(c, p.task) { SuiteStaysFrozen(c.pipeline, s.pipe, pipe, p.taskId, p.branch, p.starter); }
    }
  }

  lemma MoveKeeps(c: Config, s: State, w: nat, p: Place)
    requires Inv(c, s) && PlaceOk(c, s.pipe, s.mappings, p)
    ensures Inv(c, Put(s, w, p))
  {
    hide PI.Inv, WellFormed, PlaceOk, PushesOk, PostOk;
  }

  lemma PlaceOkOf(c: Config, s: State, w: nat)
    requires Inv(c, s)
    ensures PlaceOk(c, s.pipe, s.mappings, At(s, w))
  {
    hide PI.Inv, WellFormed, PushesOk, PostsOk, SuiteFrozen, Known;
  }

  // ----- every step keeps it -----

  /** A transaction on the mappings, after which the reconciler stands at `p`. */
  lemma WriteKeeps(c: Config, s: State, w: nat, t: MappingTable, p: Place)
    requires Inv(c, s) && Grows(s.mappings, t) && WellFormed(t) && PlaceOk(c, s.pipe, t, p)
    ensures Inv(c, Put(s.(mappings := t), w, p))
  {
    hide Inv, PlaceOk, Grows, WellFormed, PT.Evolves;
    PipeOf(c, s);
    PT.EvolvesReflexive(s.pipe);
    GrowthKeeps(c, s, s.pipe, t);
    MoveKeeps(c, s.(pipe := s.pipe, mappings := t), w, p);
  }

  lemma PipeOf(c: Config, s: State)
    requires Inv(c, s)
    ensures PI.Inv(c.pipeline, s.pipe) && WellFormed(s.mappings)
  {
    hide PI.Inv, WellFormed, PlacesOk, PushesOk, PostsOk;
  }

  /** A row read just now. */
  lemma JustRead(t: MappingTable, row: string, m: Mapping)
    requires row in t && t[row] == m
    ensures Known(t, row, m)
  {}

  lemma AfterLookOk(c: Config, pipe: P.State, t: MappingTable, task: Task)
    ensures PlaceOk(c, pipe, t, AfterLook(c, task, if task.rowId in t then Some(t[task.rowId]) else None))
  {
    hide Known, SuiteFrozen, Directory;
    if task.rowId in t { JustRead(t, task.rowId, t[task.rowId]); }
  }

  lemma LookKeeps(c: Config, s: State, w: nat, task: Task)
    requires Inv(c, s)
    ensures
      At(s, w) == Off ==>
        Inv(c, Put(s, w, AfterLook(c, task, if task.rowId in s.mappings then Some(s.mappings[task.rowId]) else None)))
  {
    hide Inv, AfterLook, PlaceOk;
    AfterLookOk(c, s.pipe, s.mappings, task);
    MoveKeeps(c, s, w, AfterLook(c, task, if task.rowId in s.mappings then Some(s.mappings[task.rowId]) else None));
  }

  lemma ReservedOk(c: Config, pipe: P.State, t: MappingTable, task: Task, name: string, directory: string)
    requires WellFormed(t)
    ensures
      var (t', r) := ReserveBranch(t, task.rowId, name, directory);
      && WellFormed(t') && Grows(t, t')
      && (r.Success? ==> PlaceOk(c, pipe, t', Intended(task, r.value)) && PlaceOk(c, pipe, t', AfterAdopting(c, task, r.value)))
  {
    hide WellFormed, Grows, ReserveBranch, Known, SuiteFrozen;
    ReserveBranchGrows(t, task.rowId, name, directory);
    var (t', r) := ReserveBranch(t, task.rowId, name, directory);
    if r.Success? { JustRead(t', task.rowId, r.value); }
  }

  lemma OffOk(c: Config, pipe: P.State, t: MappingTable)
    ensures PlaceOk(c, pipe, t, Off)
  {}

  lemma AdoptKeeps(c: Config, s: State, w: nat, task: Task, m: Mapping)
    requires Inv(c, s) && At(s, w) == Adopting(task, m)
    ensures Inv(c, StepAdopt(c, s, w, task, m))
  {
    hide Inv, WellFormed, Grows, ReserveBranch, PlaceOk, AfterAdopting, Put, Directory;
    PipeOf(c, s);
    if m.branch.Some? && Directory(task).Some? {
      ReservedOk(c, s.pipe, s.mappings, task, m.branch.value, Directory(task).value);
      var (t, r) := ReserveBranch(s.mappings, task.rowId, m.branch.value, Directory(task).value);
      OffOk(c, s.pipe, t);
      var s' := Reserved(s, task, m.branch.value, Directory(task).value, r.Success?);
      HistoryKeeps(c, s, s'.past);
      WriteKeeps(c, s', w, t, if r.Success? then AfterAdopting(c, task, r.value) else Off);
    }
  }

  lemma AllocatedOk(c: Config, pipe: P.State, t: MappingTable, task: Task)
    requires WellFormed(t)
    ensures
      var (t', r) := GetOrAllocate(t, task.rowId, task.taskId);
      WellFormed(t') && Grows(t, t') && (r.Success? ==> PlaceOk(c, pipe, t', Reserving(task, r.value)))
  {
    hide WellFormed, Grows, GetOrAllocate, Known, SuiteFrozen;
    GetOrAllocateGrows(t, task.rowId, task.taskId);
    var (t', r) := GetOrAllocate(t, task.rowId, task.taskId);
    if r.Success? { JustRead(t', task.rowId, r.value); }
  }

  lemma AllocateKeeps(c: Config, s: State, w: nat, task: Task)
    requires Inv(c, s)
    ensures Inv(c, StepAllocate(s, w, task))
  {
    hide Inv, WellFormed, Grows, GetOrAllocate, PlaceOk, Put;
    PipeOf(c, s);
    AllocatedOk(c, s.pipe, s.mappings, task);
    var (t, r) := GetOrAllocate(s.mappings, task.rowId, task.taskId);
    OffOk(c, s.pipe, t);
    WriteKeeps(c, s, w, t, if r.Success? then Reserving(task, r.value) else Off);
  }

  lemma ReserveKeeps(c: Config, s: State, w: nat, task: Task, m: Mapping)
    requires Inv(c, s)
    ensures Inv(c, StepReserve(c, s, w, task, m))
  {
    hide Inv, WellFormed, Grows, ReserveBranch, ReservedName, PlaceOk, Put, Directory;
    PipeOf(c, s);
    if Directory(task).Some? {
      var name := ReservedName(c, task, m);
      ReservedOk(c, s.pipe, s.mappings, task, name, Directory(task).value);
      var (t, r) := ReserveBranch(s.mappings, task.rowId, name, Directory(task).value);
      OffOk(c, s.pipe, t);
      var s' := Reserved(s, task, name, Directory(task).value, r.Success?);
      HistoryKeeps(c, s, s'.past);
      WriteKeeps(c, s', w, t, if r.Success? then Intended(task, r.value) else Off);
    }
  }

  lemma PrepareKeeps(c: Config, s: State, w: nat, task: Task, m: Mapping, prepared: Option<string>)
    requires Inv(c, s) && At(s, w) == Intended(task, m)
    ensures Inv(c, StepPrepare(s, w, task, m, prepared))
  {
    hide Inv, Known;
    PlaceOkOf(c, s, w);
    MoveKeeps(
      c, s, w,
      if m.starter.Some? then Pinned(task, m) else if prepared.Some? then Prepared(task, m, prepared.value) else Off);
  }

  /** A row written just now still has what the reconciler knew of it. */
  lemma PinnedStill(t: MappingTable, t': MappingTable, row: string, m: Mapping, m': Mapping)
    requires Known(t, row, m) && Grows(t, t') && row in t' && t'[row] == m'
    ensures Known(t', row, m') && MappingGrows(m, m')
  {}

  lemma RecordedOk(c: Config, pipe: P.State, t: MappingTable, task: Task, m: Mapping, sha: string)
    requires WellFormed(t) && PlaceOk(c, pipe, t, Prepared(task, m, sha))
    ensures
      var (t', r) := RecordStarter(t, task.rowId, sha);
      WellFormed(t') && Grows(t, t') && (r.Success? ==> PlaceOk(c, pipe, t', Pinned(task, r.value)))
  {
    hide WellFormed, Grows, RecordStarter, Known, SuiteFrozen;
    RecordStarterGrows(t, task.rowId, sha);
    var (t', r) := RecordStarter(t, task.rowId, sha);
    if r.Success? {
      JustRead(t', task.rowId, r.value);
      PinnedStill(t, t', task.rowId, m, r.value);
    }
  }

  lemma PinKeeps(c: Config, s: State, w: nat, task: Task, m: Mapping, sha: string)
    requires Inv(c, s) && At(s, w) == Prepared(task, m, sha)
    ensures Inv(c, StepPin(s, w, task, m, sha))
  {
    hide Inv, WellFormed, Grows, RecordStarter, PlaceOk, Put;
    PipeOf(c, s);
    PlaceOkOf(c, s, w);
    RecordedOk(c, s.pipe, s.mappings, task, m, sha);
    var (t, r) := RecordStarter(s.mappings, task.rowId, sha);
    OffOk(c, s.pipe, t);
    WriteKeeps(c, s, w, t, if r.Success? then Pinned(task, r.value) else Off);
  }

  lemma PushKeeps(c: Config, s: State, w: nat, task: Task, m: Mapping)
    requires Inv(c, s) && At(s, w) == Pinned(task, m)
    ensures Inv(c, StepPush(s, w, task, m))
  {
    hide Inv, PostOk, SuiteFrozen, WellFormed, PI.Inv;
    PlaceOkOf(c, s, w);
    if m.url.Some? {
      MoveKeeps(c, s, w, Linked(task, m));
    } else if m.branch.value in s.remote {
      MoveKeeps(c, s, w, if s.remote[m.branch.value] == m.starter.value then Pushed(task, m) else Off);
    } else {
      var push := Push(task, m.branch.value, m.starter.value);
      var t := s.(remote := s.remote[m.branch.value := m.starter.value],
                  past := s.past.(pushes := s.past.pushes + {push}));
      PushedOk(c, s, t, push);
      MoveKeeps(c, t, w, Pushed(task, m));
    }
  }

  lemma PushedOk(c: Config, s: State, t: State, push: Push)
    requires Inv(c, s) && t == s.(remote := t.remote, past := s.past.(pushes := s.past.pushes + {push}))
    requires push.task.rowId in s.mappings && s.mappings[push.task.rowId].branch == Some(push.branch)
    requires s.mappings[push.task.rowId].starter == Some(push.sha)
    ensures Inv(c, t)
  {
    hide PostsOk, PlacesOk, WellFormed, PI.Inv;
  }

  lemma LinkedOk(c: Config, pipe: P.State, t: MappingTable, task: Task, m: Mapping, url: string)
    requires WellFormed(t) && PlaceOk(c, pipe, t, Pushed(task, m)) && m.branch.Some?
    ensures
      var (t', r) := RecordBranch(t, task.rowId, m.branch.value, url);
      WellFormed(t') && Grows(t, t') && (r.Success? ==> PlaceOk(c, pipe, t', Linked(task, r.value)))
  {
    hide WellFormed, Grows, RecordBranch, SuiteFrozen;
    RecordBranchGrows(t, task.rowId, m.branch.value, url);
    var (t', r) := RecordBranch(t, task.rowId, m.branch.value, url);
    if r.Success? { PinnedStill(t, t', task.rowId, m, r.value); }
  }

  lemma LinkKeeps(c: Config, s: State, w: nat, task: Task, m: Mapping)
    requires Inv(c, s) && At(s, w) == Pushed(task, m)
    ensures Inv(c, StepLink(c, s, w, task, m))
  {
    hide Inv, WellFormed, Grows, RecordBranch, PlaceOk, Put;
    PipeOf(c, s);
    PlaceOkOf(c, s, w);
    if m.branch.Some? {
      LinkedOk(c, s.pipe, s.mappings, task, m, c.urlOf(m.branch.value));
      var (t, r) := RecordBranch(s.mappings, task.rowId, m.branch.value, c.urlOf(m.branch.value));
      OffOk(c, s.pipe, t);
      WriteKeeps(c, s, w, t, if r.Success? then Linked(task, r.value) else Off);
    }
  }

  /** Ensuring a suite and being told it is ready means it is frozen for exactly this starter. */
  lemma ReadySuiteIsFrozen(c: Config, s: State, task: Task, m: Mapping)
    requires Inv(c, s) && m.branch.Some? && m.project.Some? && m.starter.Some?
    requires SuiteState(c, s, task, m) == Some(Done)
    ensures SuiteFrozen(s.pipe, m.taskId, m.branch.value, m.starter.value)
  {
    hide WellFormed, PlacesOk, PushesOk, PostsOk, PI.Inv, IdentityValid, RowTaken, Tables.BranchTaken;
    PipeOf(c, s);
    JobIsFrozen(c.pipeline, s.pipe, m.taskId);
  }

  lemma JobIsFrozen(c: P.Config, pipe: P.State, task: string)
    requires PI.Inv(c, pipe)
    ensures task in pipe.a.jobs && pipe.a.jobs[task].phase == Done ==> PI.Frozen(pipe.vault, task, pipe.a.jobs[task].body)
  {
    hide PI.LeasesOk, PI.VaultOk, PI.AttemptsOk, PI.OutboxOk, PI.ClarificationsOk, PI.AuthorsOk, PI.GradersOk, PI.CouriersOk,
         PI.PushesOk, IdentityValid, PI.Frozen;
  }

  lemma PipeKeeps(c: Config, s: State, e: P.Event)
    requires Inv(c, s)
    ensures Inv(c, s.(pipe := P.Step(c.pipeline, s.pipe, e)))
    ensures PT.Evolves(s.pipe, P.Step(c.pipeline, s.pipe, e))
  {
    hide Inv, PI.Inv, P.Step, PT.Evolves, Grows, WellFormed;
    PipeOf(c, s);
    PT.StepKeeps(c.pipeline, s.pipe, e);
    GrowsReflexive(s.mappings);
    GrowthKeeps(c, s, P.Step(c.pipeline, s.pipe, e), s.mappings);
    assert s.(pipe := P.Step(c.pipeline, s.pipe, e), mappings := s.mappings) == s.(pipe := P.Step(c.pipeline, s.pipe, e));
  }

  /** The invariant says nothing of reservations and asks. */
  lemma HistoryKeeps(c: Config, s: State, past: History)
    requires Inv(c, s) && past.pushes == s.past.pushes && past.posts == s.past.posts
    ensures Inv(c, s.(past := past))
  {
    hide PI.Inv, WellFormed, PlacesOk, PushesOk, PostsOk;
  }

  lemma AskKeeps(c: Config, s: State, task: Task, m: Mapping)
    requires Inv(c, s) && m.branch.Some? && m.project.Some? && m.starter.Some?
    ensures Inv(c, Asked(c, s, task, m)) && PT.Evolves(s.pipe, Asked(c, s, task, m).pipe)
  {
    hide Inv, P.Step, PT.Evolves, EnsureSuiteEvent;
    var e := EnsureSuiteEvent(c, task, m);
    PipeKeeps(c, s, e);
    HistoryKeeps(c, s.(pipe := P.Step(c.pipeline, s.pipe, e)), Asked(c, s, task, m).past);
  }

  lemma SuiteKeeps(c: Config, s: State, w: nat, task: Task, m: Mapping)
    requires Inv(c, s) && At(s, w) == Linked(task, m)
    ensures Inv(c, StepSuite(c, s, w, task, m))
  {
    hide Inv, P.Step, PT.Evolves, SuiteFrozen, SuiteState, Known;
    PlaceOkOf(c, s, w);
    if !Graded(c, task) {
      MoveKeeps(c, s, w, Posting(task, m));
    } else {
      var t := Asked(c, s, task, m);
      AskKeeps(c, s, task, m);
      if SuiteState(c, s, task, m) == Some(Done) {
        ReadySuiteIsFrozen(c, s, task, m);
        SuiteStaysFrozen(c.pipeline, s.pipe, t.pipe, m.taskId, m.branch.value, m.starter.value);
        MoveKeeps(c, t, w, Posting(task, m));
      } else {
        MoveKeeps(c, t, w, Off);
      }
    }
  }

  lemma PostKeeps(c: Config, s: State, w: nat, task: Task, m: Mapping)
    requires Inv(c, s) && At(s, w) == Posting(task, m)
    ensures Inv(c, StepPost(s, w, task, m))
  {
    hide Inv, SuiteFrozen;
    PlaceOkOf(c, s, w);
    var post := Post(task, m.taskId, m.branch.value, m.starter.value, m.url.value);
    PostedOk(c, s, post);
    MoveKeeps(c, Posted(s, post), w, Off);
  }

  lemma PostedOk(c: Config, s: State, post: Post)
    requires Inv(c, s) && PostOk(c, s.pipe, s.mappings, post)
    ensures Inv(c, Posted(s, post))
  {
    hide PI.Inv, WellFormed, PlacesOk, PushesOk, PostOk;
  }

  lemma CheckKeeps(c: Config, s: State, w: nat, task: Task, m: Mapping)
    requires Inv(c, s) && At(s, w) == Checking(task, m)
    ensures Inv(c, StepCheck(c, s, w, task, m))
  {
    hide Inv, P.Step, PT.Evolves, SuiteFrozen;
    PlaceOkOf(c, s, w);
    AskKeeps(c, s, task, m);
    MoveKeeps(c, Asked(c, s, task, m), w, Off);
  }

  lemma GoKeeps(c: Config, s: State, w: nat, prepared: Option<string>)
    requires Inv(c, s)
    ensures Inv(c, StepGo(c, s, w, prepared))
  {
    hide Inv, StepAdopt, StepAllocate, StepReserve, StepPrepare, StepPin, StepPush, StepLink, StepSuite, StepPost,
         StepCheck;
    match At(s, w)
    case Off =>
    case Adopting(task, m) => AdoptKeeps(c, s, w, task, m);
    case Allocating(task) => AllocateKeeps(c, s, w, task);
    case Reserving(task, m) => ReserveKeeps(c, s, w, task, m);
    case Intended(task, m) => PrepareKeeps(c, s, w, task, m, prepared);
    case Prepared(task, m, sha) => PinKeeps(c, s, w, task, m, sha);
    case Pinned(task, m) => PushKeeps(c, s, w, task, m);
    case Pushed(task, m) => LinkKeeps(c, s, w, task, m);
    case Linked(task, m) => SuiteKeeps(c, s, w, task, m);
    case Posting(task, m) => PostKeeps(c, s, w, task, m);
    case Checking(task, m) => CheckKeeps(c, s, w, task, m);
  }

  lemma RegisterKeeps(c: Config, s: State, rowId: string, taskId: Option<string>)
    requires Inv(c, s)
    ensures Inv(c, s.(mappings := GetOrAllocate(s.mappings, rowId, taskId).0))
  {
    hide Inv, PT.Evolves, Grows, WellFormed, GetOrAllocate;
    PipeOf(c, s);
    GetOrAllocateGrows(s.mappings, rowId, taskId);
    PT.EvolvesReflexive(s.pipe);
    var t := GetOrAllocate(s.mappings, rowId, taskId).0;
    GrowthKeeps(c, s, s.pipe, t);
    assert s.(pipe := s.pipe, mappings := t) == s.(mappings := t);
  }

  lemma RemoteKeeps(c: Config, s: State, remote: map<string, string>)
    requires Inv(c, s)
    ensures Inv(c, s.(remote := remote))
  {
    hide PI.Inv, WellFormed, PlacesOk, PushesOk, PostsOk;
  }

  lemma StepKeeps(c: Config, s: State, e: Event)
    requires Inv(c, s)
    ensures Inv(c, Step(c, s, e))
  {
    hide Inv, StepGo, P.Step, AfterLook, GetOrAllocate;
    match e
    case Grading(p) => PipeKeeps(c, s, p);
    case Register(rowId, taskId) => RegisterKeeps(c, s, rowId, taskId);
    case RemoteMoves(branch, sha) =>
      RemoteKeeps(c, s, if sha.Some? then s.remote[branch := sha.value] else s.remote - {branch});
    case Look(w, task) => LookKeeps(c, s, w, task);
    case Go(w, prepared) => GoKeeps(c, s, w, prepared);
    case Stop(w) => MoveKeeps(c, s, w, Off);
  }
}
