/** What no run of reconciles, crashes, edits and grading steps can break. */
module ReconcileTheorems {
  import opened Text
  import opened Leases
  import opened Tables
  import opened Mappings
  import opened Reconcile
  import P = Pipeline
  import PI = PipelineInvariant
  import PT = PipelineTheorems

  lemma BeginInv(c: Config, t: MappingTable)
    requires WellFormed(t)
    ensures Inv(c, Begin(t))
  {
    PT.EmptyInv(c.pipeline);
    hide PI.Inv, WellFormed;
  }

  // ----- mappings only grow -----

  lemma ReserveGrows(t: MappingTable, row: string, branch: string, project: string)
    requires WellFormed(t)
    ensures Grows(t, ReserveBranch(t, row, branch, project).0)
  {
    hide WellFormed, Grows, ReserveBranch;
    ReserveBranchGrows(t, row, branch, project);
  }

  lemma GoGrows(c: Config, s: State, w: nat, prepared: Option<string>)
    requires Inv(c, s)
    ensures Grows(s.mappings, StepGo(c, s, w, prepared).mappings)
  {
    hide Inv, PlaceOk, P.Step, WellFormed, Grows, GetOrAllocate, ReserveBranch, RecordStarter, RecordBranch, At,
         ReservedName, AfterAdopting, Directory, SuiteState, StepAllocate, StepPin, StepReserve, StepAdopt, StepLink,
         StepPrepare, StepPush, StepSuite, StepPost, StepCheck;
    PipeOf(c, s);
    PlaceOkOf(c, s, w);
    GrowsReflexive(s.mappings);
    var p := At(s, w);
    if p.Adopting? || p.Reserving? { ReservingGrows(c, s, w, p.task, p.m); }
    if p.Allocating? { AllocatingGrows(s, w, p.task); }
    if p.Prepared? { PinningGrows(s, w, p.task, p.m, p.sha); }
    if p.Pushed? {
      PushedKnows(c, s.pipe, s.mappings, p.task, p.m);
      LinkingGrows(c, s, w, p.task, p.m);
    }
    if !p.Off? && !p.Allocating? { OthersKeepMappings(c, s, w, p.task, p.m, prepared); }
  }

  lemma OthersKeepMappings(c: Config, s: State, w: nat, task: Task, m: Mapping, prepared: Option<string>)
    ensures StepPrepare(s, w, task, m, prepared).mappings == s.mappings
    ensures StepPush(s, w, task, m).mappings == s.mappings
    ensures StepSuite(c, s, w, task, m).mappings == s.mappings
    ensures StepPost(s, w, task, m).mappings == s.mappings
    ensures StepCheck(c, s, w, task, m).mappings == s.mappings
  {
    hide P.Step, SuiteState;
  }

  lemma ReservingGrows(c: Config, s: State, w: nat, task: Task, m: Mapping)
    requires WellFormed(s.mappings)
    ensures Grows(s.mappings, StepReserve(c, s, w, task, m).mappings)
    ensures Grows(s.mappings, StepAdopt(c, s, w, task, m).mappings)
  {
    hide WellFormed, Grows, ReserveBranch, ReservedName, AfterAdopting, Directory;
    GrowsReflexive(s.mappings);
    if Directory(task).Some? {
      ReserveGrows(s.mappings, task.rowId, ReservedName(c, task, m), Directory(task).value);
      if m.branch.Some? { ReserveGrows(s.mappings, task.rowId, m.branch.value, Directory(task).value); }
    }
  }

  lemma AllocatingGrows(s: State, w: nat, task: Task)
    requires WellFormed(s.mappings)
    ensures Grows(s.mappings, StepAllocate(s, w, task).mappings)
  {
    hide WellFormed, Grows, GetOrAllocate;
    GetOrAllocateGrows(s.mappings, task.rowId, task.taskId);
  }

  lemma PinningGrows(s: State, w: nat, task: Task, m: Mapping, sha: string)
    requires WellFormed(s.mappings)
    ensures Grows(s.mappings, StepPin(s, w, task, m, sha).mappings)
  {
    hide WellFormed, Grows, RecordStarter;
    RecordStarterGrows(s.mappings, task.rowId, sha);
  }

  lemma LinkingGrows(c: Config, s: State, w: nat, task: Task, m: Mapping)
    requires WellFormed(s.mappings) && (task.rowId in s.mappings ==> s.mappings[task.rowId].branch == m.branch)
    ensures Grows(s.mappings, StepLink(c, s, w, task, m).mappings)
  {
    hide WellFormed, Grows, RecordBranch;
    GrowsReflexive(s.mappings);
    if m.branch.Some? { RecordBranchGrows(s.mappings, task.rowId, m.branch.value, c.urlOf(m.branch.value)); }
  }

  lemma PushedKnows(c: Config, pipe: P.State, t: MappingTable, task: Task, m: Mapping)
    requires PlaceOk(c, pipe, t, Pushed(task, m))
    ensures task.rowId in t && t[task.rowId].branch == m.branch
  {
    hide SuiteFrozen;
  }

  lemma PutKeepsMappings()
    ensures forall s: State, w: nat, p: Place :: Put(s, w, p).mappings == s.mappings
  {}

  lemma StepGrows(c: Config, s: State, e: Event)
    requires Inv(c, s)
    ensures Grows(s.mappings, Step(c, s, e).mappings)
  {
    hide Inv, P.Step, Grows, WellFormed, StepGo, AfterLook, GetOrAllocate, Put;
    PipeOf(c, s);
    GrowsReflexive(s.mappings);
    PutKeepsMappings();
    match e
    case Go(w, prepared) => GoGrows(c, s, w, prepared);
    case Register(rowId, taskId) => GetOrAllocateGrows(s.mappings, rowId, taskId);
    case _ =>
  }

  lemma {:induction false} RunKeeps(c: Config, s: State, events: seq<Event>)
    requires Inv(c, s)
    ensures Inv(c, Run(c, s, events)) && Grows(s.mappings, Run(c, s, events).mappings)
    decreases events
  {
    hide Inv, Step, Grows;
    if events == [] {
      GrowsReflexive(s.mappings);
    } else {
      var next := Step(c, s, events[0]);
      StepKeeps(c, s, events[0]);
      StepGrows(c, s, events[0]);
      RunKeeps(c, next, events[1..]);
      GrowsTransitive(s.mappings, next.mappings, Run(c, next, events[1..]).mappings);
    }
  }

  lemma {:induction false} RunAppend(c: Config, s: State, first: seq<Event>, second: seq<Event>)
    ensures Run(c, s, first + second) == Run(c, Run(c, s, first), second)
    decreases first
  {
    hide Step;
    if first == [] {
      assert first + second == second;
    } else {
      assert (first + second)[1..] == first[1..] + second;
      RunAppend(c, Step(c, s, first[0]), first[1..], second);
    }
  }

  // ----- the theorems -----

  /** The branch intent is written ahead and once: over any run, however often reconcilers stop, cards
      are edited or the base branch moves, a row's task ID, branch, project and starter never change
      once set; no two rows share a task ID or a branch; and every push went to the row's branch with
      exactly the recorded starter. */
  lemma IntentIsWrittenOnce(c: Config, t: MappingTable, before: seq<Event>, after: seq<Event>, row: string,
      other: string, push: Push)
    requires WellFormed(t)
    ensures
      var s, s' := Run(c, Begin(t), before), Run(c, Begin(t), before + after);
      && (row in s.mappings ==> row in s'.mappings && MappingGrows(s.mappings[row], s'.mappings[row]))
      && (row in s.mappings && other in s.mappings && row != other ==>
            && s.mappings[row].taskId != s.mappings[other].taskId
            && (s.mappings[row].branch.Some? ==> s.mappings[row].branch != s.mappings[other].branch))
      && (push in s.past.pushes ==>
            push.task.rowId in s'.mappings && s'.mappings[push.task.rowId].branch == Some(push.branch)
            && s'.mappings[push.task.rowId].starter == Some(push.sha))
  {
    hide Step, PlacesOk, PostsOk, PI.Inv, Run;
    BeginInv(c, t);
    RunKeeps(c, Begin(t), before);
    RunAppend(c, Begin(t), before, after);
    var s := Run(c, Begin(t), before);
    RunKeeps(c, s, after);
  }

  /** From the moment a reconcile has written a branch address to a card that is assigned to a learner, while
      grading is configured, and ever after, the card's suite is in the vault under the same starter as the
      mapping, loads, and came from an approved and accepted suite. The assignment is the one
      that the reconcile read: the address on a card of the mentor alone is written without this gate, and the card may be
      assigned to a learner later. */
  lemma LearnersSeeOnlyFrozenSuites(c: Config, t: MappingTable, before: seq<Event>, after: seq<Event>, post: Post)
    requires WellFormed(t)
    requires Graded(c, post.task) && post in Run(c, Begin(t), before).past.posts
    ensures PublishedSoundly(c, Run(c, Begin(t), before + after), post)
  {
    hide Step, PublishedSoundly, Run;
    BeginInv(c, t);
    RunKeeps(c, Begin(t), before);
    RunAppend(c, Begin(t), before, after);
    var s := Run(c, Begin(t), before);
    RunKeeps(c, s, after);
    PostsStay(c, s, after, post);
    PublishedIsSound(c, Run(c, s, after), post);
  }

  ghost predicate PublishedSoundly(c: Config, s: State, post: Post) {
    && post.task.rowId in s.mappings && s.mappings[post.task.rowId].taskId == post.taskId
    && s.mappings[post.task.rowId].branch == Some(post.branch) && s.mappings[post.task.rowId].starter == Some(post.starter)
    && SuiteFrozen(s.pipe, post.taskId, post.branch, post.starter)
    && Load(s.pipe.vault, c.pipeline.codec, post.taskId).Success?
    && post.taskId in s.pipe.past.origin && PI.Sound(c.pipeline, s.pipe.past.origin[post.taskId])
  }

  lemma PublishedIsSound(c: Config, s: State, post: Post)
    requires Inv(c, s) && Graded(c, post.task) && post in s.past.posts
    ensures PublishedSoundly(c, s, post)
  {
    hide WellFormed, PlacesOk, PushesOk, PI.Inv, PI.Sound;
    assert PostOk(c, s.pipe, s.mappings, post);
    FrozenLoads(c.pipeline, s.pipe, post.taskId);
  }

  lemma FrozenLoads(c: P.Config, pipe: P.State, task: string)
    requires PI.Inv(c, pipe) && task in pipe.vault
    ensures Load(pipe.vault, c.codec, task).Success?
    ensures task in pipe.past.origin && PI.Sound(c, pipe.past.origin[task])
  {
    hide PI.LeasesOk, PI.AttemptsOk, PI.OutboxOk, PI.ClarificationsOk, PI.AuthorsOk, PI.GradersOk, PI.CouriersOk, PI.PushesOk,
         PI.Sound, PI.Frozen;
    assert PI.EntryOk(c, task, pipe.a.jobs[task].body.starterSha, pipe.vault[task], pipe.past.origin[task]);
  }

  lemma {:induction false} PostsStay(c: Config, s: State, events: seq<Event>, post: Post)
    requires post in s.past.posts
    ensures post in Run(c, s, events).past.posts
    decreases events
  {
    hide Step;
    if events != [] {
      PostStays(c, s, events[0], post);
      PostsStay(c, Step(c, s, events[0]), events[1..], post);
    }
  }

  lemma PostStays(c: Config, s: State, e: Event, post: Post)
    requires post in s.past.posts
    ensures post in Step(c, s, e).past.posts
  {
    hide P.Step, GetOrAllocate, AfterLook, StepGo;
    match e
    case Go(w, prepared) => PostStaysOnGo(c, s, w, prepared, post);
    case _ =>
  }

  lemma PostStaysOnGo(c: Config, s: State, w: nat, prepared: Option<string>, post: Post)
    requires post in s.past.posts
    ensures post in StepGo(c, s, w, prepared).past.posts
  {
    hide P.Step, GetOrAllocate, ReserveBranch, RecordStarter, RecordBranch, Directory, SuiteState, ReservedName,
         AfterAdopting;
  }

  // ----- for which cards anything is done -----

  /** One of the events looked at this card. */
  ghost predicate WasSeen(events: seq<Event>, task: Task) { exists w: nat :: Look(w, task) in events }

  /** What was done was done for cards that were in progress with an accepted assignee when looked at. */
  ghost predicate ForWorkable(c: Config, past: History, seen: seq<Event>) {
    && (forall r | r in past.reserved ::
          Workable(r.task) && WasSeen(seen, r.task) && Directory(r.task) == Some(r.project))
    && (forall p | p in past.pushes :: Workable(p.task) && WasSeen(seen, p.task))
    && (forall a | a in past.asks :: Workable(a.task) && WasSeen(seen, a.task) && Graded(c, a.task))
    && (forall p | p in past.posts :: Workable(p.task) && WasSeen(seen, p.task))
  }

  ghost predicate PlaceWorkable(c: Config, p: Place, seen: seq<Event>) {
    !p.Off? ==> Workable(p.task) && WasSeen(seen, p.task) && (p.Checking? ==> Graded(c, p.task))
  }

  /** A branch or project that the table did not have at the start was reserved for its row. */
  ghost predicate FromReservations(t: MappingTable, now: MappingTable, reserved: set<Reservation>) {
    && (forall row | row in now && now[row].branch.Some? ::
          || (row in t && t[row].branch == now[row].branch)
          || exists r | r in reserved :: r.task.rowId == row && Some(r.branch) == now[row].branch)
    && (forall row | row in now && now[row].project.Some? ::
          || (row in t && t[row].project == now[row].project)
          || exists r | r in reserved :: r.task.rowId == row && Some(r.project) == now[row].project)
  }

  ghost predicate Accounted(c: Config, t: MappingTable, seen: seq<Event>, s: State) {
    && ForWorkable(c, s.past, seen)
    && (forall w | w in s.places :: PlaceWorkable(c, s.places[w], seen))
    && FromReservations(t, s.mappings, s.past.reserved)
  }

  lemma SeenStays(c: Config, t: MappingTable, seen: seq<Event>, s: State, e: Event)
    requires Accounted(c, t, seen, s)
    ensures Accounted(c, t, seen + [e], s)
  {
    hide Directory, FromReservations;
    forall task: Task | WasSeen(seen, task) ensures WasSeen(seen + [e], task) {
      var w: nat :| Look(w, task) in seen;
      assert Look(w, task) in seen + [e];
    }
  }

  lemma ReservedFrom(t: MappingTable, now: MappingTable, reserved: set<Reservation>, task: Task, branch: string,
      project: string)
    requires FromReservations(t, now, reserved)
    ensures
      var (now', r) := ReserveBranch(now, task.rowId, branch, project);
      FromReservations(t, now', if r.Success? then reserved + {Reservation(task, branch, project)} else reserved)
  {
    hide BranchUsed;
    var (now', r) := ReserveBranch(now, task.rowId, branch, project);
    if r.Success? {
      var more := reserved + {Reservation(task, branch, project)};
      assert Reservation(task, branch, project) in more;
      forall row | row in now' && now'[row].branch.Some?
        ensures (row in t && t[row].branch == now'[row].branch)
          || exists q | q in more :: q.task.rowId == row && Some(q.branch) == now'[row].branch
      {
        if row != task.rowId || now[row].branch.Some? { assert row in now && now[row].branch == now'[row].branch; }
      }
      forall row | row in now' && now'[row].project.Some?
        ensures (row in t && t[row].project == now'[row].project)
          || exists q | q in more :: q.task.rowId == row && Some(q.project) == now'[row].project
      {
        if row != task.rowId || (now[row].branch.Some? && now[row].project.Some?) {
          assert row in now && now[row].project == now'[row].project;
        }
      }
    }
  }

  lemma AllocatedFrom(t: MappingTable, now: MappingTable, reserved: set<Reservation>, row: string,
      existing: Option<string>)
    requires FromReservations(t, now, reserved)
    ensures FromReservations(t, GetOrAllocate(now, row, existing).0, reserved)
  {
    hide NextId, TaskIds;
  }

  lemma RecordedFrom(t: MappingTable, now: MappingTable, reserved: set<Reservation>, row: string, starter: string,
      branch: string, url: string)
    requires FromReservations(t, now, reserved)
    ensures FromReservations(t, RecordStarter(now, row, starter).0, reserved)
    ensures (row in now ==> now[row].branch == Some(branch)) ==>
      FromReservations(t, RecordBranch(now, row, branch, url).0, reserved)
  {
    hide IsCommit, BranchUsed;
  }

  /** A step that adds a reservation at most, for the card that the reconciler works on. */
  lemma WritingAccounted(c: Config, t: MappingTable, seen: seq<Event>, s: State, w: nat, prepared: Option<string>)
    requires Accounted(c, t, seen, s) && (At(s, w).Adopting? || At(s, w).Allocating? || At(s, w).Reserving?)
    ensures Accounted(c, t, seen, StepGo(c, s, w, prepared))
  {
    hide FromReservations, GetOrAllocate, ReserveBranch, ReservedName, Directory;
    var p := At(s, w);
    if p.Allocating? { AllocatedFrom(t, s.mappings, s.past.reserved, p.task.rowId, p.task.taskId); }
    if p.Reserving? && Directory(p.task).Some? {
      ReservedFrom(t, s.mappings, s.past.reserved, p.task, ReservedName(c, p.task, p.m), Directory(p.task).value);
    }
    if p.Adopting? && p.m.branch.Some? && Directory(p.task).Some? {
      ReservedFrom(t, s.mappings, s.past.reserved, p.task, p.m.branch.value, Directory(p.task).value);
    }
  }

  lemma RecordingAccounted(c: Config, t: MappingTable, seen: seq<Event>, s: State, w: nat, prepared: Option<string>)
    requires Accounted(c, t, seen, s) && PlaceOk(c, s.pipe, s.mappings, At(s, w))
    requires At(s, w).Prepared? || At(s, w).Pushed?
    ensures Accounted(c, t, seen, StepGo(c, s, w, prepared))
  {
    hide FromReservations, RecordStarter, RecordBranch, Directory, SuiteFrozen;
    var p := At(s, w);
    if p.Prepared? { RecordedFrom(t, s.mappings, s.past.reserved, p.task.rowId, p.sha, "", ""); }
    if p.Pushed? {
      PushedKnows(c, s.pipe, s.mappings, p.task, p.m);
      RecordedFrom(
        t, s.mappings, s.past.reserved, p.task.rowId, "", p.m.branch.value, c.urlOf(p.m.branch.value));
    }
  }

  lemma ReachingAccounted(c: Config, t: MappingTable, seen: seq<Event>, s: State, w: nat, prepared: Option<string>)
    requires Accounted(c, t, seen, s)
    requires At(s, w).Intended? || At(s, w).Pinned? || At(s, w).Linked? || At(s, w).Posting? || At(s, w).Checking?
    ensures Accounted(c, t, seen, StepGo(c, s, w, prepared))
  {
    hide FromReservations, P.Step, SuiteState, Directory, EnsureSuiteEvent;
  }

  lemma EventAccounted(c: Config, t: MappingTable, seen: seq<Event>, s: State, e: Event)
    requires Inv(c, s) && Accounted(c, t, seen, s)
    ensures Accounted(c, t, seen + [e], Step(c, s, e))
  {
    hide Inv, PlaceOk, FromReservations, P.Step, GetOrAllocate, Directory, StepGo, ForWorkable;
    SeenStays(c, t, seen, s, e);
    if e.Go? {
      GoAccounted(c, t, seen + [e], s, e.w, e.prepared);
    } else if e.Register? {
      AllocatedFrom(t, s.mappings, s.past.reserved, e.rowId, e.taskId);
    } else if e.Look? {
      assert Look(e.w, e.task) in seen + [e];
    }
  }

  lemma GoAccounted(c: Config, t: MappingTable, seen: seq<Event>, s: State, w: nat, prepared: Option<string>)
    requires Inv(c, s) && Accounted(c, t, seen, s)
    ensures Accounted(c, t, seen, StepGo(c, s, w, prepared))
  {
    hide Inv, PlaceOk, Accounted, StepGo, At;
    PlaceOkOf(c, s, w);
    var p := At(s, w);
    if p.Adopting? || p.Allocating? || p.Reserving? { WritingAccounted(c, t, seen, s, w, prepared); }
    if p.Prepared? || p.Pushed? { RecordingAccounted(c, t, seen, s, w, prepared); }
    if p.Intended? || p.Pinned? || p.Linked? || p.Posting? || p.Checking? {
      ReachingAccounted(c, t, seen, s, w, prepared);
    }
    if p.Off? { OffStays(c, s, w, prepared); }
  }

  lemma OffStays(c: Config, s: State, w: nat, prepared: Option<string>)
    requires At(s, w) == Off
    ensures StepGo(c, s, w, prepared) == s
  {}

  lemma {:induction false} RunAccounted(c: Config, t: MappingTable, seen: seq<Event>, s: State, events: seq<Event>)
    requires Inv(c, s) && Accounted(c, t, seen, s)
    ensures Accounted(c, t, seen + events, Run(c, s, events))
    decreases events
  {
    hide Inv, Step, Accounted;
    if events == [] {
      assert seen + events == seen;
    } else {
      StepKeeps(c, s, events[0]);
      EventAccounted(c, t, seen, s, events[0]);
      RunAccounted(c, t, seen + [events[0]], Step(c, s, events[0]), events[1..]);
      assert seen + [events[0]] + events[1..] == seen + events;
    }
  }

  /** Over any run, every reservation, push, suite and address was made for a card that some reconciler looked
      at while it was in progress with an accepted assignee, reservations with the directory of its project and
      suites for the learner only; and a row has no branch and no project but those of the initial table and
      of its reservations. */
  lemma OnlyWorkableCards(c: Config, t: MappingTable, events: seq<Event>)
    requires WellFormed(t)
    ensures
      var s := Run(c, Begin(t), events);
      ForWorkable(c, s.past, events) && FromReservations(t, s.mappings, s.past.reserved)
  {
    hide Inv, Step, ForWorkable;
    BeginInv(c, t);
    BeginAccounted(c, t);
    RunAccounted(c, t, [], Begin(t), events);
    assert [] + events == events;
  }

  lemma BeginAccounted(c: Config, t: MappingTable)
    ensures Accounted(c, t, [], Begin(t))
  {}
}
