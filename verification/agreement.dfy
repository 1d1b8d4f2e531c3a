/** When Yonote and the recorded pull request agree. */
module Agreement {
  import opened Text
  import opened Deliveries
  import opened PullRequests
  import opened Webhook

  lemma Reachable(c: Config, api: int -> Answer, events: seq<Event>, branch: string)
    ensures Inv(c, Run(c, Begin(api), events)) && BranchOk(c, Run(c, Begin(api), events), branch)
  {
    hide Step, QueueOk, HandlersOk, BranchOk;
    BeginInv(c, api);
    RunKeeps(c, Begin(api), events);
  }

  /** The delivery is open, in nobody's hands that has handled it, and whoever handles it next writes to the branch. */
  predicate Rewrites(c: Config, s: State, branch: string, id: string) {
    && id in s.q && s.q[id].payload.Some? && AsksFor(s.q[id].payload.value, branch)
    && !Spent(s, id, s.q[id].payload.value)
    && Decision(c, s, branch, Request(s.q[id].payload.value).value.change).Some?
  }

  /** And it writes exactly what Yonote shows. */
  predicate Repairs(c: Config, s: State, branch: string, id: string) {
    && Rewrites(c, s, branch, id) && branch in s.shown
    && Some(s.shown[branch]) == Shows(Decision(c, s, branch, Request(s.q[id].payload.value).value.change))
  }

  /** With a lookup that always answers the same, outside the locked section: a branch agrees, or some open delivery
      still asks for exactly what Yonote shows; unless a delivery of it was handled before it was mapped, by its
      holder, while another handler stood at it. */
  lemma DisagreementIsRepairable(c: Config, api: int -> Answer, events: seq<Event>, branch: string)
    ensures
      var s := Run(c, Begin(api), events);
      s.past.fixed && LockFree(s) && branch !in s.past.raced ==>
        Agrees(s, branch) || exists id :: Repairs(c, s, branch, id)
  {
    hide Run, Agrees, LockFree, Repairs, Waits;
    Reachable(c, api, events, branch);
    var s := Run(c, Begin(api), events);
    InvParts(c, s);
    if LockFree(s) {
      NobodyWrites(s, branch);
      if branch in s.past.cut && branch !in s.past.lost { WaitingWrites(c, s, branch, s.past.cut[branch]); }
    }
  }

  lemma NobodyWrites(s: State, branch: string)
    requires LockFree(s)
    ensures !BeingWritten(s, branch)
  {}

  lemma WaitingWrites(c: Config, s: State, branch: string, id: string)
    requires Waits(c, s, branch, id) && (s.past.fixed ==> s.past.steady)
    ensures s.past.steady ==> Rewrites(c, s, branch, id)
    ensures s.past.fixed ==> Repairs(c, s, branch, id)
  {
    hide Spent, Request, ShouldApply, Conflicts;
  }

  /** So once every delivery is completed, it agrees. */
  lemma FixedAnswersAgree(c: Config, api: int -> Answer, events: seq<Event>, branch: string)
    requires
      var s := Run(c, Begin(api), events);
      && s.past.fixed && LockFree(s) && branch !in s.past.raced
      && forall id | id in s.q :: s.q[id].status == Completed
    ensures Agrees(Run(c, Begin(api), events), branch)
  {
    hide Run, Agrees, LockFree;
    DisagreementIsRepairable(c, api, events, branch);
  }

  /** With an API that only moves on, a branch agrees, or handling some open delivery writes to it again, or it was
      lost: its last writer showed something new and stopped when its delivery was already spent. */
  lemma SteadyDisagreement(c: Config, api: int -> Answer, events: seq<Event>, branch: string)
    ensures
      var s := Run(c, Begin(api), events);
      s.past.steady && LockFree(s) ==>
        Agrees(s, branch) || branch in s.past.lost || exists id :: Rewrites(c, s, branch, id)
  {
    hide Run, Agrees, LockFree, Rewrites, Waits;
    Reachable(c, api, events, branch);
    var s := Run(c, Begin(api), events);
    InvParts(c, s);
    if LockFree(s) {
      NobodyWrites(s, branch);
      if branch in s.past.cut && branch !in s.past.lost { WaitingWrites(c, s, branch, s.past.cut[branch]); }
    }
  }

  /** In every run, whatever the API answers: once every delivery is completed, Yonote and the database agree exactly
      on the branches that were not lost. */
  lemma AllDoneMeansAgreement(c: Config, api: int -> Answer, events: seq<Event>, branch: string)
    requires
      var s := Run(c, Begin(api), events);
      LockFree(s) && forall id | id in s.q :: s.q[id].status == Completed
    ensures
      var s := Run(c, Begin(api), events);
      Agrees(s, branch) <==> branch !in s.past.lost
  {
    hide Run, Inv, Agrees, LockFree, Decision, ShouldApply, Conflicts;
    Reachable(c, api, events, branch);
    NobodyWrites(Run(c, Begin(api), events), branch);
  }

  /** If, besides, the API only moves on and no handler of a spent delivery wrote to the branch, it agrees. */
  lemma OpenWritersAgree(c: Config, api: int -> Answer, events: seq<Event>, branch: string)
    requires
      var s := Run(c, Begin(api), events);
      && s.past.steady && LockFree(s) && branch !in s.past.late
      && forall id | id in s.q :: s.q[id].status == Completed
    ensures Agrees(Run(c, Begin(api), events), branch)
  {
    hide Run, Inv, Agrees, LockFree, Waits;
    AllDoneMeansAgreement(c, api, events, branch);
    Reachable(c, api, events, branch);
  }

  /** A lost branch stays lost, and so disagrees, until it is written to again. */
  lemma LostStays(c: Config, api: int -> Answer, events: seq<Event>, e: Event, branch: string)
    ensures
      var s := Run(c, Begin(api), events);
      var s' := Step(c, s, e);
      branch in s.past.lost ==>
        && !Agrees(s, branch)
        && (branch in s'.past.lost || (e.Write? && At(s', e.w).Written? && AsksFor(At(s', e.w).payload, branch)))
  {
    hide Run, Step, Agrees, Waits, BeingWritten;
    Reachable(c, api, events, branch);
    if branch in Run(c, Begin(api), events).past.lost { LossStays(c, Run(c, Begin(api), events), e, branch); }
  }

  lemma LossStays(c: Config, s: State, e: Event, branch: string)
    requires branch in s.past.lost
    ensures
      var s' := Step(c, s, e);
      branch in s'.past.lost || (e.Write? && At(s', e.w).Written? && AsksFor(At(s', e.w).payload, branch))
  {
    hide Request, ClaimDelivery, ClaimNextDelivery, CompleteDelivery, ReleaseDelivery, IsNext, TopRow, Follows, StepWrite,
      StepComplete, Leave, AsksFor;
    if e.Write? {
      WritingLoss(c, s, e.w, branch);
    } else if e.Complete? && At(s, e.w).Handled? {
      CompletingCloses(c, s, e.w, e.now);
    } else if e.Fail? && At(s, e.w) != Idle {
      LeavingLoses(s.(q := ReleaseDelivery(s.q, At(s, e.w).id, At(s, e.w).token, e.delay, e.now).0), e.w);
    } else if e.Crash? {
      LeavingLoses(s, e.w);
    } else if e.Complete? {
      assert StepComplete(c, s, e.w, e.now) == s by { NotHandledStays(c, s, e.w, e.now); }
    }
  }

  lemma NotHandledStays(c: Config, s: State, w: nat, now: real)
    requires !At(s, w).Handled?
    ensures StepComplete(c, s, w, now) == s
  {}

  lemma LeavingLoses(s: State, w: nat)
    ensures s.past.lost <= Leave(s, w).past.lost
  {
    hide Request, IsNews, Spent;
  }

  lemma WritingLoss(c: Config, s: State, w: nat, branch: string)
    requires branch in s.past.lost
    ensures
      var t := StepWrite(c, s, w);
      branch in t.past.lost || (At(t, w).Written? && AsksFor(At(t, w).payload, branch))
  {
    hide Request, Decision, LockFree, Rivals, Spent, Holds;
  }

  // ----- an open delivery keeps what it carries -----

  /** One step loses no open delivery: it can only leave the table by being completed, and it is completed only by a
      handler that presents its current token and has handled its payload or found no mapping for it. */
  lemma OpenDeliveriesStay(c: Config, api: int -> Answer, events: seq<Event>, e: Event, id: string)
    ensures
      var s := Run(c, Begin(api), events);
      var s' := Step(c, s, e);
      id in s.q && s.q[id].status != Completed ==>
        || (id in s'.q && s'.q[id].status != Completed && s'.q[id].event == s.q[id].event && s'.q[id].payload == s.q[id].payload)
        || (e.Complete? && At(s, e.w).Handled? && At(s, e.w).id == id && Holds(s.q, id, At(s, e.w).token)
            && Some(At(s, e.w).payload) == s.q[id].payload && (At(s, e.w).blindly || Done(s, At(s, e.w).payload)))
  {
    hide Inv, Step, Run, BranchOk;
    Reachable(c, api, events, "");
    OpenStays(c, Run(c, Begin(api), events), e, id);
  }

  predicate StaysOpen(q: Queue<Payload>, q': Queue<Payload>, id: string) {
    id in q && q[id].status != Completed ==>
      id in q' && q'[id].status != Completed && q'[id].event == q[id].event && q'[id].payload == q[id].payload
  }

  lemma OpenStays(c: Config, s: State, e: Event, id: string)
    requires Inv(c, s)
    ensures
      var s' := Step(c, s, e);
      || StaysOpen(s.q, s'.q, id)
      || (e.Complete? && At(s, e.w).Handled? && At(s, e.w).id == id && Holds(s.q, id, At(s, e.w).token)
          && Some(At(s, e.w).payload) == s.q[id].payload && (At(s, e.w).blindly || Done(s, At(s, e.w).payload)))
  {
    hide Inv, Step, Done, Holds, StaysOpen, CompleteDelivery;
    if e.Complete? && At(s, e.w).Handled? {
      var h := At(s, e.w);
      HandlerOkOf(c, s, e.w);
      HandledHolds(c, s, h);
      CompletingCloses(c, s, e.w, e.now);
      CompletingKeeps(s.q, h.id, h.token, e.now, c.retention, id);
      StepIs(c, s, e.w, e.now);
    } else {
      InvParts(c, s);
      OthersKeep(c, s, e, id);
    }
  }

  lemma CompletingKeeps(q: Queue<Payload>, id: string, token: string, now: real, retention: nat, o: string)
    ensures StaysOpen(q, CompleteDelivery(q, id, token, now, retention).0, o) || (o == id && Holds(q, id, token))
  {
    hide Kept;
  }

  lemma OthersKeep(c: Config, s: State, e: Event, id: string)
    requires QueueOk(s) && !(e.Complete? && At(s, e.w).Handled?)
    ensures StaysOpen(s.q, Step(c, s, e).q, id)
  {
    hide Request, LockFree, Decision, QueueOk, StepReceive, StepRetry, ReleaseDelivery, StaysOpen, Spent, IsNews, Rivals;
    if e.Receive? {
      ReceivingKeeps(c, s, e, id);
    } else if e.Retry? {
      RetryingKeeps(c, s, e, id);
    } else if e.Fail? && At(s, e.w) != Idle {
      ReleasingKeeps(s.q, At(s, e.w).id, At(s, e.w).token, e.delay, e.now, id);
    } else {
      assert Step(c, s, e).q == s.q;
      SameStaysOpen(s.q, id);
    }
  }

  lemma SameStaysOpen(q: Queue<Payload>, id: string)
    ensures StaysOpen(q, q, id)
  {}

  lemma ReceivingKeeps(c: Config, s: State, e: Event, id: string)
    requires QueueOk(s) && e.Receive?
    ensures StaysOpen(s.q, StepReceive(c, s, e).q, id)
  {
    hide EventName, TopRow;
  }

  lemma RetryingKeeps(c: Config, s: State, e: Event, id: string)
    requires QueueOk(s) && e.Retry?
    ensures StaysOpen(s.q, StepRetry(c, s, e.w, e.now, e.token, e.next).q, id)
  {}

  lemma ReleasingKeeps(q: Queue<Payload>, id: string, token: string, delay: real, now: real, o: string)
    ensures StaysOpen(q, ReleaseDelivery(q, id, token, delay, now).0, o)
  {}

  lemma HandledHolds(c: Config, s: State, h: Handler)
    requires HandlerOk(c, s, h)
    ensures h.Handled? ==>
      (h.blindly || Done(s, h.payload)) && (Holds(s.q, h.id, h.token) ==> s.q[h.id].payload == Some(h.payload))
  {
    hide Done, Holds, WritingOk, Request;
  }

  // ----- running a few steps -----

  lemma RunsOn(c: Config, s: State, events: seq<Event>)
    requires events != []
    ensures Run(c, s, events) == Run(c, Step(c, s, events[0]), events[1..])
    ensures events[1..] == [] ==> Run(c, Step(c, s, events[0]), events[1..]) == Step(c, s, events[0])
  {
    hide Step;
  }

  lemma StepIs(c: Config, s: State, w: nat, now: real)
    ensures Step(c, s, Write(w)) == StepWrite(c, s, w)
    ensures Step(c, s, Record(w)) == StepRecord(s, w)
    ensures Step(c, s, Complete(w, now)) == StepComplete(c, s, w, now)
    ensures Step(c, s, Crash(w)) == Leave(s, w)
  {
    hide StepWrite, StepRecord, StepComplete, Leave;
  }

  lemma MappingIs(c: Config, s: State, branch: string)
    ensures Step(c, s, MapBranch(branch)) == s.(mapped := s.mapped + {branch})
  {}

  lemma MovingIs(c: Config, s: State, number: int, answer: Answer)
    ensures Step(c, s, ApiMoves(number, answer)) == StepApi(c, s, number, answer)
  {
    hide StepApi;
  }

  lemma RetryIs(c: Config, s: State, w: nat, now: real, token: string, next: Option<string>)
    ensures Step(c, s, Retry(w, now, token, next)) == StepRetry(c, s, w, now, token, next)
  {
    hide StepRetry;
  }

  lemma RunFour(c: Config, s: State, a: Event, b: Event, d: Event, e: Event)
    ensures Run(c, s, [a, b, d, e]) == Step(c, Step(c, Step(c, Step(c, s, a), b), d), e)
  {
    hide Step, Run;
    var events := [a, b, d, e];
    var s1 := Step(c, s, a);
    var s2 := Step(c, s1, b);
    RunsOn(c, s, events);
    RunsOn(c, s1, events[1..]);
    RunsOn(c, s2, events[2..]);
    RunsOn(c, Step(c, s2, d), events[3..]);
    assert events[1..][1..] == events[2..] && events[2..][1..] == events[3..] && events[3..][1..] == [];
  }

  lemma RunTwoMore(c: Config, s: State, a: Event, b: Event, rest: seq<Event>)
    ensures Run(c, s, [a, b] + rest) == Run(c, Step(c, Step(c, s, a), b), rest)
  {
    hide Step, Run;
    var events := [a, b] + rest;
    RunsOn(c, s, events);
    RunsOn(c, Step(c, s, a), events[1..]);
    assert events[1..][1..] == rest;
  }

  lemma {:induction false} RunsThrough(c: Config, s: State, a: seq<Event>, b: seq<Event>)
    ensures Run(c, s, a + b) == Run(c, Run(c, s, a), b)
    decreases a
  {
    hide Step;
    if a == [] {
      assert a + b == b;
    } else {
      assert (a + b)[1..] == a[1..] + b;
      RunsThrough(c, Step(c, s, a[0]), a[1..], b);
    }
  }

  // ----- repairing -----

  function RepairScript(w: nat, now: real, token: string, id: string): seq<Event> {
    [Retry(w, now, token, Some(id)), Write(w), Record(w), Complete(w, now)]
  }

  /** Handling the open delivery once without interruption makes the branch agree. */
  lemma RetryRepairs(c: Config, s: State, w: nat, now: real, token: string, id: string, branch: string)
    requires LockFree(s) && At(s, w) == Idle && token !in s.issued
    requires branch in s.mapped && Rewrites(c, s, branch, id) && IsNext(s.q, now, id)
    ensures Agrees(Run(c, s, RepairScript(w, now, token, id)), branch)
  {
    hide Decide, CompleteDelivery, Run, Step, IsNext, Spent;
    var payload := s.q[id].payload.value;
    var change := Request(payload).value.change;
    RetryEnds(c, s, w, now, token, id, branch, change);
  }

  /** What one retry makes of a delivery: the decision is written and recorded, or nothing is. */
  lemma RetryEnds(c: Config, s: State, w: nat, now: real, token: string, id: string, branch: string, change: Change)
    requires LockFree(s) && At(s, w) == Idle && token !in s.issued && branch in s.mapped && IsNext(s.q, now, id)
    requires id in s.q && s.q[id].payload.Some? && Request(s.q[id].payload.value) == Some(Ask(branch, change))
    ensures
      var t, write := Run(c, s, RepairScript(w, now, token, id)), Decision(c, s, branch, change);
      && t.mapped == s.mapped
      && (write.Some? ==> t.record == s.record[branch := write.value] && t.shown == s.shown[branch := CardOf(write.value)])
      && (write.None? ==> t.record == s.record && t.shown == s.shown)
      && (id in t.q ==> t.q[id].status == Completed)
  {
    hide Decide, CompleteDelivery, Run, Step, IsNext, Request, StepRetry, StepWrite, StepRecord, StepComplete, LockFree;
    var payload, write := s.q[id].payload.value, Decision(c, s, branch, change);
    var s1 := StepRetry(c, s, w, now, token, Some(id));
    RetryGets(c, s, w, now, token, id);
    var s2 := StepWrite(c, s1, w);
    var s3 := StepRecord(s2, w);
    HandlingWrites(c, s1, w, id, token, payload, branch, change);
    var s4 := StepComplete(c, s3, w, now);
    CompletingCloses(c, s3, w, now);
    ClaimedThenClosed(s.q, now, c.lease, token, id, c.retention);
    RetryIs(c, s, w, now, token, Some(id));
    StepIs(c, s1, w, now);
    StepIs(c, s2, w, now);
    StepIs(c, s3, w, now);
    RunFour(c, s, Retry(w, now, token, Some(id)), Write(w), Record(w), Complete(w, now));
  }

  lemma RetryGets(c: Config, s: State, w: nat, now: real, token: string, id: string)
    requires LockFree(s) && At(s, w) == Idle && token !in s.issued && IsNext(s.q, now, id)
    requires id in s.q && s.q[id].payload.Some?
    ensures
      var t := StepRetry(c, s, w, now, token, Some(id));
      && LockFree(t) && At(t, w) == Got(id, token, s.q[id].payload.value)
      && t.q == ClaimNextDelivery(s.q, now, c.lease, token, Some(id))
      && SameRecords(s, t) && t.past == s.past && t.handlers == s.handlers[w := At(t, w)]
  {
    hide IsNext, ClaimNextDelivery;
  }

  lemma HandlingWrites(
    c: Config, s: State, w: nat, id: string, token: string, payload: Payload, branch: string, change: Change)
    requires LockFree(s) && At(s, w) == Got(id, token, payload) && branch in s.mapped
    requires Request(payload) == Some(Ask(branch, change))
    ensures
      var t, write := StepRecord(StepWrite(c, s, w), w), Decision(c, s, branch, change);
      && At(t, w) == Handled(id, token, payload, false) && t.handlers == s.handlers[w := At(t, w)]
      && t.q == s.q && t.mapped == s.mapped && t.api == s.api && t.issued == s.issued
      && t.past.steady == s.past.steady
      && (write.None? ==> t == StepWrite(c, s, w))
      && (write.Some? ==> t.record == s.record[branch := write.value] && t.shown == s.shown[branch := CardOf(write.value)])
      && (write.None? ==> t.record == s.record && t.shown == s.shown)
  {
    hide Decide, Request, Spent;
  }

  lemma CompletingCloses(c: Config, s: State, w: nat, now: real)
    requires At(s, w).Handled?
    ensures
      var h, t := At(s, w), StepComplete(c, s, w, now);
      && t.q == CompleteDelivery(s.q, h.id, h.token, now, c.retention).0 && SameRecords(s, t)
      && t.handlers == s.handlers[w := Idle] && t.past == s.past && t.issued == s.issued
  {
    hide CompleteDelivery;
  }

  lemma ClaimedThenClosed(q: Queue<Payload>, now: real, lease: real, token: string, id: string, retention: nat)
    requires IsNext(q, now, id)
    ensures
      var end := CompleteDelivery(ClaimNextDelivery(q, now, lease, token, Some(id)), id, token, now, retention).0;
      id in end ==> end[id].status == Completed
  {
    hide Kept;
  }

  // ----- what a writer with a spent delivery loses -----

  /** From any state: a handler that writes to Yonote and then stops leaves its branch apart exactly if it wrote
      something new, and loses it exactly if, besides, its delivery was spent. */
  lemma StoppedWriterLosesExactly(c: Config, s: State, x: nat, branch: string, change: Change)
    requires LockFree(s) && At(s, x).Got? && Request(At(s, x).payload) == Some(Ask(branch, change)) && branch in s.mapped
    requires Decision(c, s, branch, change).Some?
    ensures
      var t, news := Run(c, s, [Write(x), Crash(x)]), IsNews(s, branch, Decision(c, s, branch, change).value);
      && (Agrees(t, branch) <==> !news)
      && (branch in t.past.lost <==> news && Spent(s, At(s, x).id, At(s, x).payload))
      && LockFree(t) && t.q == s.q && t.mapped == s.mapped && t.past.steady == s.past.steady
  {
    hide Request, Live, Holds, Decision, Spent, Run, Step;
    var h, w := At(s, x), StepWrite(c, s, x);
    assert w.handlers == s.handlers[x := Written(h.id, h.token, h.payload, Decision(c, s, branch, change).value)];
    SameSpent(s, Put(w, x, Idle), x, h.id, h.payload);
    StepIs(c, s, x, 0.0);
    StepIs(c, w, x, 0.0);
    RunsOn(c, s, [Write(x), Crash(x)]);
    RunsOn(c, w, [Write(x), Crash(x)][1..]);
  }

  lemma SameSpent(s: State, t: State, x: nat, id: string, payload: Payload)
    requires t.q == s.q && t.handlers == s.handlers[x := Idle] && !At(s, x).Handled?
    ensures Spent(t, id, payload) <==> Spent(s, id, payload)
  {
    hide Live, Holds;
    if HeldHandled(s, id) {
      var v :| v in s.handlers && s.handlers[v].Handled? && s.handlers[v].id == id && Holds(s.q, id, s.handlers[v].token);
      assert v != x && v in t.handlers && t.handlers[v] == s.handlers[v];
    }
  }

  /** From every reachable state in which a handler holds a delivery that it handled before the branch was mapped,
      while an older handler still has it: if the one completes it, the branch is mapped, and the older one writes to
      Yonote and crashes, then the delivery is closed and the branch is lost. */
  lemma OvertakenLoses(
    c: Config, api: int -> Answer, events: seq<Event>, v: nat, x: nat, now: real, id: string, token: string,
    older: string, payload: Payload)
    requires
      var s := Run(c, Begin(api), events);
      && LockFree(s) && v != x && At(s, v) == Handled(id, token, payload, true) && Holds(s.q, id, token)
      && At(s, x) == Got(id, older, payload) && Request(payload).Some? && Request(payload).value.branch !in s.mapped
    ensures
      var s, b := Run(c, Begin(api), events), Request(payload).value.branch;
      var t := Run(c, s, [Complete(v, now), MapBranch(b)] + [Write(x), Crash(x)]);
      && b in t.mapped && LockFree(t) && !Agrees(t, b) && b in t.past.lost
      && (id in t.q ==> t.q[id].status == Completed)
      && (forall o | o in t.q && o != id :: o in s.q && t.q[o] == s.q[o])
  {
    hide Run, Step, Inv, Request, Agrees, LockFree, CompleteDelivery, Holds, StepComplete, StepWrite, Leave, BranchOk,
      Decision, IsNews;
    var s, b, change := Run(c, Begin(api), events), Request(payload).value.branch, Request(payload).value.change;
    Reachable(c, api, events, b);
    var s1 := StepComplete(c, s, v, now);
    CompletingCloses(c, s, v, now);
    ClosedForGood(s.q, id, token, now, c.retention);
    var s2 := s1.(mapped := s1.mapped + {b});
    UnmappedIsEmpty(c, s, b);
    StaysFree(s, s2, v);
    FirstIsNews(c, s2, b, change);
    StoppedWriterLosesExactly(c, s2, x, b, change);
    StepIs(c, s, v, now);
    MappingIs(c, s1, b);
    RunTwoMore(c, s, Complete(v, now), MapBranch(b), [Write(x), Crash(x)]);
  }

  lemma StaysFree(s: State, t: State, w: nat)
    requires LockFree(s) && (t.handlers == s.handlers || t.handlers == s.handlers[w := Idle])
    ensures LockFree(t)
  {}

  lemma FirstIsNews(c: Config, s: State, b: string, change: Change)
    requires b !in s.record
    ensures Decision(c, s, b, change) == Some(change) && IsNews(s, b, change)
  {}

  lemma ClosedForGood(q: Queue<Payload>, id: string, token: string, now: real, retention: nat)
    requires Holds(q, id, token)
    ensures
      var end := CompleteDelivery(q, id, token, now, retention).0;
      && (id in end ==> end[id].status == Completed)
      && forall o | o in end && o != id :: o in q && end[o] == q[o]
  {
    hide Kept;
  }

  function Overtaking(c: Config, payload: Payload): seq<Event> {
    [Receive(0, 0.0, "first", 1, "delivery", payload), Retry(1, c.lease, "second", Some("delivery")), Write(1)]
  }

  lemma OvertakingClaims(c: Config, api: int -> Answer, payload: Payload)
    requires 0.0 < c.lease
    ensures
      var e := Overtaking(c, payload);
      var s := Step(c, Step(c, Begin(api), e[0]), e[1]);
      && s.handlers == map[0 := Got("delivery", "first", payload), 1 := Got("delivery", "second", payload)]
      && Holds(s.q, "delivery", "second") && s.q.Keys == {"delivery"} && s.mapped == {}
  {
    hide EventName;
    var e := Overtaking(c, payload);
    var s := Step(c, Begin(api), e[0]);
    var d := Delivery(
      Processing, Some(EventName(payload)), Some(payload), Some(c.lease), Some("first"), 0.0, 0.0, None, 1);
    assert s.q == map["delivery" := d] && s.handlers == map[0 := Got("delivery", "first", payload)];
    assert IsNext(s.q, c.lease, "delivery");
  }

  /** Such a state is reached: a delivery is claimed, its lease runs out, and another handler takes it over and
      handles it before the branch is mapped. */
  lemma OvertakingHappens(c: Config, api: int -> Answer, payload: Payload)
    requires 0.0 < c.lease && Request(payload).Some?
    ensures
      var s := Run(c, Begin(api), Overtaking(c, payload));
      && LockFree(s) && At(s, 1) == Handled("delivery", "second", payload, true) && Holds(s.q, "delivery", "second")
      && At(s, 0) == Got("delivery", "first", payload) && s.mapped == {} && s.q.Keys == {"delivery"}
  {
    hide Step, Request, Holds;
    var e := Overtaking(c, payload);
    OvertakingClaims(c, api, payload);
    var s1 := Step(c, Begin(api), e[0]);
    var s2 := Step(c, s1, e[1]);
    StepIs(c, s2, 1, 0.0);
    RunsOn(c, Begin(api), e);
    RunsOn(c, s1, e[1..]);
    RunsOn(c, s2, e[2..]);
  }

  /** So there is a run that closes every delivery and leaves Yonote with a pull request that the database lacks. */
  lemma OvertakenBranchesDisagree(c: Config, api: int -> Answer, payload: Payload)
    requires 0.0 < c.lease && Request(payload).Some?
    ensures
      var b := Request(payload).value.branch;
      var s := Run(c, Begin(api), Overtaking(c, payload) + ([Complete(1, c.lease), MapBranch(b)] + [Write(0), Crash(0)]));
      && LockFree(s) && b in s.mapped && b in s.past.lost && !Agrees(s, b)
      && (forall id | id in s.q :: s.q[id].status == Completed)
  {
    hide Run, Request, LockFree, Agrees, Overtaking, Holds;
    var b, first := Request(payload).value.branch, Overtaking(c, payload);
    OvertakingHappens(c, api, payload);
    OvertakenLoses(c, api, first, 1, 0, c.lease, "delivery", "second", "first", payload);
    RunsThrough(c, Begin(api), first, [Complete(1, c.lease), MapBranch(b)] + [Write(0), Crash(0)]);
  }

  // ----- answers that move on -----

  /** From any state in which one handler holds a delivery that it has handled, and an older handler still has it, and
      it conflicts with the record: if the one completes it, the API moves, and the older one writes and crashes, the
      branch is lost exactly if the answer is news to the record and shows something else. */
  lemma MovedAnswerLoses(
    c: Config, s: State, v: nat, x: nat, now: real, id: string, token: string, older: string, payload: Payload,
    answer: Answer)
    requires c.lookup && LockFree(s) && v != x && At(s, v) == Handled(id, token, payload, false) && Holds(s.q, id, token)
    requires At(s, x) == Got(id, older, payload) && Request(payload).Some?
    requires
      var Ask(b, change) := Request(payload).value;
      b in s.mapped && Conflicts(RecordOf(s, b), change) && ShouldApply(RecordOf(s, b), Resolved(change.number, answer), true)
    ensures
      var Ask(b, change) := Request(payload).value;
      var t := Run(c, s, [Complete(v, now), ApiMoves(change.number, answer)] + [Write(x), Crash(x)]);
      && (Agrees(t, b) <==> answer.state == s.record[b].state)
      && (b in t.past.lost <==> answer.state != s.record[b].state)
      && LockFree(t) && b in t.mapped && (t.past.steady <==> s.past.steady && Follows(s.api(change.number), answer))
      && (id in t.q ==> t.q[id].status == Completed)
      && (forall o | o in t.q && o != id :: o in s.q && t.q[o] == s.q[o])
  {
    hide Run, Step, Request, Agrees, LockFree, CompleteDelivery, Holds, StepComplete, StepWrite, Follows, HeldHandled;
    var Ask(b, change) := Request(payload).value;
    var s1 := StepComplete(c, s, v, now);
    CompletingCloses(c, s, v, now);
    ClosedForGood(s.q, id, token, now, c.retention);
    var s2 := StepApi(c, s1, change.number, answer);
    StaysFree(s, s2, v);
    assert Decision(c, s2, b, change) == Some(Resolved(change.number, answer));
    StoppedWriterLosesExactly(c, s2, x, b, change);
    StepIs(c, s, v, now);
    MovingIs(c, s1, change.number, answer);
    RunTwoMore(c, s, Complete(v, now), ApiMoves(change.number, answer), [Write(x), Crash(x)]);
  }

  /** A pull request that is opened and, in the same second, drafted; the API knows it as opened. */
  const OPENED := PullRequest(true, "task", Opened, false, false, Some(1), Some(5.0))
  const DRAFTED := PullRequest(true, "task", ConvertedToDraft, true, false, Some(1), Some(5.0))

  function Opening(): seq<Event> {
    [MapBranch("task"), Receive(0, 0.0, "first", 1, "opened", OPENED), Write(0), Record(0), Complete(0, 0.0)]
  }

  function Drafting(c: Config): seq<Event> {
    [Receive(1, 0.0, "second", 2, "drafted", DRAFTED), Retry(2, c.lease, "third", Some("drafted")), Write(2)]
  }

  ghost predicate IsOpened(s: State, api: int -> Answer) {
    && s.mapped == {"task"} && s.record == map["task" := Change(1, Review, 5.0)] && s.api == api && s.past.steady
    && s.handlers == map[0 := Idle] && s.issued == {"first"}
    && (forall id | id in s.q :: id == "opened" && s.q[id].status == Completed && s.q[id].rowid == 1)
  }

  lemma OpeningClaims(c: Config, api: int -> Answer)
    ensures
      var e := Opening();
      var s := Step(c, Step(c, Begin(api), e[0]), e[1]);
      && s.mapped == {"task"} && s.record == map[] && s.api == api && s.past.steady && s.issued == {"first"}
      && s.handlers == map[0 := Got("opened", "first", OPENED)] && Holds(s.q, "opened", "first")
      && (forall id | id in s.q :: id == "opened" && s.q[id].rowid == 1)
  {}

  lemma OpeningRuns(c: Config, s: State)
    ensures
      var e := Opening();
      Run(c, s, e) == Step(c, Step(c, Step(c, Step(c, Step(c, s, e[0]), e[1]), e[2]), e[3]), e[4])
  {
    hide Run, Step;
    var e := Opening();
    assert e == [e[0], e[1]] + [e[2], e[3], e[4]];
    RunTwoMore(c, s, e[0], e[1], [e[2], e[3], e[4]]);
    var t := Step(c, Step(c, s, e[0]), e[1]);
    assert [e[2], e[3], e[4]] == [e[2], e[3]] + [e[4]];
    RunTwoMore(c, t, e[2], e[3], [e[4]]);
    RunsOn(c, Step(c, Step(c, t, e[2]), e[3]), [e[4]]);
    assert [e[4]][1..] == [];
  }

  lemma OpeningRecords(c: Config, api: int -> Answer)
    ensures IsOpened(Run(c, Begin(api), Opening()), api)
  {
    hide Run, Step, StepWrite, StepRecord, StepComplete, CompleteDelivery, Holds;
    var e := Opening();
    OpeningClaims(c, api);
    var s1 := Step(c, Begin(api), e[0]);
    var s2 := Step(c, s1, e[1]);
    var change := Change(1, Review, 5.0);
    assert Decision(c, s2, "task", change) == Some(change);
    HandlingWrites(c, s2, 0, "opened", "first", OPENED, "task", change);
    var s3 := StepWrite(c, s2, 0);
    var s4 := StepRecord(s3, 0);
    CompletingCloses(c, s4, 0, 0.0);
    ClosedForGood(s4.q, "opened", "first", 0.0, c.retention);
    ClosedKeepsRow(s4.q, "opened", "first", 0.0, c.retention);
    StepIs(c, s2, 0, 0.0);
    StepIs(c, s3, 0, 0.0);
    StepIs(c, s4, 0, 0.0);
    OpeningRuns(c, Begin(api));
  }

  lemma ClosedKeepsRow(q: Queue<Payload>, id: string, token: string, now: real, retention: nat)
    requires Holds(q, id, token)
    ensures
      var end := CompleteDelivery(q, id, token, now, retention).0;
      id in end ==> end[id].rowid == q[id].rowid
  {
    hide Kept;
  }

  lemma DraftingClaims(c: Config, s: State, api: int -> Answer)
    requires IsOpened(s, api)
    ensures
      var t := Step(c, s, Drafting(c)[0]);
      && t.mapped == s.mapped && t.record == s.record && t.api == s.api && t.past == s.past
      && t.issued == {"first", "second"} && t.handlers == map[0 := Idle, 1 := Got("drafted", "second", DRAFTED)]
      && "drafted" in t.q && t.q["drafted"].payload == Some(DRAFTED)
      && (0.0 < c.lease ==> IsNext(t.q, c.lease, "drafted"))
      && (forall id | id in t.q && id != "drafted" :: t.q[id].status == Completed)
  {}

  lemma DraftingIsTakenOver(c: Config, s: State, api: int -> Answer)
    requires IsOpened(s, api) && c.lookup && 0.0 < c.lease && api(1) == Answer(Review, 5.0)
    ensures
      var t := Run(c, s, Drafting(c));
      && LockFree(t) && At(t, 2) == Handled("drafted", "third", DRAFTED, false) && Holds(t.q, "drafted", "third")
      && At(t, 1) == Got("drafted", "second", DRAFTED) && t.mapped == s.mapped && t.record == s.record
      && t.api == api && t.past.steady
      && (forall id | id in t.q && id != "drafted" :: t.q[id].status == Completed)
  {
    hide Run, Step, StepRetry, StepWrite, IsNext;
    var e := Drafting(c);
    var s1 := Step(c, s, e[0]);
    DraftingClaims(c, s, api);
    RetryGets(c, s1, 2, c.lease, "third", "drafted");
    RetryIs(c, s1, 2, c.lease, "third", Some("drafted"));
    var s2 := StepRetry(c, s1, 2, c.lease, "third", Some("drafted"));
    var change := Change(1, InProgress, 5.0);
    assert Decision(c, s2, "task", change) == None;
    HandlingWrites(c, s2, 2, "drafted", "third", DRAFTED, "task", change);
    ClaimedIsHeld(s1.q, c.lease, c.lease, "third", "drafted");
    StepIs(c, s2, 2, 0.0);
    RunsOn(c, s, e); RunsOn(c, s1, e[1..]); RunsOn(c, s2, e[2..]);
  }

  lemma ClaimedIsHeld(q: Queue<Payload>, now: real, lease: real, token: string, id: string)
    requires IsNext(q, now, id)
    ensures
      var q' := ClaimNextDelivery(q, now, lease, token, Some(id));
      Holds(q', id, token) && forall o | o in q' && o != id :: o in q && q'[o] == q[o]
  {}

  function MovingRun(c: Config): seq<Event> {
    Opening() + (Drafting(c) + ([Complete(2, c.lease), ApiMoves(1, Answer(Merged, 9.0))] + [Write(1), Crash(1)]))
  }

  /** So an API that only moves on is not enough: this run closes every delivery, and Yonote shows a merge while the
      record is still in review. */
  lemma MovedAnswersDisagree(c: Config, api: int -> Answer)
    requires c.lookup && 0.0 < c.lease && api(1) == Answer(Review, 5.0)
    ensures
      var s := Run(c, Begin(api), MovingRun(c));
      && s.past.steady && LockFree(s) && "task" in s.mapped && "task" in s.past.lost && !Agrees(s, "task")
      && (forall id | id in s.q :: s.q[id].status == Completed)
  {
    hide Run, LockFree, Agrees, Opening, Drafting, Holds, IsOpened;
    var last := [Complete(2, c.lease), ApiMoves(1, Answer(Merged, 9.0))] + [Write(1), Crash(1)];
    OpeningRecords(c, api);
    var s := Run(c, Begin(api), Opening());
    RunsThrough(c, Begin(api), Opening(), Drafting(c) + last);
    DraftingIsTakenOver(c, s, api);
    var t := Run(c, s, Drafting(c));
    RunsThrough(c, s, Drafting(c), last);
    OpenedRecord(s, api);
    MovedAnswerLoses(c, t, 2, 1, c.lease, "drafted", "third", "second", DRAFTED, Answer(Merged, 9.0));
  }

  lemma OpenedRecord(s: State, api: int -> Answer)
    requires IsOpened(s, api)
    ensures s.mapped == {"task"} && s.record == map["task" := Change(1, Review, 5.0)]
  {}

  // ----- answers that go back -----

  /** An answer resolves a conflict, its handler writes to Yonote and crashes, the API gives another answer, and the
      delivery is retried: the branch agrees in the end exactly if the new answer is applied too, or the first one
      showed what is recorded. So it does whenever the new answer follows the first. */
  lemma AnswersThatGoBackLose(
    c: Config, s: State, w: nat, v: nat, now: real, id: string, older: string, token: string, payload: Payload,
    answer: Answer)
    requires c.lookup && LockFree(s) && At(s, w) == Got(id, older, payload) && Request(payload).Some?
    requires At(s, v) == Idle && token !in s.issued && IsNext(s.q, now, id)
    requires id in s.q && s.q[id].payload == Some(payload)
    requires
      var Ask(b, change) := Request(payload).value;
      && b in s.mapped && Conflicts(RecordOf(s, b), change) && Agrees(s, b)
      && ShouldApply(RecordOf(s, b), Resolved(change.number, s.api(change.number)), true)
    ensures
      var Ask(b, change) := Request(payload).value;
      var first, second := Resolved(change.number, s.api(change.number)), Resolved(change.number, answer);
      var t := Run(c, s, [Write(w), Crash(w), ApiMoves(change.number, answer)] + RepairScript(v, now, token, id));
      && (id in t.q ==> t.q[id].status == Completed)
      && (Agrees(t, b) <==> ShouldApply(RecordOf(s, b), second, true) || CardOf(first) == CardOf(s.record[b]))
      && (Follows(s.api(change.number), answer) ==> Agrees(t, b))
  {
    hide Run, Step, IsNext, Request, StepWrite, Leave, LockFree, RepairScript;
    var Ask(b, change) := Request(payload).value;
    var s1 := StepWrite(c, s, w);
    var s2 := Leave(s1, w);
    var s3 := StepApi(c, s2, change.number, answer);
    ResolvedThenCut(c, s, w, b, change);
    StepIs(c, s, w, now);
    StepIs(c, s1, w, now);
    MovingIs(c, s2, change.number, answer);
    var head := [Write(w), Crash(w), ApiMoves(change.number, answer)];
    RunsOn(c, s, head);
    RunsOn(c, s1, head[1..]);
    RunsOn(c, s2, head[2..]);
    RunsThrough(c, s, head, RepairScript(v, now, token, id));
    StaysFree(s2, s3, w);
    RetryEnds(c, s3, v, now, token, id, b, change);
    if Follows(s.api(change.number), answer) {
      NewsFollow(RecordOf(s, b), change.number, s.api(change.number), answer);
    }
  }

  lemma ResolvedThenCut(c: Config, s: State, w: nat, b: string, change: Change)
    requires c.lookup && LockFree(s) && At(s, w).Got? && Request(At(s, w).payload) == Some(Ask(b, change))
    requires b in s.mapped && Conflicts(RecordOf(s, b), change)
    requires ShouldApply(RecordOf(s, b), Resolved(change.number, s.api(change.number)), true)
    ensures
      var t := Leave(StepWrite(c, s, w), w);
      && LockFree(t) && t.q == s.q && t.record == s.record && t.mapped == s.mapped && t.issued == s.issued
      && t.api == s.api && t.handlers == s.handlers[w := Idle]
      && t.shown == s.shown[b := CardOf(Resolved(change.number, s.api(change.number)))]
  {
    hide Request, ShouldApply, Spent, IsNews;
    var t := StepWrite(c, s, w);
    assert At(t, w).Written?;
    LeaveShape(t, w);
  }
}
