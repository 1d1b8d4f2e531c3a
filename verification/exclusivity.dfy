/** A lease is exclusive: until it runs out nobody but its holder touches the row, in all four queues. */
module Exclusivity {
  import opened Text
  import opened Leases
  import opened Results
  import opened Tables
  import opened Contracts
  import opened Pipeline
  import opened PipelineInvariant
  import opened PipelineTheorems
  import opened Fencing

  /** The token that a worker holds. */
  function TokenOf(s: State, worker: Worker): Option<string> {
    match worker
    case AuthorAt(w) => var a := AuthorOf(s, w); if a.AuthorIdle? then None else Some(a.held.token)
    case GraderAt(w) => var g := GraderOf(s, w); if g.GraderIdle? then None else Some(g.held.token)
    case PublisherAt(w) => var p := PublisherOf(s, w); if p.CourierIdle? then None else Some(p.held.token)
    case BotAt(w) => var b := BotOf(s, w); if b.CourierIdle? then None else Some(b.held.token)
  }

  ghost predicate TokensApart(s: State) {
    forall a, b | a != b && TokenOf(s, a).Some? :: TokenOf(s, a) != TokenOf(s, b)
  }

  /** The lease columns of the row that a worker holds, while it owns it. */
  function Lease(s: State, worker: Worker): Option<(string, real)> {
    if Stale(s, worker) then None
    else
      match worker
      case AuthorAt(w) => LeaseOf(s.a.jobs[AuthorOf(s, w).held.id])
      case GraderAt(w) => LeaseOf(s.g.attempts[GraderOf(s, w).held.id])
      case PublisherAt(w) => LeaseOf(s.g.publications[PublisherOf(s, w).held.id])
      case BotAt(w) => LeaseOf(s.g.notes[BotOf(s, w).held.id])
  }

  function LeaseOf<P>(r: Row<P>): Option<(string, real)> {
    if r.token.Some? && r.expiresAt.Some? then Some((r.token.value, r.expiresAt.value)) else None
  }

  // ----- tokens are not shared -----

  /** The acting worker ends without a token, with the one it had, or with a new one. */
  ghost predicate TokenMoved(s: State, s': State, e: Event, worker: Worker) {
    || TokenOf(s', worker).None? || TokenOf(s', worker) == TokenOf(s, worker)
    || (IsClaim(e) && TokenOf(s', worker) == Some(e.token) && e.token !in s.past.issued)
  }

  lemma AuthorTokenMoves(c: Config, s: State, e: Event)
    requires IsAuthorEvent(e)
    ensures TokenMoved(s, AuthorStep(c, s, e), e, AuthorAt(e.w))
  {
    hide RequestClarification, RejectOrRetry, Owns, Freeze, ToPayload, FinalizeAuthoring, Handled, GateVerdict, Parse,
         ClaimedRow, Next;
  }

  lemma GraderTokenMoves(c: Config, s: State, e: Event)
    requires IsGraderEvent(e)
    ensures TokenMoved(s, GraderStep(c, s, e), e, GraderAt(e.w))
  {
    hide CompleteGrading, ReleaseGrading, Evaluation, ClaimedRow, Next;
  }

  lemma PublisherTokenMoves(c: Config, s: State, e: Event)
    requires IsPublisherEvent(e)
    ensures TokenMoved(s, PublisherStep(c, s, e), e, PublisherAt(e.w))
  {
    hide CompletePublication, ReleasePublication, ClaimedRow, Next;
  }

  lemma BotTokenMoves(c: Config, s: State, e: Event)
    requires IsBotEvent(e)
    ensures TokenMoved(s, BotStep(c, s, e), e, BotAt(e.w))
  {
    hide SettleNote, ClaimedRow, Next;
  }

  lemma TokenMoves(c: Config, s: State, e: Event, worker: Worker)
    requires By(e, worker)
    ensures TokenMoved(s, Step(c, s, e), e, worker)
  {
    hide AuthorStep, GraderStep, PublisherStep, BotStep, OutsideStep, TokenMoved;
    match worker
    case AuthorAt(_) => AuthorTokenMoves(c, s, e);
    case GraderAt(_) => GraderTokenMoves(c, s, e);
    case PublisherAt(_) => PublisherTokenMoves(c, s, e);
    case BotAt(_) => BotTokenMoves(c, s, e);
  }

  lemma TokenIsIssued(c: Config, s: State, worker: Worker)
    requires Inv(c, s) && TokenOf(s, worker).Some?
    ensures TokenOf(s, worker).value in s.past.issued
  {
    hide Inv;
    HeldIsKnown(c, s, worker);
  }

  lemma TokenKept(c: Config, s: State, e: Event, worker: Worker)
    requires !By(e, worker)
    ensures TokenOf(Step(c, s, e), worker) == TokenOf(s, worker)
  {
    hide Step;
    PlaceKept(c, s, e, worker);
  }

  lemma OtherKeepsApart(c: Config, s: State, e: Event, a: Worker, b: Worker)
    requires Inv(c, s) && TokensApart(s) && a != b && By(e, a)
    ensures
      var s' := Step(c, s, e);
      TokenOf(s', a).Some? ==> TokenOf(s', a) != TokenOf(s', b)
  {
    hide Inv, Step, TokenOf, IsClaim;
    assert !By(e, b);
    TokenMoves(c, s, e, a);
    TokenKept(c, s, e, b);
    if TokenOf(s, b).Some? { TokenIsIssued(c, s, b); }
  }

  lemma StepKeepsApart(c: Config, s: State, e: Event)
    requires Inv(c, s) && TokensApart(s)
    ensures TokensApart(Step(c, s, e))
  {
    hide Inv, Step, TokenOf, IsClaim;
    var s' := Step(c, s, e);
    forall a, b | a != b && TokenOf(s', a).Some? ensures TokenOf(s', a) != TokenOf(s', b) {
      if By(e, a) {
        OtherKeepsApart(c, s, e, a, b);
      } else if By(e, b) {
        OtherKeepsApart(c, s, e, b, a);
      } else {
        TokenKept(c, s, e, a);
        TokenKept(c, s, e, b);
      }
    }
  }

  lemma {:induction false} RunKeepsApart(c: Config, s: State, events: seq<Event>)
    requires Inv(c, s) && TokensApart(s)
    ensures TokensApart(Run(c, s, events))
    decreases events
  {
    hide Inv, Step, TokensApart, Evolves;
    if events != [] {
      StepKeeps(c, s, events[0]);
      StepKeepsApart(c, s, events[0]);
      RunKeepsApart(c, Step(c, s, events[0]), events[1..]);
    }
  }

  lemma EmptyApart()
    ensures TokensApart(EMPTY)
  {}

  // ----- one step under a lease -----

  /** A leased row that has not run out changes only for somebody who presents its token. */
  lemma LeasedStays<P>(before: Row<P>, after: Row<P>, s: State, lease: real, claim: Option<string>, holder: Option<string>)
    requires Fenced(before, after, s, lease, claim, holder)
    requires before.phase == Leased && before.expiresAt.Some? && s.clock < before.expiresAt.value
    requires holder.None? || holder != before.token
    ensures after == before
  {}

  /** Whoever else acts presents no token or another one. */
  lemma OthersPresent(s: State, e: Event, worker: Worker, id: string)
    requires TokensApart(s) && !By(e, worker) && TokenOf(s, worker).Some?
    ensures worker.AuthorAt? ==> JobHolder(s, e, id) != TokenOf(s, worker)
    ensures worker.GraderAt? ==> AttemptHolder(s, e, id) != TokenOf(s, worker)
    ensures worker.PublisherAt? ==> PublicationHolder(s, e, id) != TokenOf(s, worker)
    ensures worker.BotAt? ==> NoteHolder(s, e, id) != TokenOf(s, worker)
  {
    hide AuthorOf, GraderOf, PublisherOf, BotOf;
    match worker
    case AuthorAt(_) => if IsAuthorEvent(e) { assert TokenOf(s, worker) != TokenOf(s, AuthorAt(e.w)); }
    case GraderAt(_) => if IsGraderEvent(e) { assert TokenOf(s, worker) != TokenOf(s, GraderAt(e.w)); }
    case PublisherAt(_) => if IsPublisherEvent(e) { assert TokenOf(s, worker) != TokenOf(s, PublisherAt(e.w)); }
    case BotAt(_) => if IsBotEvent(e) { assert TokenOf(s, worker) != TokenOf(s, BotAt(e.w)); }
  }

  /** The worker is where it was and its row is as it was. */
  ghost predicate RowStays(s: State, s': State, worker: Worker) {
    && SamePlace(s, s', worker) && !Stale(s, worker) && !Stale(s', worker) && Lease(s', worker) == Lease(s, worker)
    && match worker
       case AuthorAt(w) => var id := AuthorOf(s, w).held.id; s'.a.jobs[id] == s.a.jobs[id]
       case GraderAt(w) => var id := GraderOf(s, w).held.id; s'.g.attempts[id] == s.g.attempts[id]
       case PublisherAt(w) => var id := PublisherOf(s, w).held.id; s'.g.publications[id] == s.g.publications[id]
       case BotAt(w) => var id := BotOf(s, w).held.id; s'.g.notes[id] == s.g.notes[id]
  }

  lemma AuthorUnderLease(c: Config, s: State, e: Event, w: nat)
    requires Inv(c, s) && TokensApart(s) && !By(e, AuthorAt(w))
    requires Lease(s, AuthorAt(w)).Some? && s.clock < Lease(s, AuthorAt(w)).value.1
    ensures RowStays(s, Step(c, s, e), AuthorAt(w))
  {
    hide Inv, Step, Fenced, AuthorOf, WellLeased, JobHolder, TokensApart, By;
    var s', id := Step(c, s, e), AuthorOf(s, w).held.id;
    InvLeases(c, s);
    PlaceKept(c, s, e, AuthorAt(w));
    StepIsFenced(c, s, e, id);
    OthersPresent(s, e, AuthorAt(w), id);
    LeasedStays(s.a.jobs[id], s'.a.jobs[id], s, c.settings.leaseSeconds, if e.AuthorClaim? then Some(e.token) else None,
                JobHolder(s, e, id));
  }

  lemma GraderUnderLease(c: Config, s: State, e: Event, w: nat)
    requires Inv(c, s) && TokensApart(s) && !By(e, GraderAt(w))
    requires Lease(s, GraderAt(w)).Some? && s.clock < Lease(s, GraderAt(w)).value.1
    ensures RowStays(s, Step(c, s, e), GraderAt(w))
  {
    hide Inv, Step, Fenced, GraderOf, WellLeased, AttemptHolder, TokensApart, By;
    var s', id := Step(c, s, e), GraderOf(s, w).held.id;
    InvLeases(c, s);
    PlaceKept(c, s, e, GraderAt(w));
    StepIsFenced(c, s, e, id);
    OthersPresent(s, e, GraderAt(w), id);
    LeasedStays(s.g.attempts[id], s'.g.attempts[id], s, c.settings.leaseSeconds, if e.GraderClaim? then Some(e.token) else None,
                AttemptHolder(s, e, id));
  }

  lemma PublisherUnderLease(c: Config, s: State, e: Event, w: nat)
    requires Inv(c, s) && TokensApart(s) && !By(e, PublisherAt(w))
    requires Lease(s, PublisherAt(w)).Some? && s.clock < Lease(s, PublisherAt(w)).value.1
    ensures RowStays(s, Step(c, s, e), PublisherAt(w))
  {
    hide Inv, Step, Fenced, PublisherOf, WellLeased, PublicationHolder, TokensApart, By;
    var s', id := Step(c, s, e), PublisherOf(s, w).held.id;
    InvLeases(c, s);
    PlaceKept(c, s, e, PublisherAt(w));
    StepIsFenced(c, s, e, id);
    OthersPresent(s, e, PublisherAt(w), id);
    LeasedStays(s.g.publications[id], s'.g.publications[id], s, c.settings.leaseSeconds, if e.PublisherClaim? then Some(e.token) else None,
                PublicationHolder(s, e, id));
  }

  lemma BotUnderLease(c: Config, s: State, e: Event, w: nat)
    requires Inv(c, s) && TokensApart(s) && !By(e, BotAt(w))
    requires Lease(s, BotAt(w)).Some? && s.clock < Lease(s, BotAt(w)).value.1
    ensures RowStays(s, Step(c, s, e), BotAt(w))
  {
    hide Inv, Step, Fenced, BotOf, WellLeased, NoteHolder, TokensApart, By;
    var s', id := Step(c, s, e), BotOf(s, w).held.id;
    InvLeases(c, s);
    PlaceKept(c, s, e, BotAt(w));
    StepIsFenced(c, s, e, id);
    OthersPresent(s, e, BotAt(w), id);
    LeasedStays(s.g.notes[id], s'.g.notes[id], s, c.settings.leaseSeconds, if e.BotClaim? then Some(e.token) else None,
                NoteHolder(s, e, id));
  }

  lemma StepUnderLease(c: Config, s: State, e: Event, worker: Worker)
    requires Inv(c, s) && TokensApart(s) && !By(e, worker)
    requires Lease(s, worker).Some? && s.clock < Lease(s, worker).value.1
    ensures RowStays(s, Step(c, s, e), worker)
  {
    hide Inv, Step, RowStays, TokensApart, By, Lease;
    match worker
    case AuthorAt(w) => AuthorUnderLease(c, s, e, w);
    case GraderAt(w) => GraderUnderLease(c, s, e, w);
    case PublisherAt(w) => PublisherUnderLease(c, s, e, w);
    case BotAt(w) => BotUnderLease(c, s, e, w);
  }

  // ----- runs under a lease -----

  lemma RowStaysLong(s: State, t: State, u: State, worker: Worker)
    requires RowStays(s, t, worker) && RowStays(t, u, worker)
    ensures RowStays(s, u, worker)
  {
    hide Owns;
  }

  lemma ClockRuns(c: Config, s: State, events: seq<Event>)
    requires Inv(c, s)
    ensures s.clock <= Run(c, s, events).clock
  {
    hide Inv, Run;
    RunKeeps(c, s, events);
  }

  predicate NeverActs(events: seq<Event>, worker: Worker) { forall k | 0 <= k < |events| :: !By(events[k], worker) }

  lemma {:induction false} RunUnderLease(c: Config, s: State, events: seq<Event>, worker: Worker)
    requires Inv(c, s) && TokensApart(s) && NeverActs(events, worker)
    requires Lease(s, worker).Some? && Run(c, s, events).clock < Lease(s, worker).value.1
    ensures RowStays(s, Run(c, s, events), worker)
    decreases events
  {
    hide Inv, Step, RowStays, TokensApart, By, Lease, Evolves;
    if events == [] {
      StaysPut(s, worker);
    } else {
      var next := Step(c, s, events[0]);
      StepKeeps(c, s, events[0]);
      StepKeepsApart(c, s, events[0]);
      ClockRuns(c, s, events);
      StepUnderLease(c, s, events[0], worker);
      LeaseGoesOn(s, next, worker);
      RunUnderLease(c, next, events[1..], worker);
      RowStaysLong(s, next, Run(c, next, events[1..]), worker);
    }
  }

  lemma StaysPut(s: State, worker: Worker)
    requires Lease(s, worker).Some?
    ensures RowStays(s, s, worker)
  {}

  lemma LeaseGoesOn(s: State, s': State, worker: Worker)
    requires RowStays(s, s', worker)
    ensures Lease(s', worker) == Lease(s, worker)
  {}

  /** A claim took the first eligible row of the queue, counted one more attempt, and handed out what the row holds. */
  predicate Took<P(==)>(t: Table<P>, t': Table<P>, held: Held<P>, now: real) {
    && IsHead(t, now, held.id) && held.id in t' && t' == t[held.id := t'[held.id]]
    && t'[held.id].attempts == t[held.id].attempts + 1 && t'[held.id].body == t[held.id].body
    && held.attempts == t'[held.id].attempts && held.body == t'[held.id].body
  }

  predicate TookRow(s: State, s': State, worker: Worker) {
    match worker
    case AuthorAt(w) => !AuthorOf(s', w).AuthorIdle? && Took(s.a.jobs, s'.a.jobs, AuthorOf(s', w).held, s.clock)
    case GraderAt(w) => !GraderOf(s', w).GraderIdle? && Took(s.g.attempts, s'.g.attempts, GraderOf(s', w).held, s.clock)
    case PublisherAt(w) =>
      !PublisherOf(s', w).CourierIdle? && Took(s.g.publications, s'.g.publications, PublisherOf(s', w).held, s.clock)
    case BotAt(w) => !BotOf(s', w).CourierIdle? && Took(s.g.notes, s'.g.notes, BotOf(s', w).held, s.clock)
  }

  /** A claim that finds a row takes the first eligible one and leases it for the configured time from now, however
      long it had waited. */
  lemma ClaimLeases(c: Config, s: State, e: Event, worker: Worker)
    requires By(e, worker) && IsClaim(e)
    ensures
      var s' := Step(c, s, e);
      s' == s || (Lease(s', worker) == Some((e.token, s.clock + c.settings.leaseSeconds)) && TookRow(s, s', worker))
  {
    hide AuthorStep, GraderStep, PublisherStep, BotStep, OutsideStep, Lease, TookRow;
    match worker
    case AuthorAt(w) => AuthorClaimLeases(c, s, w, e.token);
    case GraderAt(w) => GraderClaimLeases(c, s, w, e.token);
    case PublisherAt(w) => PublisherClaimLeases(c, s, w, e.token);
    case BotAt(w) => BotClaimLeases(c, s, w, e.token);
  }

  lemma AuthorClaimLeases(c: Config, s: State, w: nat, token: string)
    ensures
      var s' := AuthorStep(c, s, AuthorClaim(w, token));
      s' == s
      || (Lease(s', AuthorAt(w)) == Some((token, s.clock + c.settings.leaseSeconds)) && TookRow(s, s', AuthorAt(w)))
  {
    hide Next, IsHead;
  }

  lemma GraderClaimLeases(c: Config, s: State, w: nat, token: string)
    ensures
      var s' := GraderStep(c, s, GraderClaim(w, token));
      s' == s
      || (Lease(s', GraderAt(w)) == Some((token, s.clock + c.settings.leaseSeconds)) && TookRow(s, s', GraderAt(w)))
  {
    hide Next, IsHead;
  }

  lemma PublisherClaimLeases(c: Config, s: State, w: nat, token: string)
    ensures
      var s' := PublisherStep(c, s, PublisherClaim(w, token));
      s' == s
      || (Lease(s', PublisherAt(w)) == Some((token, s.clock + c.settings.leaseSeconds)) && TookRow(s, s', PublisherAt(w)))
  {
    hide Next, IsHead;
  }

  lemma BotClaimLeases(c: Config, s: State, w: nat, token: string)
    ensures
      var s' := BotStep(c, s, BotClaim(w, token));
      s' == s
      || (Lease(s', BotAt(w)) == Some((token, s.clock + c.settings.leaseSeconds)) && TookRow(s, s', BotAt(w)))
  {
    hide Next, IsHead;
  }

  /** Over any run, from when a worker holds a row under its current token until the lease runs out, nobody
      else changes the row or takes it, however many other workers, crashes and answers there are. */
  lemma LeaseIsExclusive(c: Config, before: seq<Event>, during: seq<Event>, worker: Worker)
    requires NeverActs(during, worker)
    ensures
      var s, s' := Run(c, EMPTY, before), Run(c, EMPTY, before + during);
      Lease(s, worker).Some? && s'.clock < Lease(s, worker).value.1 ==> RowStays(s, s', worker)
  {
    hide Inv, Step, RowStays, TokensApart, By, Lease, Evolves;
    EmptyInv(c);
    EmptyApart();
    RunKeeps(c, EMPTY, before);
    RunKeepsApart(c, EMPTY, before);
    RunAppend(c, EMPTY, before, during);
    var s := Run(c, EMPTY, before);
    if Lease(s, worker).Some? && Run(c, s, during).clock < Lease(s, worker).value.1 {
      RunUnderLease(c, s, during, worker);
    }
  }
}
