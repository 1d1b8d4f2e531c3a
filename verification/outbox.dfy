/** Publications and notifications are marked as delivered only after a send that returned. */
module Outbox {
  import opened Text
  import opened Leases
  import opened Results
  import opened Tables
  import opened Pipeline
  import opened PipelineInvariant
  import opened PipelineTheorems
  import opened Fencing

  /** `w` held this row when one of the events was its send, and the send returned. */
  ghost predicate Published(c: Config, events: seq<Event>, w: nat, held: Held<Publication>) {
    exists k: nat :: k < |events| && events[k] == PublisherSend(w, true)
      && PublisherOf(Run(c, EMPTY, events[..k]), w) == Holding(held)
  }

  ghost predicate Notified(c: Config, events: seq<Event>, w: nat, held: Held<Note>) {
    exists k: nat :: k < |events| && events[k] == BotSend(w, true) && BotOf(Run(c, EMPTY, events[..k]), w) == Holding(held)
  }

  /** Event `j` settles the publication of `id` by a holder of its current token whose send had returned. */
  ghost predicate PublicationSettledAt(c: Config, events: seq<Event>, id: string, j: nat)
    requires j < |events|
  {
    && events[j].PublisherSettle?
    && var s, w := Run(c, EMPTY, events[..j]), events[j].w;
    && PublisherOf(s, w).Sent? && PublisherOf(s, w).held.id == id
    && Owns(s.g.publications, id, PublisherOf(s, w).held.token)
    && PublisherOf(s, w).held.body == s.g.publications[id].body
    && Published(c, events[..j], w, PublisherOf(s, w).held)
  }

  ghost predicate NoteSettledAt(c: Config, events: seq<Event>, id: string, j: nat)
    requires j < |events|
  {
    && events[j].BotSettle?
    && var s, w := Run(c, EMPTY, events[..j]), events[j].w;
    && BotOf(s, w).Sent? && BotOf(s, w).held.id == id
    && Owns(s.g.notes, id, BotOf(s, w).held.token)
    && BotOf(s, w).held.body == s.g.notes[id].body
    && Notified(c, events[..j], w, BotOf(s, w).held)
  }

  // ----- one more event -----

  lemma OneMore(c: Config, events: seq<Event>, e: Event)
    ensures Run(c, EMPTY, events + [e]) == Step(c, Run(c, EMPTY, events), e)
  {
    hide Step;
    RunAppend(c, EMPTY, events, [e]);
    var s := Run(c, EMPTY, events);
    assert [e][1..] == [];
    assert Run(c, Step(c, s, e), []) == Step(c, s, e);
  }

  lemma PublishedStays(c: Config, events: seq<Event>, e: Event, w: nat, held: Held<Publication>)
    requires Published(c, events, w, held)
    ensures Published(c, events + [e], w, held)
  {
    hide Run;
    var k: nat :| k < |events| && events[k] == PublisherSend(w, true)
      && PublisherOf(Run(c, EMPTY, events[..k]), w) == Holding(held);
    assert (events + [e])[k] == events[k] && (events + [e])[..k] == events[..k];
  }

  lemma NotifiedStays(c: Config, events: seq<Event>, e: Event, w: nat, held: Held<Note>)
    requires Notified(c, events, w, held)
    ensures Notified(c, events + [e], w, held)
  {
    hide Run;
    var k: nat :| k < |events| && events[k] == BotSend(w, true) && BotOf(Run(c, EMPTY, events[..k]), w) == Holding(held);
    assert (events + [e])[k] == events[k] && (events + [e])[..k] == events[..k];
  }

  /** A publisher that is past its send was there before or held the row and its send returned now. */
  lemma PublisherPassesSend(c: Config, s: State, e: Event, w: nat)
    ensures
      var p, p' := PublisherOf(s, w), PublisherOf(Step(c, s, e), w);
      p'.Sent? ==> p' == p || (e == PublisherSend(w, true) && p == Holding(p'.held))
  {
    hide AuthorStep, GraderStep, BotStep, OutsideStep, ClaimPublication, CompletePublication, ReleasePublication;
    if !By(e, PublisherAt(w)) { PlaceKept(c, s, e, PublisherAt(w)); }
  }

  lemma BotPassesSend(c: Config, s: State, e: Event, w: nat)
    ensures
      var b, b' := BotOf(s, w), BotOf(Step(c, s, e), w);
      b'.Sent? ==> b' == b || (e == BotSend(w, true) && b == Holding(b'.held))
  {
    hide AuthorStep, GraderStep, PublisherStep, OutsideStep, ClaimNote, SettleNote;
    if !By(e, BotAt(w)) { PlaceKept(c, s, e, BotAt(w)); }
  }

  // ----- one row -----

  /** A row that becomes done does so by a settlement after a send, under its current token. */
  ghost predicate DoneBySettling<P>(before: Table<P>, after: Table<P>, id: string, courier: Courier<P>) {
    id in after && after[id].phase == Done && !(id in before && before[id].phase == Done) ==>
      courier.Sent? && courier.held.id == id && Owns(before, id, courier.held.token)
  }

  lemma PublicationIsSettled(c: Config, s: State, e: Event, id: string)
    ensures
      DoneBySettling(
        s.g.publications, Step(c, s, e).g.publications, id,
        if e.PublisherSettle? then PublisherOf(s, e.w) else CourierIdle)
  {
    hide AuthorStep, BotStep, ClaimPublication, ErrorCodeValid, CountsValid, ReportValid, IsHash, RetryDelay, Evaluation,
         GraderStep, OutsideStep, PublisherOf;
    if IsAuthorEvent(e) { AuthorEventFrame(c, s, e); }
    if IsGraderEvent(e) { GraderAddsPublications(c, s, e, id); }
    if IsBotEvent(e) { BotKeepsPublications(c, s, e); }
    if e.PublisherClaim? { ClaimNeverFinishes(c, s.g, s.clock, e.token, id); }
    if !IsAuthorEvent(e) && !IsGraderEvent(e) && !IsPublisherEvent(e) && !IsBotEvent(e) { OutsideKeepsOutbox(c, s, e); }
  }

  lemma NoteIsSettled(c: Config, s: State, e: Event, id: string)
    ensures DoneBySettling(s.g.notes, Step(c, s, e).g.notes, id, if e.BotSettle? then BotOf(s, e.w) else CourierIdle)
  {
    hide AuthorStep, PublisherStep, ClaimNote, ErrorCodeValid, CountsValid, ReportValid, IsHash, RetryDelay, Evaluation,
         GraderStep, OutsideStep, BotOf;
    if IsAuthorEvent(e) { AuthorEventFrame(c, s, e); }
    if IsGraderEvent(e) { GraderAddsPublications(c, s, e, id); }
    if IsPublisherEvent(e) { PublisherKeepsNotes(c, s, e); }
    if e.BotClaim? { ClaimNeverFinishes(c, s.g, s.clock, e.token, id); }
    if !IsAuthorEvent(e) && !IsGraderEvent(e) && !IsPublisherEvent(e) && !IsBotEvent(e) { OutsideKeepsOutbox(c, s, e); }
  }

  lemma GraderAddsPublications(c: Config, s: State, e: Event, id: string)
    requires IsGraderEvent(e)
    ensures
      var g := GraderStep(c, s, e).g;
      && DoneBySettling(s.g.publications, g.publications, id, CourierIdle)
      && DoneBySettling(s.g.notes, g.notes, id, CourierIdle)
  {
    hide GraderOf, ClaimGrading, ReleasedAttempt, ErrorCodeValid, CountsValid, ReportValid, IsHash, Evaluation;
    if e.GraderClaim? { GradingClaimFrame(c, s.g, s.clock, e.token); }
  }

  lemma GradingClaimFrame(c: Config, g: GradingTables, now: real, token: string)
    ensures
      var g' := ClaimGrading(g, c.settings, now, token).0;
      g'.publications == g.publications && g'.notes == g.notes
  {}

  lemma BotKeepsPublications(c: Config, s: State, e: Event)
    requires IsBotEvent(e)
    ensures BotStep(c, s, e).g.publications == s.g.publications
  {
    hide BotOf, IsHash;
  }

  lemma PublisherKeepsNotes(c: Config, s: State, e: Event)
    requires IsPublisherEvent(e)
    ensures PublisherStep(c, s, e).g.notes == s.g.notes
  {
    hide PublisherOf, ErrorCodeValid;
  }

  lemma ClaimNeverFinishes(c: Config, g: GradingTables, now: real, token: string, id: string)
    ensures DoneBySettling(g.publications, ClaimPublication(g, c.settings, now, token).0.publications, id, CourierIdle)
    ensures DoneBySettling(g.notes, ClaimNote(g, c.settings, now, token).0.notes, id, CourierIdle)
  {}

  lemma OutsideKeepsOutbox(c: Config, s: State, e: Event)
    requires !IsAuthorEvent(e) && !IsGraderEvent(e) && !IsPublisherEvent(e) && !IsBotEvent(e)
    ensures OutsideStep(c, s, e).g.publications == s.g.publications && OutsideStep(c, s, e).g.notes == s.g.notes
  {
    hide EnqueueAuthoring, AnswerClarification, AnswerApplies, IsTaskId, IsKey, IsBranch, IsSha, IsHash, CommitTaken;
  }

  // ----- runs -----

  ghost predicate AllPublished(c: Config, events: seq<Event>, s: State) {
    forall w: nat | PublisherOf(s, w).Sent? :: Published(c, events, w, PublisherOf(s, w).held)
  }

  ghost predicate AllNotified(c: Config, events: seq<Event>, s: State) {
    forall w: nat | BotOf(s, w).Sent? :: Notified(c, events, w, BotOf(s, w).held)
  }

  lemma SendsGoOn(c: Config, events: seq<Event>, e: Event)
    requires var s := Run(c, EMPTY, events); AllPublished(c, events, s) && AllNotified(c, events, s)
    ensures
      var s' := Run(c, EMPTY, events + [e]);
      AllPublished(c, events + [e], s') && AllNotified(c, events + [e], s')
  {
    hide Run, Step, Published, Notified, PublisherOf, BotOf;
    var s, s' := Run(c, EMPTY, events), Run(c, EMPTY, events + [e]);
    OneMore(c, events, e);
    forall w: nat | PublisherOf(s', w).Sent? ensures Published(c, events + [e], w, PublisherOf(s', w).held) {
      var held := PublisherOf(s', w).held;
      PublisherPassesSend(c, s, e, w);
      if PublisherOf(s, w).Sent? { PublishedStays(c, events, e, w, held); } else { PublishedNow(c, events, w, held); }
    }
    forall w: nat | BotOf(s', w).Sent? ensures Notified(c, events + [e], w, BotOf(s', w).held) {
      var held := BotOf(s', w).held;
      BotPassesSend(c, s, e, w);
      if BotOf(s, w).Sent? { NotifiedStays(c, events, e, w, held); } else { NotifiedNow(c, events, w, held); }
    }
  }

  lemma PublishedNow(c: Config, events: seq<Event>, w: nat, held: Held<Publication>)
    requires PublisherOf(Run(c, EMPTY, events), w) == Holding(held)
    ensures Published(c, events + [PublisherSend(w, true)], w, held)
  {
    hide Run, PublisherOf;
    var events' := events + [PublisherSend(w, true)];
    assert events'[|events|] == PublisherSend(w, true) && events'[..|events|] == events;
  }

  lemma NotifiedNow(c: Config, events: seq<Event>, w: nat, held: Held<Note>)
    requires BotOf(Run(c, EMPTY, events), w) == Holding(held)
    ensures Notified(c, events + [BotSend(w, true)], w, held)
  {
    hide Run, BotOf;
    var events' := events + [BotSend(w, true)];
    assert events'[|events|] == BotSend(w, true) && events'[..|events|] == events;
  }

  lemma {:induction false} RunSends(c: Config, events: seq<Event>)
    ensures var s := Run(c, EMPTY, events); AllPublished(c, events, s) && AllNotified(c, events, s)
    decreases |events|
  {
    hide Step, Published, Notified, PublisherOf, BotOf, AllPublished, AllNotified;
    if events == [] {
      NothingSent(c);
    } else {
      var last := |events| - 1;
      RunSends(c, events[..last]);
      SendsGoOn(c, events[..last], events[last]);
      assert events[..last] + [events[last]] == events;
    }
  }

  lemma NothingSent(c: Config)
    ensures AllPublished(c, [], Run(c, EMPTY, [])) && AllNotified(c, [], Run(c, EMPTY, []))
  {}

  lemma HeldIsTheRow(c: Config, s: State, w: nat)
    requires Inv(c, s)
    ensures
      var p := PublisherOf(s, w);
      p.Sent? && p.held.id in s.g.publications ==> p.held.body == s.g.publications[p.held.id].body
    ensures
      var b := BotOf(s, w);
      b.Sent? && b.held.id in s.g.notes ==> b.held.body == s.g.notes[b.held.id].body
  {
    hide LeasesOk, JobsOk, VaultOk, AttemptsOk, OutboxOk, ClarificationsOk, AuthorsOk, GradersOk, PushesOk;
  }

  /** In every run a publication is published only if some publisher held the row with this commit and verdict,
      sent it, got an answer, and then settled it under the row's current token. */
  lemma {:induction false} PublishedAfterSend(c: Config, events: seq<Event>, id: string)
    ensures
      var g := Run(c, EMPTY, events).g;
      id in g.publications && g.publications[id].phase == Done ==>
        exists j: nat :: j < |events| && PublicationSettledAt(c, events, id, j)
    decreases |events|
  {
    hide Step, PublisherOf, Inv, Evolves, Owns;
    if events != [] {
      var last := |events| - 1;
      var before, e := events[..last], events[last];
      var s := Run(c, EMPTY, before);
      assert before + [e] == events;
      OneMore(c, before, e);
      PublicationIsSettled(c, s, e, id);
      if id in s.g.publications && s.g.publications[id].phase == Done {
        PublishedAfterSend(c, before, id);
        var j: nat :| j < |before| && PublicationSettledAt(c, before, id, j);
        SamePrefix(events, before, e, j);
        assert PublicationSettledAt(c, events, id, j);
      } else if id in Run(c, EMPTY, events).g.publications && Run(c, EMPTY, events).g.publications[id].phase == Done {
        EmptyInv(c);
        RunKeeps(c, EMPTY, before);
        RunSends(c, before);
        HeldIsTheRow(c, s, e.w);
        OwnedIsThere(s.g.publications, id, PublisherOf(s, e.w).held.token);
        assert PublicationSettledAt(c, events, id, last);
      }
    }
  }

  lemma SamePrefix(events: seq<Event>, before: seq<Event>, e: Event, j: nat)
    requires events == before + [e] && j < |before|
    ensures events[j] == before[j] && events[..j] == before[..j]
  {}

  lemma OwnedIsThere<P>(t: Table<P>, id: string, token: string)
    ensures Owns(t, id, token) ==> id in t
  {}

  /** And a notification is sent only if some bot held the row with this report, sent it, got an answer, and then
      settled it under the row's current token. */
  lemma {:induction false} NotifiedAfterSend(c: Config, events: seq<Event>, id: string)
    ensures
      var g := Run(c, EMPTY, events).g;
      id in g.notes && g.notes[id].phase == Done ==>
        exists j: nat :: j < |events| && NoteSettledAt(c, events, id, j)
    decreases |events|
  {
    hide Step, BotOf, Inv, Evolves, Owns;
    if events != [] {
      var last := |events| - 1;
      var before, e := events[..last], events[last];
      var s := Run(c, EMPTY, before);
      assert before + [e] == events;
      OneMore(c, before, e);
      NoteIsSettled(c, s, e, id);
      if id in s.g.notes && s.g.notes[id].phase == Done {
        NotifiedAfterSend(c, before, id);
        var j: nat :| j < |before| && NoteSettledAt(c, before, id, j);
        SamePrefix(events, before, e, j);
        assert NoteSettledAt(c, events, id, j);
      } else if id in Run(c, EMPTY, events).g.notes && Run(c, EMPTY, events).g.notes[id].phase == Done {
        EmptyInv(c);
        RunKeeps(c, EMPTY, before);
        RunSends(c, before);
        HeldIsTheRow(c, s, e.w);
        OwnedIsThere(s.g.notes, id, BotOf(s, e.w).held.token);
        assert NoteSettledAt(c, events, id, last);
      }
    }
  }

  // ----- one settlement -----

  lemma CheckCodeIsValid()
    ensures ErrorCodeValid("check-publication-failure")
  {}

  /** Settling under the current token finishes a publication exactly when its send returned; otherwise it is
      queued again for half a minute later, with its content and attempts. */
  lemma PublicationFinishesExactly(c: Config, s: State, w: nat)
    requires PublisherOf(s, w).Sent? || PublisherOf(s, w).SendFailed?
    requires Owns(s.g.publications, PublisherOf(s, w).held.id, PublisherOf(s, w).held.token)
    ensures
      var id := PublisherOf(s, w).held.id;
      var g := PublisherStep(c, s, PublisherSettle(w)).g;
      && id in g.publications && g.publications.Keys == s.g.publications.Keys
      && (g.publications[id].phase == Done <==> PublisherOf(s, w).Sent?)
      && (PublisherOf(s, w).SendFailed? ==>
            g.publications[id].phase == Queued && g.publications[id].nextAttemptAt == s.clock + 30.0)
      && g.publications[id].body == s.g.publications[id].body
      && g.publications[id].attempts == s.g.publications[id].attempts && g.publications[id].token.None?
  {
    hide ErrorCodeValid;
    CheckCodeIsValid();
  }

  /** And so for a notification, which is queued again for the next claim at once. (A bot's tokens are hashes.) */
  lemma NoteFinishesExactly(c: Config, s: State, w: nat)
    requires BotOf(s, w).Sent? || BotOf(s, w).SendFailed?
    requires Owns(s.g.notes, BotOf(s, w).held.id, BotOf(s, w).held.token)
    requires IsHash(BotOf(s, w).held.id) && IsHash(BotOf(s, w).held.token)
    ensures
      var id := BotOf(s, w).held.id;
      var g := BotStep(c, s, BotSettle(w)).g;
      && id in g.notes && g.notes.Keys == s.g.notes.Keys
      && (g.notes[id].phase == Done <==> BotOf(s, w).Sent?)
      && (BotOf(s, w).SendFailed? ==>
            g.notes[id].phase == Queued && g.notes[id].nextAttemptAt == s.g.notes[id].nextAttemptAt)
      && g.notes[id].body == s.g.notes[id].body
      && g.notes[id].attempts == s.g.notes[id].attempts && g.notes[id].token.None?
  {
    hide IsHash;
  }
}
