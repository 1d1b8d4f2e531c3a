/** Where the feedback of a job and the questions to the mentor come from: each is, unaltered, what the critic, the
    gate or the author said to a worker that held this job. */
module Provenance {
  import opened Text
  import opened Leases
  import opened Results
  import opened Tables
  import opened Contracts
  import opened Pipeline
  import opened PipelineTheorems
  import opened Fencing
  import A = AuthoringTheorems
  import O = Outbox

  /** In this event the critic rejects the draft of the job that `w` holds with this feedback, or the gate refuses the
      suite on its two runs. */
  predicate Refuses(c: Config, author: Author, e: Event, w: nat, held: Held<Job>, feedback: string) {
    || (e == AuthorReview(w, CriticRejects(feedback)) && author.Drafted? && author.held == held)
    || (&& e.AuthorGate? && e.w == w && e.runs.Some? && author.Reviewed? && author.held == held
        && var reason := GateVerdict(e.runs.value.0, e.runs.value.1, author.suite);
           reason.Some? && feedback == c.codec.gateFeedback(reason.value))
  }

  /** In this event the critic, or the author of a draft that needs clarification, asks this for the job that `w` holds. */
  ghost predicate Asks(c: Config, author: Author, e: Event, w: nat, held: Held<Job>, ask: string) {
    || (e == AuthorReview(w, CriticAsks(ask)) && author.Drafted? && author.held == held)
    || (&& e.AuthorDraft? && e.w == w && e.output.Some? && author == Claimed(held)
        && var draft := Parse(e.output.value, c.codec.valueBytes);
           draft.Some? && draft.value.status.ClarificationRequired? && draft.value.clarification == Some(ask))
  }

  ghost predicate WasRefused(c: Config, events: seq<Event>, w: nat, held: Held<Job>, feedback: string) {
    exists j: nat :: j < |events| && Refuses(c, AuthorOf(Run(c, EMPTY, events[..j]), w), events[j], w, held, feedback)
  }

  ghost predicate WasAsked(c: Config, events: seq<Event>, w: nat, held: Held<Job>, ask: string) {
    exists j: nat :: j < |events| && Asks(c, AuthorOf(Run(c, EMPTY, events[..j]), w), events[j], w, held, ask)
  }

  lemma RefusedStays(c: Config, events: seq<Event>, e: Event, w: nat, held: Held<Job>, feedback: string)
    requires WasRefused(c, events, w, held, feedback)
    ensures WasRefused(c, events + [e], w, held, feedback)
  {
    hide Run, Refuses, AuthorOf;
    var j: nat :| j < |events| && Refuses(c, AuthorOf(Run(c, EMPTY, events[..j]), w), events[j], w, held, feedback);
    assert (events + [e])[j] == events[j] && (events + [e])[..j] == events[..j];
  }

  lemma AskedStays(c: Config, events: seq<Event>, e: Event, w: nat, held: Held<Job>, ask: string)
    requires WasAsked(c, events, w, held, ask)
    ensures WasAsked(c, events + [e], w, held, ask)
  {
    hide Run, Asks, AuthorOf;
    var j: nat :| j < |events| && Asks(c, AuthorOf(Run(c, EMPTY, events[..j]), w), events[j], w, held, ask);
    assert (events + [e])[j] == events[j] && (events + [e])[..j] == events[..j];
  }

  lemma SaidNow(c: Config, events: seq<Event>, e: Event, w: nat, held: Held<Job>, text: string)
    ensures
      var author := AuthorOf(Run(c, EMPTY, events), w);
      && (Refuses(c, author, e, w, held, text) ==> WasRefused(c, events + [e], w, held, text))
      && (Asks(c, author, e, w, held, text) ==> WasAsked(c, events + [e], w, held, text))
  {
    hide Run, Refuses, Asks, AuthorOf;
    var events' := events + [e];
    assert events'[|events|] == e && events'[..|events|] == events;
  }

  // ----- one event -----

  lemma AuthorIsTold(c: Config, s: State, e: Event)
    requires IsAuthorEvent(e)
    ensures
      var a, a' := AuthorOf(s, e.w), AuthorOf(AuthorStep(c, s, e), e.w);
      && (a'.Refused? ==> a' == a || Refuses(c, a, e, e.w, a'.held, a'.feedback))
      && (a'.Asking? ==> a' == a || Asks(c, a, e, e.w, a'.held, a'.ask))
  {
    hide ClaimAuthoring, StepAuthorSettle, Handled, Parse, GateVerdict;
    if e.AuthorSettle? { SettleTellsNothing(c, s, e.w, e.nonce, e.fault); }
  }

  lemma SettleTellsNothing(c: Config, s: State, w: nat, nonce: string, fault: Fault)
    ensures
      var a, a' := AuthorOf(s, w), AuthorOf(StepAuthorSettle(c, s, w, nonce, fault), w);
      a' == a || a'.AuthorIdle? || a'.Raised?
  {
    hide RequestClarification, RejectOrRetry, Owns, Freeze, ToPayload, FinalizeAuthoring;
  }

  lemma WorkerIsTold(c: Config, s: State, e: Event, w: nat)
    ensures
      var a, a' := AuthorOf(s, w), AuthorOf(Step(c, s, e), w);
      && (a'.Refused? ==> a' == a || Refuses(c, a, e, w, a'.held, a'.feedback))
      && (a'.Asking? ==> a' == a || Asks(c, a, e, w, a'.held, a'.ask))
  {
    hide AuthorStep, GraderStep, PublisherStep, BotStep, OutsideStep, AuthorOf, Refuses, Asks;
    if By(e, AuthorAt(w)) { AuthorIsTold(c, s, e); } else { PlaceKept(c, s, e, AuthorAt(w)); }
  }

  /** What a job's feedback is after an event: what it was, or that of the refusal being settled. */
  ghost predicate FeedbackFrom(c: Config, before: Table<Job>, after: Table<Job>, author: Author, t: string) {
    t in after && after[t].body.feedback.Some? ==>
      || (t in before && before[t].body.feedback == after[t].body.feedback)
      || (author.Refused? && author.held.id == t && after[t].body.feedback == c.codec.feedback(author.feedback))
  }

  lemma SettledFeedback(c: Config, s: State, w: nat, nonce: string, fault: Fault, t: string)
    ensures FeedbackFrom(c, s.a.jobs, StepAuthorSettle(c, s, w, nonce, fault).a.jobs, AuthorOf(s, w), t)
  {
    hide AuthorOf, BoundedText, RevisionTaken, ErrorCodeValid, IsHash, Freeze, ToPayload;
    match AuthorOf(s, w)
    case Asking(held, ask) =>
    case Refused(held, feedback, code) =>
    case Accepted(held, evidence) =>
    case _ =>
  }

  lemma AuthorFeedback(c: Config, s: State, e: Event, t: string)
    requires IsAuthorEvent(e)
    ensures
      FeedbackFrom(c, s.a.jobs, AuthorStep(c, s, e).a.jobs, if e.AuthorSettle? then AuthorOf(s, e.w) else AuthorIdle, t)
  {
    hide AuthorOf, StepAuthorSettle, AfterDraft, AfterReview, AfterGate, ErrorCodeValid;
    if e.AuthorSettle? { SettledFeedback(c, s, e.w, e.nonce, e.fault, t); }
  }

  lemma OutsideFeedback(c: Config, s: State, e: Event, t: string)
    requires !IsAuthorEvent(e) && !IsGraderEvent(e) && !IsPublisherEvent(e) && !IsBotEvent(e)
    ensures FeedbackFrom(c, s.a.jobs, OutsideStep(c, s, e).a.jobs, AuthorIdle, t)
  {
    hide IdentityValid, RowTaken, BranchTaken, BoundedText, AnswerApplies, RequeueFailed, EnqueueGrading;
  }

  lemma StepFeedback(c: Config, s: State, e: Event, t: string)
    ensures FeedbackFrom(c, s.a.jobs, Step(c, s, e).a.jobs, if e.AuthorSettle? then AuthorOf(s, e.w) else AuthorIdle, t)
  {
    hide AuthorStep, GraderStep, PublisherStep, BotStep, OutsideStep, AuthorOf;
    if IsAuthorEvent(e) { AuthorFeedback(c, s, e, t); }
    else if IsGraderEvent(e) { A.GraderKeepsAuthoring(c, s, e); }
    else if IsPublisherEvent(e) { A.PublisherKeepsAuthoring(c, s, e); }
    else if IsBotEvent(e) { A.BotKeepsAuthoring(c, s, e); }
    else { OutsideFeedback(c, s, e, t); }
  }

  /** The same for a question. */
  ghost predicate QuestionFrom(before: map<string, Clarification>, after: map<string, Clarification>, author: Author, n: string) {
    n in after ==>
      || (n in before && before[n].question == after[n].question && before[n].taskId == after[n].taskId)
      || (author.Asking? && author.held.id == after[n].taskId && after[n].question == Strip(author.ask))
  }

  lemma SettledQuestion(c: Config, s: State, w: nat, nonce: string, fault: Fault, n: string)
    ensures QuestionFrom(s.a.clarifications, StepAuthorSettle(c, s, w, nonce, fault).a.clarifications, AuthorOf(s, w), n)
  {
    hide AuthorOf, Strip, RevisionTaken, RejectOrRetry, StepAuthorFinalize;
    match AuthorOf(s, w)
    case Asking(held, ask) =>
    case Refused(held, feedback, code) => RefuseFrame(c, s.a, s.clock, held, feedback, code);
    case Accepted(held, evidence) => FinalizeFrame(c, s, w, held, evidence, fault);
    case _ =>
  }

  lemma AuthorQuestion(c: Config, s: State, e: Event, n: string)
    requires IsAuthorEvent(e)
    ensures
      QuestionFrom(
        s.a.clarifications, AuthorStep(c, s, e).a.clarifications, if e.AuthorSettle? then AuthorOf(s, e.w) else AuthorIdle, n)
  {
    hide AuthorOf, StepAuthorSettle, AfterDraft, AfterReview, AfterGate, Handled, ClaimAuthoring;
    if e.AuthorSettle? { SettledQuestion(c, s, e.w, e.nonce, e.fault, n); }
    if e.AuthorClaim? { AuthorClaimFrame(s.a, c.settings, s.clock, e.token); }
    if e.AuthorHandle? && AuthorOf(s, e.w).Raised? { RefuseFrame(c, s.a, s.clock, AuthorOf(s, e.w).held, "", ""); }
  }

  lemma OutsideQuestion(c: Config, s: State, e: Event, n: string)
    requires !IsAuthorEvent(e) && !IsGraderEvent(e) && !IsPublisherEvent(e) && !IsBotEvent(e)
    ensures QuestionFrom(s.a.clarifications, OutsideStep(c, s, e).a.clarifications, AuthorIdle, n)
  {
    hide IdentityValid, RowTaken, BranchTaken, BoundedText, AnswerApplies, RequeueFailed, EnqueueGrading;
  }

  lemma StepQuestion(c: Config, s: State, e: Event, n: string)
    ensures
      QuestionFrom(
        s.a.clarifications, Step(c, s, e).a.clarifications, if e.AuthorSettle? then AuthorOf(s, e.w) else AuthorIdle, n)
  {
    hide AuthorStep, GraderStep, PublisherStep, BotStep, OutsideStep, AuthorOf;
    if IsAuthorEvent(e) { AuthorQuestion(c, s, e, n); }
    else if IsGraderEvent(e) { A.GraderKeepsAuthoring(c, s, e); }
    else if IsPublisherEvent(e) { A.PublisherKeepsAuthoring(c, s, e); }
    else if IsBotEvent(e) { A.BotKeepsAuthoring(c, s, e); }
    else { OutsideQuestion(c, s, e, n); }
  }

  // ----- runs -----

  /** What `w` is about to settle was said to it in the run. */
  ghost predicate Founded(c: Config, events: seq<Event>, w: nat, author: Author) {
    && (author.Refused? ==> WasRefused(c, events, w, author.held, author.feedback))
    && (author.Asking? ==> WasAsked(c, events, w, author.held, author.ask))
  }

  lemma {:induction false} RunFounds(c: Config, events: seq<Event>, w: nat)
    ensures Founded(c, events, w, AuthorOf(Run(c, EMPTY, events), w))
    decreases |events|
  {
    hide Step, WasRefused, WasAsked, Refuses, Asks;
    if events != [] {
      var last := |events| - 1;
      var before, e := events[..last], events[last];
      assert before + [e] == events;
      var s := Run(c, EMPTY, before);
      RunFounds(c, before, w);
      O.OneMore(c, before, e);
      WorkerIsTold(c, s, e, w);
      var a := AuthorOf(Step(c, s, e), w);
      if a.Refused? {
        SaidNow(c, before, e, w, a.held, a.feedback);
        if a == AuthorOf(s, w) { RefusedStays(c, before, e, w, a.held, a.feedback); }
      }
      if a.Asking? {
        SaidNow(c, before, e, w, a.held, a.ask);
        if a == AuthorOf(s, w) { AskedStays(c, before, e, w, a.held, a.ask); }
      }
    }
  }

  /** Over any run, a job's feedback is the stored form of what the critic or the gate said to a worker that held
      this job. */
  lemma {:induction false} FeedbackWasSaid(c: Config, events: seq<Event>, t: string)
    ensures
      var jobs := Run(c, EMPTY, events).a.jobs;
      t in jobs && jobs[t].body.feedback.Some? ==>
        exists w: nat, held, text ::
          WasRefused(c, events, w, held, text) && held.id == t && c.codec.feedback(text) == jobs[t].body.feedback
    decreases |events|
  {
    hide Step, WasRefused, AuthorOf;
    if events != [] {
      var last := |events| - 1;
      var before, e := events[..last], events[last];
      assert before + [e] == events;
      var s, jobs := Run(c, EMPTY, before), Run(c, EMPTY, events).a.jobs;
      O.OneMore(c, before, e);
      StepFeedback(c, s, e, t);
      FeedbackWasSaid(c, before, t);
      if t in jobs && jobs[t].body.feedback.Some? {
        if t in s.a.jobs && s.a.jobs[t].body.feedback == jobs[t].body.feedback {
          var w: nat, held, text :|
            WasRefused(c, before, w, held, text) && held.id == t && c.codec.feedback(text) == jobs[t].body.feedback;
          RefusedStays(c, before, e, w, held, text);
        } else {
          var author := AuthorOf(s, e.w);
          RunFounds(c, before, e.w);
          RefusedStays(c, before, e, e.w, author.held, author.feedback);
        }
      }
    }
  }

  /** And every question to the mentor is what the author or the critic asked of a worker that held its job, without
      the surrounding spaces. */
  lemma {:induction false} QuestionWasAsked(c: Config, events: seq<Event>, n: string)
    ensures
      var asked := Run(c, EMPTY, events).a.clarifications;
      n in asked ==>
        exists w: nat, held, text ::
          WasAsked(c, events, w, held, text) && held.id == asked[n].taskId && Strip(text) == asked[n].question
    decreases |events|
  {
    hide Step, WasAsked, AuthorOf, Strip;
    if events != [] {
      var last := |events| - 1;
      var before, e := events[..last], events[last];
      assert before + [e] == events;
      var s, asked := Run(c, EMPTY, before), Run(c, EMPTY, events).a.clarifications;
      O.OneMore(c, before, e);
      StepQuestion(c, s, e, n);
      QuestionWasAsked(c, before, n);
      if n in asked {
        if n in s.a.clarifications && s.a.clarifications[n].question == asked[n].question
          && s.a.clarifications[n].taskId == asked[n].taskId {
          var w: nat, held, text :|
            WasAsked(c, before, w, held, text) && held.id == asked[n].taskId && Strip(text) == asked[n].question;
          AskedStays(c, before, e, w, held, text);
        } else {
          var author := AuthorOf(s, e.w);
          RunFounds(c, before, e.w);
          AskedStays(c, before, e, e.w, author.held, author.ask);
        }
      }
    }
  }
}
