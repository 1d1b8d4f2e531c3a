/** The mentor bot: each Telegram update is handled by a fixed sequence of durable writes and messages,
    and may be cut short after any of them and delivered again. */
module MentorBot {
  import opened Text
  import opened Leases
  import opened Tables
  import P = Pipeline
  import PI = PipelineInvariant
  import PT = PipelineTheorems
  import AT = AuthoringTheorems

  datatype Conversation = Conversation(
    taskId: string, nonce: string, revision: int, question: string, prompt: int, active: bool)

  /** What the handler looks at: whether the update has a valid ID, whether the message comes from the
      mentor's private chat, its text, and the message it replies to. */
  datatype Update = Update(id: Option<nat>, authorized: bool, text: Option<string>, replyTo: Option<int>)

  /** The bot's own database for the one allowed chat, next to the grading tables. */
  datatype State = State(processed: set<nat>, conversation: Option<Conversation>, pipe: P.State)

  datatype Plan =
    | Invalid
    | Duplicate
    | MarkOnly
    | MarkAndTell                                      // nothing to resume, stale or unusable reply
    | Cancel
    | Resume(talk: Conversation)
    | Reply(talk: Conversation, answer: string)
    | Raises                                           // the answer is refused by the store

  predicate Usable(text: Option<string>) { text.Some? && Strip(text.value) != "" && Utf8Length(text.value) <= 1_000 }

  function PlanFor(s: State, u: Update): Plan {
    if u.id.None? then Invalid
    else if u.id.value in s.processed then Duplicate
    else if !u.authorized then MarkOnly
    else if u.text == Some("/cancel") then Cancel
    else if u.text == Some("/start") then (if s.conversation.None? then MarkAndTell else Resume(s.conversation.value))
    else if s.conversation.None? || !s.conversation.value.active then MarkOnly
    else if u.replyTo != Some(s.conversation.value.prompt) then MarkAndTell
    else if !Usable(u.text) then MarkAndTell
    else if '\0' in Strip(u.text.value) then Raises
    else Reply(s.conversation.value, Strip(u.text.value))
  }

  datatype Effect =
    | Mark(id: nat)
    | Pause
    | Activate(talk: Conversation)
    | Clear(talk: Conversation)
    | Answers(nonce: string, revision: int, text: string)
    | Send

  /** `prompt` is the number Telegram gives to a new message. */
  function Effects(plan: Plan, id: nat, prompt: int): seq<Effect> {
    match plan
    case Invalid => []
    case Duplicate => []
    case Raises => []
    case MarkOnly => [Mark(id)]
    case MarkAndTell => [Mark(id), Send]
    case Cancel => [Pause, Mark(id), Send]
    case Resume(talk) => [Mark(id), Send, Activate(talk.(prompt := prompt, active := true))]
    case Reply(talk, answer) => [Answers(talk.nonce, talk.revision, answer), Mark(id), Clear(talk), Send]
  }

  ghost function Do(c: P.Config, s: State, e: Effect): State {
    match e
    case Mark(id) => s.(processed := s.processed + {id})
    case Pause => if s.conversation.Some? then s.(conversation := Some(s.conversation.value.(active := false))) else s
    case Activate(talk) => s.(conversation := Some(talk))
    case Clear(talk) =>
      if s.conversation.Some? && s.conversation.value.nonce == talk.nonce && s.conversation.value.revision == talk.revision
         && s.conversation.value.prompt == talk.prompt
      then s.(conversation := None)
      else s
    case Answers(nonce, revision, text) => s.(pipe := P.Step(c, s.pipe, P.Answer(nonce, revision, text)))
    case Send => s
  }

  ghost function DoAll(c: P.Config, s: State, effects: seq<Effect>): State
    decreases effects
  {
    if effects == [] then s else DoAll(c, Do(c, s, effects[0]), effects[1..])
  }

  function EffectsOf(s: State, u: Update, prompt: int): seq<Effect> {
    Effects(PlanFor(s, u), if u.id.Some? then u.id.value else 0, prompt)
  }

  /** `handle_update`, stopped by a crash or an exception after `k` of its effects. */
  ghost function HandleUpTo(c: P.Config, s: State, u: Update, prompt: int, k: nat): State {
    var effects := EffectsOf(s, u, prompt);
    DoAll(c, s, if k < |effects| then effects[..k] else effects)
  }

  ghost function Handle(c: P.Config, s: State, u: Update, prompt: int): State { DoAll(c, s, EffectsOf(s, u, prompt)) }

  // ----- replay -----

  /** The cuts that a second delivery does not make good: the update counts as processed, but the
      conversation was not yet cleared or renewed. */
  predicate Unrepaired(s: State, u: Update, prompt: int, k: nat) {
    match PlanFor(s, u)
    case Resume(talk) => (k == 1 || k == 2) && talk != talk.(prompt := prompt, active := true)
    case Reply(_, _) => k == 2
    case _ => false
  }

  lemma Unfold(c: P.Config, s: State, effects: seq<Effect>)
    ensures effects == [] ==> DoAll(c, s, effects) == s
    ensures effects != [] ==> DoAll(c, s, effects) == DoAll(c, Do(c, s, effects[0]), effects[1..])
  {}

  /** An answer that was stored is stored again without any effect. */
  lemma AnswerTwice(c: P.Config, pipe: P.State, nonce: string, revision: int, text: string)
    requires BoundedText(text, 1_000) == Some(text)
    ensures
      var e := P.Answer(nonce, revision, text);
      P.Step(c, P.Step(c, pipe, e), e) == P.Step(c, pipe, e)
  {
    hide BoundedText;
    var once := P.StepAnswer(pipe, nonce, revision, text);
    assert P.StepAnswer(once, nonce, revision, text) == once;
    hide P.StepAnswer;
    AnswerStep(c, pipe, nonce, revision, text);
    AnswerStep(c, once, nonce, revision, text);
  }

  lemma AnswerStep(c: P.Config, pipe: P.State, nonce: string, revision: int, text: string)
    ensures P.Step(c, pipe, P.Answer(nonce, revision, text)) == P.StepAnswer(pipe, nonce, revision, text)
  {
    hide P.StepAnswer;
  }

  /** What the handler passes on is stored unchanged. */
  lemma ReplyIsBounded(s: State, u: Update)
    requires PlanFor(s, u).Reply?
    ensures BoundedText(PlanFor(s, u).answer, 1_000) == Some(PlanFor(s, u).answer)
  {
    hide StripBy, Utf8Length;
    var text := u.text.value;
    StripIdempotent(text, IsSpace);
    Utf8IsLonger(text);
    StripIsShorter(text);
    assert Strip(Strip(text)) == Strip(text);
  }

  lemma StripIsShorter(s: string)
    ensures |Strip(s)| <= |s|
  {
    hide IsSpace;
  }

  ghost predicate Replayed(c: P.Config, s: State, u: Update, prompt: int, k: nat) {
    Handle(c, HandleUpTo(c, s, u, prompt, k), u, prompt) == Handle(c, s, u, prompt)
  }

  /** A processed update does nothing. */
  lemma ProcessedDoesNothing(c: P.Config, s: State, u: Update, prompt: int)
    requires u.id.Some? && u.id.value in s.processed
    ensures Handle(c, s, u, prompt) == s
  {
    Unfold(c, s, []);
  }

  lemma ReplayOfMarks(c: P.Config, s: State, u: Update, prompt: int, k: nat)
    requires PlanFor(s, u).MarkOnly? || PlanFor(s, u).MarkAndTell?
    ensures Replayed(c, s, u, prompt, k)
  {
    hide P.Step, PlanFor;
    var effects := EffectsOf(s, u, prompt);
    PlannedId(s, u);
    var marked := Do(c, s, Mark(u.id.value));
    ProcessedDoesNothing(c, marked, u, prompt);
    DoFour(c, s, effects);
    if k == 0 { DoFour(c, s, effects[..0]); }
    if 0 < k < |effects| { DoFour(c, s, effects[..k]); }
    DoFour(c, marked, EffectsOf(marked, u, prompt));
  }

  /** Up to four effects, written out. */
  lemma DoFour(c: P.Config, s: State, e: seq<Effect>)
    requires |e| <= 4
    ensures |e| == 0 ==> DoAll(c, s, e) == s
    ensures |e| == 1 ==> DoAll(c, s, e) == Do(c, s, e[0])
    ensures |e| == 2 ==> DoAll(c, s, e) == Do(c, Do(c, s, e[0]), e[1])
    ensures |e| == 3 ==> DoAll(c, s, e) == Do(c, Do(c, Do(c, s, e[0]), e[1]), e[2])
    ensures |e| == 4 ==> DoAll(c, s, e) == Do(c, Do(c, Do(c, Do(c, s, e[0]), e[1]), e[2]), e[3])
  {
    hide Do, DoAll;
    Unfold(c, s, e);
    if 0 < |e| {
      var s1 := Do(c, s, e[0]);
      Unfold(c, s1, e[1..]);
      if 1 < |e| {
        var s2 := Do(c, s1, e[1]);
        Unfold(c, s2, e[1..][1..]);
        assert e[1..][1..] == e[2..];
        if 2 < |e| {
          var s3 := Do(c, s2, e[2]);
          Unfold(c, s3, e[2..][1..]);
          assert e[2..][1..] == e[3..];
          if 3 < |e| {
            Unfold(c, Do(c, s3, e[3]), e[3..][1..]);
            assert e[3..][1..] == [];
          }
        }
      }
    }
  }

  lemma PlannedId(s: State, u: Update)
    ensures !PlanFor(s, u).Invalid? ==> u.id.Some?
    ensures !PlanFor(s, u).Invalid? && !PlanFor(s, u).Duplicate? ==> u.id.value !in s.processed
  {
    hide Usable;
  }

  lemma ReplayOfCancel(c: P.Config, s: State, u: Update, prompt: int, k: nat)
    requires PlanFor(s, u).Cancel?
    ensures Replayed(c, s, u, prompt, k)
  {
    hide P.Step, DoAll;
    var effects := EffectsOf(s, u, prompt);
    var paused := Do(c, s, Pause);
    assert PlanFor(paused, u).Cancel? && Do(c, paused, Pause) == paused;
    DoFour(c, s, effects);
    DoFour(c, s, effects[..0]);
    DoFour(c, s, effects[..1]);
    DoFour(c, s, effects[..2]);
    DoFour(c, paused, EffectsOf(paused, u, prompt));
    var marked := Do(c, paused, Mark(u.id.value));
    ProcessedDoesNothing(c, marked, u, prompt);
  }

  lemma ReplayOfResume(c: P.Config, s: State, u: Update, prompt: int, k: nat)
    requires PlanFor(s, u).Resume?
    ensures Replayed(c, s, u, prompt, k) <==> !Unrepaired(s, u, prompt, k)
  {
    hide P.Step, DoAll;
    var effects := EffectsOf(s, u, prompt);
    var talk := PlanFor(s, u).talk;
    DoFour(c, s, effects);
    DoFour(c, s, effects[..0]);
    DoFour(c, s, effects[..1]);
    DoFour(c, s, effects[..2]);
    var marked := Do(c, s, Mark(u.id.value));
    assert marked.conversation == Some(talk);
    var resumed := Do(c, marked, effects[2]);
    ProcessedDoesNothing(c, marked, u, prompt);
    ProcessedDoesNothing(c, resumed, u, prompt);
  }

  lemma ReplayOfReply(c: P.Config, s: State, u: Update, prompt: int, k: nat)
    requires PlanFor(s, u).Reply?
    ensures Replayed(c, s, u, prompt, k) <==> !Unrepaired(s, u, prompt, k)
  {
    hide P.Step, DoAll, Utf8Length, StripBy;
    var effects := EffectsOf(s, u, prompt);
    var talk, answer := PlanFor(s, u).talk, PlanFor(s, u).answer;
    ReplyIsBounded(s, u);
    AnswerTwice(c, s.pipe, talk.nonce, talk.revision, answer);
    var answered := Do(c, s, effects[0]);
    assert PlanFor(answered, u) == PlanFor(s, u) && Do(c, answered, effects[0]) == answered;
    DoFour(c, s, effects);
    DoFour(c, s, effects[..0]);
    DoFour(c, s, effects[..1]);
    DoFour(c, s, effects[..2]);
    DoFour(c, s, effects[..3]);
    DoFour(c, answered, effects);
    var marked := Do(c, answered, effects[1]);
    var cleared := Do(c, marked, effects[2]);
    assert marked.conversation == Some(talk) && cleared.conversation == None;
    ProcessedDoesNothing(c, marked, u, prompt);
    ProcessedDoesNothing(c, cleared, u, prompt);
  }

  /** Wherever the handling of an update stops, a second delivery ends in the same databases as one
      undisturbed delivery, except exactly when it stopped after marking the update and before
      clearing or renewing the conversation. Nothing else happens between the stop and the second delivery. */
  lemma ReplayConvergesExactly(c: P.Config, s: State, u: Update, prompt: int, k: nat)
    ensures Handle(c, HandleUpTo(c, s, u, prompt, k), u, prompt) == Handle(c, s, u, prompt) <==> !Unrepaired(s, u, prompt, k)
  {
    hide PlanFor, P.Step;
    match PlanFor(s, u)
    case Resume(_) => ReplayOfResume(c, s, u, prompt, k);
    case Reply(_, _) => ReplayOfReply(c, s, u, prompt, k);
    case Cancel => ReplayOfCancel(c, s, u, prompt, k);
    case MarkOnly => ReplayOfMarks(c, s, u, prompt, k);
    case MarkAndTell => ReplayOfMarks(c, s, u, prompt, k);
    case _ => DoFour(c, s, []);
  }

  /** An update counts as processed afterwards exactly when it has a valid ID and its answer, if it is
      one, has no NUL character; otherwise every delivery of it fails in the same way again. (Texts have no
      lone surrogates, as Dafny's characters have none: encoding those raises in the source too.) */
  lemma HandledIsProcessed(c: P.Config, s: State, u: Update, prompt: int)
    requires u.id.Some?
    ensures u.id.value in Handle(c, s, u, prompt).processed <==> !PlanFor(s, u).Raises?
    ensures PlanFor(s, u).Raises? ==> Handle(c, s, u, prompt) == s
  {
    hide PlanFor, P.Step, DoAll;
    DoFour(c, s, EffectsOf(s, u, prompt));
    PlanDuplicate(s, u);
    PlannedId(s, u);
  }

  lemma PlanDuplicate(s: State, u: Update)
    requires u.id.Some?
    ensures PlanFor(s, u).Duplicate? <==> u.id.value in s.processed
    ensures !PlanFor(s, u).Invalid?
  {
    hide Usable;
  }

  // ----- whole runs of the bot beside the rest of the pipeline -----

  /** `sync_pending_clarification` announces `nonce`, if it is pending; a crash may come between the
      message and the activation. */
  datatype Event =
    | Elsewhere(e: P.Event)
    | Deliver(u: Update, prompt: int, k: nat)
    | Announce(nonce: string, prompt: int, crash: bool)

  /** `ORDER BY created_at, nonce LIMIT 1` among the pending ones. */
  predicate IsNextPending(asked: map<string, Clarification>, nonce: string) {
    && nonce in asked && asked[nonce].Pending()
    && forall o | o in asked && o != nonce && asked[o].Pending() ::
         asked[nonce].createdAt < asked[o].createdAt
         || (asked[nonce].createdAt == asked[o].createdAt && StrLt(nonce, o))
  }

  function StepAnnounce(s: State, nonce: string, prompt: int, crash: bool): State {
    var asked := s.pipe.a.clarifications;
    if !IsNextPending(asked, nonce) || crash then s
    else
      var row := asked[nonce];
      if s.conversation.Some? && s.conversation.value.nonce == nonce && s.conversation.value.revision == row.revision then s
      else s.(conversation := Some(Conversation(row.taskId, nonce, row.revision, row.question, prompt, true)))
  }

  ghost function Step(c: P.Config, s: State, e: Event): State {
    match e
    case Elsewhere(p) => s.(pipe := P.Step(c, s.pipe, p))
    case Deliver(u, prompt, k) => HandleUpTo(c, s, u, prompt, k)
    case Announce(nonce, prompt, crash) => StepAnnounce(s, nonce, prompt, crash)
  }

  ghost function Run(c: P.Config, s: State, events: seq<Event>): State
    decreases events
  {
    if events == [] then s else Run(c, Step(c, s, events[0]), events[1..])
  }

  const EMPTY := State({}, None, P.EMPTY)

  /** The conversation is about a question that was really asked. */
  ghost predicate TalkOk(pipe: P.State, talk: Option<Conversation>) {
    talk.Some? ==>
      && talk.value.nonce in pipe.a.clarifications
      && pipe.a.clarifications[talk.value.nonce].revision == talk.value.revision
      && pipe.a.clarifications[talk.value.nonce].taskId == talk.value.taskId
      && pipe.a.clarifications[talk.value.nonce].question == talk.value.question
  }

  ghost predicate Inv(c: P.Config, s: State) { PI.Inv(c, s.pipe) && TalkOk(s.pipe, s.conversation) }

  lemma TalkStays(c: P.Config, pipe: P.State, pipe': P.State, talk: Option<Conversation>)
    requires TalkOk(pipe, talk) && PT.Evolves(pipe, pipe')
    ensures TalkOk(pipe', talk)
  {
    hide PT.GradingEvolves, PI.JobsEvolve, PI.OriginGrows, PI.VaultGrows;
  }

  /** An effect whose conversation, if it sets one, is the current one up to its prompt. */
  predicate Renews(s: State, e: Effect) {
    e.Activate? ==> s.conversation.Some? && s.conversation.value.(prompt := e.talk.prompt, active := e.talk.active) == e.talk
  }

  lemma DoKeeps(c: P.Config, s: State, e: Effect)
    requires Inv(c, s) && Renews(s, e)
    ensures Inv(c, Do(c, s, e))
    ensures PT.Evolves(s.pipe, Do(c, s, e).pipe)
  {
    hide PI.Inv, PT.Evolves, P.Step;
    PT.EvolvesReflexive(s.pipe);
    if e.Answers? {
      var p := P.Answer(e.nonce, e.revision, e.text);
      PT.StepKeeps(c, s.pipe, p);
      TalkStays(c, s.pipe, P.Step(c, s.pipe, p), s.conversation);
    }
  }

  lemma ThirdRenews(c: P.Config, s: State, u: Update, prompt: int)
    ensures
      var e := EffectsOf(s, u, prompt);
      2 < |e| ==> Renews(Do(c, Do(c, s, e[0]), e[1]), e[2])
    ensures
      var e := EffectsOf(s, u, prompt);
      forall i | 0 <= i < |e| && i != 2 :: !e[i].Activate?
  {
    hide P.Step, Utf8Length, StripBy;
  }

  lemma HandleKeeps(c: P.Config, s: State, u: Update, prompt: int, k: nat)
    requires Inv(c, s)
    ensures Inv(c, HandleUpTo(c, s, u, prompt, k))
  {
    hide Inv, Do, DoAll, Utf8Length, StripBy;
    var effects := EffectsOf(s, u, prompt);
    var e := if k < |effects| then effects[..k] else effects;
    ThirdRenews(c, s, u, prompt);
    assert forall i | 0 <= i < |e| :: e[i] == effects[i];
    DoFour(c, s, e);
    if 0 < |e| {
      DoKeeps(c, s, e[0]);
      var s1 := Do(c, s, e[0]);
      if 1 < |e| {
        DoKeeps(c, s1, e[1]);
        var s2 := Do(c, s1, e[1]);
        if 2 < |e| {
          DoKeeps(c, s2, e[2]);
          if 3 < |e| { DoKeeps(c, Do(c, s2, e[2]), e[3]); }
        }
      }
    }
  }

  lemma StepKeeps(c: P.Config, s: State, e: Event)
    requires Inv(c, s)
    ensures Inv(c, Step(c, s, e))
  {
    hide PI.Inv, P.Step, PT.Evolves, HandleUpTo, IsNextPending;
    match e
    case Elsewhere(p) =>
      PT.StepKeeps(c, s.pipe, p);
      TalkStays(c, s.pipe, P.Step(c, s.pipe, p), s.conversation);
    case Deliver(u, prompt, k) => HandleKeeps(c, s, u, prompt, k);
    case Announce(nonce, prompt, crash) =>
      if IsNextPending(s.pipe.a.clarifications, nonce) { NextIsAsked(s.pipe.a.clarifications, nonce); }
  }

  lemma NextIsAsked(asked: map<string, Clarification>, nonce: string)
    requires IsNextPending(asked, nonce)
    ensures nonce in asked
  {}

  lemma {:induction false} RunKeeps(c: P.Config, s: State, events: seq<Event>)
    requires Inv(c, s)
    ensures Inv(c, Run(c, s, events))
    decreases events
  {
    hide Inv, Step;
    if events != [] {
      StepKeeps(c, s, events[0]);
      RunKeeps(c, Step(c, s, events[0]), events[1..]);
    }
  }

  /** Over any run of workers and of the bot, with updates delivered any number of times and cut short
      anywhere, an answer moves its job on at most once, exactly once when a row has an answer, and the
      conversation is always about a question that was asked, under its own revision and text. */
  lemma AnswersMoveJobsOnce(c: P.Config, events: seq<Event>, nonce: string)
    ensures
      var s := Run(c, EMPTY, events);
      && P.Applied(s.pipe.past.applied, nonce) ==
           (if nonce in s.pipe.a.clarifications && s.pipe.a.clarifications[nonce].answer.Some? then 1 else 0)
      && TalkOk(s.pipe, s.conversation)
  {
    hide PI.Inv, Step, TalkOk;
    PT.EmptyInv(c);
    assert TalkOk(EMPTY.pipe, EMPTY.conversation) by { NoTalk(EMPTY.pipe); }
    RunKeeps(c, EMPTY, events);
    AppliedOf(c, Run(c, EMPTY, events).pipe, nonce);
  }

  lemma NoTalk(pipe: P.State)
    ensures TalkOk(pipe, None)
  {}

  lemma AppliedOf(c: P.Config, pipe: P.State, nonce: string)
    requires PI.Inv(c, pipe)
    ensures P.Applied(pipe.past.applied, nonce) ==
      (if nonce in pipe.a.clarifications && pipe.a.clarifications[nonce].answer.Some? then 1 else 0)
  {
    hide PI.LeasesOk, PI.JobsOk, PI.VaultOk, PI.AttemptsOk, PI.OutboxOk, PI.AuthorsOk, PI.GradersOk, PI.CouriersOk, PI.PushesOk,
         PI.RevisionsOk;
  }

  // ----- what a message may do -----

  /** A reply of the mentor, in the private chat, to the prompt that waits, with a text that can be stored. */
  predicate IsReply(s: State, u: Update) {
    && u.authorized && u.text.Some? && u.text != Some("/cancel") && u.text != Some("/start")
    && s.conversation.Some? && s.conversation.value.active && u.replyTo == Some(s.conversation.value.prompt)
    && Strip(u.text.value) != "" && Utf8Length(u.text.value) <= 1_000 && '\0' !in Strip(u.text.value)
  }

  predicate IsNew(s: State, u: Update) { u.id.Some? && u.id.value !in s.processed }

  /** The question that the mentor is shown again. */
  function Resumed(s: State, prompt: int): Option<Conversation> {
    if s.conversation.None? then None else Some(s.conversation.value.(prompt := prompt, active := true))
  }

  function Paused(s: State): Option<Conversation> {
    if s.conversation.None? then None else Some(s.conversation.value.(active := false))
  }

  /** What an undisturbed delivery does: only a new update with a reply to the waiting prompt passes an answer on,
      the one for the conversation's question, and ends the conversation; only the mentor's commands pause and
      resume it. */
  lemma UpdateDoesExactly(c: P.Config, s: State, u: Update, prompt: int)
    ensures
      var s' := Handle(c, s, u, prompt);
      && s'.pipe ==
           (if IsNew(s, u) && IsReply(s, u) then
              P.Step(c, s.pipe, P.Answer(s.conversation.value.nonce, s.conversation.value.revision, Strip(u.text.value)))
            else s.pipe)
      && s'.conversation ==
           (if IsNew(s, u) && IsReply(s, u) then None
            else if IsNew(s, u) && u.authorized && u.text == Some("/cancel") then Paused(s)
            else if IsNew(s, u) && u.authorized && u.text == Some("/start") then Resumed(s, prompt)
            else s.conversation)
  {
    hide P.Step, DoAll, Utf8Length, StripBy;
    DoFour(c, s, EffectsOf(s, u, prompt));
  }

  /** However it is cut short, a delivery leaves the grading tables alone or passes on the answer of its reply. */
  lemma CutUpdateAnswers(c: P.Config, s: State, u: Update, prompt: int, k: nat)
    ensures
      var s' := HandleUpTo(c, s, u, prompt, k);
      s'.pipe == s.pipe
      || (IsNew(s, u) && IsReply(s, u)
          && s'.pipe ==
               P.Step(c, s.pipe, P.Answer(s.conversation.value.nonce, s.conversation.value.revision, Strip(u.text.value))))
  {
    hide P.Step, DoAll, Utf8Length, StripBy;
    var effects := EffectsOf(s, u, prompt);
    DoFour(c, s, if k < |effects| then effects[..k] else effects);
  }

  // ----- where answers come from -----

  /** No row has an answer that it did not have before. */
  ghost predicate NoNewAnswer(a: AuthoringTables, a': AuthoringTables) {
    forall n | n in a'.clarifications && a'.clarifications[n].answer.Some? ::
      n in a.clarifications && a.clarifications[n].answer == a'.clarifications[n].answer
  }

  lemma QuestionsHaveNoAnswer(a: AuthoringTables, task: string, token: string, question: string, nonce: string, now: real)
    ensures NoNewAnswer(a, RequestClarification(a, task, token, question, nonce, now).0)
  {
    hide BoundedText, RevisionTaken;
  }

  lemma SettleAnswersNothing(c: P.Config, s: P.State, w: nat, nonce: string, fault: P.Fault)
    ensures NoNewAnswer(s.a, P.StepAuthorSettle(c, s, w, nonce, fault).a)
  {
    hide P.AuthorOf, RequestClarification, P.RejectOrRetry, P.StepAuthorFinalize;
    match P.AuthorOf(s, w)
    case Asking(held, ask) => QuestionsHaveNoAnswer(s.a, held.id, held.token, ask, nonce, s.clock);
    case Refused(held, feedback, code) => PT.RefuseFrame(c, s.a, s.clock, held, feedback, code);
    case Accepted(held, evidence) => PT.FinalizeFrame(c, s, w, held, evidence, fault);
    case _ =>
  }

  lemma AuthorAnswersNothing(c: P.Config, s: P.State, e: P.Event)
    requires P.IsAuthorEvent(e)
    ensures NoNewAnswer(s.a, P.AuthorStep(c, s, e).a)
  {
    hide P.StepAuthorSettle, P.AuthorOf, P.Handled, P.AfterDraft, P.AfterReview, P.AfterGate, ClaimAuthoring;
    if e.AuthorSettle? { SettleAnswersNothing(c, s, e.w, e.nonce, e.fault); }
    if e.AuthorClaim? { PT.AuthorClaimFrame(s.a, c.settings, s.clock, e.token); }
    if e.AuthorHandle? && P.AuthorOf(s, e.w).Raised? {
      PT.RefuseFrame(c, s.a, s.clock, P.AuthorOf(s, e.w).held, "", "");
    }
  }

  /** Only an answer event answers anything. */
  lemma OthersAnswerNothing(c: P.Config, s: P.State, e: P.Event)
    requires !e.Answer?
    ensures NoNewAnswer(s.a, P.Step(c, s, e).a)
  {
    hide P.AuthorStep, P.GraderStep, P.PublisherStep, P.BotStep, EnqueueAuthoring, EnqueueGrading, RequeueFailed;
    if P.IsAuthorEvent(e) { AuthorAnswersNothing(c, s, e); }
    if P.IsGraderEvent(e) { AT.GraderKeepsAuthoring(c, s, e); }
    if P.IsPublisherEvent(e) { AT.PublisherKeepsAuthoring(c, s, e); }
    if P.IsBotEvent(e) { AT.BotKeepsAuthoring(c, s, e); }
    if e.EnsureSuite? { PT.EnsureFrame(s.a, c.codec, s.clock, e.task, e.rowId, e.project, e.branch, e.starter, e.assignment); }
  }

  /** And it answers its own row only, with its stripped text. */
  lemma AnswerAnswersOne(a: AuthoringTables, nonce: string, revision: int, text: string, now: real, n: string)
    ensures
      var asked, asked' := a.clarifications, AnswerClarification(a, nonce, revision, text, now).0.clarifications;
      n in asked' && asked'[n].answer.Some? ==>
        || (n in asked && asked[n].answer == asked'[n].answer)
        || (n == nonce && n in asked && asked[n].revision == revision && asked'[n].answer == Some(Strip(text)))
  {
    hide Strip;
  }

  /** Event `j` delivers a new update in which the mentor replies, in the private chat, to the waiting prompt of
      this question, with this text. */
  ghost predicate RepliedAt(c: P.Config, events: seq<Event>, nonce: string, answer: string, j: nat)
    requires j < |events|
  {
    && events[j].Deliver?
    && var s, u := Run(c, EMPTY, events[..j]), events[j].u;
    && IsNew(s, u) && IsReply(s, u) && s.conversation.value.nonce == nonce && Strip(u.text.value) == answer
  }

  /** Nobody else answers. */
  predicate OnlyTheBotAnswers(events: seq<Event>) {
    forall k | 0 <= k < |events| :: events[k].Elsewhere? ==> !events[k].e.Answer?
  }

  lemma OneMore(c: P.Config, events: seq<Event>, e: Event)
    ensures Run(c, EMPTY, events + [e]) == Step(c, Run(c, EMPTY, events), e)
  {
    hide Step;
    RunSplits(c, EMPTY, events, e);
  }

  lemma {:induction false} RunSplits(c: P.Config, s: State, events: seq<Event>, e: Event)
    ensures Run(c, s, events + [e]) == Step(c, Run(c, s, events), e)
    decreases events
  {
    hide Step;
    if events == [] {
      assert [] + [e] == [e] && [e][1..] == [];
      assert Run(c, Step(c, s, e), []) == Step(c, s, e);
    } else {
      assert (events + [e])[1..] == events[1..] + [e];
      RunSplits(c, Step(c, s, events[0]), events[1..], e);
    }
  }

  /** One event gives a row no answer but that of its reply. */
  lemma StepAnswers(c: P.Config, s: State, e: Event, n: string)
    requires e.Elsewhere? ==> !e.e.Answer?
    ensures
      var asked' := Step(c, s, e).pipe.a.clarifications;
      n in asked' && asked'[n].answer.Some? ==>
        || (n in s.pipe.a.clarifications && s.pipe.a.clarifications[n].answer == asked'[n].answer)
        || (e.Deliver? && IsNew(s, e.u) && IsReply(s, e.u) && s.conversation.value.nonce == n
            && Some(Strip(e.u.text.value)) == asked'[n].answer)
  {
    hide P.Step, HandleUpTo, IsNextPending, AnswerClarification, Utf8Length, StripBy;
    match e
    case Elsewhere(p) => OthersAnswerNothing(c, s.pipe, p);
    case Announce(nonce, prompt, crash) =>
    case Deliver(u, prompt, k) =>
      CutUpdateAnswers(c, s, u, prompt, k);
      if IsNew(s, u) && IsReply(s, u) {
        var talk, text := s.conversation.value, Strip(u.text.value);
        AT.AnswerStep(c, s.pipe, talk.nonce, talk.revision, text);
        AnswerAnswersOne(s.pipe.a, talk.nonce, talk.revision, text, s.pipe.clock, n);
        StripIdempotent(u.text.value, IsSpace);
      }
  }

  /** Over any run in which only the bot answers, every stored answer is the stripped text of an update in which the
      mentor replied, in the private chat, to the prompt of exactly that question while it waited. */
  lemma {:induction false} AnswersComeFromReplies(c: P.Config, events: seq<Event>, nonce: string)
    requires OnlyTheBotAnswers(events)
    ensures
      var asked := Run(c, EMPTY, events).pipe.a.clarifications;
      nonce in asked && asked[nonce].answer.Some? ==>
        exists j: nat :: j < |events| && RepliedAt(c, events, nonce, asked[nonce].answer.value, j)
    decreases |events|
  {
    hide Step, IsReply, StripBy;
    if events != [] {
      var last := |events| - 1;
      var before, e := events[..last], events[last];
      assert before + [e] == events;
      OneMore(c, before, e);
      AnswersComeFromReplies(c, before, nonce);
      var s, asked := Run(c, EMPTY, before), Run(c, EMPTY, events).pipe.a.clarifications;
      StepAnswers(c, s, e, nonce);
      if nonce in asked && asked[nonce].answer.Some? {
        var answer := asked[nonce].answer.value;
        if nonce in s.pipe.a.clarifications && s.pipe.a.clarifications[nonce].answer == Some(answer) {
          var j: nat :| j < |before| && RepliedAt(c, before, nonce, answer, j);
          assert events[j] == before[j] && events[..j] == before[..j];
          assert RepliedAt(c, events, nonce, answer, j);
        } else {
          assert RepliedAt(c, events, nonce, answer, last);
        }
      }
    }
  }
}
