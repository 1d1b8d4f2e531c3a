/** Webhook handling as a state machine: any number of handlers take deliveries, write the lifecycle to Yonote
    and then to the database under one lock, ask the API as it stands at that moment, and may fail or crash in
    between. */
module Webhook {
  import opened Text
  import opened Deliveries
  import opened PullRequests

  /** A delivery's event with what its body says. `ours`: it names the configured repository, and a pull
      request's head and base too, with the configured base branch. `number` and `time` are absent if malformed,
      `ref` and `after` if they are no texts. */
  datatype Payload =
    | PullRequest(ours: bool, branch: string, action: Action, draft: bool, merged: bool,
                  number: Option<int>, time: Option<real>)
    | Push(ours: bool, deleted: bool, created: bool, ref: Option<string>, after: Option<string>)
    | OtherEvent(name: string, body: string)

  function EventName(p: Payload): string {
    match p
    case PullRequest(_, _, _, _, _, _, _) => "pull_request"
    case Push(_, _, _, _, _) => "push"
    case OtherEvent(name, _) => name
  }

  datatype Ask = Ask(branch: string, change: Change)

  /** The lifecycle change that a delivery asks for, if it asks for one. */
  function Request(p: Payload): Option<Ask> {
    if !p.PullRequest? || !p.ours then None
    else
      match StateOf(p.action, p.draft, p.merged)
      case None => None
      case Some(state) =>
        if p.number.None? || p.time.None? then None
        else Some(Ask(p.branch, Change(p.number.value, state, p.time.value)))
  }

  predicate AsksFor(p: Payload, branch: string) { Request(p).Some? && Request(p).value.branch == branch }

  /** Where a handler stands: holding a claimed delivery; past the Yonote write, inside the lock; or done with
      the delivery and about to complete it. `blindly` says that it found no mapping for the branch. */
  datatype Handler =
    | Idle
    | Got(id: string, token: string, payload: Payload)
    | Written(id: string, token: string, payload: Payload, write: Change)
    | Handled(id: string, token: string, payload: Payload, blindly: bool)

  /** What Yonote shows for a task: the pull request's number and state. */
  datatype Card = Card(number: int, state: PrState)

  /** What no step consults. `steady`: the API never went back; `fixed`: its answers never changed. `raced`: branches
      with a delivery that its holder handled before they were mapped, while another handler stood at it. `late`:
      branches written to for a spent delivery. `cut`: branches whose last writer showed something new and stopped
      before recording it, with its delivery; `lost`: those of them for which the delivery was spent by then, or
      has been handled since without a write. */
  datatype History = History(
    steady: bool, fixed: bool, raced: set<string>, late: set<string>, cut: map<string, string>, lost: set<string>)

  /** `api` is what the API would answer now. */
  datatype State = State(
    q: Queue<Payload>, mapped: set<string>, record: map<string, Change>, shown: map<string, Card>,
    handlers: map<nat, Handler>, issued: set<string>, api: int -> Answer, past: History)

  datatype Config = Config(lease: real, retention: nat, lookup: bool)

  datatype Event =
    | MapBranch(branch: string)
    | ApiMoves(number: int, answer: Answer)
    | Receive(w: nat, now: real, token: string, rowid: nat, id: string, payload: Payload)
    | Retry(w: nat, now: real, token: string, next: Option<string>)
    | Write(w: nat)
    | Record(w: nat)
    | Complete(w: nat, now: real)
    | Fail(w: nat, now: real, delay: real)
    | Crash(w: nat)

  const BLANK := History(true, true, {}, {}, map[], {})

  function Begin(api: int -> Answer): State { State(map[], {}, map[], map[], map[], {}, api, BLANK) }

  function At(s: State, w: nat): Handler { if w in s.handlers then s.handlers[w] else Idle }

  function Put(s: State, w: nat, h: Handler): State { s.(handlers := s.handlers[w := h]) }

  function RecordOf(s: State, branch: string): PullRequests.Record {
    if branch in s.record then Some(s.record[branch]) else None
  }

  function CardOf(c: Change): Card { Card(c.number, c.state) }

  function Shows(write: Option<Change>): Option<Card> { if write.Some? then Some(CardOf(write.value)) else None }

  function Answers(c: Config, s: State): Option<int -> Answer> { if c.lookup then Some(s.api) else None }

  function Decision(c: Config, s: State, branch: string, change: Change): Option<Change> {
    Decide(RecordOf(s, branch), change, Asked(Answers(c, s), change.number))
  }

  /** Nobody is between the two writes. */
  predicate LockFree(s: State) { forall w | w in s.handlers :: !s.handlers[w].Written? }

  predicate BeingWritten(s: State, branch: string) {
    exists w | w in s.handlers :: s.handlers[w].Written? && AsksFor(s.handlers[w].payload, branch)
  }

  /** Yonote shows what the database records. */
  predicate Agrees(s: State, branch: string) {
    && (branch in s.record <==> branch in s.shown)
    && (branch in s.record ==> s.shown[branch] == CardOf(s.record[branch]))
  }

  /** An answer stays, or gives way to a later one that takes back no merge. */
  predicate Follows(a: Answer, b: Answer) { a == b || (a.time < b.time && (a.state == Merged ==> b.state == Merged)) }

  /** The delivery is uncompleted and still carries this payload. */
  predicate Live(q: Queue<Payload>, id: string, payload: Payload) {
    id in q && q[id].status != Completed && q[id].payload == Some(payload)
  }

  /** The delivery is closed, or in the hands of a handler that has handled it and is about to close it. */
  predicate Spent(s: State, id: string, payload: Payload) { !Live(s.q, id, payload) || HeldHandled(s, id) }

  predicate HeldHandled(s: State, id: string) {
    exists w | w in s.handlers ::
      s.handlers[w].Handled? && s.handlers[w].id == id && Holds(s.q, id, s.handlers[w].token)
  }

  /** What is written differs from what is recorded. */
  predicate IsNews(s: State, branch: string, write: Change) {
    branch !in s.record || CardOf(s.record[branch]) != CardOf(write)
  }

  function StepApi(c: Config, s: State, number: int, answer: Answer): State {
    s.(api := n => if n == number then answer else s.api(n),
       past := s.past.(steady := s.past.steady && (c.lookup ==> Follows(s.api(number), answer)),
                       fixed := s.past.fixed && (c.lookup ==> answer == s.api(number))))
  }

  function StepReceive(c: Config, s: State, e: Event): State
    requires e.Receive?
  {
    if At(s, e.w) != Idle || e.token in s.issued || !TopRow(s.q, e.rowid) then s
    else
      var (q, claim) := ClaimDelivery(s.q, e.now, c.lease, e.token, e.rowid, e.id, Some(EventName(e.payload)), Some(e.payload));
      if claim != Claimed(e.token) then s
      else Put(s.(q := q, issued := s.issued + {e.token}), e.w, Got(e.id, e.token, e.payload))
  }

  function StepRetry(c: Config, s: State, w: nat, now: real, token: string, next: Option<string>): State {
    if At(s, w) != Idle || token in s.issued || next.None? || !IsNext(s.q, now, next.value) then s
    else
      Put(s.(q := ClaimNextDelivery(s.q, now, c.lease, token, next), issued := s.issued + {token}),
          w, Got(next.value, token, s.q[next.value].payload.value))
  }

  predicate SamePayload(h: Handler, id: string, payload: Payload) {
    (h.Got? || h.Written?) && h.id == id && h.payload == payload
  }

  /** The other handlers that stand at the same delivery. */
  function Rivals(s: State, w: nat, id: string, payload: Payload): set<nat> {
    set x | x in s.handlers && x != w && SamePayload(s.handlers[x], id, payload)
  }

  function With(branches: set<string>, branch: string, yes: bool): set<string> {
    if yes then branches + {branch} else branches
  }

  /** The lifecycle section up to and including the Yonote write. */
  function StepWrite(c: Config, s: State, w: nat): State {
    match At(s, w)
    case Got(id, token, payload) =>
      var ask := Request(payload);
      if ask.None? then Put(s, w, Handled(id, token, payload, false))
      else if ask.value.branch !in s.mapped then
        var races := Holds(s.q, id, token) && Rivals(s, w, id, payload) != {};
        Put(s.(past := s.past.(raced := With(s.past.raced, ask.value.branch, races))), w, Handled(id, token, payload, true))
      else if !LockFree(s) then s
      else
        var b := ask.value.branch;
        var write := Decision(c, s, b, ask.value.change);
        if write.None? then
          var loses := b in s.past.cut && s.past.cut[b] == id && Holds(s.q, id, token);
          Put(s.(past := s.past.(lost := With(s.past.lost, b, loses))), w, Handled(id, token, payload, false))
        else
          Put(s.(shown := s.shown[b := CardOf(write.value)],
                 past := s.past.(cut := s.past.cut - {b}, lost := s.past.lost - {b},
                                 late := With(s.past.late, b, Spent(s, id, payload)))),
              w, Written(id, token, payload, write.value))
    case _ => s
  }

  function StepRecord(s: State, w: nat): State {
    match At(s, w)
    case Written(id, token, payload, write) =>
      if Request(payload).None? then s
      else Put(s.(record := s.record[Request(payload).value.branch := write]), w, Handled(id, token, payload, false))
    case _ => s
  }

  /** A handler ends; between its writes it may leave something shown that it does not record. */
  function Leave(s: State, w: nat): State {
    var h, t := At(s, w), Put(s, w, Idle);
    if !h.Written? || Request(h.payload).None? || !IsNews(s, Request(h.payload).value.branch, h.write) then t
    else
      var b := Request(h.payload).value.branch;
      t.(past := t.past.(cut := t.past.cut[b := h.id], lost := With(t.past.lost, b, Spent(t, h.id, h.payload))))
  }

  /** Completes the delivery, if the token is still the current one. */
  function Close(c: Config, s: State, w: nat, now: real): State
    requires At(s, w).Handled?
  {
    s.(q := CompleteDelivery(s.q, At(s, w).id, At(s, w).token, now, c.retention).0)
  }

  function StepComplete(c: Config, s: State, w: nat, now: real): State {
    if At(s, w).Handled? then Leave(Close(c, s, w, now), w) else s
  }

  /** An exception anywhere releases the delivery. */
  function StepFail(s: State, w: nat, now: real, delay: real): State {
    if At(s, w) == Idle then s
    else Leave(s.(q := ReleaseDelivery(s.q, At(s, w).id, At(s, w).token, delay, now).0), w)
  }

  function Step(c: Config, s: State, e: Event): State {
    match e
    case MapBranch(branch) => s.(mapped := s.mapped + {branch})
    case ApiMoves(number, answer) => StepApi(c, s, number, answer)
    case Receive(_, _, _, _, _, _) => StepReceive(c, s, e)
    case Retry(w, now, token, next) => StepRetry(c, s, w, now, token, next)
    case Write(w) => StepWrite(c, s, w)
    case Record(w) => StepRecord(s, w)
    case Complete(w, now) => StepComplete(c, s, w, now)
    case Fail(w, now, delay) => StepFail(s, w, now, delay)
    case Crash(w) => Leave(s, w)
  }

  function Run(c: Config, s: State, events: seq<Event>): State
    decreases events
  {
    if events == [] then s else Run(c, Step(c, s, events[0]), events[1..])
  }

  // ----- the invariant -----

  /** The payload asks for nothing, or what it asks for has had its effect. */
  predicate Done(s: State, payload: Payload) {
    var ask := Request(payload);
    ask.Some? ==> ask.value.branch in s.mapped && Settled(RecordOf(s, ask.value.branch), ask.value.change)
  }

  /** And, unless the API changes, handling it again would show nothing new. */
  predicate Still(c: Config, s: State, payload: Payload) {
    var ask := Request(payload);
    && Done(s, payload)
    && (ask.Some? ==>
          ShowsSame(RecordOf(s, ask.value.branch), ask.value.change, Asked(Answers(c, s), ask.value.change.number)))
  }

  predicate HandlerOk(c: Config, s: State, h: Handler) {
    h.Idle? ||
    (&& h.token in s.issued
     && (Holds(s.q, h.id, h.token) ==> s.q[h.id].payload == Some(h.payload))
     && (h.Handled? && !h.blindly ==> Done(s, h.payload))
     && (h.Written? ==> WritingOk(c, s, h))
     && (h.Got? || h.Written? ==> SpentOk(c, s, h)))
  }

  /** Whoever has a spent delivery would show nothing new with a fixed API, and marks what it writes as late. */
  predicate SpentOk(c: Config, s: State, h: Handler)
    requires h.Got? || h.Written?
  {
    var ask := Request(h.payload);
    ask.Some? && Spent(s, h.id, h.payload) ==>
      && (s.past.fixed ==> ask.value.branch in s.past.raced || Still(c, s, h.payload))
      && (h.Written? ==> ask.value.branch in s.past.late)
  }

  predicate WritingOk(c: Config, s: State, h: Handler)
    requires h.Written?
  {
    var ask := Request(h.payload);
    && ask.Some? && ask.value.branch in s.mapped
    && ask.value.branch in s.shown && s.shown[ask.value.branch] == CardOf(h.write)
    && Writes(c, s, RecordOf(s, ask.value.branch), ask.value.change, h.write)
  }

  /** The change was decided on this record, with an answer that the API gave then. */
  predicate Writes(c: Config, s: State, current: PullRequests.Record, change: Change, write: Change) {
    if Conflicts(current, change) then
      && c.lookup && write.number == change.number && ShouldApply(current, write, true)
      && (s.past.steady ==> Follows(Answer(write.state, write.time), s.api(write.number)))
      && (s.past.fixed ==> write == Resolved(change.number, s.api(change.number)))
    else write == change && ShouldApply(current, change, false)
  }

  predicate HandlersOk(c: Config, s: State) {
    && (forall w | w in s.handlers :: HandlerOk(c, s, s.handlers[w]))
    && (forall v, w | v in s.handlers && w in s.handlers && s.handlers[v].Written? && s.handlers[w].Written? :: v == w)
  }

  ghost predicate QueueOk(s: State) {
    && DistinctRows(s.q)
    && (forall id | id in s.q && s.q[id].token.Some? :: s.q[id].token.value in s.issued)
    && (forall id | id in s.q && s.q[id].status != Completed :: s.q[id].event.Some? && s.q[id].payload.Some?)
  }

  /** The delivery is open and asks for the branch; whoever handles it next shows again what is shown, or asks
      the API, which has news unless it went back. */
  predicate Waits(c: Config, s: State, branch: string, id: string) {
    && id in s.q && s.q[id].payload.Some? && AsksFor(s.q[id].payload.value, branch)
    && !Spent(s, id, s.q[id].payload.value)
    && var change := Request(s.q[id].payload.value).value.change;
    if Conflicts(RecordOf(s, branch), change) then
      && c.lookup && (s.past.steady ==> Decision(c, s, branch, change).Some?)
      && (s.past.fixed ==> branch in s.shown && Some(s.shown[branch]) == Shows(Decision(c, s, branch, change)))
    else
      ShouldApply(RecordOf(s, branch), change, false) && branch in s.shown && s.shown[branch] == CardOf(change)
  }

  predicate BranchOk(c: Config, s: State, branch: string) {
    && (branch !in s.mapped ==> branch !in s.record && branch !in s.shown && branch !in s.past.cut)
    && (branch in s.past.lost ==> branch in s.past.cut)
    && (if BeingWritten(s, branch) then branch !in s.past.cut else Agrees(s, branch) <==> branch !in s.past.cut)
    && (branch in s.past.cut ==> branch in s.past.lost || Waits(c, s, branch, s.past.cut[branch]))
    && (branch in s.past.lost ==>
          (s.past.steady ==> branch in s.past.late) && (s.past.fixed ==> branch in s.past.raced))
  }

  ghost predicate Inv(c: Config, s: State) {
    QueueOk(s) && HandlersOk(c, s) && (s.past.fixed ==> s.past.steady) && forall branch :: BranchOk(c, s, branch)
  }

  // ----- every step keeps it -----

  lemma BeginInv(c: Config, api: int -> Answer)
    ensures Inv(c, Begin(api))
  {}

  lemma HandlerOkOf(c: Config, s: State, w: nat)
    requires Inv(c, s)
    ensures HandlerOk(c, s, At(s, w))
  {
    hide QueueOk, BranchOk, WritingOk, Done, Holds, SpentOk, Request;
  }

  lemma InvParts(c: Config, s: State)
    requires Inv(c, s)
    ensures QueueOk(s) && HandlersOk(c, s) && (s.past.fixed ==> s.past.steady)
  {
    hide HandlersOk, BranchOk, QueueOk;
  }

  ghost predicate SameRecords(s: State, s': State) {
    s'.mapped == s.mapped && s'.record == s.record && s'.shown == s.shown && s'.api == s.api
  }

  ghost predicate HistoryGrows(s: State, s': State) {
    && (s'.past.steady ==> s.past.steady) && (s'.past.fixed ==> s.past.fixed)
    && s.past.raced <= s'.past.raced && s.past.late <= s'.past.late
  }

  ghost predicate SameAt(s: State, s': State, branch: string) {
    && (branch in s'.mapped <==> branch in s.mapped) && (branch in s'.past.lost <==> branch in s.past.lost)
    && (branch in s'.past.cut <==> branch in s.past.cut)
    && (branch in s.past.cut ==> s'.past.cut[branch] == s.past.cut[branch])
    && RecordOf(s', branch) == RecordOf(s, branch)
    && (branch in s'.shown <==> branch in s.shown) && (branch in s.shown ==> s'.shown[branch] == s.shown[branch])
    && s'.api == s.api && HistoryGrows(s, s') && BeingWritten(s', branch) == BeingWritten(s, branch)
  }

  /** At most this delivery is newly spent. */
  ghost predicate Spends(s: State, s': State, id: string, payload: Payload) {
    forall o, p | Spent(s', o, p) :: Spent(s, o, p) || (o == id && p == payload)
  }

  ghost predicate NoNewSpent(s: State, s': State) { forall o, p | Spent(s', o, p) :: Spent(s, o, p) }

  lemma WaitsFrame(c: Config, s: State, s': State, branch: string, id: string)
    requires SameAt(s, s', branch) && Waits(c, s, branch, id) && !Spent(s', id, s.q[id].payload.value)
    ensures Waits(c, s', branch, id)
  {
    hide Decide, Conflicts, ShouldApply, Request, BeingWritten, HeldHandled;
  }

  lemma WaitsOpen(c: Config, s: State, branch: string, id: string)
    requires Waits(c, s, branch, id)
    ensures id in s.q && s.q[id].payload.Some? && AsksFor(s.q[id].payload.value, branch)
    ensures !Spent(s, id, s.q[id].payload.value)
  {
    hide Decision, Conflicts, ShouldApply, Request, HeldHandled;
  }

  /** A branch is fine after a step that changes nothing of it and spends no delivery that it waits for. */
  lemma BranchFrame(c: Config, s: State, s': State, branch: string, id: string, payload: Payload)
    requires BranchOk(c, s, branch) && SameAt(s, s', branch) && Spends(s, s', id, payload)
    requires branch in s.past.cut && branch !in s.past.lost ==> s.past.cut[branch] != id || !AsksFor(payload, branch)
    ensures BranchOk(c, s', branch)
  {
    hide Waits, Request, BeingWritten, Spent, AsksFor;
    if branch in s.past.cut && branch !in s.past.lost {
      var o := s.past.cut[branch];
      WaitsOpen(c, s, branch, o);
      WaitsFrame(c, s, s', branch, o);
    }
  }

  lemma BranchStays(c: Config, s: State, s': State, branch: string)
    requires BranchOk(c, s, branch) && SameAt(s, s', branch) && NoNewSpent(s, s')
    ensures BranchOk(c, s', branch)
  {
    hide Waits, Request, BeingWritten, Spent, AsksFor;
    if branch in s.past.cut && branch !in s.past.lost {
      var o := s.past.cut[branch];
      WaitsOpen(c, s, branch, o);
      WaitsFrame(c, s, s', branch, o);
    }
  }

  /** A token that was issued before holds nothing new. */
  ghost predicate OldTokens(s: State, q: Queue<Payload>) {
    forall id, token | token in s.issued && Holds(q, id, token) :: Holds(s.q, id, token) && q[id].payload == s.q[id].payload
  }

  ghost predicate LosesNone(s: State, q: Queue<Payload>) {
    forall id, payload | Live(s.q, id, payload) :: Live(q, id, payload)
  }

  lemma SameQueue(s: State)
    ensures OldTokens(s, s.q) && LosesNone(s, s.q)
  {}

  lemma Tokens(c: Config, s: State)
    requires HandlersOk(c, s)
    ensures forall w | w in s.handlers :: s.handlers[w].Idle? || s.handlers[w].token in s.issued
  {
    hide Holds, Done, WritingOk, SpentOk, Request;
    forall w | w in s.handlers ensures s.handlers[w].Idle? || s.handlers[w].token in s.issued {
      assert HandlerOk(c, s, s.handlers[w]);
    }
  }

  /** No delivery is spent by a handler that moves anywhere but past the lifecycle section. */
  lemma NothingSpent(c: Config, s: State, s': State)
    requires HandlersOk(c, s) && OldTokens(s, s'.q) && LosesNone(s, s'.q)
    requires forall x | x in s'.handlers && s'.handlers[x].Handled? :: x in s.handlers && s'.handlers[x] == s.handlers[x]
    ensures NoNewSpent(s, s')
  {
    hide Live, Holds;
    Tokens(c, s);
  }

  /** And by one that does, at most its own. */
  lemma OneSpent(c: Config, s: State, s': State, w: nat)
    requires HandlersOk(c, s) && s'.q == s.q && At(s', w).Handled? && s'.handlers == s.handlers[w := At(s', w)]
    requires Holds(s.q, At(s', w).id, At(s', w).token) ==> s.q[At(s', w).id].payload == Some(At(s', w).payload)
    ensures Spends(s, s', At(s', w).id, At(s', w).payload)
    ensures !Holds(s.q, At(s', w).id, At(s', w).token) ==> NoNewSpent(s, s')
  {
    hide Holds;
  }

  lemma RecordsFrame(c: Config, s: State, s': State)
    requires SameRecords(s, s') && HistoryGrows(s, s')
    ensures forall payload :: Done(s', payload) == Done(s, payload) && Still(c, s', payload) == Still(c, s, payload)
    ensures forall h: Handler | h.Written? && WritingOk(c, s, h) :: WritingOk(c, s', h)
  {
    hide Settled, ShouldApply, Conflicts, Request, ShowsSame;
  }

  /** A handler that stands where it stood is in order, if its delivery is not newly spent or that is in order. */
  lemma HandlerFrame(c: Config, s: State, s': State, h: Handler)
    requires HandlerOk(c, s, h) && s.issued <= s'.issued && OldTokens(s, s'.q) && HistoryGrows(s, s')
    requires forall payload | Done(s, payload) :: Done(s', payload)
    requires s'.past.fixed ==> forall payload | Still(c, s, payload) :: Still(c, s', payload)
    requires h.Written? && WritingOk(c, s, h) ==> WritingOk(c, s', h)
    requires (h.Got? || h.Written?) && Spent(s', h.id, h.payload) ==> Spent(s, h.id, h.payload) || SpentOk(c, s', h)
    ensures HandlerOk(c, s', h)
  {
    hide WritingOk, Done, Still, Holds, Request, Spent;
  }

  lemma QueueOkFrame(s: State, s': State)
    requires QueueOk(s) && s'.q == s.q && s'.issued == s.issued
    ensures QueueOk(s')
  {}

  lemma SameWriters(s: State, s': State, w: nat, branch: string)
    requires !At(s, w).Written? && !At(s', w).Written? && s'.handlers == s.handlers[w := At(s', w)]
    ensures BeingWritten(s', branch) == BeingWritten(s, branch)
  {
    hide Request;
    if BeingWritten(s, branch) {
      var x :| x in s.handlers && s.handlers[x].Written? && AsksFor(s.handlers[x].payload, branch);
      assert s'.handlers[x].Written?;
    }
  }

  lemma SameHandlersWrite(s: State, s': State, branch: string)
    requires s'.handlers == s.handlers
    ensures BeingWritten(s', branch) == BeingWritten(s, branch)
  {
    hide Request;
  }

  /** Claiming, and ending outside the writes. */
  lemma MoveKeeps(c: Config, s: State, s': State, w: nat)
    requires Inv(c, s) && !At(s, w).Written? && (At(s', w).Got? || At(s', w).Idle?) && SameRecords(s, s')
    requires s'.past == s.past && s'.handlers == s.handlers[w := At(s', w)]
    requires OldTokens(s, s'.q) && LosesNone(s, s'.q) && QueueOk(s') && s.issued <= s'.issued
    requires HandlerOk(c, s', At(s', w))
    ensures Inv(c, s')
  {
    hide QueueOk, WritingOk, Done, Live, Holds, Agrees, Waits, Request, BranchOk, OldTokens, LosesNone, Spent, SpentOk, Still;
    RecordsFrame(c, s, s');
    NothingSpent(c, s, s');
    forall x | x in s'.handlers ensures HandlerOk(c, s', s'.handlers[x]) {
      if x != w { HandlerFrame(c, s, s', s.handlers[x]); }
    }
    forall branch ensures BranchOk(c, s', branch) {
      SameWriters(s, s', w, branch);
      BranchStays(c, s, s', branch);
    }
  }

  lemma ReceiveKeeps(c: Config, s: State, e: Event)
    requires Inv(c, s) && e.Receive?
    ensures Inv(c, StepReceive(c, s, e))
  {
    hide Inv, HandlersOk, QueueOk, Live, Holds, Done, Request, ClaimDelivery, OldTokens, LosesNone, Still, HeldHandled;
    var s' := StepReceive(c, s, e);
    if s' != s {
      ClaimMoves(c, s, e);
      InvParts(c, s);
      NotHandled(c, s, s', e.id, e.w);
      MoveKeeps(c, s, s', e.w);
    }
  }

  /** A delivery that has just been claimed is in nobody else's hands. */
  lemma NotHandled(c: Config, s: State, s': State, id: string, w: nat)
    requires HandlersOk(c, s) && At(s', w).Got? && s'.handlers == s.handlers[w := At(s', w)]
    requires forall token | token in s.issued :: !Holds(s'.q, id, token)
    ensures !HeldHandled(s', id)
  {
    hide Holds;
    Tokens(c, s);
  }

  lemma ClaimMoves(c: Config, s: State, e: Event)
    requires Inv(c, s) && e.Receive? && StepReceive(c, s, e) != s
    ensures
      var s' := StepReceive(c, s, e);
      && OldTokens(s, s'.q) && LosesNone(s, s'.q) && QueueOk(s')
      && Live(s'.q, e.id, e.payload) && s'.q[e.id].payload == Some(e.payload)
      && s' == Put(s.(q := s'.q, issued := s.issued + {e.token}), e.w, Got(e.id, e.token, e.payload))
      && !At(s, e.w).Written?
      && (forall token | token in s.issued :: !Holds(s'.q, e.id, token))
  {
    hide HandlersOk, BranchOk, Done, Request, EventName;
  }

  lemma RetryKeeps(c: Config, s: State, w: nat, now: real, token: string, next: Option<string>)
    requires Inv(c, s)
    ensures Inv(c, StepRetry(c, s, w, now, token, next))
  {
    hide Inv, HandlersOk, QueueOk, Live, Holds, Done, Request, ClaimNextDelivery, OldTokens, LosesNone, Still, HeldHandled,
      IsNext;
    var s' := StepRetry(c, s, w, now, token, next);
    if s' != s {
      RetryMoves(c, s, w, now, token, next);
      InvParts(c, s);
      NotHandled(c, s, s', next.value, w);
      MoveKeeps(c, s, s', w);
    }
  }

  lemma RetryMoves(c: Config, s: State, w: nat, now: real, token: string, next: Option<string>)
    requires Inv(c, s) && StepRetry(c, s, w, now, token, next) != s
    ensures next.Some? && next.value in s.q && s.q[next.value].payload.Some?
    ensures
      var s', payload := StepRetry(c, s, w, now, token, next), s.q[next.value].payload.value;
      && OldTokens(s, s'.q) && LosesNone(s, s'.q) && QueueOk(s')
      && Live(s'.q, next.value, payload) && s'.q[next.value].payload == Some(payload)
      && s' == Put(s.(q := s'.q, issued := s.issued + {token}), w, Got(next.value, token, payload))
      && !At(s, w).Written?
      && (forall t | t in s.issued :: !Holds(s'.q, next.value, t))
  {
    hide HandlersOk, BranchOk, Done, Request;
  }

  // ----- the lifecycle section -----

  lemma WriteKeeps(c: Config, s: State, w: nat)
    requires Inv(c, s)
    ensures Inv(c, StepWrite(c, s, w))
  {
    hide Inv, Decision, Request, StepWrite;
    if At(s, w).Got? {
      var Got(id, token, payload) := At(s, w);
      var ask := Request(payload);
      if ask.None? {
        NothingAsked(c, s, w, id, token, payload);
      } else if ask.value.branch !in s.mapped {
        BlindKeeps(c, s, w, id, token, payload);
      } else if !LockFree(s) {
        LockedOut(c, s, w);
      } else if Decision(c, s, ask.value.branch, ask.value.change).None? {
        NothingWritten(c, s, w, id, token, payload);
      } else {
        YonoteWriteKeeps(c, s, w, id, token, payload);
      }
    } else {
      NotGot(c, s, w);
    }
  }

  lemma LockedOut(c: Config, s: State, w: nat)
    requires At(s, w).Got? && Request(At(s, w).payload).Some? && Request(At(s, w).payload).value.branch in s.mapped
    requires !LockFree(s)
    ensures StepWrite(c, s, w) == s
  {
    hide Decision, Request, Rivals, LockFree, Spent;
  }

  lemma NotGot(c: Config, s: State, w: nat)
    requires !At(s, w).Got?
    ensures StepWrite(c, s, w) == s
  {
    hide Decision, Request, Rivals, LockFree, Spent;
  }

  lemma NothingAsked(c: Config, s: State, w: nat, id: string, token: string, payload: Payload)
    requires Inv(c, s) && At(s, w) == Got(id, token, payload) && Request(payload).None?
    ensures Inv(c, StepWrite(c, s, w))
  {
    hide QueueOk, WritingOk, Holds, Waits, Request, BranchOk, OldTokens, Spent, Agrees, Settled, ShowsSame;
    var s' := StepWrite(c, s, w);
    HandlerOkOf(c, s, w);
    SameQueue(s);
    QueueOkFrame(s, s');
    OneSpent(c, s, s', w);
    RecordsFrame(c, s, s');
    forall x | x in s'.handlers ensures HandlerOk(c, s', s'.handlers[x]) {
      if x != w { HandlerFrame(c, s, s', s.handlers[x]); }
    }
    forall o ensures BranchOk(c, s', o) {
      SameWriters(s, s', w, o);
      BranchFrame(c, s, s', o, id, payload);
    }
  }

  /** A delivery is handled before its branch is mapped. */
  lemma BlindKeeps(c: Config, s: State, w: nat, id: string, token: string, payload: Payload)
    requires Inv(c, s) && At(s, w) == Got(id, token, payload)
    requires Request(payload).Some? && Request(payload).value.branch !in s.mapped
    ensures Inv(c, StepWrite(c, s, w))
  {
    hide QueueOk, WritingOk, Done, Holds, Waits, Request, BranchOk, OldTokens, Spent, Agrees, Still;
    var s' := StepWrite(c, s, w);
    HandlerOkOf(c, s, w);
    SameQueue(s);
    QueueOkFrame(s, s');
    OneSpent(c, s, s', w);
    RecordsFrame(c, s, s');
    forall x | x in s'.handlers ensures HandlerOk(c, s', s'.handlers[x]) {
      if x != w {
        BlindRival(c, s, s', w, x);
        HandlerFrame(c, s, s', s.handlers[x]);
      }
    }
    forall o ensures BranchOk(c, s', o) {
      SameWriters(s, s', w, o);
      UnmappedIsEmpty(c, s, o);
      BranchFrame(c, s, s', o, id, payload);
    }
  }

  lemma UnmappedIsEmpty(c: Config, s: State, branch: string)
    requires BranchOk(c, s, branch)
    ensures branch !in s.mapped ==> branch !in s.record && branch !in s.shown && branch !in s.past.cut
  {
    hide Waits, Agrees, BeingWritten;
  }

  /** Whoever else stands at the delivery is a rival, and its branch has been marked. */
  lemma BlindRival(c: Config, s: State, s': State, w: nat, x: nat)
    requires At(s, w).Got? && x in s.handlers && x != w && HandlerOk(c, s, s.handlers[x])
    requires Request(At(s, w).payload).Some? && Request(At(s, w).payload).value.branch !in s.mapped
    requires s' == StepWrite(c, s, w) && Spends(s, s', At(s, w).id, At(s, w).payload)
    requires !Holds(s.q, At(s, w).id, At(s, w).token) ==> NoNewSpent(s, s')
    ensures
      var h := s.handlers[x];
      (h.Got? || h.Written?) && Spent(s', h.id, h.payload) ==> Spent(s, h.id, h.payload) || SpentOk(c, s', h)
  {
    hide Done, Holds, Request, Spent, Still, Writes, LockFree, Decision;
    var h := s.handlers[x];
    if SamePayload(h, At(s, w).id, At(s, w).payload) {
      assert x in Rivals(s, w, At(s, w).id, At(s, w).payload);
    }
  }

  /** A delivery is handled and there is nothing to write. */
  lemma NothingWritten(c: Config, s: State, w: nat, id: string, token: string, payload: Payload)
    requires Inv(c, s) && At(s, w) == Got(id, token, payload) && LockFree(s)
    requires Request(payload).Some? && Request(payload).value.branch in s.mapped
    requires Decision(c, s, Request(payload).value.branch, Request(payload).value.change).None?
    ensures Inv(c, StepWrite(c, s, w))
  {
    hide QueueOk, WritingOk, Done, Holds, Waits, Request, BranchOk, OldTokens, Spent, Agrees, Still, Decision;
    var s', b := StepWrite(c, s, w), Request(payload).value.branch;
    HandlerOkOf(c, s, w);
    SameQueue(s);
    QueueOkFrame(s, s');
    OneSpent(c, s, s', w);
    RecordsFrame(c, s, s');
    UnwrittenIsStill(c, s, payload);
    StillIsDone(c, s, payload);
    forall x | x in s'.handlers ensures HandlerOk(c, s', s'.handlers[x]) {
      if x != w { HandlerFrame(c, s, s', s.handlers[x]); }
    }
    forall o ensures BranchOk(c, s', o) {
      SameWriters(s, s', w, o);
      if o != b {
        BranchFrame(c, s, s', o, id, payload);
      } else {
        UnwrittenBranch(c, s, s', w, b);
      }
    }
  }

  lemma StillIsDone(c: Config, s: State, payload: Payload)
    requires Still(c, s, payload)
    ensures Done(s, payload)
  {
    hide Done;
  }

  lemma UnwrittenIsStill(c: Config, s: State, payload: Payload)
    requires Request(payload).Some? && Request(payload).value.branch in s.mapped
    requires Decision(c, s, Request(payload).value.branch, Request(payload).value.change).None?
    ensures Still(c, s, payload)
  {
    hide Request, Settled, ShowsSame, Decide;
    var Ask(b, f) := Request(payload).value;
    HandledIsSettled(RecordOf(s, b), f, Asked(Answers(c, s), f.number));
    HandledShowsSame(RecordOf(s, b), f, Asked(Answers(c, s), f.number));
  }

  lemma UnwrittenBranch(c: Config, s: State, s': State, w: nat, branch: string)
    requires At(s, w).Got? && LockFree(s) && s' == StepWrite(c, s, w) && AsksFor(At(s, w).payload, branch)
    requires branch in s.mapped && Decision(c, s, branch, Request(At(s, w).payload).value.change).None?
    requires BranchOk(c, s, branch) && BeingWritten(s', branch) == BeingWritten(s, branch)
    requires s.past.fixed ==> s.past.steady
    requires Spends(s, s', At(s, w).id, At(s, w).payload)
    requires !Holds(s.q, At(s, w).id, At(s, w).token) ==> NoNewSpent(s, s')
    requires Holds(s.q, At(s, w).id, At(s, w).token) ==> s.q[At(s, w).id].payload == Some(At(s, w).payload)
    ensures BranchOk(c, s', branch)
  {
    hide Request, Holds, Spent, BeingWritten, LockFree;
    var h := At(s, w);
    if branch in s.past.cut && s.past.cut[branch] == h.id && Holds(s.q, h.id, h.token) {
      assert branch in s.past.lost || !s.past.steady;
    } else if Holds(s.q, h.id, h.token) {
      BranchFrame(c, s, s', branch, h.id, h.payload);
    } else {
      BranchStays(c, s, s', branch);
    }
  }

  lemma YonoteWriteKeeps(c: Config, s: State, w: nat, id: string, token: string, payload: Payload)
    requires Inv(c, s) && LockFree(s) && At(s, w) == Got(id, token, payload)
    requires Request(payload).Some? && Request(payload).value.branch in s.mapped
    requires Decision(c, s, Request(payload).value.branch, Request(payload).value.change).Some?
    ensures Inv(c, StepWrite(c, s, w))
  {
    hide QueueOk, WritingOk, Done, Holds, Waits, Request, BranchOk, OldTokens, LosesNone, Spent, Agrees, Still, Decision;
    var Ask(b, change) := Request(payload).value;
    var write := Decision(c, s, b, change).value;
    var s', h := StepWrite(c, s, w), Written(id, token, payload, write);
    HandlerOkOf(c, s, w);
    SameQueue(s);
    QueueOkFrame(s, s');
    NothingSpent(c, s, s');
    WritesWell(c, s, s', h);
    SameDone(c, s, s');
    forall x | x in s'.handlers ensures HandlerOk(c, s', s'.handlers[x]) {
      if x != w { HandlerFrame(c, s, s', s.handlers[x]); }
    }
    forall o ensures BranchOk(c, s', o) {
      OnlyWriter(s', w, o);
      if o != b {
        BranchStays(c, s, s', o);
      } else {
        WrittenBranch(c, s', b);
      }
    }
  }

  lemma WrittenBranch(c: Config, s: State, branch: string)
    requires branch in s.mapped && branch !in s.past.cut && branch !in s.past.lost && BeingWritten(s, branch)
    ensures BranchOk(c, s, branch)
  {}

  lemma OnlyWriter(s: State, w: nat, branch: string)
    requires forall x | x in s.handlers && x != w :: !s.handlers[x].Written?
    ensures BeingWritten(s, branch) <==> At(s, w).Written? && AsksFor(At(s, w).payload, branch)
  {
    hide Request;
    if At(s, w).Written? { assert s.handlers[w].Written?; }
  }

  lemma WritesWell(c: Config, s: State, s': State, h: Handler)
    requires h.Written? && Request(h.payload).Some? && (s.past.fixed ==> s.past.steady)
    requires
      var ask := Request(h.payload).value;
      && ask.branch in s.mapped && Decision(c, s, ask.branch, ask.change) == Some(h.write)
      && s'.shown == s.shown[ask.branch := CardOf(h.write)]
    requires s'.mapped == s.mapped && s'.record == s.record && s'.api == s.api && HistoryGrows(s, s')
    ensures WritingOk(c, s', h)
  {
    hide Request;
  }

  lemma SameDone(c: Config, s: State, s': State)
    requires s.mapped <= s'.mapped && s'.record == s.record && s'.api == s.api
    ensures forall payload | Done(s, payload) :: Done(s', payload)
    ensures forall payload | Still(c, s, payload) :: Still(c, s', payload)
  {
    hide Request, Settled, ShowsSame;
  }

  // ----- recording -----

  lemma RecordKeeps(c: Config, s: State, w: nat)
    requires Inv(c, s)
    ensures Inv(c, StepRecord(s, w))
  {
    hide Inv, Request, WritingOk, HandlerOk;
    if At(s, w).Written? {
      WriterIsOk(c, s, w);
      RecordedKeeps(c, s, w);
    }
  }

  lemma WriterIsOk(c: Config, s: State, w: nat)
    requires Inv(c, s) && At(s, w).Written?
    ensures WritingOk(c, s, At(s, w)) && forall x | x in s.handlers && x != w :: !s.handlers[x].Written?
    ensures HandlerOk(c, s, At(s, w)) && Request(At(s, w).payload).Some?
  {
    hide QueueOk, BranchOk, Done, SpentOk, Holds, Request, Writes;
  }

  lemma RecordedKeeps(c: Config, s: State, w: nat)
    requires Inv(c, s) && At(s, w).Written? && WritingOk(c, s, At(s, w)) && Request(At(s, w).payload).Some?
    requires forall x | x in s.handlers && x != w :: !s.handlers[x].Written?
    ensures Inv(c, StepRecord(s, w))
  {
    hide QueueOk, WritingOk, Done, Holds, Waits, Request, BranchOk, OldTokens, Spent, Agrees, Still, Decision;
    var h, s' := At(s, w), StepRecord(s, w);
    var b := Request(h.payload).value.branch;
    HandlerOkOf(c, s, w);
    RecordSettles(c, s, s', h);
    SameQueue(s);
    QueueOkFrame(s, s');
    OneSpent(c, s, s', w);
    forall x | x in s'.handlers ensures HandlerOk(c, s', s'.handlers[x]) {
      if x != w { HandlerFrame(c, s, s', s.handlers[x]); }
    }
    forall o ensures BranchOk(c, s', o) {
      OnlyWriter(s, w, o);
      OnlyWriter(s', w, o);
      if o != b {
        BranchFrame(c, s, s', o, h.id, h.payload);
      } else {
        RecordedBranch(c, s, s', h);
      }
    }
  }

  lemma RecordedBranch(c: Config, s: State, s': State, h: Handler)
    requires h.Written? && WritingOk(c, s, h) && AsksFor(h.payload, Request(h.payload).value.branch)
    requires
      var b := Request(h.payload).value.branch;
      && BranchOk(c, s, b) && BeingWritten(s, b) && !BeingWritten(s', b) && s'.mapped == s.mapped && s'.past == s.past
      && s'.shown == s.shown && s'.record == s.record[b := h.write]
    ensures BranchOk(c, s', Request(h.payload).value.branch)
  {
    hide Request, Waits, BeingWritten;
  }

  /** Recording settles the event that was written and unsettles none. */
  lemma RecordSettles(c: Config, s: State, s': State, h: Handler)
    requires h.Written? && WritingOk(c, s, h)
    requires s'.record == s.record[Request(h.payload).value.branch := h.write] && s'.mapped == s.mapped && s'.api == s.api
    ensures Done(s', h.payload) && (s.past.fixed ==> Still(c, s', h.payload))
    ensures forall payload | Done(s, payload) :: Done(s', payload)
    ensures s.past.fixed ==> forall payload | Still(c, s, payload) :: Still(c, s', payload)
  {
    hide Settled, Decide, Request, ShowsSame;
    var Ask(b, f) := Request(h.payload).value;
    var lookup := Some(Answer(h.write.state, h.write.time));
    WritesApplies(c, s, RecordOf(s, b), f, h.write);
    HandledIsSettled(RecordOf(s, b), f, lookup);
    HandledShowsSame(RecordOf(s, b), f, Asked(Answers(c, s), f.number));
    forall payload | Done(s, payload)
      ensures Done(s', payload) && (s.past.fixed && Still(c, s, payload) ==> Still(c, s', payload))
    {
      if AsksFor(payload, b) {
        SettledStays(RecordOf(s, b), Request(payload).value.change, f, lookup);
        if s.past.fixed && Still(c, s, payload) {
          ShowsSameStays(RecordOf(s, b), Request(payload).value.change, f, Answers(c, s));
        }
      }
    }
  }

  lemma WritesApplies(c: Config, s: State, current: PullRequests.Record, change: Change, write: Change)
    requires Writes(c, s, current, change, write)
    ensures Apply(current, change, Some(Answer(write.state, write.time))) == Some(write)
    ensures s.past.fixed ==> Apply(current, change, Asked(Answers(c, s), change.number)) == Some(write)
  {}

  // ----- mapping and the API -----

  lemma MapKeeps(c: Config, s: State, branch: string)
    requires Inv(c, s)
    ensures Inv(c, s.(mapped := s.mapped + {branch}))
  {
    hide QueueOk, WritingOk, Done, Holds, Waits, Request, BranchOk, OldTokens, LosesNone, Spent, Agrees, Still, HandlerOk;
    var s' := s.(mapped := s.mapped + {branch});
    SameDone(c, s, s');
    SameQueue(s);
    QueueOkFrame(s, s');
    NothingSpent(c, s, s');
    forall x | x in s'.handlers ensures HandlerOk(c, s', s'.handlers[x]) {
      WritingMapped(c, s, branch, s.handlers[x]);
      HandlerFrame(c, s, s', s.handlers[x]);
    }
    forall o ensures BranchOk(c, s', o) {
      if o == branch && o !in s.mapped {
        NewlyMapped(c, s, o);
      } else {
        SameHandlersWrite(s, s', o);
        BranchStays(c, s, s', o);
      }
    }
  }

  lemma WritingMapped(c: Config, s: State, branch: string, h: Handler)
    ensures h.Written? && WritingOk(c, s, h) ==> WritingOk(c, s.(mapped := s.mapped + {branch}), h)
  {
    hide Request, Conflicts, ShouldApply;
  }

  lemma NewlyMapped(c: Config, s: State, branch: string)
    requires BranchOk(c, s, branch) && branch !in s.mapped
    ensures BranchOk(c, s.(mapped := s.mapped + {branch}), branch)
  {
    hide Waits, Request;
    SameHandlersWrite(s, s.(mapped := s.mapped + {branch}), branch);
  }

  lemma ApiKeeps(c: Config, s: State, number: int, answer: Answer)
    requires Inv(c, s)
    ensures Inv(c, StepApi(c, s, number, answer))
  {
    hide QueueOk, WritingOk, Done, Holds, Waits, Request, BranchOk, OldTokens, LosesNone, Spent, Agrees, Still, HandlerOk;
    var s' := StepApi(c, s, number, answer);
    SettledHolds(s, s');
    SameQueue(s);
    QueueOkFrame(s, s');
    NothingSpent(c, s, s');
    FixedStill(c, s, number, answer);
    forall x | x in s'.handlers ensures HandlerOk(c, s', s'.handlers[x]) {
      WritingFollows(c, s, number, answer, s.handlers[x]);
      HandlerFrame(c, s, s', s.handlers[x]);
    }
    forall o ensures BranchOk(c, s', o) {
      BranchFollows(c, s, number, answer, o);
    }
  }

  lemma SettledHolds(s: State, s': State)
    requires s'.mapped == s.mapped && s'.record == s.record
    ensures forall payload | Done(s, payload) :: Done(s', payload)
  {
    hide Request, Settled;
  }

  lemma FixedStill(c: Config, s: State, number: int, answer: Answer)
    ensures
      var s' := StepApi(c, s, number, answer);
      s'.past.fixed ==> forall payload | Still(c, s, payload) :: Still(c, s', payload)
  {
    hide Request, Settled, ShowsSame;
    var s' := StepApi(c, s, number, answer);
    if s'.past.fixed { assert forall n :: Asked(Answers(c, s'), n) == Asked(Answers(c, s), n); }
  }

  lemma WritingFollows(c: Config, s: State, number: int, answer: Answer, h: Handler)
    ensures h.Written? && WritingOk(c, s, h) ==> WritingOk(c, StepApi(c, s, number, answer), h)
  {
    hide Request;
  }

  /** What waits to be handled goes on waiting when the API moves on. */
  lemma BranchFollows(c: Config, s: State, number: int, answer: Answer, branch: string)
    requires BranchOk(c, s, branch)
    ensures BranchOk(c, StepApi(c, s, number, answer), branch)
  {
    hide Request, Waits, BeingWritten;
    var s' := StepApi(c, s, number, answer);
    SameHandlersWrite(s, s', branch);
    if branch in s.past.cut && branch !in s.past.lost { WaitFollows(c, s, number, answer, branch, s.past.cut[branch]); }
  }

  lemma NewsFollow(current: PullRequests.Record, number: int, a: Answer, b: Answer)
    requires current.Some? && current.value.number == number
    requires ShouldApply(current, Resolved(number, a), true) && Follows(a, b)
    ensures ShouldApply(current, Resolved(number, b), true)
  {}

  lemma WaitFollows(c: Config, s: State, number: int, answer: Answer, branch: string, id: string)
    requires Waits(c, s, branch, id)
    ensures Waits(c, StepApi(c, s, number, answer), branch, id)
  {
    hide Request, Holds, Live;
    var s', change := StepApi(c, s, number, answer), Request(s.q[id].payload.value).value.change;
    if s'.past.steady && Conflicts(RecordOf(s, branch), change) {
      NewsFollow(RecordOf(s, branch), change.number, s.api(change.number), s'.api(change.number));
    }
  }

  // ----- ending -----

  /** A handler that stops between the two writes leaves a delivery that waits, unless that is spent or what it
      showed is recorded already. */
  lemma LeaveKeeps(c: Config, s: State, w: nat)
    requires Inv(c, s)
    ensures Inv(c, Leave(s, w))
  {
    hide Inv, Request, WritingOk, HandlerOk, HandlersOk, QueueOk, OldTokens, LosesNone, IsNews, Spent;
    if At(s, w).Written? {
      WriterIsOk(c, s, w);
      WriterGone(c, s, w);
    } else {
      var s' := Leave(s, w);
      InvParts(c, s);
      SameQueue(s);
      QueueOkFrame(s, s');
      IdleIsOk(c, s');
      MoveKeeps(c, s, s', w);
    }
  }

  lemma IdleIsOk(c: Config, s: State)
    ensures HandlerOk(c, s, Idle)
  {}

  lemma LeaveShape(s: State, w: nat)
    requires At(s, w).Written? && Request(At(s, w).payload).Some?
    ensures
      var h, s', b := At(s, w), Leave(s, w), Request(At(s, w).payload).value.branch;
      && SameRecords(s, s') && s'.q == s.q && s'.issued == s.issued && s'.handlers == s.handlers[w := Idle]
      && HistoryGrows(s, s') && HistoryGrows(s', s)
      && (forall o | o != b :: SamePast(s, s', o))
      && (if IsNews(s, b, h.write) then
            b in s'.past.cut && s'.past.cut[b] == h.id && (b in s'.past.lost <==> b in s.past.lost || Spent(s', h.id, h.payload))
          else SamePast(s, s', b))
  {
    hide Request, Live, Holds;
    var h, t := At(s, w), Put(s, w, Idle);
    assert Spent(Leave(s, w), h.id, h.payload) == Spent(t, h.id, h.payload);
  }

  ghost predicate SamePast(s: State, s': State, branch: string) {
    && (branch in s'.past.lost <==> branch in s.past.lost) && (branch in s'.past.cut <==> branch in s.past.cut)
    && (branch in s.past.cut ==> s'.past.cut[branch] == s.past.cut[branch])
  }

  lemma WriterGone(c: Config, s: State, w: nat)
    requires Inv(c, s) && At(s, w).Written? && WritingOk(c, s, At(s, w)) && Request(At(s, w).payload).Some?
    requires forall x | x in s.handlers && x != w :: !s.handlers[x].Written?
    ensures Inv(c, Leave(s, w))
  {
    hide QueueOk, WritingOk, Done, Holds, Waits, Request, BranchOk, OldTokens, LosesNone, Spent, Agrees, Still, Leave, IsNews;
    var h, s' := At(s, w), Leave(s, w);
    var b := Request(h.payload).value.branch;
    LeaveShape(s, w);
    InvParts(c, s);
    SameQueue(s);
    QueueOkFrame(s, s');
    HandlerOkOf(c, s, w);
    RecordsFrame(c, s, s');
    NothingSpent(c, s, s');
    forall x | x in s'.handlers ensures HandlerOk(c, s', s'.handlers[x]) {
      if x != w { HandlerFrame(c, s, s', s.handlers[x]); }
    }
    forall o ensures BranchOk(c, s', o) {
      OnlyWriter(s, w, o);
      OnlyWriter(s', w, o);
      if o != b {
        assert SamePast(s, s', o);
        BranchStays(c, s, s', o);
      } else {
        LeftBehind(c, s, s', h, b);
      }
    }
  }

  lemma LeftBehind(c: Config, s: State, s': State, h: Handler, branch: string)
    requires h.Written? && WritingOk(c, s, h) && SpentOk(c, s, h) && Request(h.payload).Some?
    requires branch == Request(h.payload).value.branch && BranchOk(c, s, branch)
    requires BeingWritten(s, branch) && !BeingWritten(s', branch)
    requires SameRecords(s, s') && s'.q == s.q && HistoryGrows(s, s') && HistoryGrows(s', s) && NoNewSpent(s, s')
    requires s.past.fixed ==> s.past.steady
    requires
      if IsNews(s, branch, h.write) then
        && branch in s'.past.cut && s'.past.cut[branch] == h.id
        && (branch in s'.past.lost <==> branch in s.past.lost || Spent(s', h.id, h.payload))
      else SamePast(s, s', branch)
    ensures BranchOk(c, s', branch)
  {
    hide Request, Settled, ShouldApply, HeldHandled, BeingWritten, ShowsSame, Decide;
    var change := Request(h.payload).value.change;
    WrittenDecides(c, s, RecordOf(s, branch), change, h.write);
    if IsNews(s, branch, h.write) && s.past.fixed && Spent(s', h.id, h.payload) {
      NotNews(c, s, branch, change, h.write);
    }
  }

  /** What was written would be written again, or the answer that has come since. */
  lemma WrittenDecides(c: Config, s: State, current: PullRequests.Record, change: Change, write: Change)
    requires Writes(c, s, current, change, write)
    ensures
      var again := Decide(current, change, Asked(Answers(c, s), change.number));
      && (s.past.steady ==> again.Some?) && (s.past.steady && s.past.fixed ==> again == Some(write))
      && (!Conflicts(current, change) ==> again == Some(write))
  {}

  lemma NotNews(c: Config, s: State, branch: string, change: Change, write: Change)
    requires Decide(RecordOf(s, branch), change, Asked(Answers(c, s), change.number)) == Some(write)
    ensures ShowsSame(RecordOf(s, branch), change, Asked(Answers(c, s), change.number)) ==> !IsNews(s, branch, write)
  {
    hide Decide;
  }

  lemma QueueKeeps(c: Config, s: State, t: State)
    requires Inv(c, s) && t == s.(q := t.q) && OldTokens(s, t.q) && NoNewSpent(s, t) && QueueOk(t)
    ensures Inv(c, t)
  {
    hide QueueOk, WritingOk, Done, Holds, Waits, Request, BranchOk, OldTokens, Spent, Agrees, Still, NoNewSpent;
    RecordsFrame(c, s, t);
    forall x | x in t.handlers ensures HandlerOk(c, t, t.handlers[x]) {
      NotSpent(s, t, s.handlers[x]);
      HandlerFrame(c, s, t, s.handlers[x]);
    }
    forall branch ensures BranchOk(c, t, branch) {
      SameHandlersWrite(s, t, branch);
      BranchStays(c, s, t, branch);
    }
  }

  lemma NotSpent(s: State, t: State, h: Handler)
    requires NoNewSpent(s, t)
    ensures !h.Idle? && Spent(t, h.id, h.payload) ==> Spent(s, h.id, h.payload)
  {
    hide Spent;
  }

  lemma FailKeeps(c: Config, s: State, w: nat, now: real, delay: real)
    requires Inv(c, s)
    ensures Inv(c, StepFail(s, w, now, delay))
  {
    hide Inv, ReleaseDelivery, Leave, HandlersOk, QueueOk, OldTokens, LosesNone, NoNewSpent;
    if At(s, w) != Idle {
      var h := At(s, w);
      var t := s.(q := ReleaseDelivery(s.q, h.id, h.token, delay, now).0);
      InvParts(c, s);
      ReleaseMoves(c, s, h.id, h.token, delay, now);
      NothingSpent(c, s, t);
      QueueKeeps(c, s, t);
      LeaveKeeps(c, t, w);
    }
  }

  lemma ReleaseMoves(c: Config, s: State, id: string, token: string, delay: real, now: real)
    requires QueueOk(s)
    ensures
      var q := ReleaseDelivery(s.q, id, token, delay, now).0;
      OldTokens(s, q) && LosesNone(s, q) && QueueOk(s.(q := q))
  {
    hide Request;
  }

  /** Without the current token nothing changes; with it the delivery is closed, which was spent already. */
  lemma CompleteKeeps(c: Config, s: State, w: nat, now: real)
    requires Inv(c, s)
    ensures Inv(c, StepComplete(c, s, w, now))
  {
    hide Inv, CompleteDelivery, Leave, Close, Holds, HandlersOk, QueueOk, OldTokens, NoNewSpent;
    if At(s, w).Handled? {
      if Holds(s.q, At(s, w).id, At(s, w).token) {
        InvParts(c, s);
        CompletedQueue(s, At(s, w).id, At(s, w).token, now, c.retention);
        CloseSpends(c, s, w, now);
        CloseIs(c, s, w, now);
        QueueKeeps(c, s, Close(c, s, w, now));
      } else {
        StaleClose(c, s, w, now);
      }
      LeaveKeeps(c, Close(c, s, w, now), w);
    }
  }

  lemma CloseIs(c: Config, s: State, w: nat, now: real)
    requires At(s, w).Handled?
    ensures Close(c, s, w, now) == s.(q := CompleteDelivery(s.q, At(s, w).id, At(s, w).token, now, c.retention).0)
  {
    hide CompleteDelivery;
  }

  lemma StaleClose(c: Config, s: State, w: nat, now: real)
    requires At(s, w).Handled? && !Holds(s.q, At(s, w).id, At(s, w).token)
    ensures Close(c, s, w, now) == s
  {
    hide Holds;
  }

  lemma CompletedQueue(s: State, id: string, token: string, now: real, retention: nat)
    requires QueueOk(s) && Holds(s.q, id, token)
    ensures
      var q := CompleteDelivery(s.q, id, token, now, retention).0;
      && OldTokens(s, q) && QueueOk(s.(q := q))
      && (forall o, payload | o != id && Live(s.q, o, payload) :: Live(q, o, payload))
  {
    hide Kept;
  }

  lemma CloseSpends(c: Config, s: State, w: nat, now: real)
    requires At(s, w).Handled? && Holds(s.q, At(s, w).id, At(s, w).token) && HandlersOk(c, s)
    requires
      var q := CompleteDelivery(s.q, At(s, w).id, At(s, w).token, now, c.retention).0;
      && OldTokens(s, q)
      && (forall o, payload | o != At(s, w).id && Live(s.q, o, payload) :: Live(q, o, payload))
    ensures NoNewSpent(s, Close(c, s, w, now))
  {
    hide Live, Holds, CompleteDelivery;
    Tokens(c, s);
    assert HeldHandled(s, At(s, w).id);
  }

  lemma StepKeeps(c: Config, s: State, e: Event)
    requires Inv(c, s)
    ensures Inv(c, Step(c, s, e))
  {
    hide Inv, StepReceive, StepRetry, StepWrite, StepRecord, StepApi, StepComplete, StepFail, Leave;
    match e
    case MapBranch(branch) => MapKeeps(c, s, branch);
    case ApiMoves(number, answer) => ApiKeeps(c, s, number, answer);
    case Receive(_, _, _, _, _, _) => ReceiveKeeps(c, s, e);
    case Retry(w, now, token, next) => RetryKeeps(c, s, w, now, token, next);
    case Write(w) => WriteKeeps(c, s, w);
    case Record(w) => RecordKeeps(c, s, w);
    case Complete(w, now) => CompleteKeeps(c, s, w, now);
    case Fail(w, now, delay) => FailKeeps(c, s, w, now, delay);
    case Crash(w) => LeaveKeeps(c, s, w);
  }

  lemma {:induction false} RunKeeps(c: Config, s: State, events: seq<Event>)
    requires Inv(c, s)
    ensures Inv(c, Run(c, s, events))
    decreases events
  {
    hide Inv, Step;
    if events != [] {
      StepKeeps(c, s, events[0]);
      RunKeeps(c, Step(c, s, events[0]), events[1..]);
    }
  }
}
