/** The lifecycle of a pull request as its webhook events tell it, in whatever order they arrive. */
module PullRequests {
  import opened Text

  datatype PrState = InProgress | Review | Merged

  /** `time` is the instant that `updated_at` denotes. */
  datatype Change = Change(number: int, state: PrState, time: real)

  /** The recorded pull request of a branch, if any. */
  type Record = Option<Change>

  /** What the API says about a pull request when it is asked. */
  datatype Answer = Answer(state: PrState, time: real)

  datatype Action = Opened | Reopened | ReadyForReview | ConvertedToDraft | Closed | OtherAction

  function StateOf(action: Action, draft: bool, merged: bool): Option<PrState> {
    match action
    case Opened => Some(if draft then InProgress else Review)
    case Reopened => Some(if draft then InProgress else Review)
    case ReadyForReview => Some(Review)
    case ConvertedToDraft => Some(InProgress)
    case Closed => Some(if merged then Merged else InProgress)
    case OtherAction => None
  }

  // ----- what a state says of a pull request -----

  /** A pull request: open or closed, a draft or ready, merged or not. */
  datatype Life = Life(open: bool, draft: bool, merged: bool)

  /** A merged pull request is closed. */
  predicate Possible(p: Life) { p.merged ==> !p.open }

  /** The action can happen to the pull request. */
  predicate CanAct(p: Life, action: Action) {
    match action
    case Opened => p.open && !p.merged
    case Reopened => !p.open && !p.merged
    case ReadyForReview => p.open && p.draft
    case ConvertedToDraft => p.open && !p.draft
    case Closed => p.open
    case OtherAction => true
  }

  /** The pull request after the action; `merges` says whether closing it merges it. */
  function Acted(p: Life, action: Action, merges: bool): Life {
    match action
    case Opened => p
    case Reopened => p.(open := true)
    case ReadyForReview => p.(draft := false)
    case ConvertedToDraft => p.(draft := true)
    case Closed => p.(open := false, merged := merges)
    case OtherAction => p
  }

  /** The state that the card and the record should have. */
  ghost predicate Tells(state: PrState, p: Life) {
    && (state == Merged <==> p.merged)
    && (state == Review <==> p.open && !p.draft)
    && (state == InProgress <==> !p.merged && (!p.open || p.draft))
  }

  /** An event, which reports the pull request after its action, asks for the state that tells it; other actions
      ask for nothing. */
  lemma EventsTellTheState(before: Life, action: Action, merges: bool)
    requires Possible(before) && CanAct(before, action)
    ensures
      var after := Acted(before, action, merges);
      && Possible(after)
      && (action == OtherAction <==> StateOf(action, after.draft, after.merged) == None)
      && (action != OtherAction ==> Tells(StateOf(action, after.draft, after.merged).value, after))
  {}

  /** `GitHubApiPullRequestLookup.resolve`, on the fields of the answer. */
  function AnsweredState(mergedAt: bool, open: bool, draft: bool): PrState {
    if mergedAt then Merged else if !open || draft then InProgress else Review
  }

  /** The API, asked about a pull request, tells the same state as its latest event did. */
  lemma ApiTellsTheState(p: Life)
    requires Possible(p)
    ensures Tells(AnsweredState(p.merged, p.open, p.draft), p)
  {}

  // ----- applying changes -----

  predicate ShouldApply(current: Record, incoming: Change, allowEqualTransition: bool) {
    if current.None? then true
    else if incoming.number < current.value.number then false
    else if incoming.number > current.value.number then true
    else if current.value.state == Merged && incoming.state != Merged then false
    else if incoming.time > current.value.time then true
    else allowEqualTransition && incoming.time == current.value.time && incoming.state != current.value.state
  }

  /** Two states at the same instant: only the API can tell which one is current. */
  predicate Conflicts(current: Record, incoming: Change) {
    current.Some? && current.value.number == incoming.number && current.value.state != incoming.state
    && current.value.time == incoming.time
  }

  function Resolved(number: int, answer: Answer): Change { Change(number, answer.state, answer.time) }

  /** The change that the locked section writes for an event, if it writes one. `lookup` is the
      API's answer for the pull request, or nothing when no lookup is configured. */
  function Decide(current: Record, incoming: Change, lookup: Option<Answer>): Option<Change> {
    if Conflicts(current, incoming) then
      if lookup.None? then None
      else
        var resolved := Resolved(incoming.number, lookup.value);
        if ShouldApply(current, resolved, true) then Some(resolved) else None
    else if ShouldApply(current, incoming, false) then Some(incoming)
    else None
  }

  function Apply(current: Record, incoming: Change, lookup: Option<Answer>): Record {
    var write := Decide(current, incoming, lookup);
    if write.Some? then write else current
  }

  // ----- one event -----

  predicate NotBefore(a: Change, b: Change) { b.number < a.number || (b.number == a.number && b.time <= a.time) }

  /** Whatever arrives and whatever the API answers, the recorded number and time never go back, and
      a merged pull request stays merged for as long as it is the recorded one. */
  lemma NeverGoesBack(current: Record, incoming: Change, lookup: Option<Answer>)
    requires current.Some?
    ensures
      var next := Apply(current, incoming, lookup);
      && next.Some? && NotBefore(next.value, current.value)
      && (current.value.state == Merged && next.value.number == current.value.number ==> next.value.state == Merged)
  {}

  /** The event has had its effect: it is not applied again, or only to confirm a merge, or it stands against
      the record at the same instant and only the API could still tell them apart. */
  predicate Settled(current: Record, e: Change) {
    && current.Some?
    && (Conflicts(current, e) || !ShouldApply(current, e, false)
        || (current.value.state == Merged && current.value.number == e.number))
  }

  /** A settled event stays settled, whatever is applied in between and whatever the API answers. */
  lemma SettledStays(current: Record, e: Change, f: Change, lookup: Option<Answer>)
    requires Settled(current, e)
    ensures Settled(Apply(current, f, lookup), e)
  {}

  /** Once it has been handled, an event is settled. */
  lemma HandledIsSettled(current: Record, e: Change, lookup: Option<Answer>)
    ensures Settled(Apply(current, e, lookup), e)
  {}

  /** The answer for an event, from a lookup that always answers the same, or from none. */
  function Asked(answers: Option<int -> Answer>, number: int): Option<Answer> {
    if answers.Some? then Some(answers.value(number)) else None
  }

  /** Handling the event again would show what is recorded already. */
  predicate ShowsSame(current: Record, e: Change, lookup: Option<Answer>) {
    var write := Decide(current, e, lookup);
    current.Some? && (write.None? || (write.value.number == current.value.number && write.value.state == current.value.state))
  }

  /** With a lookup that always answers the same this holds once the event has been handled, and stays so. */
  lemma HandledShowsSame(current: Record, e: Change, lookup: Option<Answer>)
    ensures ShowsSame(Apply(current, e, lookup), e, lookup)
  {}

  lemma ShowsSameStays(current: Record, e: Change, f: Change, answers: Option<int -> Answer>)
    requires Settled(current, e) && ShowsSame(current, e, Asked(answers, e.number))
    ensures ShowsSame(Apply(current, f, Asked(answers, f.number)), e, Asked(answers, e.number))
  {}

  /** Events as they arrive, each with what the API would answer. */
  function FinalWith(current: Record, arrivals: seq<(Change, Option<Answer>)>): Record
    decreases arrivals
  {
    if arrivals == [] then current
    else FinalWith(Apply(current, arrivals[0].0, arrivals[0].1), arrivals[1..])
  }

  /** Over any sequence of arrivals and answers, in any order and with any repetitions, the recorded number
      and time never go back, and a merge is never taken back while its number is recorded. */
  lemma {:induction false} RunsNeverGoBack(current: Change, arrivals: seq<(Change, Option<Answer>)>)
    ensures
      var final := FinalWith(Some(current), arrivals);
      && final.Some? && NotBefore(final.value, current)
      && (current.state == Merged && final.value.number == current.number ==> final.value.state == Merged)
    decreases arrivals
  {
    if arrivals != [] {
      var next := Apply(Some(current), arrivals[0].0, arrivals[0].1);
      NeverGoesBack(Some(current), arrivals[0].0, arrivals[0].1);
      RunsNeverGoBack(next.value, arrivals[1..]);
    }
  }

  // ----- orders of arrival, with a lookup that always answers the same, or with none -----

  function FinalAsking(current: Record, events: seq<Change>, answers: Option<int -> Answer>): Record
    decreases events
  {
    if events == [] then current
    else FinalAsking(Apply(current, events[0], Asked(answers, events[0].number)), events[1..], answers)
  }

  function Paired(events: seq<Change>, answers: Option<int -> Answer>): seq<(Change, Option<Answer>)> {
    seq(|events|, i requires 0 <= i < |events| => (events[i], Asked(answers, events[i].number)))
  }

  lemma {:induction false} AskingIsWith(current: Record, events: seq<Change>, answers: Option<int -> Answer>)
    ensures FinalAsking(current, events, answers) == FinalWith(current, Paired(events, answers))
    decreases events
  {
    if events != [] {
      assert Paired(events, answers)[1..] == Paired(events[1..], answers);
      AskingIsWith(Apply(current, events[0], Asked(answers, events[0].number)), events[1..], answers);
    }
  }

  ghost predicate Arrives(events: seq<Change>, all: set<Change>) {
    (forall e | e in events :: e in all) && (forall e | e in all :: e in events)
  }

  /** Every order of arrival, with any repetitions, ends in the same record. */
  ghost predicate OrderIndependent(all: set<Change>, answers: Option<int -> Answer>) {
    forall a, b | Arrives(a, all) && Arrives(b, all) :: FinalAsking(None, a, answers) == FinalAsking(None, b, answers)
  }

  ghost predicate EveryOrderEndsIn(all: set<Change>, answers: Option<int -> Answer>, f: Change) {
    forall events | Arrives(events, all) :: FinalAsking(None, events, answers) == Some(f)
  }

  /** `e` has the greatest number, and the greatest time among those. */
  predicate IsLatest(all: set<Change>, e: Change) {
    e in all && forall o | o in all :: NotBefore(e, o)
  }

  /** The latest event is recorded at the end: nothing of its number was merged unless it is; two states at
      its instant are told apart by an answer that is this event; and an answer that resolves an earlier
      instant is this event, or gives way to it. */
  predicate LatestDecides(all: set<Change>, answers: Option<int -> Answer>, e: Change) {
    && IsLatest(all, e)
    && (forall o | o in all && o.number == e.number && o.state == Merged :: e.state == Merged)
    && (forall x, y | x in all && y in all && x.number == e.number && Conflicts(Some(x), y) :: GivesWay(x, answers, e))
  }

  predicate GivesWay(x: Change, answers: Option<int -> Answer>, e: Change) {
    if x.time == e.time then answers.Some? && Resolved(e.number, answers.value(e.number)) == e
    else if answers.None? then true
    else
      var r := Resolved(e.number, answers.value(e.number));
      ShouldApply(Some(x), r, true) ==> r == e || (r.time < e.time && (r.state == Merged ==> e.state == Merged))
  }

  /** The answer is recorded at the end although no event carries it: the latest instant has two states, the
      answer replaces each of them, and a merge, if there is one, happened once and has a rival at its instant. */
  predicate AnswerDecides(all: set<Change>, lookup: int -> Answer) {
    && (exists x, y | x in all && y in all :: IsLatest(all, x) && Conflicts(Some(x), y))
    && (forall g | g in all && IsLatest(all, g) ::
          && ShouldApply(Some(g), Resolved(g.number, lookup(g.number)), true)
          && (forall m | m in all && m.number == g.number && m.state == Merged ::
                && lookup(g.number).state == Merged
                && (exists o | o in all :: Conflicts(Some(m), o))
                && (forall k | k in all && k.number == g.number && k.state == Merged :: k == m)))
  }

  lemma {:induction false} LatestExists(all: set<Change>) returns (e: Change)
    requires all != {}
    ensures IsLatest(all, e)
    decreases all
  {
    e :| e in all;
    var first := e;
    var rest := all - {first};
    if rest != {} {
      var o := LatestExists(rest);
      if !NotBefore(e, o) { e := o; }
    }
    forall o | o in all ensures NotBefore(e, o) {
      if o != first { assert o in rest; }
    }
  }

  lemma {:induction false} Listing(all: set<Change>) returns (events: seq<Change>)
    ensures Arrives(events, all)
    decreases all
  {
    if all == {} {
      events := [];
    } else {
      var e :| e in all;
      var rest := Listing(all - {e});
      events := [e] + rest;
    }
  }

  lemma EmptyOrNot(events: seq<Change>)
    ensures events == [] || exists e :: e in events
  {
    if events != [] { assert events[0] in events; }
  }

  lemma {:induction false} FinalOfTwo(current: Record, a: seq<Change>, b: seq<Change>, answers: Option<int -> Answer>)
    ensures FinalAsking(current, a + b, answers) == FinalAsking(FinalAsking(current, a, answers), b, answers)
    decreases a
  {
    if a == [] {
      assert a + b == b;
    } else {
      assert (a + b)[1..] == a[1..] + b;
      FinalOfTwo(Apply(current, a[0], Asked(answers, a[0].number)), a[1..], b, answers);
    }
  }

  // ----- ending in the latest event -----

  /** Before the latest event arrives: nothing of its number, or something it will replace. */
  predicate Underway(all: set<Change>, answers: Option<int -> Answer>, e: Change, current: Record) {
    current.None? || current.value.number < e.number || current.value == e
    || (current.value.number == e.number
        && (if current.value.time == e.time then current.value in all
            else
              && current.value.time < e.time && (current.value.state == Merged ==> e.state == Merged)
              && (current.value in all
                  || (answers.Some? && current.value == Resolved(e.number, answers.value(e.number))))))
  }

  lemma UnderwayStep(all: set<Change>, answers: Option<int -> Answer>, e: Change, current: Record, o: Change)
    requires LatestDecides(all, answers, e) && Underway(all, answers, e, current) && o in all
    ensures
      var next := Apply(current, o, Asked(answers, o.number));
      Underway(all, answers, e, next) && (current == Some(e) || o == e ==> next == Some(e))
  {
    assert NotBefore(e, o);
    if current.Some? && current.value in all && current.value.number == e.number && Conflicts(current, o) {
      assert GivesWay(current.value, answers, e);
    }
  }

  lemma {:induction false} LatestWins(
    all: set<Change>, answers: Option<int -> Answer>, e: Change, current: Record, events: seq<Change>)
    requires LatestDecides(all, answers, e) && Underway(all, answers, e, current)
    requires (forall o | o in events :: o in all) && (current == Some(e) || e in events)
    ensures FinalAsking(current, events, answers) == Some(e)
    decreases events
  {
    hide LatestDecides, Underway, Apply;
    if events != [] {
      UnderwayStep(all, answers, e, current, events[0]);
      LatestWins(all, answers, e, Apply(current, events[0], Asked(answers, events[0].number)), events[1..]);
    }
  }

  // ----- ending in the answer -----

  /** What is still to come takes the record to the answer `r`. */
  ghost predicate Awaits(all: set<Change>, n: int, r: Change, current: Record, events: seq<Change>) {
    || current == Some(r)
    || ((current.None? || current.value.number < n) && forall o | o in all && o.number == n :: o in events)
    || (current.Some? && current.value in all && current.value.number == n
        && forall o | o in all && (Conflicts(current, o) || ShouldApply(current, o, false)) :: o in events)
  }

  lemma AnswerStays(all: set<Change>, lookup: int -> Answer, g: Change, o: Change)
    requires AnswerDecides(all, lookup) && IsLatest(all, g) && o in all
    ensures
      var r := Resolved(g.number, lookup(g.number));
      Apply(Some(r), o, Asked(Some(lookup), o.number)) == Some(r)
  {
    assert NotBefore(g, o);
    assert ShouldApply(Some(g), Resolved(g.number, lookup(g.number)), true);
  }

  lemma ConflictResolves(all: set<Change>, lookup: int -> Answer, g: Change, current: Change, o: Change)
    requires AnswerDecides(all, lookup) && IsLatest(all, g) && current in all && o in all
    requires current.number == g.number && Conflicts(Some(current), o)
    ensures Apply(Some(current), o, Asked(Some(lookup), o.number)) == Some(Resolved(g.number, lookup(g.number)))
  {
    assert NotBefore(g, current);
    if IsLatest(all, current) {
      assert ShouldApply(Some(current), Resolved(g.number, lookup(g.number)), true);
    } else {
      assert ShouldApply(Some(g), Resolved(g.number, lookup(g.number)), true);
    }
  }

  /** A record that gives way to an event had none of the event's rivals yet. */
  lemma RivalsStillToCome(all: set<Change>, lookup: int -> Answer, g: Change, current: Change, o: Change)
    requires AnswerDecides(all, lookup) && IsLatest(all, g) && current in all && o in all
    requires current.number == g.number == o.number && ShouldApply(Some(current), o, false)
    ensures forall x | x in all && (Conflicts(Some(o), x) || ShouldApply(Some(o), x, false)) ::
      ShouldApply(Some(current), x, false)
  {
    assert NotBefore(g, current);
  }

  lemma AwaitsStep(all: set<Change>, lookup: int -> Answer, g: Change, current: Record, events: seq<Change>)
    requires AnswerDecides(all, lookup) && IsLatest(all, g) && events != [] && forall o | o in events :: o in all
    requires Awaits(all, g.number, Resolved(g.number, lookup(g.number)), current, events)
    ensures
      var next := Apply(current, events[0], Asked(Some(lookup), events[0].number));
      Awaits(all, g.number, Resolved(g.number, lookup(g.number)), next, events[1..])
  {
    hide AnswerDecides;
    var n, r, first, rest := g.number, Resolved(g.number, lookup(g.number)), events[0], events[1..];
    assert first in all && NotBefore(g, first) && events == [first] + rest;
    AnswerStays(all, lookup, g, first);
    if current.Some? && current.value in all && current.value.number == n {
      if Conflicts(current, first) {
        ConflictResolves(all, lookup, g, current.value, first);
      } else if ShouldApply(current, first, false) {
        RivalsStillToCome(all, lookup, g, current.value, first);
      }
    }
  }

  lemma NothingAwaited(all: set<Change>, lookup: int -> Answer, g: Change, current: Record)
    requires AnswerDecides(all, lookup) && IsLatest(all, g)
    requires Awaits(all, g.number, Resolved(g.number, lookup(g.number)), current, [])
    ensures current == Some(Resolved(g.number, lookup(g.number)))
  {
    var x, y :| x in all && y in all && IsLatest(all, x) && Conflicts(Some(x), y);
    assert NotBefore(x, g);
  }

  lemma {:induction false} AnswerWins(
    all: set<Change>, lookup: int -> Answer, g: Change, current: Record, events: seq<Change>)
    requires AnswerDecides(all, lookup) && IsLatest(all, g) && forall o | o in events :: o in all
    requires Awaits(all, g.number, Resolved(g.number, lookup(g.number)), current, events)
    ensures FinalAsking(current, events, Some(lookup)) == Some(Resolved(g.number, lookup(g.number)))
    decreases events
  {
    hide Apply, AnswerDecides, Awaits, IsLatest;
    if events != [] {
      AwaitsStep(all, lookup, g, current, events);
      AnswerWins(all, lookup, g, Apply(current, events[0], Asked(Some(lookup), events[0].number)), events[1..]);
    } else {
      NothingAwaited(all, lookup, g, current);
    }
  }

  // ----- what a set that ends alike in every order must look like -----

  lemma {:induction false} Sticks(c: Change, events: seq<Change>, answers: Option<int -> Answer>)
    requires forall o | o in events :: Apply(Some(c), o, Asked(answers, o.number)) == Some(c)
    ensures FinalAsking(Some(c), events, answers) == Some(c)
    decreases events
  {
    hide Apply;
    if events != [] { Sticks(c, events[1..], answers); }
  }

  /** A run that starts with these events and then sees the whole set. */
  lemma StartsWith(all: set<Change>, answers: Option<int -> Answer>, f: Change, first: seq<Change>)
    returns (rest: seq<Change>)
    requires EveryOrderEndsIn(all, answers, f) && forall o | o in first :: o in all
    ensures Arrives(rest, all) && FinalAsking(FinalAsking(None, first, answers), rest, answers) == Some(f)
  {
    hide Apply;
    rest := Listing(all);
    assert Arrives(first + rest, all);
    FinalOfTwo(None, first, rest, answers);
  }

  lemma StartsAt(all: set<Change>, answers: Option<int -> Answer>, f: Change, c: Change) returns (rest: seq<Change>)
    requires EveryOrderEndsIn(all, answers, f) && c in all
    ensures Arrives(rest, all) && FinalAsking(Some(c), rest, answers) == Some(f)
  {
    rest := StartsWith(all, answers, f, [c]);
    assert FinalAsking(None, [c], answers) == Some(c);
  }

  lemma AskingNeverGoesBack(current: Change, events: seq<Change>, answers: Option<int -> Answer>)
    ensures
      var final := FinalAsking(Some(current), events, answers);
      && final.Some? && NotBefore(final.value, current)
      && (current.state == Merged && final.value.number == current.number ==> final.value.state == Merged)
  {
    AskingIsWith(Some(current), events, answers);
    RunsNeverGoBack(current, Paired(events, answers));
  }

  /** The end is an event of the greatest number, or the answer. */
  lemma {:induction false} EndsAmong(
    all: set<Change>, answers: Option<int -> Answer>, g: Change, current: Change, events: seq<Change>)
    requires IsLatest(all, g) && current.number == g.number && forall o | o in events :: o in all
    requires current in all || (answers.Some? && current == Resolved(g.number, answers.value(g.number)))
    ensures
      var final := FinalAsking(Some(current), events, answers);
      && final.Some? && final.value.number == g.number
      && (final.value in all || (answers.Some? && final.value == Resolved(g.number, answers.value(g.number))))
    decreases events
  {
    if events != [] {
      assert events[0] in all && NotBefore(g, events[0]);
      EndsAmong(all, answers, g, Apply(Some(current), events[0], Asked(answers, events[0].number)).value, events[1..]);
    }
  }

  /** The end `f` is an event: then it is the latest one, and nothing of its number is merged unless it is. */
  lemma EndIsLatest(all: set<Change>, answers: Option<int -> Answer>, f: Change, g: Change)
    requires EveryOrderEndsIn(all, answers, f) && IsLatest(all, g) && f in all
    ensures IsLatest(all, f)
    ensures forall o | o in all && o.number == f.number && o.state == Merged :: f.state == Merged
  {
    hide EveryOrderEndsIn;
    var rest := StartsAt(all, answers, f, g);
    AskingNeverGoesBack(g, rest, answers);
    forall o | o in all && o.number == f.number && o.state == Merged ensures f.state == Merged {
      var rest := StartsAt(all, answers, f, o);
      AskingNeverGoesBack(o, rest, answers);
    }
  }

  lemma EndGivesWay(all: set<Change>, answers: Option<int -> Answer>, f: Change, x: Change, y: Change)
    requires EveryOrderEndsIn(all, answers, f) && IsLatest(all, f)
    requires x in all && y in all && x.number == f.number && Conflicts(Some(x), y)
    ensures GivesWay(x, answers, f)
  {
    hide EveryOrderEndsIn;
    assert NotBefore(f, x);
    var z, o := if x.time == f.time && x.state == f.state then y else x, if x.time == f.time then f else y;
    var rest := StartsWith(all, answers, f, [z, o]);
    assert FinalAsking(None, [z], answers) == Some(z);
    FinalOfTwo(None, [z], [o], answers);
    var c := Apply(Some(z), o, Asked(answers, o.number)).value;
    assert FinalAsking(Some(z), [o], answers) == Some(c);
    assert [z] + [o] == [z, o];
    AskingNeverGoesBack(c, rest, answers);
    if !GivesWay(x, answers, f) && f.time <= c.time {
      forall e | e in rest ensures Apply(Some(c), e, Asked(answers, e.number)) == Some(c) {
        assert NotBefore(f, e);
      }
      Sticks(c, rest, answers);
    }
  }

  /** The end `f` is not an event: then each of the latest events has a rival, and the answer replaces it. */
  lemma LatestHasRival(all: set<Change>, answers: Option<int -> Answer>, f: Change, g: Change) returns (o: Change)
    requires EveryOrderEndsIn(all, answers, f) && IsLatest(all, g) && f !in all
    ensures o in all && Conflicts(Some(g), o)
    ensures answers.Some? && ShouldApply(Some(g), Resolved(g.number, answers.value(g.number)), true)
  {
    hide EveryOrderEndsIn;
    var rest := StartsAt(all, answers, f, g);
    if forall o | o in rest :: Apply(Some(g), o, Asked(answers, o.number)) == Some(g) {
      Sticks(g, rest, answers);
      o := g;
    } else {
      o :| o in rest && Apply(Some(g), o, Asked(answers, o.number)) != Some(g);
      assert NotBefore(g, o);
    }
  }

  lemma EndsIn(all: set<Change>, answers: Option<int -> Answer>, f: Change, events: seq<Change>)
    requires EveryOrderEndsIn(all, answers, f) && Arrives(events, all)
    ensures FinalAsking(None, events, answers) == Some(f)
  {}

  lemma LastMergeStays(all: set<Change>, answers: Option<int -> Answer>, g: Change, m: Change, o: Change)
    requires IsLatest(all, g) && m in all && m.number == g.number && m.state == Merged && o in all && !Conflicts(Some(m), o)
    requires forall k | k in all && k.number == g.number && k.state == Merged :: k.time <= m.time
    ensures Apply(Some(m), o, Asked(answers, o.number)) == Some(m)
  {
    assert NotBefore(g, o);
  }

  /** Two merges: after the earlier one, the later one's rivals are ignored, and then it stays for good. */
  lemma MergedOnce(all: set<Change>, answers: Option<int -> Answer>, f: Change, g: Change, j: Change, m: Change)
    requires EveryOrderEndsIn(all, answers, f) && IsLatest(all, g)
    requires j in all && m in all && j.number == m.number == g.number && j.state == m.state == Merged && j.time < m.time
    requires forall o | o in all && o.number == g.number && o.state == Merged :: o.time <= m.time
    ensures f == m
  {
    var rivals := Listing(set o | o in all && Conflicts(Some(m), o));
    var others := Listing(set o | o in all && !Conflicts(Some(m), o));
    assert FinalAsking(None, [j], answers) == Some(j);
    Sticks(j, rivals, answers);
    assert FinalAsking(Some(j), [m], answers) == Some(m);
    hide EveryOrderEndsIn, Apply, IsLatest, FinalAsking;
    FinalOfTwo(None, [j], rivals, answers);
    FinalOfTwo(None, [j] + rivals, [m], answers);
    forall o | o in others ensures Apply(Some(m), o, Asked(answers, o.number)) == Some(m) {
      LastMergeStays(all, answers, g, m, o);
    }
    Sticks(m, others, answers);
    FinalOfTwo(None, [j] + rivals + [m], others, answers);
    assert Arrives([j] + rivals + [m] + others, all) by { Together(all, m, j, rivals, others); }
    EndsIn(all, answers, f, [j] + rivals + [m] + others);
  }

  lemma Together(all: set<Change>, m: Change, j: Change, rivals: seq<Change>, others: seq<Change>)
    requires j in all && m in all
    requires Arrives(rivals, set o | o in all && Conflicts(Some(m), o))
    requires Arrives(others, set o | o in all && !Conflicts(Some(m), o))
    ensures Arrives([j] + rivals + [m] + others, all)
  {
    hide Conflicts;
    forall o | o in all ensures o in [j] + rivals + [m] + others {
      assert o in rivals || o in others;
    }
  }

  lemma MergeHasRival(all: set<Change>, answers: Option<int -> Answer>, f: Change, g: Change, m: Change)
    requires EveryOrderEndsIn(all, answers, f) && IsLatest(all, g) && f !in all && f.number == g.number
    requires m in all && m.number == g.number && m.state == Merged
    ensures f.state == Merged && (exists o | o in all :: Conflicts(Some(m), o))
    ensures forall k | k in all && k.number == g.number && k.state == Merged :: k == m
  {
    hide EveryOrderEndsIn;
    var rest := StartsAt(all, answers, f, m);
    AskingNeverGoesBack(m, rest, answers);
    var merges := set o | o in all && o.number == g.number && o.state == Merged;
    assert m in merges;
    var last := LatestExists(merges);
    forall k | k in all && k.number == g.number && k.state == Merged ensures k == last {
      assert k in merges;
      if k != last {
        forall o | o in all && o.number == g.number && o.state == Merged ensures o.time <= last.time {
          assert o in merges && NotBefore(last, o);
        }
        MergedOnce(all, answers, f, g, k, last);
      }
    }
    if forall o | o in all :: !Conflicts(Some(m), o) {
      forall o | o in rest ensures Apply(Some(m), o, Asked(answers, o.number)) == Some(m) { assert NotBefore(g, o); }
      Sticks(m, rest, answers);
    }
  }

  lemma EndDecides(all: set<Change>, answers: Option<int -> Answer>, f: Change, g: Change)
    requires EveryOrderEndsIn(all, answers, f) && IsLatest(all, g)
    ensures f !in all ==>
      answers.Some? && f == Resolved(g.number, answers.value(g.number)) && AnswerDecides(all, answers.value)
    ensures f in all ==> LatestDecides(all, answers, f)
  {
    hide EveryOrderEndsIn;
    var rest := StartsAt(all, answers, f, g);
    EndsAmong(all, answers, g, g, rest);
    if f in all {
      EndIsLatest(all, answers, f, g);
      forall x, y | x in all && y in all && x.number == f.number && Conflicts(Some(x), y)
        ensures GivesWay(x, answers, f)
      {
        EndGivesWay(all, answers, f, x, y);
      }
    } else {
      var o := LatestHasRival(all, answers, f, g);
      forall l | l in all && IsLatest(all, l)
        ensures l.number == g.number && ShouldApply(Some(l), Resolved(l.number, answers.value(l.number)), true)
      {
        assert NotBefore(l, g) && NotBefore(g, l);
        var o := LatestHasRival(all, answers, f, l);
      }
      forall m | m in all && m.number == g.number && m.state == Merged
        ensures answers.value(g.number).state == Merged && (exists o | o in all :: Conflicts(Some(m), o))
        ensures forall k | k in all && k.number == g.number && k.state == Merged :: k == m
      {
        MergeHasRival(all, answers, f, g, m);
      }
    }
  }

  // ----- when the order does not matter -----

  lemma LatestIsIn(all: set<Change>, answers: Option<int -> Answer>, e: Change)
    requires LatestDecides(all, answers, e)
    ensures e in all
  {}

  /** Every order ends in the event `e` exactly when `LatestDecides`. */
  lemma LatestEndsEveryOrder(all: set<Change>, answers: Option<int -> Answer>, e: Change)
    ensures e in all && EveryOrderEndsIn(all, answers, e) <==> LatestDecides(all, answers, e)
  {
    hide LatestDecides;
    if e in all && EveryOrderEndsIn(all, answers, e) {
      var g := LatestExists(all);
      EndDecides(all, answers, e, g);
    }
    if LatestDecides(all, answers, e) {
      assert Underway(all, answers, e, None);
      LatestIsIn(all, answers, e);
      forall events | Arrives(events, all) ensures FinalAsking(None, events, answers) == Some(e) {
        LatestWins(all, answers, e, None, events);
      }
    }
  }

  /** Every order ends in the answer, and no event carries it, exactly when `AnswerDecides`. */
  lemma AnswerEndsEveryOrder(all: set<Change>, lookup: int -> Answer, g: Change)
    requires IsLatest(all, g)
    ensures
      var r := Resolved(g.number, lookup(g.number));
      r !in all && EveryOrderEndsIn(all, Some(lookup), r) <==> AnswerDecides(all, lookup)
  {
    var r := Resolved(g.number, lookup(g.number));
    if r !in all && EveryOrderEndsIn(all, Some(lookup), r) {
      EndDecides(all, Some(lookup), r, g);
    }
    if AnswerDecides(all, lookup) {
      assert ShouldApply(Some(g), r, true);
      if r in all { assert NotBefore(g, r) && IsLatest(all, r); }
      forall events | Arrives(events, all) ensures FinalAsking(None, events, Some(lookup)) == Some(r) {
        AnswerWins(all, lookup, g, None, events);
      }
    }
  }

  /** With any lookup that always answers the same, or with none, the order of arrival does not matter exactly
      when the latest event or the answer decides. */
  lemma OrderMattersExactly(all: set<Change>, answers: Option<int -> Answer>)
    ensures OrderIndependent(all, answers) <==>
      || all == {}
      || (exists e | e in all :: LatestDecides(all, answers, e))
      || (answers.Some? && AnswerDecides(all, answers.value))
  {
    hide LatestDecides, AnswerDecides;
    if all == {} {
      forall a, b | Arrives(a, all) && Arrives(b, all) ensures a == [] && b == [] {
        EmptyOrNot(a);
        EmptyOrNot(b);
      }
    } else {
      var g := LatestExists(all);
      if OrderIndependent(all, answers) { OneEnd(all, answers, g); }
      forall e | e in all && LatestDecides(all, answers, e) ensures OrderIndependent(all, answers) {
        LatestEndsEveryOrder(all, answers, e);
      }
      if answers.Some? { AnswerEndsEveryOrder(all, answers.value, g); }
    }
  }

  lemma OneEnd(all: set<Change>, answers: Option<int -> Answer>, g: Change)
    requires OrderIndependent(all, answers) && IsLatest(all, g)
    ensures
      || (exists e | e in all :: LatestDecides(all, answers, e))
      || (answers.Some? && AnswerDecides(all, answers.value))
  {
    hide LatestDecides, AnswerDecides;
    var rest := Listing(all);
    assert Arrives([g] + rest, all) && ([g] + rest)[1..] == rest;
    AskingNeverGoesBack(g, rest, answers);
    var f := FinalAsking(None, [g] + rest, answers).value;
    EndDecides(all, answers, f, g);
  }

  /** The latest events of the latest pull request agree, and merging is not taken back there. */
  predicate Unambiguous(all: set<Change>) {
    forall e, o | e in all && o in all && IsLatest(all, e) && o.number == e.number ::
      (o.time == e.time ==> o.state == e.state) && (o.state == Merged ==> e.state == Merged)
  }

  /** Without a lookup the order of arrival does not matter exactly when the set is unambiguous. */
  lemma OrderMattersExactlyWhenAmbiguous(all: set<Change>)
    ensures OrderIndependent(all, None) <==> Unambiguous(all)
  {
    OrderMattersExactly(all, None);
    if all != {} {
      var g := LatestExists(all);
      if Unambiguous(all) { UnambiguousDecides(all, g); }
      forall e | e in all && LatestDecides(all, None, e) ensures Unambiguous(all) {
        DecidedIsUnambiguous(all, e);
      }
    }
  }

  lemma UnambiguousDecides(all: set<Change>, e: Change)
    requires Unambiguous(all) && IsLatest(all, e)
    ensures LatestDecides(all, None, e)
  {}

  lemma DecidedIsUnambiguous(all: set<Change>, e: Change)
    requires LatestDecides(all, None, e)
    ensures Unambiguous(all)
  {
    forall l, o | l in all && o in all && IsLatest(all, l) && o.number == l.number
      ensures (o.time == l.time ==> o.state == l.state) && (o.state == Merged ==> l.state == Merged)
    {
      assert NotBefore(l, e) && NotBefore(e, l);
      assert Conflicts(Some(l), o) || Conflicts(Some(l), e) ==> GivesWay(l, None, e);
    }
  }

  /** Then the end is the latest event. */
  lemma UnambiguousEndsInLatest(all: set<Change>, e: Change)
    requires Unambiguous(all) && IsLatest(all, e)
    ensures EveryOrderEndsIn(all, None, e)
  {
    UnambiguousDecides(all, e);
    LatestEndsEveryOrder(all, None, e);
  }

  /** An answer that tells the truth, the latest event, makes up for any two states at one instant. */
  lemma TruthfulAnswerEndsEveryOrder(all: set<Change>, lookup: int -> Answer, e: Change)
    requires IsLatest(all, e) && Resolved(e.number, lookup(e.number)) == e
    requires forall o | o in all && o.number == e.number && o.state == Merged :: e.state == Merged
    ensures EveryOrderEndsIn(all, Some(lookup), e)
  {
    LatestEndsEveryOrder(all, Some(lookup), e);
  }

  /** An answer older than the two states at one instant that it should tell apart leaves the order to matter. */
  lemma StaleAnswerLeavesTheOrder(x: Change, y: Change, lookup: int -> Answer)
    requires Conflicts(Some(x), y) && lookup(x.number).time < x.time
    ensures !OrderIndependent({x, y}, Some(lookup))
  {
    var all := {x, y};
    OrderMattersExactly(all, Some(lookup));
    forall e | e in all ensures !LatestDecides(all, Some(lookup), e) {
      assert !GivesWay(x, Some(lookup), e);
    }
    assert IsLatest(all, x);
  }

  // ----- orders of arrival, whatever is answered to each arrival -----

  function Changes(arrivals: seq<(Change, Option<Answer>)>): seq<Change> {
    seq(|arrivals|, i requires 0 <= i < |arrivals| => arrivals[i].0)
  }

  /** Every order of arrival, and every answer to each arrival, ends in the same record. */
  ghost predicate WhateverAnswers(all: set<Change>) {
    forall a, b | Arrives(Changes(a), all) && Arrives(Changes(b), all) :: FinalWith(None, a) == FinalWith(None, b)
  }

  /** No answer is ever needed at the greatest number, and merging is not taken back there. */
  predicate Clear(all: set<Change>) {
    && Unambiguous(all)
    && (forall e, x, y | e in all && x in all && y in all && IsLatest(all, e) && x.number == e.number ::
          !Conflicts(Some(x), y))
  }

  lemma ClearStep(all: set<Change>, e: Change, current: Record, o: Change, answer: Option<Answer>)
    requires Clear(all) && IsLatest(all, e) && o in all
    requires current.Some? ==> current.value.number < e.number || current.value in all
    ensures
      var next := Apply(current, o, answer);
      && (next.Some? ==> next.value.number < e.number || next.value in all)
      && (current == Some(e) || o == e ==> next == Some(e))
  {
    assert NotBefore(e, o);
    if current.Some? && current.value in all {
      assert NotBefore(e, current.value);
      assert current.value.number == e.number ==> !Conflicts(current, o);
    }
  }

  lemma {:induction false} ClearWins(
    all: set<Change>, e: Change, current: Record, arrivals: seq<(Change, Option<Answer>)>)
    requires Clear(all) && IsLatest(all, e) && forall o | o in Changes(arrivals) :: o in all
    requires current.Some? ==> current.value.number < e.number || current.value in all
    requires current == Some(e) || e in Changes(arrivals)
    ensures FinalWith(current, arrivals) == Some(e)
    decreases arrivals
  {
    hide Clear, IsLatest, Apply;
    if arrivals != [] {
      assert Changes(arrivals) == [arrivals[0].0] + Changes(arrivals[1..]);
      ClearStep(all, e, current, arrivals[0].0, arrivals[0].1);
      ClearWins(all, e, Apply(current, arrivals[0].0, arrivals[0].1), arrivals[1..]);
    }
  }

  /** Then the end is the latest event. */
  lemma ClearEndsInLatest(all: set<Change>, e: Change, arrivals: seq<(Change, Option<Answer>)>)
    requires Clear(all) && IsLatest(all, e) && Arrives(Changes(arrivals), all)
    ensures FinalWith(None, arrivals) == Some(e)
  {
    ClearWins(all, e, None, arrivals);
  }

  lemma ChangesOfPaired(events: seq<Change>, answers: Option<int -> Answer>)
    ensures Changes(Paired(events, answers)) == events
  {}

  /** Otherwise an answer that moves one of two rivals ahead of everything makes a difference. */
  lemma AnswersCanMatter(all: set<Change>, e: Change, x: Change, y: Change)
    requires WhateverAnswers(all) && IsLatest(all, e)
    requires x in all && y in all && x.number == e.number
    ensures !Conflicts(Some(x), y)
  {
    var listing := Listing(all);
    var rest := Paired(listing, None);
    ChangesOfPaired(listing, None);
    var r := Change(x.number, Merged, e.time + 1.0);
    var ahead, plain := [(x, None), (y, Some(Answer(r.state, r.time)))] + rest, [(e, None)] + rest;
    assert Changes(ahead) == [x, y] + listing && Changes(plain) == [e] + listing;
    EarlyRun(e, rest);
    if Conflicts(Some(x), y) {
      assert NotBefore(e, x);
      AheadRun(x, y, r, rest);
      RunsNeverGoBack(r, rest);
      AskingIsWith(Some(e), listing, None);
      EndsAmong(all, None, e, e, listing);
    }
  }

  lemma EarlyRun(e: Change, rest: seq<(Change, Option<Answer>)>)
    ensures FinalWith(None, [(e, None)] + rest) == FinalWith(Some(e), rest)
  {
    assert ([(e, None)] + rest)[1..] == rest;
  }

  lemma AheadRun(x: Change, y: Change, r: Change, rest: seq<(Change, Option<Answer>)>)
    requires Conflicts(Some(x), y) && r.number == x.number && r.state == Merged && x.time < r.time
    ensures FinalWith(None, [(x, None), (y, Some(Answer(r.state, r.time)))] + rest) == FinalWith(Some(r), rest)
  {
    var ahead := [(x, None), (y, Some(Answer(r.state, r.time)))] + rest;
    assert ahead[1..][1..] == rest;
    assert FinalWith(None, ahead) == FinalWith(Some(x), ahead[1..]);
    assert FinalWith(Some(x), ahead[1..]) == FinalWith(Some(r), ahead[1..][1..]);
  }

  /** Neither the order nor the answer given to each arrival matters exactly when the listing is clear. */
  lemma AnswersNeverMatterExactlyWhenClear(all: set<Change>)
    ensures WhateverAnswers(all) <==> Clear(all)
  {
    hide FinalWith, Unambiguous, IsLatest, Conflicts;
    if WhateverAnswers(all) {
      forall a, b | Arrives(a, all) && Arrives(b, all)
        ensures FinalAsking(None, a, None) == FinalAsking(None, b, None)
      {
        ChangesOfPaired(a, None);
        ChangesOfPaired(b, None);
        AskingIsWith(None, a, None);
        AskingIsWith(None, b, None);
      }
      OrderMattersExactlyWhenAmbiguous(all);
      forall e, x, y | e in all && x in all && y in all && IsLatest(all, e) && x.number == e.number
        ensures !Conflicts(Some(x), y)
      {
        AnswersCanMatter(all, e, x, y);
      }
    } else if Clear(all) {
      ClearIsWhatever(all);
    }
  }

  lemma ClearIsWhatever(all: set<Change>)
    requires Clear(all)
    ensures WhateverAnswers(all)
  {
    hide FinalWith, Clear;
    forall a, b | Arrives(Changes(a), all) && Arrives(Changes(b), all) ensures FinalWith(None, a) == FinalWith(None, b) {
      if all != {} {
        var e := LatestExists(all);
        ClearEndsInLatest(all, e, a);
        ClearEndsInLatest(all, e, b);
      } else {
        EmptyOrNot(Changes(a));
        EmptyOrNot(Changes(b));
        assert a == [] && b == [];
      }
    }
  }

  /** In particular: a listing without a change after a merge, and without two states at one instant of a pull
      request, ends in its latest event in every order and whatever is answered. */
  lemma TidyHistoriesEndInLatest(all: set<Change>, e: Change, arrivals: seq<(Change, Option<Answer>)>)
    requires forall x, y | x in all && y in all && x.number == y.number && y.state == Merged && x.state != Merged ::
      x.time < y.time
    requires forall x, y | x in all && y in all && x.number == y.number && x.time == y.time :: x.state == y.state
    requires IsLatest(all, e) && Arrives(Changes(arrivals), all)
    ensures FinalWith(None, arrivals) == Some(e)
  {
    hide Arrives, FinalWith;
    forall l, o | l in all && o in all && IsLatest(all, l) && o.number == l.number
      ensures (o.time == l.time ==> o.state == l.state) && (o.state == Merged ==> l.state == Merged)
    {
      assert NotBefore(l, o);
    }
    ClearEndsInLatest(all, e, arrivals);
  }
}
