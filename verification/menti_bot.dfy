/** `MentiStateStore` and `MentiBot` as objects, and the text of a grade notification. */
module MentiBot {
  import opened Text
  import opened Decimals
  import opened Leases
  import opened Results
  import opened Tables
  import opened Store
  import P = Pipeline
  import B = MentorBot

  class MentiStateStore {
    var processed: set<nat>
    var talk: Option<B.Conversation>

    constructor ()
      ensures processed == {} && talk == None
    {
      processed, talk := {}, None;
    }

    method MarkProcessed(id: nat)
      modifies this`processed
      ensures processed == old(processed) + {id}
    {
      processed := processed + {id};
    }

    method Activate(conversation: B.Conversation)
      modifies this`talk
      ensures talk == Some(conversation.(active := true))
    {
      talk := Some(conversation.(active := true));
    }

    method Pause() returns (paused: bool)
      modifies this`talk
      ensures paused == (old(talk).Some? && old(talk).value.active)
      ensures talk == if old(talk).Some? then Some(old(talk).value.(active := false)) else None
    {
      paused := talk.Some? && talk.value.active;
      if paused { talk := Some(talk.value.(active := false)); }
    }

    method ClearExact(conversation: B.Conversation) returns (cleared: bool)
      modifies this`talk
      ensures cleared ==
        (old(talk).Some? && old(talk).value.nonce == conversation.nonce && old(talk).value.revision == conversation.revision
         && old(talk).value.prompt == conversation.prompt)
      ensures talk == if cleared then None else old(talk)
    {
      cleared := talk.Some? && talk.value.nonce == conversation.nonce && talk.value.revision == conversation.revision
        && talk.value.prompt == conversation.prompt;
      if cleared { talk := None; }
    }
  }

  class MentiBot {
    const store: GraderStore
    const state: MentiStateStore

    constructor (store: GraderStore, state: MentiStateStore)
      ensures this.store == store && this.state == state
    {
      this.store, this.state := store, state;
    }

    /** The bot's databases and the grading tables, seen as a state of the machine in `MentorBot`. */
    ghost function Seen(pipe: P.State): B.State
      reads state
    {
      B.State(state.processed, state.talk, pipe)
    }

    /** Handles one update without interruption. `prompt` is the number of the message it may send. */
    method HandleUpdate(now: real, u: B.Update, prompt: int, ghost c: P.Config, ghost pipe: P.State)
      returns (status: string)
      requires pipe.a == store.Authoring() && pipe.clock == now
      modifies store`jobs, store`clarifications, state
      ensures
        var t := B.Handle(c, old(Seen(pipe)), u, prompt);
        state.processed == t.processed && state.talk == t.conversation && store.Authoring() == t.pipe.a
    {
      hide P.Step, B.DoAll, Tables.AnswerClarification, Utf8Length, StripBy;
      ghost var s := Seen(pipe);
      ghost var effects := B.EffectsOf(s, u, prompt);
      B.DoFour(c, s, effects);
      if u.id.None? { return "invalid"; }
      var id := u.id.value;
      if id in state.processed { return "duplicate"; }
      if !u.authorized {
        state.MarkProcessed(id);
        return "ignored";
      }
      if u.text == Some("/cancel") {
        var _ := state.Pause();
        state.MarkProcessed(id);
        return "paused";
      }
      var talk := state.talk;
      if u.text == Some("/start") {
        state.MarkProcessed(id);
        if talk.None? { return "idle"; }
        state.Activate(talk.value.(prompt := prompt));
        return "resumed";
      }
      if talk.None? || !talk.value.active {
        state.MarkProcessed(id);
        return "expired";
      }
      if u.replyTo != Some(talk.value.prompt) {
        state.MarkProcessed(id);
        return "stale";
      }
      if !B.Usable(u.text) {
        state.MarkProcessed(id);
        return "invalid-answer";
      }
      status := Reply(now, id, u, talk.value, prompt, c, pipe);
    }

    method Reply(now: real, id: nat, u: B.Update, talk: B.Conversation, prompt: int, ghost c: P.Config,
        ghost pipe: P.State)
      returns (status: string)
      requires pipe.a == store.Authoring() && pipe.clock == now && state.talk == Some(talk)
      requires u.id == Some(id) && B.Usable(u.text)
      requires
        B.PlanFor(B.State(state.processed, state.talk, pipe), u) ==
          if '\0' in Strip(u.text.value) then B.Raises else B.Plan.Reply(talk, Strip(u.text.value))
      modifies store`jobs, store`clarifications, state
      ensures
        var t := B.Handle(c, B.State(old(state.processed), old(state.talk), pipe), u, prompt);
        state.processed == t.processed && state.talk == t.conversation && store.Authoring() == t.pipe.a
    {
      hide P.Step, B.DoAll, Tables.AnswerClarification, StripBy, B.PlanFor, Utf8Length, BoundedText;
      ghost var s := B.State(state.processed, state.talk, pipe);
      B.DoFour(c, s, B.EffectsOf(s, u, prompt));
      var text := Strip(u.text.value);
      var accepted := store.AnswerClarification(talk.nonce, talk.revision, text, now);
      if '\0' in text {
        RefusedAnswer(pipe.a, talk.nonce, talk.revision, text, now);
        return "raised";
      }
      B.ReplyIsBounded(s, u);
      B.AnswerStep(c, pipe, talk.nonce, talk.revision, text);
      state.MarkProcessed(id);
      var _ := state.ClearExact(talk);
      status := if accepted == Success(true) then "answered" else "expired";
    }
  }

  lemma RefusedAnswer(a: AuthoringTables, nonce: string, revision: int, text: string, now: real)
    requires '\0' in text
    ensures AnswerClarification(a, nonce, revision, text, now) == (a, Failure(InvalidValue))
  {}

  // ----- the notification text -----

  const BULLET := "• "
  const CUT := "• …"
  const LONGEST := 3_400

  function Join(lines: seq<string>): string {
    if lines == [] then "" else if |lines| == 1 then lines[0] else lines[0] + "\n" + Join(lines[1..])
  }

  /** `" ".join(s.split())`; `inWord` says that a word has just been read. */
  function Squeezed(s: string, inWord: bool, started: bool): string {
    if s == "" then ""
    else if IsSpace(s[0]) then Squeezed(s[1..], false, started)
    else (if started && !inWord then " " else "") + [s[0]] + Squeezed(s[1..], true, true)
  }

  function Bullet(item: ReportRubric): string { BULLET + Squeezed(item.description, false, false) }

  function Bullets(items: seq<ReportRubric>): seq<string> { seq(|items|, i requires 0 <= i < |items| => Bullet(items[i])) }

  /** The lines end with all the items, or with as many as fit and a mark that some were cut. */
  predicate Lists(lines: seq<string>, header: seq<string>, items: seq<ReportRubric>, shown: nat) {
    && shown <= |items|
    && lines == header + Bullets(items[..shown]) + (if shown < |items| then [CUT] else [])
    && (forall k | 0 < k <= shown :: |Join(header + Bullets(items[..k]))| <= LONGEST)
    && (shown < |items| ==> LONGEST < |Join(header + Bullets(items[..shown + 1]))|)
  }

  lemma OneMoreBullet(items: seq<ReportRubric>, k: nat)
    requires k < |items|
    ensures Bullets(items[..k + 1]) == Bullets(items[..k]) + [Bullet(items[k])]
  {}

  /** Adds the failed items while the text stays short enough. */
  method ListItems(header: seq<string>, items: seq<ReportRubric>) returns (lines: seq<string>)
    ensures exists shown: nat :: Lists(lines, header, items, shown)
  {
    hide Squeezed, Join;
    lines := header;
    var i := 0;
    assert Bullets(items[..0]) == [];
    while i < |items|
      invariant 0 <= i <= |items|
      invariant lines == header + Bullets(items[..i])
      invariant forall k | 0 < k <= i :: |Join(header + Bullets(items[..k]))| <= LONGEST
    {
      var candidate := Bullet(items[i]);
      OneMoreBullet(items, i);
      assert lines + [candidate] == header + Bullets(items[..i + 1]);
      if LONGEST < |Join(lines + [candidate])| {
        lines := lines + [CUT];
        assert Lists(lines, header, items, i);
        return;
      }
      lines := lines + [candidate];
      i := i + 1;
    }
    assert Lists(lines, header, items, i);
  }

  lemma {:induction false} JoinAdds(lines: seq<string>, line: string)
    ensures lines != [] ==> |Join(lines + [line])| == |Join(lines)| + 1 + |line|
    decreases lines
  {
    if 1 < |lines| {
      assert (lines + [line])[1..] == lines[1..] + [line];
      JoinAdds(lines[1..], line);
    } else if |lines| == 1 {
      assert (lines + [line])[1..] == [line];
    }
  }

  /** However many items failed and however long their descriptions, a list that starts short enough
      stays within the limit plus the mark. */
  lemma ListStaysShort(lines: seq<string>, header: seq<string>, items: seq<ReportRubric>, shown: nat)
    requires Lists(lines, header, items, shown) && header != [] && |Join(header)| <= LONGEST
    ensures |Join(lines)| <= LONGEST + 1 + |CUT|
  {
    hide Join;
    var fitting := header + Bullets(items[..shown]);
    if shown == 0 { assert fitting == header; }
    assert |Join(fitting)| <= LONGEST;
    if shown < |items| {
      JoinAdds(fitting, CUT);
    } else {
      assert lines == fitting;
    }
  }

  function Heading(taskId: string, passed: nat, total: nat): seq<string> {
    [taskId + " — hidden grade", "Пройдено: " + Decimal(passed) + "/" + Decimal(total)]
  }

  const SOME_FAILED := "Не пройдены категории поведения:"
  const ALL_PASSED := "Все категории поведения пройдены."
  const COMMIT := "Commit: "
  const DELIVERY := "Попытка доставки: "

  /** The lines before the commit: the task and the counts; then either that everything passed, or the failed
      items in their order, as many as fit. */
  ghost predicate Tells(lines: seq<string>, taskId: string, report: Report)
    requires 0 <= report.passed <= report.total
  {
    var heading := Heading(taskId, report.passed, report.total);
    if report.failedRubrics == [] then lines == heading + [ALL_PASSED]
    else exists shown: nat :: Lists(lines, heading + [SOME_FAILED], report.failedRubrics, shown)
  }

  function Footer(commit: string, attempts: nat): seq<string> {
    [COMMIT + if |commit| <= 12 then commit else commit[..12], DELIVERY + Decimal(attempts)]
  }

  /** The message for the mentor, or nothing if the counts of the report make no sense. It tells the counts, the
      verdict and the failed items of this report, with the commit. For a task ID of at most twelve characters and
      numbers of at most nine digits it never exceeds the 4096 characters that Telegram accepts, whatever failed. */
  method FormatNotification(taskId: string, commit: string, attempts: nat,
      report: Report) returns (text: Option<string>)
    ensures text.Some? <==> 0 <= report.passed <= report.total
    ensures text.Some? ==>
      exists lines :: Tells(lines, taskId, report) && text.value == Join(lines + Footer(commit, attempts))
    ensures text.Some? && |taskId| <= 12 && report.total < Pow10(9) && attempts < Pow10(9) ==> |text.value| <= 4_096
  {
    hide Join, Decimal, Pow10, Squeezed;
    if !(0 <= report.passed <= report.total) { return None; }
    var heading := [taskId + " — hidden grade", "Пройдено: " + Decimal(report.passed) + "/" + Decimal(report.total)];
    assert heading == Heading(taskId, report.passed, report.total);
    var lines: seq<string>;
    if report.failedRubrics != [] {
      lines := ListItems(heading + [SOME_FAILED], report.failedRubrics);
      ghost var shown: nat :| Lists(lines, heading + [SOME_FAILED], report.failedRubrics, shown);
      if |taskId| <= 12 && report.total < Pow10(9) {
        HeadingIsShort(taskId, report.passed, report.total, SOME_FAILED);
        ListStaysShort(lines, heading + [SOME_FAILED], report.failedRubrics, shown);
      }
    } else {
      lines := heading + [ALL_PASSED];
      if |taskId| <= 12 && report.total < Pow10(9) { HeadingIsShort(taskId, report.passed, report.total, ALL_PASSED); }
    }
    var short := if |commit| <= 12 then commit else commit[..12];
    JoinAdds(lines, COMMIT + short);
    JoinAdds(lines + [COMMIT + short], DELIVERY + Decimal(attempts));
    DecimalLength(attempts, 9);
    assert Tells(lines, taskId, report);
    assert Footer(commit, attempts) == [COMMIT + short, DELIVERY + Decimal(attempts)];
    assert lines + [COMMIT + short, DELIVERY + Decimal(attempts)] == (lines + [COMMIT + short]) + [DELIVERY + Decimal(attempts)];
    text := Some(Join(lines + [COMMIT + short, DELIVERY + Decimal(attempts)]));
  }

  lemma HeadingIsShort(taskId: string, passed: nat, total: nat, last: string)
    requires |taskId| <= 12 && passed <= total < Pow10(9) && |last| <= 40
    ensures |Join(Heading(taskId, passed, total) + [last])| <= 200
  {
    hide Join, Decimal, Pow10;
    var h := Heading(taskId, passed, total);
    DecimalLength(passed, 9);
    DecimalLength(total, 9);
    JoinAdds([h[0]], h[1]);
    JoinAdds(h, last);
    assert h == [h[0]] + [h[1]];
    JoinOne(h[0]);
  }

  lemma JoinOne(line: string)
    ensures Join([line]) == line
  {}
}
