/** Suite results, the acceptance decision on the pinned starter, and the grade summary. */
module Results {
  import opened Text
  import opened Decimals
  import opened Contracts

  datatype CaseResult = CaseResult(
    caseId: string, rubricId: string, passed: bool, failures: seq<string>, digest: Option<string>)

  datatype SuiteResult = SuiteResult(cases: seq<CaseResult>) {
    predicate Passed() { forall c | c in cases :: c.passed }
  }

  // ----- StarterFailureGate -----

  predicate IsProtocolFailure(failure: string) {
    || failure == "student process exited before producing a result"
    || failure == "student process produced an invalid result envelope"
  }

  /** `_complete`: the same cases in the same order, and failures exactly on failed cases. */
  predicate IsComplete(result: SuiteResult, suite: SuiteDraft) {
    && |result.cases| == |suite.cases|
    && (forall i | 0 <= i < |suite.cases| ::
          result.cases[i].caseId == suite.cases[i].caseId && result.cases[i].rubricId == suite.cases[i].rubricId)
    && (forall c | c in result.cases :: (c.failures != []) != c.passed)
  }

  predicate FailsOnlyByProtocol(c: CaseResult) {
    c.failures != [] && forall f | f in c.failures :: IsProtocolFailure(f)
  }

  /** What `validate` accepts: two complete equal runs that expose a defect in the starter. */
  predicate DetectsDefect(first: SuiteResult, second: SuiteResult, suite: SuiteDraft) {
    && IsComplete(first, suite) && IsComplete(second, suite)
    && first == second
    && exists c | c in first.cases :: !c.passed && !FailsOnlyByProtocol(c)
  }

  /** The decision of `validate` on its two runs, branch by branch; `None` is acceptance. */
  function GateVerdict(first: SuiteResult, second: SuiteResult, suite: SuiteDraft): (reason: Option<string>)
    ensures reason.None? <==> DetectsDefect(first, second, suite)
    ensures reason.Some? ==> reason.value != ""
  {
    if !IsComplete(first, suite) || !IsComplete(second, suite) then
      Some("executor did not return a complete suite report")
    else if first != second then
      Some("suite result is not deterministic across repeated runs")
    else if first.Passed() then
      Some("suite does not detect a defect in the pinned starter")
    else if forall c | c in first.cases && !c.passed :: FailsOnlyByProtocol(c) then
      Some("all starter failures are executor protocol failures")
    else None
  }

  // ----- grade summary -----

  datatype ReportRubric = ReportRubric(id: string, description: string)

  datatype Report = Report(passed: int, total: int, failedRubrics: seq<ReportRubric>)

  /** The conditions `complete_grading` puts on the counts. */
  predicate CountsValid(passed: bool, passedCount: int, totalCount: int) {
    0 < totalCount && 0 <= passedCount <= totalCount && passed == (passedCount == totalCount)
  }

  predicate ReportRubricValid(item: ReportRubric) {
    && |item.id| <= 64 && IsKey(item.id)
    && Strip(item.description) != "" && |item.description| <= 500 && '\0' !in item.description
  }

  /** `_canonical_private_report`, on the decoded report. */
  predicate ReportValid(r: Report) {
    && 0 < r.total && 0 <= r.passed <= r.total
    && |r.failedRubrics| <= 20
    && (forall item | item in r.failedRubrics :: ReportRubricValid(item))
    && (forall i, j | 0 <= i < j < |r.failedRubrics| :: r.failedRubrics[i].id != r.failedRubrics[j].id)
  }

  /** A case ID with its rubric ID. */
  datatype Entry = Entry(id: string, rubric: string)

  function CaseEntries(cases: seq<GraderCase>): (e: seq<Entry>)
    ensures |e| == |cases|
  {
    seq(|cases|, i requires 0 <= i < |cases| => Entry(cases[i].caseId, cases[i].rubricId))
  }

  function ResultEntries(cases: seq<CaseResult>): (e: seq<Entry>)
    ensures |e| == |cases|
  {
    seq(|cases|, i requires 0 <= i < |cases| => Entry(cases[i].caseId, cases[i].rubricId))
  }

  ghost predicate UniqueIds(e: seq<Entry>) { forall i, j | 0 <= i < j < |e| :: e[i].id != e[j].id }

  /** The result reports the suite's cases, each once and with the suite's rubric ID. */
  ghost predicate Matches(suite: SuiteDraft, result: SuiteResult) {
    var observed, wanted := ResultEntries(result.cases), CaseEntries(suite.cases);
    UniqueIds(observed) && forall x :: x in observed <==> x in wanted
  }

  /** The dictionary of a comprehension: a later entry replaces an earlier one. */
  function DictOf(e: seq<Entry>): map<string, string> {
    if e == [] then map[] else DictOf(e[..|e| - 1])[e[|e| - 1].id := e[|e| - 1].rubric]
  }

  function PassedCount(cases: seq<CaseResult>): nat {
    if cases == [] then 0
    else PassedCount(cases[..|cases| - 1]) + (if cases[|cases| - 1].passed then 1 else 0)
  }

  function RubricLine(position: nat): ReportRubric {
    ReportRubric("criterion-" + Decimal(position), "Критерий задания " + Decimal(position) + ".")
  }

  function FailedIds(cases: seq<CaseResult>): set<string> {
    set c | c in cases && !c.passed :: c.rubricId
  }

  /** The failed rubric items among the first ones, in rubric order and numbered from 1. */
  function FailedLines(rubric: seq<RubricItem>, failed: set<string>): (lines: seq<ReportRubric>)
    ensures |lines| <= |rubric|
    ensures forall line | line in lines ::
      exists p | 1 <= p <= |rubric| :: line == RubricLine(p) && rubric[p - 1].rubricId in failed
  {
    if rubric == [] then []
    else
      FailedLines(rubric[..|rubric| - 1], failed)
      + (if rubric[|rubric| - 1].rubricId in failed then [RubricLine(|rubric|)] else [])
  }

  /** `_summarize`; `None` is the error for an incomplete or mismatched report. */
  function Summarize(suite: SuiteDraft, result: SuiteResult): Option<Report> {
    var observed := DictOf(ResultEntries(result.cases));
    if |observed| != |result.cases| || observed != DictOf(CaseEntries(suite.cases)) then None
    else
      Some(Report(PassedCount(result.cases), |result.cases|, FailedLines(suite.rubric, FailedIds(result.cases))))
  }

  // ----- facts about accepted suites -----

  /** What the parser guarantees about a ready draft and the summary relies on. */
  ghost predicate ReadySuite(d: SuiteDraft) {
    && d.status.Ready? && d.cases != [] && |d.rubric| <= 20
    && (forall c | c in d.cases :: c.rubricId in RubricIds(d.rubric))
    && UniqueIds(CaseEntries(d.cases))
  }

  /** Every ready draft that the parser accepts is such a suite. */
  lemma ParsedReadySuite(v: Json.Value, size: Sizer, d: SuiteDraft)
    requires Parse(v, size) == Some(d) && d.status.Ready?
    ensures ReadySuite(d)
  {
    hide CasesFrom, RubricIds, ParseHeader, Vocabulary.Name;
    assert AcceptedAs(v, size, d);
    ParsedCases(v.fields[Vocabulary.Name(Vocabulary.KCases)], RubricIds(d.rubric), size, d.cases);
  }

  lemma ParsedCases(v: Json.Value, rubricIds: set<string>, size: Sizer, r: seq<GraderCase>)
    requires CasesFrom(v, rubricIds, size, r)
    ensures forall c | c in r :: c.rubricId in rubricIds
    ensures UniqueIds(CaseEntries(r))
  {
    hide ParseCase;
    forall i | 0 <= i < |r| ensures r[i].rubricId in rubricIds {
      assert CaseParser(rubricIds, size)(v.items[i]) == Some(r[i]);
      ParsedCaseRubric(v.items[i], rubricIds, size);
    }
    assert forall i, j | 0 <= i < j < |r| :: CaseKey(r[i]) != CaseKey(r[j]);
  }

  lemma ParsedCaseRubric(v: Json.Value, rubricIds: set<string>, size: Sizer)
    requires ParseCase(v, rubricIds, size).Some?
    ensures ParseCase(v, rubricIds, size).value.rubricId in rubricIds
  {
    hide ParseKey, ParseTarget, ParseAdapter, IsCaseBody, Vocabulary.Name;
  }

  // ----- comparing dictionaries compares entries -----

  ghost function Ids(e: seq<Entry>): set<string> { set x | x in e :: x.id }

  lemma {:induction false} DictKeys(e: seq<Entry>)
    ensures DictOf(e).Keys == Ids(e)
    ensures |DictOf(e)| <= |e|
    ensures UniqueIds(e) <==> |DictOf(e)| == |e|
  {
    hide UniqueIds;
    if e == [] {
      EmptyUnique();
    } else {
      var n := |e| - 1;
      var before := e[..n];
      DictKeys(before);
      assert e == before + [e[n]];
      UniqueIdsExtend(before, e[n]);
      OneMoreKey(DictOf(before), e[n].id, e[n].rubric);
      IdsExtend(before, e[n]);
      assert DictOf(e) == DictOf(before)[e[n].id := e[n].rubric];
    }
  }

  lemma OneMoreKey(m: map<string, string>, k: string, v: string)
    ensures m[k := v].Keys == m.Keys + {k} && |m[k := v]| == |m| + if k in m then 0 else 1
  {
    assert |m[k := v].Keys| == |m.Keys| + (if k in m then 0 else 1) by {
      if k in m { assert m[k := v].Keys == m.Keys; }
    }
  }

  lemma IdsExtend(e: seq<Entry>, x: Entry)
    ensures Ids(e + [x]) == Ids(e) + {x.id}
    ensures x.id in Ids(e) <==> exists y | y in e :: y.id == x.id
  {}

  lemma EmptyUnique()
    ensures UniqueIds([])
  {}

  lemma {:induction false} DictItems(e: seq<Entry>)
    requires UniqueIds(e)
    ensures forall x | x in e :: x.id in DictOf(e) && DictOf(e)[x.id] == x.rubric
    ensures forall k | k in DictOf(e) :: Entry(k, DictOf(e)[k]) in e
  {
    hide UniqueIds;
    if e != [] {
      var n := |e| - 1;
      var before := e[..n];
      assert e == before + [e[n]];
      UniqueIdsExtend(before, e[n]);
      DictItems(before);
    }
  }

  lemma UniqueIdsExtend(e: seq<Entry>, x: Entry)
    ensures UniqueIds(e + [x]) <==> UniqueIds(e) && forall y | y in e :: y.id != x.id
  {
    var f := e + [x];
    if UniqueIds(f) {
      forall i, j | 0 <= i < j < |e| ensures e[i].id != e[j].id { assert f[i].id != f[j].id; }
      forall i | 0 <= i < |e| ensures e[i].id != x.id { assert f[i].id != f[|e|].id; }
    }
  }

  lemma SameDictionary(a: seq<Entry>, b: seq<Entry>)
    requires UniqueIds(a) && UniqueIds(b)
    ensures DictOf(a) == DictOf(b) <==> forall x :: x in a <==> x in b
    ensures DictOf(a) == DictOf(b) ==> |a| == |b|
  {
    hide UniqueIds;
    DictKeys(a);
    DictKeys(b);
    DictItems(a);
    DictItems(b);
    if DictOf(a) == DictOf(b) {
      forall x | x in a ensures x in b { assert Entry(x.id, DictOf(b)[x.id]) == x; }
      forall x | x in b ensures x in a { assert Entry(x.id, DictOf(a)[x.id]) == x; }
    }
    if forall x :: x in a <==> x in b {
      assert DictOf(a).Keys == DictOf(b).Keys;
      forall k | k in DictOf(a) ensures DictOf(a)[k] == DictOf(b)[k] { assert Entry(k, DictOf(a)[k]) in b; }
    }
  }

  lemma {:induction false} AllPassedCount(cases: seq<CaseResult>)
    ensures PassedCount(cases) <= |cases|
    ensures PassedCount(cases) == |cases| <==> forall c | c in cases :: c.passed
  {
    if cases != [] {
      var n := |cases| - 1;
      AllPassedCount(cases[..n]);
      assert cases == cases[..n] + [cases[n]];
    }
  }

  lemma {:induction false} FailedLinesComplete(rubric: seq<RubricItem>, failed: set<string>)
    ensures FailedLines(rubric, failed) == [] <==> forall i | 0 <= i < |rubric| :: rubric[i].rubricId !in failed
    ensures forall i, j | 0 <= i < j < |FailedLines(rubric, failed)| ::
      FailedLines(rubric, failed)[i].id != FailedLines(rubric, failed)[j].id
  {
    if rubric != [] {
      var n := |rubric| - 1;
      var before := FailedLines(rubric[..n], failed);
      FailedLinesComplete(rubric[..n], failed);
      if rubric[n].rubricId in failed {
        forall line | line in before ensures line.id != RubricLine(n + 1).id {
          var p :| 1 <= p <= n && line == RubricLine(p);
          RubricLinesDiffer(p, n + 1);
        }
      }
    }
  }

  lemma RubricLinesDiffer(p: nat, q: nat)
    requires p != q
    ensures RubricLine(p).id != RubricLine(q).id
  {
    ReadDecimal(p);
    ReadDecimal(q);
    assert RubricLine(p).id[10..] == Decimal(p);
    assert RubricLine(q).id[10..] == Decimal(q);
  }

  lemma RubricLineValid(p: nat)
    requires 1 <= p <= 20
    ensures ReportRubricValid(RubricLine(p))
  {
    hide IsKey, IsSpace;
    var digits := Decimal(p);
    DigitsAreKey(digits);
    assert IsKey("criterion") && '\0' !in "Критерий задания " && !IsSpace('К') && !IsSpace('.') by { LiteralFacts(); }
    KeyJoin("criterion", digits);
    assert RubricLine(p).id == "criterion" + "-" + digits;
    StripKeeps(RubricLine(p).description);
    assert '\0' !in digits by {
      forall i | 0 <= i < |digits| ensures digits[i] != '\0' { assert digits[i] in digits; }
    }
  }

  lemma LiteralFacts()
    ensures IsKey("criterion") && '\0' !in "Критерий задания "
    ensures !IsSpace('К') && !IsSpace('.')
  {}

  lemma SummaryExists(suite: SuiteDraft, result: SuiteResult)
    requires ReadySuite(suite)
    ensures Summarize(suite, result).Some? <==> Matches(suite, result)
    ensures Summarize(suite, result).Some? ==> |result.cases| == |suite.cases|
  {
    hide UniqueIds, FailedLines, FailedIds;
    var observed, wanted := ResultEntries(result.cases), CaseEntries(suite.cases);
    DictKeys(observed);
    if UniqueIds(observed) { SameDictionary(observed, wanted); }
  }

  /** The failed result of a matching report belongs to a case, and so to a rubric item. */
  lemma ResultHasCase(suite: SuiteDraft, result: SuiteResult, i: nat) returns (k: nat)
    requires Matches(suite, result) && i < |result.cases|
    ensures k < |suite.cases|
    ensures suite.cases[k].caseId == result.cases[i].caseId && suite.cases[k].rubricId == result.cases[i].rubricId
  {
    hide UniqueIds;
    var entry := ResultEntries(result.cases)[i];
    assert entry in CaseEntries(suite.cases);
    k :| 0 <= k < |suite.cases| && CaseEntries(suite.cases)[k] == entry;
  }

  lemma CaseHasResult(suite: SuiteDraft, result: SuiteResult, k: nat) returns (i: nat)
    requires Matches(suite, result) && k < |suite.cases|
    ensures i < |result.cases| && suite.cases[k].caseId == result.cases[i].caseId
  {
    hide UniqueIds;
    var entry := CaseEntries(suite.cases)[k];
    assert entry in ResultEntries(result.cases);
    i :| 0 <= i < |result.cases| && ResultEntries(result.cases)[i] == entry;
  }

  /** The report gives the case with ID `id` as passed. */
  ghost predicate ReportedPassed(result: SuiteResult, id: string) {
    exists r | r in result.cases :: r.caseId == id && r.passed
  }

  lemma AllPassedMeansAllCasesPassed(suite: SuiteDraft, result: SuiteResult)
    requires Matches(suite, result)
    ensures result.Passed() <==> forall c | c in suite.cases :: ReportedPassed(result, c.caseId)
  {
    if result.Passed() {
      forall k | 0 <= k < |suite.cases| ensures ReportedPassed(result, suite.cases[k].caseId) {
        var i := CaseHasResult(suite, result, k);
        assert result.cases[i] in result.cases;
      }
    } else {
      var i :| 0 <= i < |result.cases| && !result.cases[i].passed;
      var k := ResultHasCase(suite, result, i);
      assert suite.cases[k] in suite.cases;
      assert !ReportedPassed(result, suite.cases[k].caseId) by {
        forall j | 0 <= j < |result.cases| && result.cases[j].caseId == result.cases[i].caseId
          ensures !result.cases[j].passed
        {
          var e := ResultEntries(result.cases);
          assert e[i].id == e[j].id;
          assert !(i < j) && !(j < i);
        }
      }
    }
  }

  lemma NoFailedLinesMeansPassed(suite: SuiteDraft, result: SuiteResult)
    requires ReadySuite(suite) && Matches(suite, result)
    ensures result.Passed() <==> FailedLines(suite.rubric, FailedIds(result.cases)) == []
  {
    hide UniqueIds, FailedLines;
    var failed := FailedIds(result.cases);
    FailedLinesComplete(suite.rubric, failed);
    if !result.Passed() {
      var i :| 0 <= i < |result.cases| && !result.cases[i].passed;
      var k := ResultHasCase(suite, result, i);
      assert suite.cases[k] in suite.cases;
      assert suite.cases[k].rubricId in RubricIds(suite.rubric);
      assert result.cases[i].rubricId in failed;
    }
  }

  // ----- what is counted, and what is listed -----

  function PassedIndices(cases: seq<CaseResult>): set<nat> { set i | 0 <= i < |cases| && cases[i].passed }

  lemma {:induction false} PassedCountIs(cases: seq<CaseResult>)
    ensures PassedCount(cases) == |PassedIndices(cases)|
    decreases cases
  {
    if cases == [] {
      assert PassedIndices(cases) == {};
    } else {
      var n := |cases| - 1;
      PassedCountIs(cases[..n]);
      assert PassedIndices(cases) == PassedIndices(cases[..n]) + (if cases[n].passed then {n} else {});
    }
  }

  /** The cases of the suite that the result reports as passed. */
  ghost function PassedCases(suite: SuiteDraft, result: SuiteResult): set<nat> {
    set k | 0 <= k < |suite.cases| && ReportedPassed(result, suite.cases[k].caseId)
  }

  ghost function IdsAt(e: seq<Entry>, x: set<nat>): set<string>
    requires forall i | i in x :: i < |e|
  {
    set i | i in x :: e[i].id
  }

  /** Distinct identifiers make a set of positions as large as the set of its identifiers. */
  lemma {:induction false} IdsAtSize(e: seq<Entry>, x: set<nat>)
    requires UniqueIds(e) && forall i | i in x :: i < |e|
    ensures |IdsAt(e, x)| == |x|
    decreases x
  {
    if x == {} {
      assert IdsAt(e, x) == {};
    } else {
      var i :| i in x;
      var rest := x - {i};
      IdsAtSize(e, rest);
      assert IdsAt(e, x) == IdsAt(e, rest) + {e[i].id};
      assert e[i].id !in IdsAt(e, rest) by {
        forall j | j in rest ensures e[j].id != e[i].id { assert i < j || j < i; }
      }
    }
  }

  /** In a matching report, a case is reported as passed exactly by its own result. */
  lemma OwnResult(suite: SuiteDraft, result: SuiteResult, k: nat) returns (i: nat)
    requires Matches(suite, result) && k < |suite.cases|
    ensures i < |result.cases| && result.cases[i].caseId == suite.cases[k].caseId
    ensures ReportedPassed(result, suite.cases[k].caseId) <==> result.cases[i].passed
  {
    i := CaseHasResult(suite, result, k);
    var observed := ResultEntries(result.cases);
    forall j | 0 <= j < |result.cases| && result.cases[j].caseId == suite.cases[k].caseId ensures j == i {
      assert observed[j].id == observed[i].id;
      assert !(i < j) && !(j < i);
    }
    if result.cases[i].passed { assert result.cases[i] in result.cases; }
  }

  lemma PassedCountMeans(suite: SuiteDraft, result: SuiteResult)
    requires ReadySuite(suite) && Matches(suite, result)
    ensures PassedCount(result.cases) == |PassedCases(suite, result)|
  {
    hide ReportedPassed, UniqueIds;
    PassedCountIs(result.cases);
    var observed, wanted := ResultEntries(result.cases), CaseEntries(suite.cases);
    var x, y := PassedIndices(result.cases), PassedCases(suite, result);
    forall k | k in y ensures wanted[k].id in IdsAt(observed, x) {
      var i := OwnResult(suite, result, k);
      assert i in x && observed[i].id == wanted[k].id;
    }
    forall i | i in x ensures observed[i].id in IdsAt(wanted, y) {
      var k := ResultHasCase(suite, result, i);
      IsReported(result, i);
      assert k in y && observed[i].id == wanted[k].id;
    }
    assert IdsAt(observed, x) == IdsAt(wanted, y);
    IdsAtSize(observed, x);
    IdsAtSize(wanted, y);
  }

  lemma IsReported(result: SuiteResult, i: nat)
    requires i < |result.cases| && result.cases[i].passed
    ensures ReportedPassed(result, result.cases[i].caseId)
  {
    assert result.cases[i] in result.cases;
  }

  /** Some case of the rubric item is not reported as passed. */
  ghost predicate HasFailingCase(suite: SuiteDraft, result: SuiteResult, item: RubricItem) {
    exists c | c in suite.cases :: c.rubricId == item.rubricId && !ReportedPassed(result, c.caseId)
  }

  lemma FailedIdsMean(suite: SuiteDraft, result: SuiteResult, item: RubricItem)
    requires ReadySuite(suite) && Matches(suite, result)
    ensures item.rubricId in FailedIds(result.cases) <==> HasFailingCase(suite, result, item)
  {
    hide ReportedPassed, UniqueIds;
    if item.rubricId in FailedIds(result.cases) {
      var r :| r in result.cases && !r.passed && r.rubricId == item.rubricId;
      var i :| 0 <= i < |result.cases| && result.cases[i] == r;
      var k := ResultHasCase(suite, result, i);
      var j := OwnResult(suite, result, k);
      SameResult(result, i, j);
      assert suite.cases[k] in suite.cases;
    }
    if HasFailingCase(suite, result, item) {
      var c :| c in suite.cases && c.rubricId == item.rubricId && !ReportedPassed(result, c.caseId);
      var k :| 0 <= k < |suite.cases| && suite.cases[k] == c;
      var i := OwnResult(suite, result, k);
      var l := ResultHasCase(suite, result, i);
      SameCase(suite, k, l);
      assert result.cases[i] in result.cases;
    }
  }

  lemma SameResult(result: SuiteResult, i: nat, j: nat)
    requires UniqueIds(ResultEntries(result.cases)) && i < |result.cases| && j < |result.cases|
    requires result.cases[i].caseId == result.cases[j].caseId
    ensures i == j
  {
    var e := ResultEntries(result.cases);
    assert e[i].id == e[j].id && !(i < j) && !(j < i);
  }

  lemma SameCase(suite: SuiteDraft, k: nat, l: nat)
    requires UniqueIds(CaseEntries(suite.cases)) && k < |suite.cases| && l < |suite.cases|
    requires suite.cases[k].caseId == suite.cases[l].caseId
    ensures k == l
  {
    var e := CaseEntries(suite.cases);
    assert e[k].id == e[l].id && !(k < l) && !(l < k);
  }

  /** `positions` are those of the failed items, in increasing order. */
  ghost predicate Positions(rubric: seq<RubricItem>, failed: set<string>, positions: seq<nat>) {
    && (forall p :: p in positions <==> 1 <= p <= |rubric| && rubric[p - 1].rubricId in failed)
    && (forall i, j | 0 <= i < j < |positions| :: positions[i] < positions[j])
  }

  lemma PositionsExtend(rubric: seq<RubricItem>, failed: set<string>, before: seq<nat>)
    requires rubric != [] && Positions(rubric[..|rubric| - 1], failed, before)
    ensures
      var n := |rubric| - 1;
      Positions(rubric, failed, if rubric[n].rubricId in failed then before + [n + 1] else before)
  {
    var n := |rubric| - 1;
    var after := if rubric[n].rubricId in failed then before + [n + 1] else before;
    forall p ensures p in after <==> 1 <= p <= |rubric| && rubric[p - 1].rubricId in failed {
      assert 1 <= p <= n ==> rubric[..n][p - 1] == rubric[p - 1];
      assert p in after <==> p in before || (p == n + 1 && rubric[n].rubricId in failed);
    }
    forall i, j | 0 <= i < j < |after| ensures after[i] < after[j] {
      assert after[i] == before[i] && before[i] in before;
    }
  }

  lemma {:induction false} FailedLinesAre(rubric: seq<RubricItem>, failed: set<string>) returns (positions: seq<nat>)
    ensures Positions(rubric, failed, positions)
    ensures FailedLines(rubric, failed) == Lines(positions)
    decreases rubric
  {
    hide RubricLine;
    if rubric == [] {
      positions := [];
    } else {
      hide Positions;
      var n := |rubric| - 1;
      var before := FailedLinesAre(rubric[..n], failed);
      PositionsExtend(rubric, failed, before);
      positions := if rubric[n].rubricId in failed then before + [n + 1] else before;
      OneMoreLine(before, n + 1);
    }
  }

  function Lines(positions: seq<nat>): seq<ReportRubric> {
    seq(|positions|, i requires 0 <= i < |positions| =>
      ReportRubric("criterion-" + Decimal(positions[i]), "Критерий задания " + Decimal(positions[i]) + "."))
  }

  lemma OneMoreLine(positions: seq<nat>, p: nat)
    ensures Lines(positions + [p]) == Lines(positions) + [RubricLine(p)]
  {}

  /** The report lists exactly the rubric items with a failing case, by position and in rubric order. */
  ghost predicate ListsFailures(suite: SuiteDraft, result: SuiteResult, report: Report) {
    exists positions: seq<nat> ::
      && report.failedRubrics == Lines(positions)
      && (forall i, j | 0 <= i < j < |positions| :: positions[i] < positions[j])
      && (forall p :: p in positions <==> 1 <= p <= |suite.rubric| && HasFailingCase(suite, result, suite.rubric[p - 1]))
  }

  lemma FailuresListed(suite: SuiteDraft, result: SuiteResult, report: Report)
    requires ReadySuite(suite) && Matches(suite, result)
    requires report.failedRubrics == FailedLines(suite.rubric, FailedIds(result.cases))
    ensures ListsFailures(suite, result, report)
  {
    hide FailedLines, FailedIds, HasFailingCase, Lines, Matches, ReadySuite;
    var positions := FailedLinesAre(suite.rubric, FailedIds(result.cases));
    forall item | item in suite.rubric
      ensures item.rubricId in FailedIds(result.cases) <==> HasFailingCase(suite, result, item)
    {
      FailedIdsMean(suite, result, item);
    }
  }

  /** The report meets `complete_grading`'s own conditions; everything passed, every suite case passed and no
      rubric failed agree; it counts the suite cases that are reported as passed, and lists exactly the rubric items
      with a failing case. */
  ghost predicate Faithful(suite: SuiteDraft, result: SuiteResult, report: Report) {
    && ReportValid(report)
    && report.passed == |PassedCases(suite, result)|
    && ListsFailures(suite, result, report)
    && CountsValid(report.passed == report.total, report.passed, report.total)
    && report.total == |suite.cases|
    && (report.passed == report.total <==> report.failedRubrics == [])
    && (report.passed == report.total <==> forall c | c in suite.cases :: ReportedPassed(result, c.caseId))
  }

  /** For a ready suite the summary exists exactly for matching reports, and it is faithful. */
  lemma SummaryFaithful(suite: SuiteDraft, result: SuiteResult)
    requires ReadySuite(suite)
    ensures Summarize(suite, result).Some? <==> Matches(suite, result)
    ensures Summarize(suite, result).Some? ==> Faithful(suite, result, Summarize(suite, result).value)
  {
    hide UniqueIds, ReportedPassed, FailedLines, RubricLine, ReportRubricValid, DictOf, RubricIds, IsKey, PassedCases,
      ListsFailures;
    SummaryExists(suite, result);
    if Summarize(suite, result).Some? {
      var report := Summarize(suite, result).value;
      AllPassedCount(result.cases);
      AllPassedMeansAllCasesPassed(suite, result);
      NoFailedLinesMeansPassed(suite, result);
      PassedCountMeans(suite, result);
      FailuresListed(suite, result, report);
      FailedLinesComplete(suite.rubric, FailedIds(result.cases));
      forall item | item in report.failedRubrics ensures ReportRubricValid(item) {
        var p :| 1 <= p <= |suite.rubric| && item == RubricLine(p);
        RubricLineValid(p);
      }
    }
  }
}
