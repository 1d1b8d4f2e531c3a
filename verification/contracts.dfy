/** The field names (`K...`) and keywords (`W...`) of the suite format. */
module Vocabulary {
  datatype Word =
    | KSchemaVersion
    | KStatus
    | KSummary
    | KClarification
    | KRubric
    | KCases
    | KId
    | KDescription
    | KWeight
    | KRubricId
    | KAdapter
    | KTarget
    | KInput
    | KExpect
    | KArgs
    | KKwargs
    | KFiles
    | KReturn
    | KException
    | KStdout
    | KArgsAfter
    | KArgv
    | KStdin
    | KExitCode
    | KStderr
    | KPath
    | KContent
    | KMode
    | KValue
    | WReady
    | WClarification
    | WPythonCall
    | WCli
    | WExact
    | WContains
    | WJson

  function Name(w: Word): string {
    match w
    case KSchemaVersion => "schema_version"
    case KStatus => "status"
    case KSummary => "summary"
    case KClarification => "clarification"
    case KRubric => "rubric"
    case KCases => "cases"
    case KId => "id"
    case KDescription => "description"
    case KWeight => "weight"
    case KRubricId => "rubric_id"
    case KAdapter => "adapter"
    case KTarget => "target"
    case KInput => "input"
    case KExpect => "expect"
    case KArgs => "args"
    case KKwargs => "kwargs"
    case KFiles => "files"
    case KReturn => "return"
    case KException => "exception"
    case KStdout => "stdout"
    case KArgsAfter => "args_after"
    case KArgv => "argv"
    case KStdin => "stdin"
    case KExitCode => "exit_code"
    case KStderr => "stderr"
    case KPath => "path"
    case KContent => "content"
    case KMode => "mode"
    case KValue => "value"
    case WReady => "ready"
    case WClarification => "clarification_required"
    case WPythonCall => "python_call"
    case WCli => "cli"
    case WExact => "exact"
    case WContains => "contains"
    case WJson => "json"
  }
}

/** The test-author contract: parsing a decoded JSON value into a suite draft, printing the
    draft back, and the round trip that lets grading re-parse the frozen copy. */
module Contracts {
  import opened Text
  import opened Json
  import opened Vocabulary

  /** The byte length of the serialised form, which depends on Python's serialiser. */
  type Sizer = Value -> nat

  datatype Status = Ready | ClarificationRequired

  datatype RubricItem = RubricItem(rubricId: string, description: string, weight: int)

  datatype Adapter = PythonCall | Cli

  datatype GraderCase = GraderCase(
    caseId: string, rubricId: string, adapter: Adapter, target: string, input: Value, expected: Value)

  datatype SuiteDraft = SuiteDraft(
    status: Status,
    summary: string,
    clarification: Option<string>,
    rubric: seq<RubricItem>,
    cases: seq<GraderCase>)

  /** The words that share an object or an enumeration are spelled differently. */
  lemma WordsDiffer()
    ensures Name(WReady) != Name(WClarification)
    ensures Name(WPythonCall) != Name(WCli)
  {}

  // ----- scalar validators -----

  predicate HasKeys(v: Value, keys: set<Word>) {
    v.Obj? && v.fields.Keys == set w | w in keys :: Name(w)
  }

  /** Strip first, then check the length. */
  function ParseText(v: Value, maximum: nat): (r: Option<string>)
    ensures r.Some? ==> v.Str? && r.value == Strip(v.s) && r.value != "" && |r.value| <= maximum && '\0' !in r.value
  {
    if !v.Str? || Strip(v.s) == "" || maximum < |Strip(v.s)| || '\0' in Strip(v.s) then None
    else Some(Strip(v.s))
  }

  lemma ParseTextAgain(v: Value, maximum: nat)
    requires ParseText(v, maximum).Some?
    ensures ParseText(Str(ParseText(v, maximum).value), maximum) == ParseText(v, maximum)
  {
    StripIdempotent(v.s, IsSpace);
  }

  predicate IsLetter(c: char) { 'A' <= c <= 'Z' || 'a' <= c <= 'z' }

  /** `[A-Za-z][A-Za-z0-9_]*` */
  predicate IsIdentifier(s: string) {
    s != "" && IsLetter(s[0]) && forall c | c in s :: IsLetter(c) || IsDigit(c) || c == '_'
  }

  /** `[A-Za-z][A-Za-z0-9_.]*` */
  predicate IsExceptionName(s: string) {
    s != "" && IsLetter(s[0]) && forall c | c in s :: IsLetter(c) || IsDigit(c) || c == '_' || c == '.'
  }

  predicate IsDottedName(s: string) {
    || IsIdentifier(s)
    || exists i | 0 <= i < |s| :: s[i] == '.' && IsIdentifier(s[..i]) && IsDottedName(s[i + 1..])
  }

  predicate IsPythonTarget(s: string) {
    exists i | 0 <= i < |s| :: s[i] == ':' && IsDottedName(s[..i]) && IsIdentifier(s[i + 1..])
  }

  /** No backslash, and every `/`-separated part is non-empty and does not start with a dot. */
  predicate IsSafePath(s: string) {
    && s != "" && '\\' !in s && s[|s| - 1] != '/'
    && forall i | 0 <= i < |s| && (i == 0 || s[i - 1] == '/') :: s[i] != '/' && s[i] != '.'
  }

  function ParseKey(v: Value): Option<string> {
    match ParseText(v, 64)
    case Some(s) => if IsKey(s) then Some(s) else None
    case None => None
  }

  function ParsePath(v: Value): Option<string> {
    match ParseText(v, 160)
    case Some(s) => if IsSafePath(s) then Some(s) else None
    case None => None
  }

  function ParseTarget(v: Value, adapter: Adapter): Option<string> {
    match ParseText(v, 160)
    case None => None
    case Some(s) =>
      if adapter.PythonCall? then (if IsPythonTarget(s) then Some(s) else None)
      else if IsSafePath(s) && 3 <= |s| && s[|s| - 3..] == ".py" then Some(s)
      else None
  }

  lemma ParseKeyAgain(v: Value)
    requires ParseKey(v).Some?
    ensures ParseKey(Str(ParseKey(v).value)) == ParseKey(v)
  {
    hide ParseText, IsKey;
    ParseTextAgain(v, 64);
  }

  lemma ParseTargetAgain(v: Value, adapter: Adapter)
    requires ParseTarget(v, adapter).Some?
    ensures ParseTarget(Str(ParseTarget(v, adapter).value), adapter) == ParseTarget(v, adapter)
  {
    hide ParseText, IsPythonTarget, IsSafePath;
    ParseTextAgain(v, 160);
  }

  predicate NestedWithin(v: Value, depth: nat) {
    && depth <= 12
    && match v
       case Arr(x) => forall i | 0 <= i < |x| :: NestedWithin(x[i], depth + 1)
       case Obj(m) => forall k | k in m :: NestedWithin(m[k], depth + 1)
       case _ => true
  }

  predicate IsSafeValue(v: Value, size: Sizer) {
    NestedWithin(v, 0) && IsFinite(v) && size(v) <= 262_144
  }

  // ----- nested specifications -----

  predicate IsFixtureFile(v: Value) {
    && HasKeys(v, {KPath, KContent})
    && ParsePath(v.fields[Name(KPath)]).Some?
    && v.fields[Name(KContent)].Str?
    && Utf8Length(v.fields[Name(KContent)].s) <= 65_536
    && '\0' !in v.fields[Name(KContent)].s
  }

  /** The normalised path of a file entry, if it has one. */
  function PathOf(v: Value): Option<string> {
    if v.Obj? && Name(KPath) in v.fields then ParsePath(v.fields[Name(KPath)]) else None
  }

  function BytesOf(v: Value): nat
    requires IsFixtureFile(v)
  {
    Utf8Length(v.fields[Name(KContent)].s)
  }

  predicate DistinctPaths(x: seq<Value>) {
    forall i, j | 0 <= i < j < |x| :: PathOf(x[i]) != PathOf(x[j])
  }

  function ContentBytes(x: seq<Value>): nat
    requires forall v | v in x :: IsFixtureFile(v)
  {
    if x == [] then 0 else ContentBytes(x[..|x| - 1]) + BytesOf(x[|x| - 1])
  }

  predicate IsFixtureFiles(v: Value) {
    && v.Arr? && |v.items| <= 20
    && (forall file | file in v.items :: IsFixtureFile(file))
    && DistinctPaths(v.items)
    && ContentBytes(v.items) <= 262_144
  }

  predicate IsMatcher(v: Value, size: Sizer) {
    || v.Null?
    || (&& HasKeys(v, {KMode, KValue})
        && (|| (v.fields[Name(KMode)] == Str(Name(WJson)) && IsSafeValue(v.fields[Name(KValue)], size))
            || (&& (v.fields[Name(KMode)] == Str(Name(WExact)) || v.fields[Name(KMode)] == Str(Name(WContains)))
                && v.fields[Name(KValue)].Str?
                && Utf8Length(v.fields[Name(KValue)].s) <= 65_536)))
  }

  predicate IsExpectedFile(v: Value, size: Sizer) {
    && HasKeys(v, {KPath, KContent})
    && ParsePath(v.fields[Name(KPath)]).Some?
    && IsMatcher(v.fields[Name(KContent)], size)
  }

  predicate IsExpectedFiles(v: Value, size: Sizer) {
    && v.Arr? && |v.items| <= 20
    && (forall i | 0 <= i < |v.items| :: IsExpectedFile(v.items[i], size))
    && DistinctPaths(v.items)
  }

  predicate IsPythonInput(v: Value, size: Sizer) {
    && HasKeys(v, {KArgs, KKwargs, KFiles})
    && v.fields[Name(KArgs)].Arr? && |v.fields[Name(KArgs)].items| <= 20
    && v.fields[Name(KKwargs)].Obj? && |v.fields[Name(KKwargs)].fields| <= 20
    && (forall k | k in v.fields[Name(KKwargs)].fields :: IsIdentifier(k))
    && IsSafeValue(v.fields[Name(KArgs)], size)
    && IsSafeValue(v.fields[Name(KKwargs)], size)
    && IsFixtureFiles(v.fields[Name(KFiles)])
  }

  predicate IsPythonExpect(v: Value, size: Sizer) {
    && (|| HasKeys(v, {KReturn, KException, KStdout, KFiles})
        || (&& HasKeys(v, {KReturn, KException, KStdout, KFiles, KArgsAfter})
            && v.fields[Name(KArgsAfter)].Arr? && |v.fields[Name(KArgsAfter)].items| <= 20
            && IsSafeValue(v.fields[Name(KArgsAfter)], size)))
    && IsSafeValue(v.fields[Name(KReturn)], size)
    && (|| v.fields[Name(KException)].Null?
        || (&& v.fields[Name(KException)].Str? && IsExceptionName(v.fields[Name(KException)].s)
            && v.fields[Name(KReturn)].Null?))
    && IsMatcher(v.fields[Name(KStdout)], size)
    && IsExpectedFiles(v.fields[Name(KFiles)], size)
  }

  predicate IsCliInput(v: Value) {
    && HasKeys(v, {KArgv, KStdin, KFiles})
    && v.fields[Name(KArgv)].Arr? && |v.fields[Name(KArgv)].items| <= 20
    && (forall i | 0 <= i < |v.fields[Name(KArgv)].items| ::
          && v.fields[Name(KArgv)].items[i].Str? && |v.fields[Name(KArgv)].items[i].s| <= 256
          && '\0' !in v.fields[Name(KArgv)].items[i].s)
    && v.fields[Name(KStdin)].Str? && Utf8Length(v.fields[Name(KStdin)].s) <= 65_536 && '\0' !in v.fields[Name(KStdin)].s
    && IsFixtureFiles(v.fields[Name(KFiles)])
  }

  predicate IsCliExpect(v: Value, size: Sizer) {
    && HasKeys(v, {KExitCode, KStdout, KStderr, KFiles})
    && v.fields[Name(KExitCode)].Int? && 0 <= v.fields[Name(KExitCode)].i <= 255
    && IsMatcher(v.fields[Name(KStdout)], size)
    && IsMatcher(v.fields[Name(KStderr)], size)
    && IsExpectedFiles(v.fields[Name(KFiles)], size)
  }

  predicate IsCaseBody(adapter: Adapter, input: Value, expected: Value, size: Sizer) {
    match adapter
    case PythonCall => IsPythonInput(input, size) && IsPythonExpect(expected, size)
    case Cli => IsCliInput(input) && IsCliExpect(expected, size)
  }

  // ----- rubric and cases -----

  function ParseRubricItem(v: Value): Option<RubricItem> {
    if !HasKeys(v, {KId, KDescription, KWeight}) then None
    else
      var w := v.fields[Name(KWeight)];
      match (ParseKey(v.fields[Name(KId)]), ParseText(v.fields[Name(KDescription)], 500))
      case (Some(id), Some(description)) =>
        if w.Int? && 1 <= w.i <= 100 then Some(RubricItem(id, description, w.i)) else None
      case (_, _) => None
  }

  function AdapterWord(adapter: Adapter): Value {
    Str(if adapter.PythonCall? then Name(WPythonCall) else Name(WCli))
  }

  function ParseAdapter(v: Value): Option<Adapter> {
    if v == AdapterWord(PythonCall) then Some(PythonCall)
    else if v == AdapterWord(Cli) then Some(Cli)
    else None
  }

  function ParseCaseFields(
    id: Value, rubricId: Value, adapter: Value, target: Value, input: Value, expected: Value,
    rubricIds: set<string>, size: Sizer): Option<GraderCase>
  {
    match (ParseKey(id), ParseKey(rubricId), ParseAdapter(adapter))
    case (Some(caseId), Some(rubric), Some(a)) =>
      (match ParseTarget(target, a)
       case Some(t) =>
         if rubric in rubricIds && IsCaseBody(a, input, expected, size) then
           Some(GraderCase(caseId, rubric, a, t, input, expected))
         else None
       case None => None)
    case (_, _, _) => None
  }

  function ParseCase(v: Value, rubricIds: set<string>, size: Sizer): Option<GraderCase> {
    if !HasKeys(v, {KId, KRubricId, KAdapter, KTarget, KInput, KExpect}) then None
    else
      var f := v.fields;
      ParseCaseFields(
        f[Name(KId)], f[Name(KRubricId)], f[Name(KAdapter)], f[Name(KTarget)], f[Name(KInput)], f[Name(KExpect)], rubricIds, size)
  }

  function CaseParser(rubricIds: set<string>, size: Sizer): Value -> Option<GraderCase> {
    v => ParseCase(v, rubricIds, size)
  }

  /** `r` is the list of what `x`'s elements parse to, without two equal keys. */
  ghost predicate ListFrom<T>(x: seq<Value>, parse: Value -> Option<T>, key: T -> string, r: seq<T>) {
    && |r| == |x|
    && (forall i | 0 <= i < |x| :: parse(x[i]) == Some(r[i]))
    && (forall i, j | 0 <= i < j < |r| :: key(r[i]) != key(r[j]))
  }

  lemma ListReadingIsUnique<T>(x: seq<Value>, parse: Value -> Option<T>, key: T -> string, a: seq<T>, b: seq<T>)
    requires ListFrom(x, parse, key, a) && ListFrom(x, parse, key, b)
    ensures a == b
  {
    forall i | 0 <= i < |a| ensures a[i] == b[i] { assert parse(x[i]) == Some(a[i]); }
  }

  const RubricKey: RubricItem -> string := (item: RubricItem) => item.rubricId
  const CaseKey: GraderCase -> string := (c: GraderCase) => c.caseId

  ghost predicate RubricFrom(v: Value, r: seq<RubricItem>) {
    v.Arr? && |v.items| <= 20 && ListFrom(v.items, ParseRubricItem, RubricKey, r)
  }

  ghost predicate CasesFrom(v: Value, rubricIds: set<string>, size: Sizer, r: seq<GraderCase>) {
    v.Arr? && |v.items| <= 40 && ListFrom(v.items, CaseParser(rubricIds, size), CaseKey, r)
  }

  /** The loop that `_parse_rubric` and `_parse_cases` share: collect the parsed elements and
      refuse a bad element or a repeated key. It fails exactly when no distinct reading exists. */
  method ParseDistinct<T>(x: seq<Value>, parse: Value -> Option<T>, key: T -> string)
    returns (r: Option<seq<T>>)
    ensures r.Some? ==> ListFrom(x, parse, key, r.value)
    ensures r.None? ==> !exists y: seq<T> :: ListFrom(x, parse, key, y)
  {
    var result: seq<T> := [];
    var seen: set<string> := {};
    for i := 0 to |x|
      invariant ListFrom(x[..i], parse, key, result)
      invariant seen == set k | 0 <= k < |result| :: key(result[k])
    {
      var item := parse(x[i]);
      forall y: seq<T> | ListFrom(x, parse, key, y)
        ensures parse(x[i]).Some? && key(parse(x[i]).value) !in seen
      {
        ReadingExtendsPrefix(x, parse, key, y, i, result);
      }
      if item.None? || key(item.value) in seen { return None; }
      seen := seen + {key(item.value)};
      result := result + [item.value];
    }
    assert x[..|x|] == x;
    return Some(result);
  }

  lemma ReadingExtendsPrefix<T>(
    x: seq<Value>, parse: Value -> Option<T>, key: T -> string, y: seq<T>, i: nat, prefix: seq<T>)
    requires ListFrom(x, parse, key, y) && i < |x| && ListFrom(x[..i], parse, key, prefix)
    ensures parse(x[i]).Some?
    ensures forall k | 0 <= k < i :: key(prefix[k]) != key(parse(x[i]).value)
  {
    assert parse(x[i]) == Some(y[i]);
    forall k | 0 <= k < i ensures key(prefix[k]) != key(y[i]) {
      assert parse(x[..i][k]) == Some(prefix[k]) && parse(x[k]) == Some(y[k]);
    }
  }

  method ParseRubric(v: Value) returns (r: Option<seq<RubricItem>>)
    ensures r.Some? ==> RubricFrom(v, r.value)
    ensures r.None? ==> !exists x: seq<RubricItem> :: RubricFrom(v, x)
  {
    if !v.Arr? || 20 < |v.items| { return None; }
    r := ParseDistinct(v.items, ParseRubricItem, RubricKey);
  }

  method ParseCases(v: Value, rubricIds: set<string>, size: Sizer) returns (r: Option<seq<GraderCase>>)
    ensures r.Some? ==> CasesFrom(v, rubricIds, size, r.value)
    ensures r.None? ==> !exists x: seq<GraderCase> :: CasesFrom(v, rubricIds, size, x)
  {
    if !v.Arr? || 40 < |v.items| { return None; }
    r := ParseDistinct(v.items, CaseParser(rubricIds, size), CaseKey);
  }

  function PathsOf(x: seq<Value>): set<Option<string>> { set file | file in x :: PathOf(file) }

  lemma PathsExtend(x: seq<Value>, v: Value)
    ensures DistinctPaths(x + [v]) <==> DistinctPaths(x) && PathOf(v) !in PathsOf(x)
    ensures PathsOf(x + [v]) == PathsOf(x) + {PathOf(v)}
  {
    hide PathOf;
    var y := x + [v];
    if DistinctPaths(y) {
      forall i, j | 0 <= i < j < |x| ensures PathOf(x[i]) != PathOf(x[j]) { assert PathOf(y[i]) != PathOf(y[j]); }
      forall i | 0 <= i < |x| ensures PathOf(x[i]) != PathOf(v) { assert PathOf(y[i]) != PathOf(y[|x|]); }
    }
  }

  lemma DistinctPathsPrefix(x: seq<Value>, n: nat)
    requires n <= |x|
    ensures DistinctPaths(x) ==> DistinctPaths(x[..n])
    ensures n == 0 ==> DistinctPaths(x[..n]) && PathsOf(x[..n]) == {}
  {
    hide PathOf;
  }

  /** The loop of `_parse_fixture_files`, with its running total. */
  method CheckFixtureFiles(v: Value) returns (ok: bool)
    ensures ok == IsFixtureFiles(v)
  {
    hide IsFixtureFile, PathOf, PathsOf, BytesOf, DistinctPaths;
    if !v.Arr? || 20 < |v.items| { return false; }
    var seen: set<Option<string>> := {};
    var total := 0;
    DistinctPathsPrefix(v.items, 0);
    for i := 0 to |v.items|
      invariant forall file | file in v.items[..i] :: IsFixtureFile(file)
      invariant DistinctPaths(v.items[..i])
      invariant seen == PathsOf(v.items[..i])
      invariant total == ContentBytes(v.items[..i])
    {
      var raw := v.items[i];
      ghost var before := v.items[..i];
      assert v.items[..i + 1] == before + [raw];
      PathsExtend(before, raw);
      DistinctPathsPrefix(v.items, i + 1);
      if !IsFixtureFile(raw) { return false; }
      if PathOf(raw) in seen { return false; }
      seen := seen + {PathOf(raw)};
      total := total + BytesOf(raw);
      assert (before + [raw])[..i] == before;
    }
    assert v.items[..|v.items|] == v.items;
    return total <= 262_144;
  }

  // ----- the whole draft -----

  predicate StatusConsistent(d: SuiteDraft) {
    match d.status
    case Ready => d.clarification.None? && d.rubric != [] && d.cases != []
    case ClarificationRequired => d.clarification.Some? && d.rubric == [] && d.cases == []
  }

  function RubricIds(rubric: seq<RubricItem>): set<string> {
    set i | 0 <= i < |rubric| :: rubric[i].rubricId
  }

  datatype Header = Header(status: Status, summary: string, clarification: Option<string>)

  function StatusWord(status: Status): Value {
    Str(if status.Ready? then Name(WReady) else Name(WClarification))
  }

  /** The version is compared with Python's `==`, so `true` and `1.0` are accepted as 1. */
  function ParseHeader(version: Value, status: Value, summary: Value, clarification: Value): Option<Header> {
    if !LooseEqual(version, Int(1)) || (status != StatusWord(Ready) && status != StatusWord(ClarificationRequired))
    then None
    else
      var s := if status == StatusWord(Ready) then Ready else ClarificationRequired;
      match (ParseText(summary, 1_000), ParseText(clarification, 1_000))
      case (Some(text), Some(question)) => Some(Header(s, text, Some(question)))
      case (Some(text), None) => if clarification.Null? then Some(Header(s, text, None)) else None
      case (None, _) => None
  }

  /** What it means for the decoded value `v` to be accepted as the draft `d`. */
  ghost predicate AcceptedAs(v: Value, size: Sizer, d: SuiteDraft) {
    && HasKeys(v, {KSchemaVersion, KStatus, KSummary, KClarification, KRubric, KCases})
    && var f := v.fields;
    && ParseHeader(f[Name(KSchemaVersion)], f[Name(KStatus)], f[Name(KSummary)], f[Name(KClarification)])
       == Some(Header(d.status, d.summary, d.clarification))
    && RubricFrom(f[Name(KRubric)], d.rubric)
    && CasesFrom(f[Name(KCases)], RubricIds(d.rubric), size, d.cases)
    && StatusConsistent(d)
  }

  lemma AcceptedDraftIsUnique(v: Value, size: Sizer, d: SuiteDraft, e: SuiteDraft)
    requires AcceptedAs(v, size, d) && AcceptedAs(v, size, e)
    ensures d == e
  {
    hide Name, ListFrom, ParseRubricItem, CaseParser, ParseHeader, RubricIds, StatusConsistent;
    var f := v.fields;
    ListReadingIsUnique(f[Name(KRubric)].items, ParseRubricItem, RubricKey, d.rubric, e.rubric);
    ListReadingIsUnique(
      f[Name(KCases)].items, CaseParser(RubricIds(d.rubric), size), CaseKey, d.cases, e.cases);
  }

  /** `SuiteDraft.from_cli_output`, from the decoded JSON value on. */
  ghost function Parse(v: Value, size: Sizer): (r: Option<SuiteDraft>)
    ensures r.Some? ==> AcceptedAs(v, size, r.value)
    ensures r.None? ==> !exists d: SuiteDraft :: AcceptedAs(v, size, d)
  {
    if d: SuiteDraft :| AcceptedAs(v, size, d) then Some(d) else None
  }

  lemma ParseIs(v: Value, size: Sizer, d: SuiteDraft)
    requires AcceptedAs(v, size, d)
    ensures Parse(v, size) == Some(d)
  {
    hide AcceptedAs;
    AcceptedDraftIsUnique(v, size, d, Parse(v, size).value);
  }

  method FromDecoded(v: Value, size: Sizer) returns (r: Option<SuiteDraft>)
    ensures r == Parse(v, size)
  {
    hide Name, ListFrom, ParseRubricItem, CaseParser, ParseHeader, RubricIds, RubricFrom, CasesFrom;
    if !HasKeys(v, {KSchemaVersion, KStatus, KSummary, KClarification, KRubric, KCases}) { return None; }
    var f := v.fields;
    var header :=
      ParseHeader(f[Name(KSchemaVersion)], f[Name(KStatus)], f[Name(KSummary)], f[Name(KClarification)]);
    if header.None? { return None; }
    var rubric := ParseRubric(f[Name(KRubric)]);
    if rubric.None? { return None; }
    var cases := ParseCases(f[Name(KCases)], RubricIds(rubric.value), size);
    var status, summary, clarification := header.value.status, header.value.summary, header.value.clarification;
    forall d: SuiteDraft | AcceptedAs(v, size, d)
      ensures cases.Some? && d == SuiteDraft(status, summary, clarification, rubric.value, cases.value)
    {
      ReadingsAgree(f[Name(KRubric)], f[Name(KCases)], size, rubric.value, cases, d);
    }
    if cases.None? { return None; }
    var draft := SuiteDraft(status, summary, clarification, rubric.value, cases.value);
    if !StatusConsistent(draft) { return None; }
    ParseIs(v, size, draft);
    return Some(draft);
  }

  lemma ReadingsAgree(
    rubricValue: Value, casesValue: Value, size: Sizer,
    rubric: seq<RubricItem>, cases: Option<seq<GraderCase>>, d: SuiteDraft)
    requires RubricFrom(rubricValue, rubric) && RubricFrom(rubricValue, d.rubric)
    requires CasesFrom(casesValue, RubricIds(d.rubric), size, d.cases)
    requires cases.Some? ==> CasesFrom(casesValue, RubricIds(rubric), size, cases.value)
    requires cases.None? ==> !exists x: seq<GraderCase> :: CasesFrom(casesValue, RubricIds(rubric), size, x)
    ensures rubric == d.rubric && cases == Some(d.cases)
  {
    hide Name, ListFrom, ParseRubricItem, CaseParser, RubricIds;
    ListReadingIsUnique(rubricValue.items, ParseRubricItem, RubricKey, rubric, d.rubric);
    if cases.Some? {
      ListReadingIsUnique(
        casesValue.items, CaseParser(RubricIds(rubric), size), CaseKey, cases.value, d.cases);
    }
  }

  // ----- printing -----

  function RubricItemPayload(item: RubricItem): Value {
    Obj(map[Name(KId) := Str(item.rubricId), Name(KDescription) := Str(item.description), Name(KWeight) := Int(item.weight)])
  }

  function CasePayload(c: GraderCase): Value {
    Obj(map[
      Name(KId) := Str(c.caseId),
      Name(KRubricId) := Str(c.rubricId),
      Name(KAdapter) := AdapterWord(c.adapter),
      Name(KTarget) := Str(c.target),
      Name(KInput) := c.input,
      Name(KExpect) := c.expected])
  }

  function ClarificationPayload(clarification: Option<string>): Value {
    if clarification.Some? then Str(clarification.value) else Null
  }

  function RubricPayload(rubric: seq<RubricItem>): Value {
    Arr(seq(|rubric|, i requires 0 <= i < |rubric| => RubricItemPayload(rubric[i])))
  }

  function CasesPayload(cases: seq<GraderCase>): Value {
    Arr(seq(|cases|, i requires 0 <= i < |cases| => CasePayload(cases[i])))
  }

  /** `SuiteDraft.to_payload`. */
  function ToPayload(d: SuiteDraft): Value {
    Obj(map[
      Name(KSchemaVersion) := Int(1),
      Name(KStatus) := StatusWord(d.status),
      Name(KSummary) := Str(d.summary),
      Name(KClarification) := ClarificationPayload(d.clarification),
      Name(KRubric) := RubricPayload(d.rubric),
      Name(KCases) := CasesPayload(d.cases)])
  }

  lemma RubricItemPayloadFields(item: RubricItem)
    ensures HasKeys(RubricItemPayload(item), {KId, KDescription, KWeight})
    ensures
      var f := RubricItemPayload(item).fields;
      && f[Name(KId)] == Str(item.rubricId) && f[Name(KDescription)] == Str(item.description)
      && f[Name(KWeight)] == Int(item.weight)
  {
    var f := RubricItemPayload(item).fields;
    var keys := {KId, KDescription, KWeight};
    assert f.Keys == set w | w in keys :: Name(w) by {
      forall k | k in f ensures exists w | w in keys :: Name(w) == k {
        var w :| w in keys && Name(w) == k;
      }
    }
  }

  lemma RubricItemRoundTrip(v: Value)
    requires ParseRubricItem(v).Some?
    ensures ParseRubricItem(RubricItemPayload(ParseRubricItem(v).value)) == ParseRubricItem(v)
  {
    hide Name, ParseText, ParseKey, RubricItemPayload;
    ParseKeyAgain(v.fields[Name(KId)]);
    ParseTextAgain(v.fields[Name(KDescription)], 500);
    RubricItemPayloadFields(ParseRubricItem(v).value);
  }

  lemma CasePayloadFields(c: GraderCase)
    ensures HasKeys(CasePayload(c), {KId, KRubricId, KAdapter, KTarget, KInput, KExpect})
    ensures
      var f := CasePayload(c).fields;
      && f[Name(KId)] == Str(c.caseId) && f[Name(KRubricId)] == Str(c.rubricId)
      && f[Name(KAdapter)] == AdapterWord(c.adapter) && f[Name(KTarget)] == Str(c.target)
      && f[Name(KInput)] == c.input && f[Name(KExpect)] == c.expected
  {
    hide AdapterWord;
    var f := CasePayload(c).fields;
    var keys := {KId, KRubricId, KAdapter, KTarget, KInput, KExpect};
    assert f.Keys == set w | w in keys :: Name(w) by {
      forall k | k in f ensures exists w | w in keys :: Name(w) == k {
        var w :| w in keys && Name(w) == k;
      }
    }
  }

  lemma CaseFieldsRoundTrip(
    id: Value, rubricId: Value, adapter: Value, target: Value, input: Value, expected: Value,
    rubricIds: set<string>, size: Sizer)
    requires ParseCaseFields(id, rubricId, adapter, target, input, expected, rubricIds, size).Some?
    ensures
      var c := ParseCaseFields(id, rubricId, adapter, target, input, expected, rubricIds, size).value;
      ParseCaseFields(
        Str(c.caseId), Str(c.rubricId), AdapterWord(c.adapter), Str(c.target), c.input, c.expected, rubricIds, size)
      == Some(c)
  {
    hide IsCaseBody, ParseKey, ParseTarget, Name;
    ParseKeyAgain(id);
    ParseKeyAgain(rubricId);
    ParseTargetAgain(target, ParseAdapter(adapter).value);
    WordsDiffer();
  }

  lemma CaseRoundTrip(v: Value, rubricIds: set<string>, size: Sizer)
    requires ParseCase(v, rubricIds, size).Some?
    ensures ParseCase(CasePayload(ParseCase(v, rubricIds, size).value), rubricIds, size) == ParseCase(v, rubricIds, size)
  {
    hide Name, CasePayload, ParseCaseFields;
    var f := v.fields;
    CaseFieldsRoundTrip(f[Name(KId)], f[Name(KRubricId)], f[Name(KAdapter)], f[Name(KTarget)],
                        f[Name(KInput)], f[Name(KExpect)], rubricIds, size);
    CasePayloadFields(ParseCase(v, rubricIds, size).value);
  }

  lemma PayloadFields(d: SuiteDraft)
    ensures HasKeys(ToPayload(d), {KSchemaVersion, KStatus, KSummary, KClarification, KRubric, KCases})
    ensures
      var f := ToPayload(d).fields;
      && f[Name(KSchemaVersion)] == Int(1) && f[Name(KStatus)] == StatusWord(d.status)
      && f[Name(KSummary)] == Str(d.summary) && f[Name(KClarification)] == ClarificationPayload(d.clarification)
      && f[Name(KRubric)] == RubricPayload(d.rubric) && f[Name(KCases)] == CasesPayload(d.cases)
  {
    hide StatusWord, ClarificationPayload, RubricPayload, CasesPayload;
    var f := ToPayload(d).fields;
    var keys := {KSchemaVersion, KStatus, KSummary, KClarification, KRubric, KCases};
    assert f.Keys == set w | w in keys :: Name(w) by {
      forall k | k in f ensures exists w | w in keys :: Name(w) == k {
        var w :| w in keys && Name(w) == k;
      }
    }
  }

  lemma HeaderRoundTrip(version: Value, status: Value, summary: Value, clarification: Value)
    requires ParseHeader(version, status, summary, clarification).Some?
    ensures
      var h := ParseHeader(version, status, summary, clarification).value;
      ParseHeader(Int(1), StatusWord(h.status), Str(h.summary), ClarificationPayload(h.clarification)) == Some(h)
  {
    hide ParseText, LooseEqual, StatusWord;
    StatusWordsDiffer();
    ParseTextAgain(summary, 1_000);
    if ParseText(clarification, 1_000).Some? { ParseTextAgain(clarification, 1_000); }
  }

  lemma StatusWordsDiffer()
    ensures StatusWord(Ready) != StatusWord(ClarificationRequired)
    ensures LooseEqual(Int(1), Int(1))
    ensures ParseText(Null, 1_000).None?
  {
    WordsDiffer();
  }

  lemma ListRoundTrip<T>(x: seq<Value>, parse: Value -> Option<T>, key: T -> string, r: seq<T>, y: seq<Value>)
    requires ListFrom(x, parse, key, r) && |y| == |r|
    requires forall i | 0 <= i < |r| :: parse(y[i]) == Some(r[i])
    ensures ListFrom(y, parse, key, r)
  {}

  lemma RubricRoundTrip(v: Value, r: seq<RubricItem>)
    requires RubricFrom(v, r)
    ensures RubricFrom(RubricPayload(r), r)
  {
    hide ParseRubricItem, RubricItemPayload;
    var y := RubricPayload(r).items;
    forall i | 0 <= i < |r| ensures ParseRubricItem(y[i]) == Some(r[i]) {
      assert ParseRubricItem(v.items[i]) == Some(r[i]);
      RubricItemRoundTrip(v.items[i]);
    }
    ListRoundTrip(v.items, ParseRubricItem, RubricKey, r, y);
  }

  lemma CasesRoundTrip(v: Value, rubricIds: set<string>, size: Sizer, r: seq<GraderCase>)
    requires CasesFrom(v, rubricIds, size, r)
    ensures CasesFrom(CasesPayload(r), rubricIds, size, r)
  {
    hide ParseCase, CasePayload;
    var y := CasesPayload(r).items;
    var parse := CaseParser(rubricIds, size);
    forall i | 0 <= i < |r| ensures parse(y[i]) == Some(r[i]) {
      assert parse(v.items[i]) == Some(r[i]);
      CaseRoundTrip(v.items[i], rubricIds, size);
    }
    ListRoundTrip(v.items, parse, CaseKey, r, y);
  }

  /** Re-validating the payload of an accepted draft succeeds and gives back the same draft. */
  lemma PayloadRoundTrip(v: Value, size: Sizer, d: SuiteDraft)
    requires Parse(v, size) == Some(d)
    ensures Parse(ToPayload(d), size) == Some(d)
  {
    hide Name, ParseHeader, StatusWord, ClarificationPayload, RubricPayload, CasesPayload, ToPayload, RubricFrom,
         CasesFrom, HasKeys;
    assert AcceptedAs(v, size, d);
    DraftRoundTrip(v, size, d);
    ParseIs(ToPayload(d), size, d);
  }

  lemma DraftRoundTrip(v: Value, size: Sizer, d: SuiteDraft)
    requires AcceptedAs(v, size, d)
    ensures AcceptedAs(ToPayload(d), size, d)
  {
    hide Name, ParseHeader, StatusWord, ClarificationPayload, RubricPayload, CasesPayload, ToPayload, RubricFrom,
         CasesFrom;
    var f := v.fields;
    PayloadFields(d);
    HeaderRoundTrip(f[Name(KSchemaVersion)], f[Name(KStatus)], f[Name(KSummary)], f[Name(KClarification)]);
    RubricRoundTrip(f[Name(KRubric)], d.rubric);
    CasesRoundTrip(f[Name(KCases)], RubricIds(d.rubric), size, d.cases);
  }

  /** Accepted drafts print to different payloads. */
  lemma PayloadInjective(v: Value, w: Value, size: Sizer, d: SuiteDraft, e: SuiteDraft)
    requires Parse(v, size) == Some(d) && Parse(w, size) == Some(e)
    requires ToPayload(d) == ToPayload(e)
    ensures d == e
  {
    PayloadRoundTrip(v, size, d);
    PayloadRoundTrip(w, size, e);
  }

  // ----- the payload can always be serialised -----

  lemma MatcherFinite(v: Value, size: Sizer)
    requires IsMatcher(v, size)
    ensures IsFinite(v)
  {
    if v.Obj? {
      forall k | k in v.fields ensures IsFinite(v.fields[k]) { assert k == Name(KMode) || k == Name(KValue); }
    }
  }

  lemma ExpectedFilesFinite(v: Value, size: Sizer)
    requires IsExpectedFiles(v, size)
    ensures IsFinite(v)
  {
    forall i | 0 <= i < |v.items| ensures IsFinite(v.items[i]) {
      var file := v.items[i];
      assert IsExpectedFile(file, size);
      MatcherFinite(file.fields[Name(KContent)], size);
      forall k | k in file.fields ensures IsFinite(file.fields[k]) { assert k == Name(KPath) || k == Name(KContent); }
    }
  }

  lemma FixtureFilesFinite(v: Value)
    requires IsFixtureFiles(v)
    ensures IsFinite(v)
  {
    forall i | 0 <= i < |v.items| ensures IsFinite(v.items[i]) {
      var file := v.items[i];
      assert IsFixtureFile(file);
      forall k | k in file.fields ensures IsFinite(file.fields[k]) { assert k == Name(KPath) || k == Name(KContent); }
    }
  }

  lemma PythonInputFinite(input: Value, size: Sizer)
    requires IsPythonInput(input, size)
    ensures IsFinite(input)
  {
    hide IsFixtureFiles, IsIdentifier, NestedWithin, Name;
    FixtureFilesFinite(input.fields[Name(KFiles)]);
    forall k | k in input.fields ensures IsFinite(input.fields[k]) {
      var w :| w in {KArgs, KKwargs, KFiles} && k == Name(w);
    }
  }

  lemma PythonExpectFinite(expected: Value, size: Sizer)
    requires IsPythonExpect(expected, size)
    ensures IsFinite(expected)
  {
    hide IsMatcher, IsExpectedFiles, IsExceptionName, NestedWithin, Name;
    ExpectedFilesFinite(expected.fields[Name(KFiles)], size);
    MatcherFinite(expected.fields[Name(KStdout)], size);
    forall k | k in expected.fields ensures IsFinite(expected.fields[k]) {
      var w :| w in {KReturn, KException, KStdout, KFiles, KArgsAfter} && k == Name(w);
    }
  }

  lemma CliInputFinite(input: Value)
    requires IsCliInput(input)
    ensures IsFinite(input)
  {
    hide IsFixtureFiles, Utf8Length, Name;
    FixtureFilesFinite(input.fields[Name(KFiles)]);
    forall k | k in input.fields ensures IsFinite(input.fields[k]) {
      var w :| w in {KArgv, KStdin, KFiles} && k == Name(w);
    }
  }

  lemma CliExpectFinite(expected: Value, size: Sizer)
    requires IsCliExpect(expected, size)
    ensures IsFinite(expected)
  {
    hide IsMatcher, IsExpectedFiles, Name;
    ExpectedFilesFinite(expected.fields[Name(KFiles)], size);
    MatcherFinite(expected.fields[Name(KStdout)], size);
    MatcherFinite(expected.fields[Name(KStderr)], size);
    forall k | k in expected.fields ensures IsFinite(expected.fields[k]) {
      var w :| w in {KExitCode, KStdout, KStderr, KFiles} && k == Name(w);
    }
  }

  lemma CasePayloadFinite(c: GraderCase, size: Sizer)
    requires IsCaseBody(c.adapter, c.input, c.expected, size)
    ensures IsFinite(CasePayload(c))
  {
    hide IsPythonInput, IsPythonExpect, IsCliInput, IsCliExpect, Name;
    match c.adapter {
      case PythonCall => PythonInputFinite(c.input, size); PythonExpectFinite(c.expected, size);
      case Cli => CliInputFinite(c.input); CliExpectFinite(c.expected, size);
    }
  }

  lemma CasesPayloadFinite(v: Value, rubricIds: set<string>, size: Sizer, r: seq<GraderCase>)
    requires CasesFrom(v, rubricIds, size, r)
    ensures IsFinite(CasesPayload(r))
  {
    hide IsCaseBody, CasePayload, Name, ParseKey, ParseTarget, ParseAdapter;
    var parse := CaseParser(rubricIds, size);
    forall i | 0 <= i < |r| ensures IsFinite(CasePayload(r[i])) {
      assert parse(v.items[i]) == Some(r[i]);
      CasePayloadFinite(r[i], size);
    }
  }

  /** `to_payload` serialises with `allow_nan=False`; on an accepted draft that never raises. */
  lemma PayloadIsSerialisable(v: Value, size: Sizer, d: SuiteDraft)
    requires Parse(v, size) == Some(d)
    ensures IsFinite(ToPayload(d))
  {
    hide Name, ParseHeader, RubricFrom, CasesFrom, CasesPayload;
    assert AcceptedAs(v, size, d);
    CasesPayloadFinite(v.fields[Name(KCases)], RubricIds(d.rubric), size, d.cases);
    assert IsFinite(RubricPayload(d.rubric)) by {
      forall i | 0 <= i < |d.rubric| ensures IsFinite(RubricItemPayload(d.rubric[i])) {}
    }
  }
}
