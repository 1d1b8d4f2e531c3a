/** The two comparators of an observed run with a case's expectation: the strict one of the VM executor
    and the loose one of the local executor. */
module Compare {
  import opened Text
  import opened Json

  datatype Matcher = Exact(text: string) | Contains(part: string) | JsonText(value: Value)

  datatype ExpectedFile = ExpectedFile(path: string, content: Option<Matcher>)

  /** The fields that the parser requires of an expectation, by adapter. */
  datatype Expectation =
    | PythonExpectation(
        returned: Value, exception: Option<string>, argsAfter: Option<Value>, stdout: Option<Matcher>, files: seq<ExpectedFile>)
    | CliExpectation(exitCode: int, stdout: Option<Matcher>, stderr: Option<Matcher>, files: seq<ExpectedFile>)

  /** A file as the VM worker reports it. */
  datatype SeenFile = SeenFile(path: string, present: bool, content: Option<string>, truncated: bool)

  datatype Observation = Observation(
    returned: Value, exception: Option<string>, stdout: string, stderr: string, exitCode: int, argsAfter: Value,
    files: seq<SeenFile>)

  /** A file as the local executor finds it in the workspace. */
  datatype LocalFile = Missing | TooLarge | NotUtf8 | Readable(content: string)

  type Workspace = map<string, LocalFile>

  /** `json.loads`, which may fail. */
  type Decoder = string -> Option<Value>

  /** `replace("\r\n", "\n")`. */
  function Normalized(s: string): string {
    if s == "" then ""
    else if |s| >= 2 && s[0] == '\r' && s[1] == '\n' then "\n" + Normalized(s[2..])
    else [s[0]] + Normalized(s[1..])
  }

  /** `part in s`. */
  predicate Occurs(part: string, s: string) { part <= s || (s != "" && Occurs(part, s[1..])) }

  predicate ExceptionMatches(actual: Option<string>, expected: string) {
    && actual.Some?
    && (actual.value == expected
        || (|expected| < |actual.value| && actual.value[|actual.value| - |expected| - 1..] == "." + expected))
  }

  type Equality = (Value, Value) -> bool

  /** `_check_matcher` with the given equality on decoded JSON. */
  function MatcherFailures(observed: string, matcher: Option<Matcher>, what: string, decode: Decoder, equal: Equality)
    : seq<string>
  {
    match matcher
    case None => []
    case Some(Exact(text)) => if Normalized(observed) != Normalized(text) then [what + " differs"] else []
    case Some(Contains(part)) =>
      if !Occurs(part, Normalized(observed)) then [what + " does not contain expected text"] else []
    case Some(JsonText(value)) =>
      var parsed := decode(Normalized(observed));
      if parsed.None? then [what + " is not valid JSON"]
      else if !equal(parsed.value, value) then [what + " JSON differs"]
      else []
  }

  // ----- the VM comparator -----

  /** `{item["path"]: item for item in files}`, looked up: a later item replaces an earlier one. */
  function Find(files: seq<SeenFile>, path: string): Option<SeenFile> {
    if files == [] then None
    else if files[|files| - 1].path == path then Some(files[|files| - 1])
    else Find(files[..|files| - 1], path)
  }

  function VmFileFailures(item: Option<SeenFile>, expected: ExpectedFile, decode: Decoder): seq<string> {
    if item.None? || !item.value.present then ["expected file missing: " + expected.path]
    else if item.value.truncated || item.value.content.None? then ["expected file unreadable: " + expected.path]
    else MatcherFailures(item.value.content.value, expected.content, "file " + expected.path, decode, StrictEqual)
  }

  function VmFilesFailures(files: seq<SeenFile>, expected: seq<ExpectedFile>, decode: Decoder): seq<string> {
    if expected == [] then []
    else
      VmFilesFailures(files, expected[..|expected| - 1], decode)
      + VmFileFailures(Find(files, expected[|expected| - 1].path), expected[|expected| - 1], decode)
  }

  function CallFailures(e: Expectation, o: Observation, equal: Equality): seq<string>
    requires e.PythonExpectation?
  {
    (if e.exception.None? then
       if o.exception.Some? then ["unexpected exception"]
       else if !equal(o.returned, e.returned) then ["return value differs"]
       else []
     else if !ExceptionMatches(o.exception, e.exception.value) then ["expected exception was not raised"]
     else [])
    + (if e.argsAfter.Some? && !equal(o.argsAfter, e.argsAfter.value) then ["arguments differ after call"] else [])
  }

  const STUDENT_FAILURE := "menti.StudentProcessFailure"

  function VmFailures(e: Expectation, o: Observation, decode: Decoder): seq<string> {
    if o.exception == Some(STUDENT_FAILURE) then ["student process failed"]
    else
      (match e
       case PythonExpectation(_, _, _, stdout, _) =>
         CallFailures(e, o, StrictEqual) + MatcherFailures(o.stdout, stdout, "stdout", decode, StrictEqual)
       case CliExpectation(exitCode, stdout, stderr, _) =>
         (if o.exitCode != exitCode then ["exit code differs"] else [])
         + MatcherFailures(o.stdout, stdout, "stdout", decode, StrictEqual)
         + MatcherFailures(o.stderr, stderr, "stderr", decode, StrictEqual))
      + VmFilesFailures(o.files, e.files, decode)
  }

  // ----- the local comparator -----

  function LocalFileFailures(found: LocalFile, expected: ExpectedFile, decode: Decoder): seq<string> {
    match found
    case Missing => ["expected file missing: " + expected.path]
    case TooLarge => ["expected file too large: " + expected.path]
    case NotUtf8 => ["expected file is not UTF-8: " + expected.path]
    case Readable(content) => MatcherFailures(content, expected.content, "file " + expected.path, decode, LooseEqual)
  }

  function FileAt(workspace: Workspace, path: string): LocalFile {
    if path in workspace then workspace[path] else Missing
  }

  function LocalFilesFailures(workspace: Workspace, expected: seq<ExpectedFile>, decode: Decoder): seq<string> {
    if expected == [] then []
    else
      LocalFilesFailures(workspace, expected[..|expected| - 1], decode)
      + LocalFileFailures(FileAt(workspace, expected[|expected| - 1].path), expected[|expected| - 1], decode)
  }

  /** Once the process has produced its result. */
  function LocalFailures(e: Expectation, o: Observation, workspace: Workspace, decode: Decoder): seq<string> {
    (match e
     case PythonExpectation(_, _, _, stdout, _) =>
       CallFailures(e, o, LooseEqual) + MatcherFailures(o.stdout, stdout, "stdout", decode, LooseEqual)
     case CliExpectation(exitCode, stdout, stderr, _) =>
       (if o.exitCode != exitCode then ["exit code differs"] else [])
       + MatcherFailures(o.stdout, stdout, "stdout", decode, LooseEqual)
       + MatcherFailures(o.stderr, stderr, "stderr", decode, LooseEqual))
    + LocalFilesFailures(workspace, e.files, decode)
  }

  // ----- what a comparison means -----

  /** `s` without its line breaks of the form carriage return, line feed. */
  predicate HasNoBreak(s: string) { forall i | 0 < i < |s| :: !(s[i - 1] == '\r' && s[i] == '\n') }

  lemma {:induction false} NormalizedKeeps(s: string)
    requires HasNoBreak(s)
    ensures Normalized(s) == s
    decreases s
  {
    if s != "" {
      assert |s| >= 2 ==> !(s[1 - 1] == '\r' && s[1] == '\n');
      NormalizedKeeps(s[1..]) by {
        forall i | 0 < i < |s[1..]| ensures !(s[1..][i - 1] == '\r' && s[1..][i] == '\n') { assert s[1..][i] == s[i + 1]; }
      }
    }
  }

  lemma NormalizedStep(c: char, rest: string)
    ensures !(c == '\r' && rest != "" && rest[0] == '\n') ==> Normalized([c] + rest) == [c] + Normalized(rest)
    ensures Normalized("\r\n" + rest) == "\n" + Normalized(rest)
  {
    assert ([c] + rest)[1..] == rest && ("\r\n" + rest)[2..] == rest;
  }

  lemma {:induction false} NormalizedSplits(a: string, b: string)
    ensures Normalized(a + "\r\n" + b) == Normalized(a) + "\n" + Normalized(b)
    decreases a
  {
    hide Normalized;
    var tail := "\r\n" + b;
    assert a + "\r\n" + b == a + tail;
    NormalizedStep('\r', b);
    if a == "" {
      assert a + tail == tail;
      NormalizedEmpty();
    } else if |a| >= 2 && a[0] == '\r' && a[1] == '\n' {
      NormalizedSplits(a[2..], b);
      assert a == "\r\n" + a[2..] && a + tail == "\r\n" + (a[2..] + tail) && a[2..] + "\r\n" + b == a[2..] + tail;
      NormalizedStep('\r', a[2..]);
      NormalizedStep('\r', a[2..] + tail);
    } else {
      NormalizedSplits(a[1..], b);
      assert a == [a[0]] + a[1..] && a + tail == [a[0]] + (a[1..] + tail) && a[1..] + "\r\n" + b == a[1..] + tail;
      NormalizedStep(a[0], a[1..]);
      NormalizedStep(a[0], a[1..] + tail);
    }
  }

  lemma NormalizedEmpty()
    ensures Normalized("") == ""
  {}

  /** Every line break of the form carriage return, line feed becomes a line feed, and nothing else changes. */
  lemma NormalizedIs(a: string, b: string)
    ensures HasNoBreak(a) ==> Normalized(a) == a
    ensures Normalized(a + "\r\n" + b) == Normalized(a) + "\n" + Normalized(b)
  {
    if HasNoBreak(a) { NormalizedKeeps(a); }
    NormalizedSplits(a, b);
  }

  lemma {:induction false} OccursBetween(part: string, before: string, after: string)
    ensures Occurs(part, before + part + after)
    decreases before
  {
    var s := before + part + after;
    if before == "" {
      assert s == part + after;
    } else {
      OccursBetween(part, before[1..], after);
      assert s[1..] == before[1..] + part + after;
    }
  }

  lemma {:induction false} OccursSomewhere(part: string, s: string) returns (before: string, after: string)
    requires Occurs(part, s)
    ensures s == before + part + after
    decreases s
  {
    if part <= s {
      before, after := "", s[|part|..];
    } else {
      before, after := OccursSomewhere(part, s[1..]);
      assert s == [s[0]] + s[1..] && [s[0]] + (before + part + after) == ([s[0]] + before) + part + after;
      before := [s[0]] + before;
    }
  }

  lemma OccursIs(part: string, s: string)
    ensures Occurs(part, s) <==> exists before, after :: s == before + part + after
  {
    if Occurs(part, s) { var before, after := OccursSomewhere(part, s); }
    if before, after :| s == before + part + after { OccursBetween(part, before, after); }
  }

  /** What a text must be for its matcher. */
  ghost predicate Meets(observed: string, matcher: Option<Matcher>, decode: Decoder, equal: Equality) {
    match matcher
    case None => true
    case Some(Exact(text)) => Normalized(observed) == Normalized(text)
    case Some(Contains(part)) =>
      exists before, after :: Normalized(observed) == before + part + after
    case Some(JsonText(value)) =>
      exists decoded :: decode(Normalized(observed)) == Some(decoded) && equal(decoded, value)
  }

  lemma MatcherMeans(observed: string, matcher: Option<Matcher>, what: string, decode: Decoder, equal: Equality)
    ensures MatcherFailures(observed, matcher, what, decode, equal) == [] <==> Meets(observed, matcher, decode, equal)
  {
    if matcher.Some? && matcher.value.Contains? { OccursIs(matcher.value.part, Normalized(observed)); }
  }

  /** The exception is the expected one, or ends in a dot and its name. */
  ghost predicate RaisedAs(actual: Option<string>, expected: string) {
    actual == Some(expected) || exists scope: string :: actual == Some(scope + "." + expected)
  }

  lemma ExceptionMeans(actual: Option<string>, expected: string)
    ensures ExceptionMatches(actual, expected) <==> RaisedAs(actual, expected)
  {
    if actual.Some? && actual.value != expected {
      var a, k := actual.value, |actual.value| - |expected| - 1;
      if 0 <= k && a[k..] == "." + expected {
        assert a == a[..k] + "." + expected;
      }
      if scope :| actual == Some(scope + "." + expected) {
        assert |scope| == k && a[k..] == "." + expected;
      }
    }
  }

  /** What an observation must be, apart from the files. */
  ghost predicate FieldsMeet(e: Expectation, o: Observation, decode: Decoder, equal: Equality) {
    match e
    case PythonExpectation(returned, exception, argsAfter, stdout, _) =>
      && (if exception.None? then o.exception.None? && equal(o.returned, returned)
          else RaisedAs(o.exception, exception.value))
      && (argsAfter.Some? ==> equal(o.argsAfter, argsAfter.value))
      && Meets(o.stdout, stdout, decode, equal)
    case CliExpectation(exitCode, stdout, stderr, _) =>
      && o.exitCode == exitCode && Meets(o.stdout, stdout, decode, equal) && Meets(o.stderr, stderr, decode, equal)
  }

  /** The last report on the path says that the file is there, was read in full, and has the expected content. */
  ghost predicate SeenFileMeets(files: seq<SeenFile>, f: ExpectedFile, decode: Decoder) {
    exists k | 0 <= k < |files| ::
      && files[k].path == f.path && (forall j | k < j < |files| :: files[j].path != f.path)
      && files[k].present && !files[k].truncated && files[k].content.Some?
      && Meets(files[k].content.value, f.content, decode, StrictEqual)
  }

  ghost predicate LocalFileMeets(workspace: Workspace, f: ExpectedFile, decode: Decoder) {
    f.path in workspace && workspace[f.path].Readable?
    && Meets(workspace[f.path].content, f.content, decode, LooseEqual)
  }

  /** The case passes in the VM. */
  ghost predicate PassesInVm(e: Expectation, o: Observation, decode: Decoder) {
    && o.exception != Some(STUDENT_FAILURE)
    && FieldsMeet(e, o, decode, StrictEqual)
    && forall f | f in e.files :: SeenFileMeets(o.files, f, decode)
  }

  ghost predicate PassesLocally(e: Expectation, o: Observation, workspace: Workspace, decode: Decoder) {
    FieldsMeet(e, o, decode, LooseEqual) && forall f | f in e.files :: LocalFileMeets(workspace, f, decode)
  }

  lemma {:induction false} FindIs(files: seq<SeenFile>, path: string, k: int)
    ensures Find(files, path).None? <==> forall j | 0 <= j < |files| :: files[j].path != path
    ensures 0 <= k < |files| && files[k].path == path && (forall j | k < j < |files| :: files[j].path != path) ==>
      Find(files, path) == Some(files[k])
    decreases files
  {
    if files != [] { FindIs(files[..|files| - 1], path, k); }
  }

  lemma {:induction false} FoundIsLast(files: seq<SeenFile>, path: string) returns (k: nat)
    requires Find(files, path).Some?
    ensures k < |files| && files[k] == Find(files, path).value && files[k].path == path
    ensures forall j | k < j < |files| :: files[j].path != path
    decreases files
  {
    if files[|files| - 1].path == path { k := |files| - 1; } else { k := FoundIsLast(files[..|files| - 1], path); }
  }

  lemma SeenFileMeans(files: seq<SeenFile>, f: ExpectedFile, decode: Decoder)
    ensures VmFileFailures(Find(files, f.path), f, decode) == [] <==> SeenFileMeets(files, f, decode)
  {
    hide MatcherFailures, Meets, Find;
    var found := Find(files, f.path);
    if found.Some? {
      var k := FoundIsLast(files, f.path);
      if found.value.content.Some? {
        MatcherMeans(found.value.content.value, f.content, "file " + f.path, decode, StrictEqual);
      }
    }
    forall k | 0 <= k < |files| && files[k].path == f.path && (forall j | k < j < |files| :: files[j].path != f.path)
      ensures found == Some(files[k])
    {
      FindIs(files, f.path, k);
    }
  }

  lemma LastOf<T>(x: seq<T>)
    requires x != []
    ensures x[..|x|] == x && forall e :: e in x <==> e in x[..|x| - 1] || e == x[|x| - 1]
  {
    assert x == x[..|x| - 1] + [x[|x| - 1]];
  }

  lemma NothingAdded(a: seq<string>, b: seq<string>)
    ensures a + b == [] <==> a == [] && b == []
  {}

  lemma NoFiles(files: seq<SeenFile>, decode: Decoder)
    ensures VmFilesFailures(files, [], decode) == []
  {}

  lemma OneMoreFile(files: seq<SeenFile>, expected: seq<ExpectedFile>, i: nat, decode: Decoder)
    requires i < |expected|
    ensures VmFilesFailures(files, expected[..i + 1], decode)
      == VmFilesFailures(files, expected[..i], decode)
         + VmFileFailures(Find(files, expected[i].path), expected[i], decode)
  {
    hide VmFileFailures, Find;
    assert expected[..i + 1][..i] == expected[..i];
  }

  lemma {:induction false} SeenFilesMean(files: seq<SeenFile>, expected: seq<ExpectedFile>, decode: Decoder)
    ensures VmFilesFailures(files, expected, decode) == [] <==> forall f | f in expected :: SeenFileMeets(files, f, decode)
    decreases expected
  {
    hide VmFilesFailures, VmFileFailures, SeenFileMeets, Find;
    NoFiles(files, decode);
    if expected != [] {
      var n := |expected| - 1;
      LastOf(expected);
      OneMoreFile(files, expected, n, decode);
      NothingAdded(
        VmFilesFailures(files, expected[..n], decode),
        VmFileFailures(Find(files, expected[n].path), expected[n], decode));
      SeenFilesMean(files, expected[..n], decode);
      SeenFileMeans(files, expected[n], decode);
    }
  }

  lemma {:induction false} LocalFilesMean(workspace: Workspace, expected: seq<ExpectedFile>, decode: Decoder)
    ensures LocalFilesFailures(workspace, expected, decode) == [] <==>
      forall f | f in expected :: LocalFileMeets(workspace, f, decode)
    decreases expected
  {
    hide LocalFilesFailures, LocalFileFailures, LocalFileMeets, FileAt;
    LocalFilesUnfold(workspace, expected, decode);
    if expected != [] {
      var n := |expected| - 1;
      LastOf(expected);
      NothingAdded(
        LocalFilesFailures(workspace, expected[..n], decode),
        LocalFileFailures(FileAt(workspace, expected[n].path), expected[n], decode));
      LocalFilesMean(workspace, expected[..n], decode);
      LocalFileMeans(workspace, expected[n], decode);
    }
  }

  lemma LocalFilesUnfold(workspace: Workspace, expected: seq<ExpectedFile>, decode: Decoder)
    ensures expected == [] ==> LocalFilesFailures(workspace, expected, decode) == []
    ensures expected != [] ==>
      var n := |expected| - 1;
      LocalFilesFailures(workspace, expected, decode)
        == LocalFilesFailures(workspace, expected[..n], decode)
           + LocalFileFailures(FileAt(workspace, expected[n].path), expected[n], decode)
  {
    hide LocalFileFailures, FileAt;
  }

  lemma LocalFileMeans(workspace: Workspace, f: ExpectedFile, decode: Decoder)
    ensures LocalFileFailures(FileAt(workspace, f.path), f, decode) == [] <==> LocalFileMeets(workspace, f, decode)
  {
    hide MatcherFailures, Meets;
    if f.path in workspace && workspace[f.path].Readable? {
      MatcherMeans(workspace[f.path].content, f.content, "file " + f.path, decode, LooseEqual);
    }
  }

  /** A case passes in the VM exactly when everything it expects was observed. */
  lemma VmPassesExactly(e: Expectation, o: Observation, decode: Decoder)
    ensures VmFailures(e, o, decode) == [] <==> PassesInVm(e, o, decode)
  {
    hide MatcherFailures, Meets, ExceptionMatches, RaisedAs, VmFilesFailures, SeenFileMeets, StrictEqual;
    SeenFilesMean(o.files, e.files, decode);
    MatcherMeans(o.stdout, e.stdout, "stdout", decode, StrictEqual);
    if e.PythonExpectation? {
      if e.exception.Some? { ExceptionMeans(o.exception, e.exception.value); }
    } else {
      MatcherMeans(o.stderr, e.stderr, "stderr", decode, StrictEqual);
    }
  }

  /** And locally. */
  lemma LocalPassesExactly(e: Expectation, o: Observation, workspace: Workspace, decode: Decoder)
    ensures LocalFailures(e, o, workspace, decode) == [] <==> PassesLocally(e, o, workspace, decode)
  {
    hide MatcherFailures, Meets, ExceptionMatches, RaisedAs, LocalFilesFailures, LocalFileMeets, LooseEqual;
    LocalFilesMean(workspace, e.files, decode);
    MatcherMeans(o.stdout, e.stdout, "stdout", decode, LooseEqual);
    if e.PythonExpectation? {
      if e.exception.Some? { ExceptionMeans(o.exception, e.exception.value); }
    } else {
      MatcherMeans(o.stderr, e.stderr, "stderr", decode, LooseEqual);
    }
  }

  // ----- the loops -----

  method CheckFiles(files: seq<SeenFile>, expected: seq<ExpectedFile>, decode: Decoder) returns (failures: seq<string>)
    ensures failures == VmFilesFailures(files, expected, decode)
    ensures failures == [] <==> forall f | f in expected :: SeenFileMeets(files, f, decode)
  {
    hide MatcherFailures, StrictEqual, SeenFileMeets, VmFilesFailures, Find;
    assert expected[..0] == [];
    NoFiles(files, decode);
    SeenFilesMean(files, expected, decode);
    failures := [];
    var i := 0;
    while i < |expected|
      invariant 0 <= i <= |expected|
      invariant failures == VmFilesFailures(files, expected[..i], decode)
    {
      OneMoreFile(files, expected, i, decode);
      var item := Find(files, expected[i].path);
      if item.None? || !item.value.present {
        failures := failures + ["expected file missing: " + expected[i].path];
      } else if item.value.truncated || item.value.content.None? {
        failures := failures + ["expected file unreadable: " + expected[i].path];
      } else {
        failures := failures
          + MatcherFailures(item.value.content.value, expected[i].content, "file " + expected[i].path, decode, StrictEqual);
      }
      i := i + 1;
    }
    assert expected[..|expected|] == expected;
  }

  method CompareInVm(e: Expectation, o: Observation, decode: Decoder) returns (failures: seq<string>)
    ensures failures == VmFailures(e, o, decode)
    ensures failures == [] <==> PassesInVm(e, o, decode)
  {
    hide MatcherFailures, StrictEqual, VmFilesFailures, CallFailures, PassesInVm;
    VmPassesExactly(e, o, decode);
    if o.exception == Some(STUDENT_FAILURE) { return ["student process failed"]; }
    failures := [];
    if e.PythonExpectation? {
      failures := failures + CallFailures(e, o, StrictEqual);
      failures := failures + MatcherFailures(o.stdout, e.stdout, "stdout", decode, StrictEqual);
    } else {
      if o.exitCode != e.exitCode { failures := failures + ["exit code differs"]; }
      failures := failures + MatcherFailures(o.stdout, e.stdout, "stdout", decode, StrictEqual);
      failures := failures + MatcherFailures(o.stderr, e.stderr, "stderr", decode, StrictEqual);
    }
    var missing := CheckFiles(o.files, e.files, decode);
    failures := failures + missing;
  }

  // ----- strict refines loose -----

  /** The workspace is the one the worker reported on: what it read in full is there. */
  ghost predicate SameFiles(files: seq<SeenFile>, workspace: Workspace) {
    forall path :: var item := Find(files, path);
      item.Some? && item.value.present && !item.value.truncated && item.value.content.Some? ==>
        FileAt(workspace, path) == Readable(item.value.content.value)
  }

  /** The decoded text has the same types as the expected value throughout. */
  predicate SameJsonTypes(observed: string, matcher: Option<Matcher>, decode: Decoder) {
    matcher.Some? && matcher.value.JsonText? && decode(Normalized(observed)).Some? ==>
      SameTypes(decode(Normalized(observed)).value, matcher.value.value)
  }

  lemma MatcherRefines(observed: string, matcher: Option<Matcher>, what: string, decode: Decoder)
    ensures MatcherFailures(observed, matcher, what, decode, StrictEqual) == [] <==>
      MatcherFailures(observed, matcher, what, decode, LooseEqual) == [] && SameJsonTypes(observed, matcher, decode)
  {
    if matcher.Some? && matcher.value.JsonText? && decode(Normalized(observed)).Some? {
      StrictIsLooseWithSameTypes(decode(Normalized(observed)).value, matcher.value.value);
    }
  }

  /** The worker read the file in full. */
  predicate Reported(files: seq<SeenFile>, expected: ExpectedFile) {
    var item := Find(files, expected.path);
    item.Some? && item.value.present && !item.value.truncated && item.value.content.Some?
  }

  /** What the strict comparison of a file asks beyond the loose one. */
  predicate FileAgrees(files: seq<SeenFile>, expected: ExpectedFile, decode: Decoder) {
    && Reported(files, expected)
    && SameJsonTypes(Find(files, expected.path).value.content.value, expected.content, decode)
  }

  lemma NoFailures(a: seq<string>, b: seq<string>)
    ensures a + b == [] <==> a == [] && b == []
  {}

  lemma FileRefines(files: seq<SeenFile>, workspace: Workspace, f: ExpectedFile, decode: Decoder)
    requires SameFiles(files, workspace)
    ensures VmFileFailures(Find(files, f.path), f, decode) == [] <==>
      LocalFileFailures(FileAt(workspace, f.path), f, decode) == [] && FileAgrees(files, f, decode)
  {
    hide MatcherFailures, SameJsonTypes, Find, FileAt;
    if Reported(files, f) {
      MatcherRefines(Find(files, f.path).value.content.value, f.content, "file " + f.path, decode);
      assert FileAt(workspace, f.path) == Readable(Find(files, f.path).value.content.value);
    }
  }

  lemma {:induction false} FilesRefine(files: seq<SeenFile>, workspace: Workspace, expected: seq<ExpectedFile>,
      decode: Decoder)
    requires SameFiles(files, workspace)
    ensures VmFilesFailures(files, expected, decode) == [] <==>
      && LocalFilesFailures(workspace, expected, decode) == []
      && forall i | 0 <= i < |expected| :: FileAgrees(files, expected[i], decode)
    decreases expected
  {
    hide VmFileFailures, LocalFileFailures, FileAgrees, Find, FileAt, SameFiles;
    if expected != [] {
      var rest, last := expected[..|expected| - 1], expected[|expected| - 1];
      FilesRefine(files, workspace, rest, decode);
      FileRefines(files, workspace, last, decode);
      NoFailures(VmFilesFailures(files, rest, decode), VmFileFailures(Find(files, last.path), last, decode));
      NoFailures(LocalFilesFailures(workspace, rest, decode), LocalFileFailures(FileAt(workspace, last.path), last, decode));
      assert forall i | 0 <= i < |rest| :: rest[i] == expected[i];
    }
  }

  /** What the strict comparison of a call asks beyond the loose one. */
  predicate CallAgrees(e: Expectation, o: Observation)
    requires e.PythonExpectation?
  {
    && (e.exception.None? && o.exception.None? ==> SameTypes(o.returned, e.returned))
    && (e.argsAfter.Some? ==> SameTypes(o.argsAfter, e.argsAfter.value))
  }

  lemma CallRefines(e: Expectation, o: Observation)
    requires e.PythonExpectation?
    ensures CallFailures(e, o, StrictEqual) == [] <==> CallFailures(e, o, LooseEqual) == [] && CallAgrees(e, o)
  {
    StrictIsLooseWithSameTypes(o.returned, e.returned);
    if e.argsAfter.Some? { StrictIsLooseWithSameTypes(o.argsAfter, e.argsAfter.value); }
  }

  /** Everything the VM comparator asks beyond the local one. */
  predicate Stricter(e: Expectation, o: Observation, decode: Decoder) {
    && o.exception != Some(STUDENT_FAILURE)
    && (e.PythonExpectation? ==> CallAgrees(e, o))
    && SameJsonTypes(o.stdout, e.stdout, decode)
    && (e.CliExpectation? ==> SameJsonTypes(o.stderr, e.stderr, decode))
    && forall i | 0 <= i < |e.files| :: FileAgrees(o.files, e.files[i], decode)
  }

  /** On the same observation the VM comparator passes a case exactly when the local one does and, besides,
      the student's process did not fail, every expected file was read in full, and every JSON value has
      the expected types throughout. In particular whatever passes in the VM passes locally. */
  lemma VmRefinesLocal(e: Expectation, o: Observation, workspace: Workspace, decode: Decoder)
    requires SameFiles(o.files, workspace)
    ensures VmFailures(e, o, decode) == [] <==> LocalFailures(e, o, workspace, decode) == [] && Stricter(e, o, decode)
  {
    hide MatcherFailures, CallFailures, SameJsonTypes, CallAgrees, FileAgrees, SameFiles;
    FilesRefine(o.files, workspace, e.files, decode);
    MatcherRefines(o.stdout, e.stdout, "stdout", decode);
    if e.PythonExpectation? {
      CallRefines(e, o);
    } else {
      MatcherRefines(o.stderr, e.stderr, "stderr", decode);
    }
  }

  /** The refinement is strict: `True` is accepted for `1` locally, and not in the VM. */
  lemma LooseAcceptsTrueForOne(decode: Decoder)
    ensures
      var e := PythonExpectation(Int(1), None, None, None, []);
      var o := Observation(Bool(true), None, "", "", 0, Null, []);
      LocalFailures(e, o, map[], decode) == [] && VmFailures(e, o, decode) == ["return value differs"]
  {
    assert StrictEqual(Bool(true), Int(1)) == false;
    assert LooseEqual(Bool(true), Int(1));
  }
}
