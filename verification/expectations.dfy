/** The parser and the comparators read the same expectations: what the parser accepts is exactly what is
    written from an expectation that fits the limits, and no other expectation is written the same. */
module Expectations {
  import opened Text
  import opened Json
  import opened Vocabulary
  import opened Contracts
  import opened Compare

  // ----- matchers -----

  function MatcherValue(m: Option<Matcher>): Value {
    match m
    case None => Null
    case Some(Exact(text)) => Obj(map[Name(KMode) := Str(Name(WExact)), Name(KValue) := Str(text)])
    case Some(Contains(part)) => Obj(map[Name(KMode) := Str(Name(WContains)), Name(KValue) := Str(part)])
    case Some(JsonText(value)) => Obj(map[Name(KMode) := Str(Name(WJson)), Name(KValue) := value])
  }

  predicate MatcherFits(m: Option<Matcher>, size: Sizer) {
    match m
    case None => true
    case Some(Exact(text)) => Utf8Length(text) <= 65_536
    case Some(Contains(part)) => Utf8Length(part) <= 65_536
    case Some(JsonText(value)) => IsSafeValue(value, size)
  }

  ghost predicate ReadsAsMatcher(v: Value, size: Sizer, m: Option<Matcher>) { v == MatcherValue(m) && MatcherFits(m, size) }

  lemma FieldWords()
    ensures Name(KMode) != Name(KValue) && Name(KPath) != Name(KContent)
  {}

  lemma MatcherWords()
    ensures Name(WExact) != Name(WContains) && Name(WExact) != Name(WJson) && Name(WContains) != Name(WJson)
  {}

  lemma TwoFields(v: Value, a: Word, b: Word)
    requires HasKeys(v, {a, b}) && Name(a) != Name(b)
    ensures v == Obj(map[Name(a) := v.fields[Name(a)], Name(b) := v.fields[Name(b)]])
  {
    hide Name;
    var m := map[Name(a) := v.fields[Name(a)], Name(b) := v.fields[Name(b)]];
    assert v.fields.Keys == {Name(a), Name(b)};
    assert v.fields == m;
  }

  lemma TwoKeys(a: Word, b: Word, x: Value, y: Value)
    requires Name(a) != Name(b)
    ensures HasKeys(Obj(map[Name(a) := x, Name(b) := y]), {a, b})
  {
    hide Name;
    var f := map[Name(a) := x, Name(b) := y];
    var keys := {a, b};
    assert f.Keys == set w | w in keys :: Name(w) by {
      forall k | k in f ensures exists w | w in keys :: Name(w) == k {
        assert k == Name(a) || k == Name(b);
      }
      forall w | w in keys ensures Name(w) in f {}
    }
  }

  lemma MatcherReads(v: Value, size: Sizer) returns (m: Option<Matcher>)
    requires IsMatcher(v, size)
    ensures ReadsAsMatcher(v, size, m)
  {
    hide IsSafeValue, Utf8Length, Name, HasKeys;
    FieldWords();
    MatcherWords();
    if v.Null? {
      m := None;
    } else {
      TwoFields(v, KMode, KValue);
      var mode, value := v.fields[Name(KMode)], v.fields[Name(KValue)];
      m := Some(if mode == Str(Name(WJson)) then JsonText(value)
                else if mode == Str(Name(WExact)) then Exact(value.s)
                else Contains(value.s));
    }
  }

  lemma WrittenMatcher(m: Option<Matcher>, size: Sizer)
    requires MatcherFits(m, size)
    ensures IsMatcher(MatcherValue(m), size)
  {
    hide IsSafeValue, Utf8Length, HasKeys, Name;
    FieldWords();
    MatcherWords();
    forall x, y ensures HasKeys(Obj(map[Name(KMode) := x, Name(KValue) := y]), {KMode, KValue}) {
      TwoKeys(KMode, KValue, x, y);
    }
  }

  /** What the parser takes for a matcher is a matcher of one of the three kinds, or none. */
  lemma MatchersAgree(v: Value, size: Sizer)
    ensures IsMatcher(v, size) <==> exists m :: ReadsAsMatcher(v, size, m)
  {
    hide IsMatcher, ReadsAsMatcher;
    if IsMatcher(v, size) { var m := MatcherReads(v, size); }
    if m :| ReadsAsMatcher(v, size, m) { Unwrapped(v, size, m); }
  }

  lemma Unwrapped(v: Value, size: Sizer, m: Option<Matcher>)
    requires ReadsAsMatcher(v, size, m)
    ensures IsMatcher(v, size)
  {
    hide IsMatcher;
    WrittenMatcher(m, size);
  }

  /** Different matchers are written differently. */
  lemma MatcherInjective(m: Option<Matcher>, n: Option<Matcher>)
    requires MatcherValue(m) == MatcherValue(n)
    ensures m == n
  {
    hide Name;
    FieldWords();
    MatcherWords();
    if m.Some? && n.Some? {
      assert MatcherValue(m).fields[Name(KMode)] == MatcherValue(n).fields[Name(KMode)];
      assert MatcherValue(m).fields[Name(KValue)] == MatcherValue(n).fields[Name(KValue)];
    }
  }

  // ----- expected files -----

  function FileValue(f: ExpectedFile): Value {
    Obj(map[Name(KPath) := Str(f.path), Name(KContent) := MatcherValue(f.content)])
  }

  predicate FileFits(f: ExpectedFile, size: Sizer) { ParsePath(Str(f.path)).Some? && MatcherFits(f.content, size) }

  lemma FileReads(v: Value, size: Sizer) returns (f: ExpectedFile)
    requires IsExpectedFile(v, size)
    ensures v == FileValue(f) && FileFits(f, size) && PathOf(v) == ParsePath(Str(f.path))
  {
    hide Name, ParsePath, IsMatcher, HasKeys;
    FieldWords();
    TwoFields(v, KPath, KContent);
    var path, content := v.fields[Name(KPath)], v.fields[Name(KContent)];
    var m := MatcherReads(content, size);
    PathIsText(path);
    f := ExpectedFile(path.s, m);
  }

  lemma PathIsText(v: Value)
    requires ParsePath(v).Some?
    ensures v == Str(v.s)
  {
    hide IsSafePath;
  }

  lemma WrittenFile(f: ExpectedFile, size: Sizer)
    requires FileFits(f, size)
    ensures IsExpectedFile(FileValue(f), size) && PathOf(FileValue(f)) == ParsePath(Str(f.path))
  {
    hide Name, ParsePath, IsMatcher, HasKeys, MatcherFits;
    FieldWords();
    TwoKeys(KPath, KContent, Str(f.path), MatcherValue(f.content));
    WrittenMatcher(f.content, size);
  }

  lemma FileInjective(f: ExpectedFile, g: ExpectedFile)
    requires FileValue(f) == FileValue(g)
    ensures f == g
  {
    hide Name, MatcherValue;
    FieldWords();
    assert FileValue(f).fields[Name(KPath)] == FileValue(g).fields[Name(KPath)];
    assert FileValue(f).fields[Name(KContent)] == FileValue(g).fields[Name(KContent)];
    MatcherInjective(f.content, g.content);
  }

  function FilesValue(files: seq<ExpectedFile>): Value {
    Arr(seq(|files|, i requires 0 <= i < |files| => FileValue(files[i])))
  }

  /** The paths are compared as they are after stripping. */
  predicate FilesFit(files: seq<ExpectedFile>, size: Sizer) {
    && |files| <= 20
    && (forall i | 0 <= i < |files| :: FileFits(files[i], size))
    && forall i, j | 0 <= i < j < |files| :: ParsePath(Str(files[i].path)) != ParsePath(Str(files[j].path))
  }

  lemma FilesRead(v: Value, size: Sizer) returns (files: seq<ExpectedFile>)
    requires IsExpectedFiles(v, size)
    ensures v == FilesValue(files) && FilesFit(files, size)
  {
    hide IsExpectedFile, FileFits, FileValue, PathOf, ParsePath;
    files := [];
    while |files| < |v.items|
      invariant |files| <= |v.items|
      invariant forall i | 0 <= i < |files| ::
        v.items[i] == FileValue(files[i]) && FileFits(files[i], size) && PathOf(v.items[i]) == ParsePath(Str(files[i].path))
    {
      var f := FileReads(v.items[|files|], size);
      files := files + [f];
    }
    assert v.items == FilesValue(files).items;
    forall i, j | 0 <= i < j < |files| ensures ParsePath(Str(files[i].path)) != ParsePath(Str(files[j].path)) {
      assert PathOf(v.items[i]) != PathOf(v.items[j]);
    }
  }

  lemma WrittenFiles(files: seq<ExpectedFile>, size: Sizer)
    requires FilesFit(files, size)
    ensures IsExpectedFiles(FilesValue(files), size)
  {
    hide IsExpectedFile, FileFits, FileValue, PathOf, ParsePath;
    var v := FilesValue(files);
    forall i | 0 <= i < |files| ensures IsExpectedFile(v.items[i], size) && PathOf(v.items[i]) == ParsePath(Str(files[i].path)) {
      WrittenFile(files[i], size);
    }
  }

  lemma FilesInjective(files: seq<ExpectedFile>, others: seq<ExpectedFile>)
    requires FilesValue(files) == FilesValue(others)
    ensures files == others
  {
    hide FileValue;
    assert |FilesValue(files).items| == |FilesValue(others).items|;
    forall i | 0 <= i < |files| ensures files[i] == others[i] {
      assert FilesValue(files).items[i] == FilesValue(others).items[i];
      FileInjective(files[i], others[i]);
    }
  }

  // ----- expectations -----

  function ExceptionValue(exception: Option<string>): Value {
    if exception.None? then Null else Str(exception.value)
  }

  function PythonFields(returned: Value, exception: Value, stdout: Value, files: Value): map<string, Value> {
    map[Name(KReturn) := returned, Name(KException) := exception, Name(KStdout) := stdout, Name(KFiles) := files]
  }

  function ExpectationValue(e: Expectation): Value {
    match e
    case PythonExpectation(returned, exception, argsAfter, stdout, files) =>
      var fields := PythonFields(returned, ExceptionValue(exception), MatcherValue(stdout), FilesValue(files));
      Obj(if argsAfter.None? then fields else fields[Name(KArgsAfter) := argsAfter.value])
    case CliExpectation(exitCode, stdout, stderr, files) =>
      Obj(map[Name(KExitCode) := Int(exitCode), Name(KStdout) := MatcherValue(stdout),
              Name(KStderr) := MatcherValue(stderr), Name(KFiles) := FilesValue(files)])
  }

  /** An exception comes without a return value; arguments are a short list. */
  predicate ExpectationFits(e: Expectation, size: Sizer) {
    match e
    case PythonExpectation(returned, exception, argsAfter, stdout, files) =>
      && IsSafeValue(returned, size)
      && (exception.Some? ==> IsExceptionName(exception.value) && returned.Null?)
      && (argsAfter.Some? ==>
            argsAfter.value.Arr? && |argsAfter.value.items| <= 20 && IsSafeValue(argsAfter.value, size))
      && MatcherFits(stdout, size) && FilesFit(files, size)
    case CliExpectation(exitCode, stdout, stderr, files) =>
      0 <= exitCode <= 255 && MatcherFits(stdout, size) && MatcherFits(stderr, size) && FilesFit(files, size)
  }

  lemma PythonWords()
    ensures Name(KReturn) != Name(KException) && Name(KReturn) != Name(KStdout) && Name(KReturn) != Name(KFiles)
    ensures Name(KException) != Name(KStdout) && Name(KException) != Name(KFiles) && Name(KStdout) != Name(KFiles)
  {
    assert Name(KReturn)[0] != Name(KStdout)[0];
  }

  lemma ArgsWord()
    ensures Name(KArgsAfter) != Name(KReturn) && Name(KArgsAfter) != Name(KException)
    ensures Name(KArgsAfter) != Name(KStdout) && Name(KArgsAfter) != Name(KFiles)
  {}

  lemma CliWords()
    ensures Name(KExitCode) != Name(KStdout) && Name(KExitCode) != Name(KStderr) && Name(KExitCode) != Name(KFiles)
    ensures Name(KStdout) != Name(KStderr) && Name(KStdout) != Name(KFiles) && Name(KStderr) != Name(KFiles)
  {
    assert Name(KStdout)[3] != Name(KStderr)[3];
  }

  /** An object has these keys if its map has exactly their names. */
  lemma KeysAre(f: map<string, Value>, keys: set<Word>)
    requires forall k | k in f :: exists w | w in keys :: Name(w) == k
    requires forall w | w in keys :: Name(w) in f
    ensures HasKeys(Obj(f), keys)
  {
    hide Name;
    assert f.Keys == set w | w in keys :: Name(w);
  }

  lemma HasEach(v: Value, keys: set<Word>)
    requires HasKeys(v, keys)
    ensures v.Obj?
    ensures forall w | w in keys :: Name(w) in v.fields
    ensures forall k | k in v.fields :: exists w | w in keys :: Name(w) == k
  {
    hide Name;
  }

  lemma PythonReads(v: Value, size: Sizer) returns (e: Expectation)
    requires IsPythonExpect(v, size)
    ensures e.PythonExpectation? && v == ExpectationValue(e) && ExpectationFits(e, size)
  {
    hide Name, HasKeys, IsMatcher, IsExpectedFiles, IsSafeValue, IsExceptionName, MatcherFits, FilesFit, MatcherValue,
         FilesValue;
    PythonWords();
    ArgsWord();
    var long := !HasKeys(v, {KReturn, KException, KStdout, KFiles});
    HasEach(v, if long then {KReturn, KException, KStdout, KFiles, KArgsAfter} else {KReturn, KException, KStdout, KFiles});
    var f := v.fields;
    assert KReturn in {KReturn, KException, KStdout, KFiles};
    assert long ==> Name(KArgsAfter) in f;
    var exception := f[Name(KException)];
    var stdout := MatcherReads(f[Name(KStdout)], size);
    var files := FilesRead(f[Name(KFiles)], size);
    e := PythonExpectation(f[Name(KReturn)], if exception.Null? then None else Some(exception.s),
                           if long then Some(f[Name(KArgsAfter)]) else None, stdout, files);
    assert f == ExpectationValue(e).fields;
  }

  lemma CliReads(v: Value, size: Sizer) returns (e: Expectation)
    requires IsCliExpect(v, size)
    ensures e.CliExpectation? && v == ExpectationValue(e) && ExpectationFits(e, size)
  {
    hide Name, HasKeys, IsMatcher, IsExpectedFiles, MatcherFits, FilesFit, MatcherValue, FilesValue;
    CliWords();
    HasEach(v, {KExitCode, KStdout, KStderr, KFiles});
    var f := v.fields;
    var stdout := MatcherReads(f[Name(KStdout)], size);
    var stderr := MatcherReads(f[Name(KStderr)], size);
    var files := FilesRead(f[Name(KFiles)], size);
    e := CliExpectation(f[Name(KExitCode)].i, stdout, stderr, files);
    assert f == ExpectationValue(e).fields;
  }

  lemma WrittenPython(e: Expectation, size: Sizer)
    requires e.PythonExpectation? && ExpectationFits(e, size)
    ensures IsPythonExpect(ExpectationValue(e), size)
  {
    hide Name, HasKeys, IsMatcher, IsExpectedFiles, IsSafeValue, IsExceptionName, MatcherFits, FilesFit, MatcherValue,
         FilesValue;
    PythonWords();
    ArgsWord();
    var f := ExpectationValue(e).fields;
    KeysAre(f, if e.argsAfter.Some? then {KReturn, KException, KStdout, KFiles, KArgsAfter}
               else {KReturn, KException, KStdout, KFiles});
    WrittenMatcher(e.stdout, size);
    WrittenFiles(e.files, size);
  }

  lemma WrittenCli(e: Expectation, size: Sizer)
    requires e.CliExpectation? && ExpectationFits(e, size)
    ensures IsCliExpect(ExpectationValue(e), size)
  {
    hide Name, HasKeys, IsMatcher, IsExpectedFiles, MatcherFits, FilesFit, MatcherValue, FilesValue;
    CliWords();
    KeysAre(ExpectationValue(e).fields, {KExitCode, KStdout, KStderr, KFiles});
    WrittenMatcher(e.stdout, size);
    WrittenMatcher(e.stderr, size);
    WrittenFiles(e.files, size);
  }

  lemma PythonInjective(e: Expectation, d: Expectation)
    requires e.PythonExpectation? && d.PythonExpectation? && ExpectationValue(e) == ExpectationValue(d)
    ensures e == d
  {
    hide Name, MatcherValue, FilesValue;
    PythonWords();
    ArgsWord();
    var f, g := ExpectationValue(e).fields, ExpectationValue(d).fields;
    assert f[Name(KReturn)] == g[Name(KReturn)] && f[Name(KException)] == g[Name(KException)];
    assert f[Name(KStdout)] == g[Name(KStdout)] && f[Name(KFiles)] == g[Name(KFiles)];
    assert Name(KArgsAfter) in f <==> Name(KArgsAfter) in g;
    assert Name(KArgsAfter) in f ==> f[Name(KArgsAfter)] == g[Name(KArgsAfter)];
    MatcherInjective(e.stdout, d.stdout);
    FilesInjective(e.files, d.files);
  }

  lemma CliInjective(e: Expectation, d: Expectation)
    requires e.CliExpectation? && d.CliExpectation? && ExpectationValue(e) == ExpectationValue(d)
    ensures e == d
  {
    hide Name, MatcherValue, FilesValue;
    CliWords();
    var f, g := ExpectationValue(e).fields, ExpectationValue(d).fields;
    assert f[Name(KExitCode)] == g[Name(KExitCode)] && f[Name(KStdout)] == g[Name(KStdout)];
    assert f[Name(KStderr)] == g[Name(KStderr)] && f[Name(KFiles)] == g[Name(KFiles)];
    MatcherInjective(e.stdout, d.stdout);
    MatcherInjective(e.stderr, d.stderr);
    FilesInjective(e.files, d.files);
  }

  ghost predicate ReadsAs(v: Value, adapter: Adapter, size: Sizer, e: Expectation) {
    e.PythonExpectation? == adapter.PythonCall? && v == ExpectationValue(e) && ExpectationFits(e, size)
  }

  /** What the parser accepts as the expectation of a case is exactly what is written from an expectation of the
      comparators for its adapter, within the limits, and that expectation is the only one. */
  lemma ExpectationsAgree(v: Value, adapter: Adapter, size: Sizer, d: Expectation, e: Expectation)
    ensures
      (if adapter.PythonCall? then IsPythonExpect(v, size) else IsCliExpect(v, size)) <==>
        exists x :: ReadsAs(v, adapter, size, x)
    ensures ReadsAs(v, adapter, size, d) && ReadsAs(v, adapter, size, e) ==> d == e
  {
    hide IsPythonExpect, IsCliExpect, ExpectationValue, ExpectationFits;
    if adapter.PythonCall? && IsPythonExpect(v, size) {
      var x := PythonReads(v, size);
      assert ReadsAs(v, adapter, size, x);
    }
    if adapter.Cli? && IsCliExpect(v, size) {
      var x := CliReads(v, size);
      assert ReadsAs(v, adapter, size, x);
    }
    if x :| ReadsAs(v, adapter, size, x) {
      if adapter.PythonCall? { WrittenPython(x, size); } else { WrittenCli(x, size); }
    }
    if ReadsAs(v, adapter, size, d) && ReadsAs(v, adapter, size, e) {
      if adapter.PythonCall? { PythonInjective(d, e); } else { CliInjective(d, e); }
    }
  }
}
