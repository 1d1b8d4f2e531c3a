/** The texts that the services make out of words: a slug is the runs of usable characters, a description line is its
    words, a branch name is its task ID and the beginning of the title's slug. */
module Words {
  import opened Text
  import opened Naming
  import N = NormalizeKey
  import M = MentiBot

  /** The longest parts of `s` whose characters are all kept, in order. */
  function Runs(s: string, keep: char -> bool): seq<string> {
    if s == "" then []
    else if !keep(s[0]) then Runs(s[1..], keep)
    else if |s| == 1 || !keep(s[1]) then [[s[0]]] + Runs(s[1..], keep)
    else
      var rest := Runs(s[1..], keep);
      if rest == [] then [[s[0]]] else [[s[0]] + rest[0]] + rest[1..]
  }

  function JoinedBy(parts: seq<string>, mark: char): string {
    if parts == [] then ""
    else if |parts| == 1 then parts[0]
    else parts[0] + [mark] + JoinedBy(parts[1..], mark)
  }

  lemma {:induction false} RunsAreThere(s: string, keep: char -> bool)
    ensures forall run | run in Runs(s, keep) :: run != "" && forall c | c in run :: keep(c)
    ensures s != "" && keep(s[0]) ==> Runs(s, keep) != []
    decreases s
  {
    if s != "" {
      RunsAreThere(s[1..], keep);
      var rest := Runs(s[1..], keep);
      if keep(s[0]) && 1 < |s| && keep(s[1]) && rest != [] {
        assert s[1..][0] == s[1];
        forall run | run in Runs(s, keep) ensures run != "" && forall c | c in run :: keep(c) {
          assert run == [s[0]] + rest[0] || run in rest;
          assert rest[0] in rest;
        }
      }
    }
  }

  lemma JoinedIsSomething(parts: seq<string>, mark: char)
    requires forall part | part in parts :: part != ""
    ensures JoinedBy(parts, mark) == "" <==> parts == []
  {
    if parts != [] { assert parts[0] in parts; }
  }

  lemma JoinedFirst(c: char, parts: seq<string>, mark: char)
    requires parts != []
    ensures JoinedBy([[c] + parts[0]] + parts[1..], mark) == [c] + JoinedBy(parts, mark)
  {
    var longer := [[c] + parts[0]] + parts[1..];
    assert longer[1..] == parts[1..];
    if |parts| > 1 {
      assert [c] + parts[0] + [mark] + JoinedBy(parts[1..], mark) == [c] + (parts[0] + [mark] + JoinedBy(parts[1..], mark));
    }
  }

  lemma JoinedNew(c: char, parts: seq<string>, mark: char)
    ensures JoinedBy([[c]] + parts, mark) == if parts == [] then [c] else [c] + [mark] + JoinedBy(parts, mark)
  {
    assert ([[c]] + parts)[1..] == parts;
  }

  /** One character before the runs of the rest. */
  lemma RunsStep(s: string, keep: char -> bool, mark: char)
    requires s != "" && keep(s[0])
    ensures
      var rest := JoinedBy(Runs(s[1..], keep), mark);
      JoinedBy(Runs(s, keep), mark) ==
        [s[0]] + (if |s| == 1 || keep(s[1]) || rest == "" then rest else [mark] + rest)
  {
    var runs := Runs(s[1..], keep);
    RunsAreThere(s[1..], keep);
    JoinedIsSomething(runs, mark);
    if |s| == 1 || !keep(s[1]) {
      JoinedNew(s[0], runs, mark);
      assert [s[0]] + [mark] + JoinedBy(runs, mark) == [s[0]] + ([mark] + JoinedBy(runs, mark));
    } else {
      assert s[1..][0] == s[1];
      JoinedFirst(s[0], runs, mark);
    }
  }

  // ----- slugs -----

  lemma {:induction false} CollapsedIsRuns(s: string)
    ensures StripRight(Collapsed(s, true), IsHyphen) == JoinedBy(Runs(s, IsKeyChar), '-')
    decreases s
  {
    hide IsHyphen, IsKeyChar, StripRight, JoinedBy, Collapsed, Runs;
    CollapsedUnfolds(s, true);
    if s != "" {
      var t := s[1..];
      CollapsedIsRuns(t);
      if IsKeyChar(s[0]) {
        var rest := StripRight(Collapsed(t, true), IsHyphen);
        KeyIsNoHyphen(s[0]);
        N.StripRightCons(s[0], Collapsed(t, false));
        RunsStep(s, IsKeyChar, '-');
        CollapsedUnfolds(t, true);
        CollapsedUnfolds(t, false);
        assert t != "" ==> s[1] == t[0];
        if t != "" && !IsKeyChar(t[0]) {
          assert "" + Collapsed(t[1..], true) == Collapsed(t[1..], true);
          assert Collapsed(t, false) == ['-'] + Collapsed(t, true);
          N.StripRightCons('-', Collapsed(t, true));
        }
        StripRightNothing();
      } else {
        assert "" + Collapsed(t, true) == Collapsed(t, true);
      }
    } else {
      StripRightNothing();
    }
  }

  lemma StripRightNothing()
    ensures StripRight("", IsHyphen) == ""
  {}

  lemma KeyIsNoHyphen(c: char)
    ensures IsKeyChar(c) ==> c != '-'
  {}

  lemma CollapsedUnfolds(s: string, inGap: bool)
    ensures s == "" ==> Collapsed(s, inGap) == "" && Runs(s, IsKeyChar) == [] && JoinedBy([], '-') == ""
    ensures s != "" && IsKeyChar(s[0]) ==> Collapsed(s, inGap) == [s[0]] + Collapsed(s[1..], false)
    ensures s != "" && !IsKeyChar(s[0]) ==>
      && Collapsed(s, inGap) == (if inGap then "" else "-") + Collapsed(s[1..], true)
      && Runs(s, IsKeyChar) == Runs(s[1..], IsKeyChar)
  {
    hide IsKeyChar;
  }

  /** A slug is the runs of letters and digits of the lowered, transliterated title, joined by hyphens. */
  lemma SlugJoinsRuns(normalized: string)
    ensures Slug(normalized) == JoinedBy(Runs(normalized, IsKeyChar), '-')
  {
    hide IsHyphen, IsKeyChar, StripRight, JoinedBy, Collapsed, Runs;
    CollapsedIsRuns(normalized);
    N.StripLeftGap(normalized);
    NoHyphenFirst(normalized);
  }

  lemma NoHyphenFirst(s: string)
    ensures StripLeft(Collapsed(s, true), IsHyphen) == Collapsed(s, true)
  {
    hide Collapsed;
    CollapsedIsSpaced(s, true);
  }

  /** A branch name is `task/`, the task ID, a hyphen and the slug of the title, or `task` for a title without usable
      characters; a slug that does not fit is cut, by at most one character more than needed. */
  lemma BranchNameTells(taskId: string, normalized: string)
    requires IsTaskId(taskId)
    ensures
      var slug := JoinedBy(Runs(normalized, IsKeyChar), '-');
      var whole := "task/" + taskId + "-" + (if slug == "" then "task" else slug);
      var name := BranchName(taskId, normalized);
      && name <= whole
      && (|whole| <= LONGEST_BRANCH ==> name == whole)
      && (LONGEST_BRANCH < |whole| ==> LONGEST_BRANCH - 1 <= |name| <= LONGEST_BRANCH)
  {
    hide IsKey, Slug, StripBy, Runs, JoinedBy, StripRight;
    SlugJoinsRuns(normalized);
    TaskSlugIsKey(normalized);
    var tail := if Slug(normalized) == "" then "task" else Slug(normalized);
    var prefix := "task/" + taskId + "-";
    CutTells(tail, LONGEST_BRANCH - |prefix|);
    assert BranchName(taskId, normalized) == prefix + StripRight(Slice(tail, LONGEST_BRANCH - |prefix|), IsHyphen);
  }

  lemma CutTells(key: string, k: nat)
    requires IsKey(key) && 0 < k
    ensures
      var cut := StripRight(Slice(key, k), IsHyphen);
      cut <= key && (|key| <= k ==> cut == key) && (k < |key| ==> k - 1 <= |cut| <= k)
  {
    var slice := Slice(key, k);
    var cut := StripRight(slice, IsHyphen);
    assert forall i | 0 <= i < |slice| :: slice[i] == key[i];
    assert forall i | |cut| <= i < |slice| :: IsHyphen(slice[i]);
    assert 2 <= k < |key| ==> !(IsHyphen(slice[k - 2]) && IsHyphen(slice[k - 1]));
    assert |key| <= k ==> !IsHyphen(slice[|slice| - 1]);
  }

  // ----- project directories -----

  /** The character of the key, or its capital. */
  predicate UpTo(c: char, key: char) { c == key || (c as int + 32 == key as int && 'a' <= key) }

  /** The project names a directory exactly when, without surrounding spaces, it is a key of at most 64 characters up
      to capital letters, and then it names that key. */
  lemma ProjectNamesKey(project: string, key: string)
    ensures ProjectDirectory(project) == Some(key) <==>
      && IsKey(key) && |key| <= 64 && |Strip(project)| == |key|
      && forall i | 0 <= i < |key| :: UpTo(Strip(project)[i], key[i])
  {
    hide IsKey, Strip;
    var raw := Strip(project);
    if ProjectDirectory(project) == Some(key) {
      KeyCharsOf(key);
    }
    if IsKey(key) && |raw| == |key| && (forall i | 0 <= i < |key| :: UpTo(raw[i], key[i])) {
      KeyCharsOf(key);
      forall i | 0 <= i < |key| ensures AsciiLower(raw[i]) == key[i] && raw[i] < '\U{80}' {}
      assert Lowered(raw) == key;
    }
  }

  lemma KeyCharsOf(key: string)
    ensures IsKey(key) ==> forall i | 0 <= i < |key| :: IsKeyChar(key[i]) || key[i] == '-'
  {}

  // ----- descriptions -----

  predicate NoSpace(c: char) { !IsSpace(c) }

  lemma {:induction false} SqueezedFrom(s: string, inWord: bool, started: bool)
    ensures
      var words := JoinedBy(Runs(s, NoSpace), ' ');
      M.Squeezed(s, inWord, started) ==
        (if words == "" then "" else if started && !(inWord && NoSpace(s[0])) then " " + words else words)
    decreases s
  {
    hide IsSpace, JoinedBy, Runs;
    SqueezedUnfolds(s, inWord, started);
    if s != "" {
      if IsSpace(s[0]) {
        SqueezedFrom(s[1..], false, started);
      } else {
        SqueezedFrom(s[1..], true, true);
        RunsStep(s, NoSpace, ' ');
      }
    }
  }

  lemma SqueezedUnfolds(s: string, inWord: bool, started: bool)
    ensures s == "" ==> M.Squeezed(s, inWord, started) == "" && JoinedBy(Runs(s, NoSpace), ' ') == ""
    ensures s != "" && IsSpace(s[0]) ==>
      M.Squeezed(s, inWord, started) == M.Squeezed(s[1..], false, started) && Runs(s, NoSpace) == Runs(s[1..], NoSpace)
  {
    hide IsSpace;
  }

  /** A description line is the words of the description with one space between them. */
  lemma DescriptionJoinsWords(s: string)
    ensures M.Squeezed(s, false, false) == JoinedBy(Runs(s, NoSpace), ' ')
  {
    hide IsSpace, JoinedBy, Runs;
    SqueezedFrom(s, false, false);
  }

  // ----- bounded texts -----

  predicate AllSpace(s: string) { forall c | c in s :: IsSpace(c) }

  /** The store takes a question or an answer exactly if it says something, fits unstripped, and has no NUL; and it takes
      the text between the surrounding white space. */
  lemma TextIsBounded(value: string, maximum: nat)
    ensures BoundedText(value, maximum).Some? <==> !AllSpace(value) && |value| <= maximum && '\0' !in value
    ensures BoundedText(value, maximum).Some? ==>
      exists lead, trail :: value == lead + BoundedText(value, maximum).value + trail && AllSpace(lead) && AllSpace(trail)
    ensures BoundedText(value, maximum).Some? ==>
      var text := BoundedText(value, maximum).value;
      text != "" && !IsSpace(text[0]) && !IsSpace(text[|text| - 1])
  {
    hide StripBy, IsSpace;
    var d := StripByPart(value, IsSpace);
    StripIdempotent(value, IsSpace);
    var text := Strip(value);
    assert value == value[..d] + text + value[d + |text|..];
    assert AllSpace(value[..d]) && AllSpace(value[d + |text|..]);
    if text != "" { assert text[0] in value; }
  }
}
