/** The two reference programs for normalising a project key: a pipeline of string operations and a
    one-pass state machine. */
module NormalizeKey {
  import opened Text
  import opened Naming

  predicate IsAscii(s: string) { forall i | 0 <= i < |s| :: s[i] < '\U{80}' }

  predicate IsSeparator(c: char) { c == ' ' || c == '_' || c == '-' }

  predicate IsAlnum(c: char) { IsKeyChar(AsciiLower(c)) }

  /** `[A-Za-z0-9 _-]`. */
  predicate Allowed(c: char) { IsAlnum(c) || IsSeparator(c) }

  predicate AllAllowed(s: string) { forall i | 0 <= i < |s| :: Allowed(s[i]) }

  predicate HasAlnum(s: string) { exists i :: 0 <= i < |s| && IsAlnum(s[i]) }

  // ----- the pipeline -----

  /** `re.sub("[ _-]+", "-", s)`; `inGap` says that the run before `s` was already replaced. */
  function Dashed(s: string, inGap: bool): string {
    if s == "" then ""
    else if !IsSeparator(s[0]) then [s[0]] + Dashed(s[1..], false)
    else if inGap then Dashed(s[1..], true)
    else "-" + Dashed(s[1..], true)
  }

  /** The regular-expression program; nothing stands for its `ValueError`. */
  function Pipeline(value: string): Option<string> {
    if !IsAscii(value) || !AllAllowed(value) then None
    else
      var result := Lowered(StripBy(Dashed(Strip(value), false), IsHyphen));
      if result == "" then None else Some(result)
  }

  // ----- the state machine -----

  /** The rest of the machine's run: what it has put out, and whether a separator is pending. */
  function Scan(s: string, output: string, pending: bool): Option<string> {
    if s == "" then Some(output)
    else if IsSeparator(s[0]) then Scan(s[1..], output, output != "")
    else if IsAlnum(s[0]) then Scan(s[1..], output + (if pending then "-" else "") + [AsciiLower(s[0])], false)
    else None
  }

  function Machine(value: string): Option<string> {
    if !IsAscii(value) then None
    else
      match Scan(Strip(value), "", false)
      case None => None
      case Some(output) =>
        var result := StripRight(output, IsHyphen);
        if result == "" then None else Some(result)
  }

  lemma ScanUnfolds(s: string, output: string, pending: bool)
    requires s != ""
    ensures Scan(s, output, pending) ==
      if IsSeparator(s[0]) then Scan(s[1..], output, output != "")
      else if IsAlnum(s[0]) then Scan(s[1..], output + (if pending then "-" else "") + [AsciiLower(s[0])], false)
      else None
  {}

  method RunMachine(value: string) returns (r: Option<string>)
    ensures r == Machine(value)
  {
    hide Strip, IsAlnum, IsSeparator, AsciiLower, StripRight;
    if exists i | 0 <= i < |value| :: '\U{80}' <= value[i] { return None; }
    var stripped := Strip(value);
    assert stripped[0..] == stripped;
    var output, pending := "", false;
    var i := 0;
    while i < |stripped|
      invariant 0 <= i <= |stripped|
      invariant Scan(stripped[i..], output, pending) == Scan(stripped, "", false)
    {
      var c := stripped[i];
      ScanUnfolds(stripped[i..], output, pending);
      assert stripped[i..][0] == c && stripped[i..][1..] == stripped[i + 1..];
      if IsSeparator(c) {
        pending := output != "";
      } else if IsAlnum(c) {
        assert output + "" == output;
        if pending { output := output + "-"; }
        output := output + [AsciiLower(c)];
        pending := false;
      } else {
        return None;
      }
      i := i + 1;
    }
    var result := StripRight(output, IsHyphen);
    r := if result == "" then None else Some(result);
  }

  // ----- both compute the slug of the lowered text -----

  lemma LoweredHead(s: string)
    requires s != ""
    ensures Lowered(s) != "" && Lowered(s)[0] == AsciiLower(s[0]) && Lowered(s)[1..] == Lowered(s[1..])
    ensures IsHyphen(AsciiLower(s[0])) <==> IsHyphen(s[0])
  {}

  lemma LoweredCons(c: char, s: string)
    ensures Lowered([c] + s) == [AsciiLower(c)] + Lowered(s)
  {}

  lemma SeparatorOrKey(c: char)
    requires Allowed(c)
    ensures IsSeparator(c) <==> !IsKeyChar(AsciiLower(c))
    ensures AsciiLower('-') == '-'
  {}

  lemma {:induction false} DashedIsCollapsed(s: string, inGap: bool)
    requires AllAllowed(s)
    ensures Lowered(Dashed(s, inGap)) == Collapsed(Lowered(s), inGap)
    decreases s
  {
    hide Lowered, AsciiLower, Allowed, IsSeparator, IsKeyChar;
    if s == "" {
      LoweredNothing();
    } else {
      LoweredHead(s);
      SeparatorOrKey(s[0]);
      DashedIsCollapsed(s[1..], IsSeparator(s[0]));
      LoweredCons(s[0], Dashed(s[1..], false));
      LoweredCons('-', Dashed(s[1..], true));
    }
  }

  lemma LoweredNothing()
    ensures Lowered("") == ""
  {}

  lemma {:induction false} LoweredStripLeft(s: string)
    ensures Lowered(StripLeft(s, IsHyphen)) == StripLeft(Lowered(s), IsHyphen)
    decreases s
  {
    hide Lowered, AsciiLower, IsHyphen;
    if s == "" {
      LoweredNothing();
    } else {
      LoweredHead(s);
      if IsHyphen(s[0]) { LoweredStripLeft(s[1..]); }
    }
  }

  lemma {:induction false} LoweredStripRight(s: string)
    ensures Lowered(StripRight(s, IsHyphen)) == StripRight(Lowered(s), IsHyphen)
    decreases s
  {
    if s != "" && IsHyphen(s[|s| - 1]) {
      LoweredStripRight(s[..|s| - 1]);
      assert Lowered(s)[..|s| - 1] == Lowered(s[..|s| - 1]);
    }
  }

  lemma PipelineIsSlug(s: string)
    requires AllAllowed(s)
    ensures Lowered(StripBy(Dashed(s, false), IsHyphen)) == Slug(Lowered(s))
  {
    DashedIsCollapsed(s, false);
    LoweredStripLeft(Dashed(s, false));
    LoweredStripRight(StripLeft(Dashed(s, false), IsHyphen));
  }

  lemma {:induction false} StripRightCons(c: char, s: string)
    ensures c != '-' || StripRight(s, IsHyphen) != "" ==> StripRight([c] + s, IsHyphen) == [c] + StripRight(s, IsHyphen)
    ensures c == '-' && StripRight(s, IsHyphen) == "" ==> StripRight([c] + s, IsHyphen) == ""
    decreases |s|
  {
    var t := [c] + s;
    if s != "" {
      assert t[..|t| - 1] == [c] + s[..|s| - 1];
      if IsHyphen(s[|s| - 1]) { StripRightCons(c, s[..|s| - 1]); }
    } else {
      assert t[..0] == "";
      assert StripRight("", IsHyphen) == "";
    }
  }

  /** What the machine has still to put out, given what it has. */
  function Remaining(s: string, output: string, pending: bool): string {
    var t := Lowered(s);
    if output == "" then StripBy(Collapsed(t, false), IsHyphen)
    else if pending then StripRight("-" + Collapsed(t, true), IsHyphen)
    else StripRight(Collapsed(t, false), IsHyphen)
  }

  lemma StripLeftHyphen(x: string)
    ensures StripLeft("-" + x, IsHyphen) == StripLeft(x, IsHyphen)
  {
    assert ("-" + x)[1..] == x && IsHyphen(("-" + x)[0]);
  }

  lemma StripLeftGap(t: string)
    ensures StripLeft(Collapsed(t, true), IsHyphen) == StripLeft(Collapsed(t, false), IsHyphen)
  {
    hide StripLeft, IsKeyChar;
    if t != "" && !IsKeyChar(t[0]) { StripLeftHyphen(Collapsed(t[1..], true)); }
  }

  lemma RemainingAtSeparator(s: string, output: string, pending: bool)
    requires s != "" && IsSeparator(s[0]) && (pending ==> output != "")
    ensures Remaining(s, output, pending) == Remaining(s[1..], output, output != "")
  {
    hide StripRight;
    var t := Lowered(s);
    assert t[1..] == Lowered(s[1..]) && !IsKeyChar(t[0]);
    if output == "" {
      StripLeftGap(t[1..]);
      StripLeftHyphen(Collapsed(t[1..], true));
    }
  }

  lemma CollapsedAtKey(t: string, inGap: bool)
    requires t != "" && IsKeyChar(t[0])
    ensures Collapsed(t, inGap) == [t[0]] + Collapsed(t[1..], false) && t[0] != '-'
  {}

  lemma StripLeftKey(c: char, x: string)
    requires c != '-'
    ensures StripLeft([c] + x, IsHyphen) == [c] + x
  {}

  lemma RemainingAtAlnum(s: string, output: string, pending: bool)
    requires s != "" && IsAlnum(s[0]) && (pending ==> output != "")
    ensures
      var next := output + (if pending then "-" else "") + [AsciiLower(s[0])];
      next != "" && output + Remaining(s, output, pending) == next + Remaining(s[1..], next, false)
  {
    hide StripRight, StripLeft, Collapsed, Lowered, AsciiLower, IsHyphen;
    var t, c := Lowered(s), AsciiLower(s[0]);
    LoweredHead(s);
    var x := Collapsed(t[1..], false);
    var r := StripRight(x, IsHyphen);
    CollapsedAtKey(t, pending);
    StripRightCons(c, x);
    assert StripRight([c] + x, IsHyphen) == [c] + r;
    if pending {
      DashFirst([c] + x);
      assert output + ("-" + ([c] + r)) == output + "-" + [c] + r;
    } else {
      StripLeftKey(c, x);
      assert output + ([c] + r) == output + "" + [c] + r;
    }
  }

  lemma DashFirst(x: string)
    requires StripRight(x, IsHyphen) != ""
    ensures StripRight("-" + x, IsHyphen) == "-" + StripRight(x, IsHyphen)
  {
    StripRightCons('-', x);
    assert "-" + x == ['-'] + x;
  }

  lemma {:induction false} ScanPutsOutSlug(s: string, output: string, pending: bool)
    requires AllAllowed(s) && (pending ==> output != "")
    ensures Scan(s, output, pending) == Some(output + Remaining(s, output, pending))
    decreases |s|
  {
    if s == "" {
      NothingRemains(output, pending);
    } else {
      hide IsAlnum, IsSeparator, AsciiLower, Remaining;
      assert Allowed(s[0]);
      ScanUnfolds(s, output, pending);
      if IsSeparator(s[0]) {
        RemainingAtSeparator(s, output, pending);
        ScanPutsOutSlug(s[1..], output, output != "");
      } else {
        RemainingAtAlnum(s, output, pending);
        ScanPutsOutSlug(s[1..], output + (if pending then "-" else "") + [AsciiLower(s[0])], false);
      }
    }
  }

  lemma NothingRemains(output: string, pending: bool)
    ensures output + Remaining("", output, pending) == output
  {
    assert Lowered("") == "";
    StripRightCons('-', "");
    assert "-" == ['-'] + "" && StripRight("", IsHyphen) == "";
  }

  // ----- the theorems -----

  predicate Agree(value: string) { Pipeline(value) == Machine(value) }

  /** White space other than a space, at either end. */
  predicate OddEdges(value: string) {
    exists i | 0 <= i < |value| :: IsSpace(value[i]) && value[i] != ' '
  }

  lemma NoHyphenAtEnd(s: string)
    requires s == "" || !IsHyphen(s[|s| - 1])
    ensures StripRight(s, IsHyphen) == s
  {}

  lemma SlugEndsWell(normalized: string)
    ensures StripRight(Slug(normalized), IsHyphen) == Slug(normalized)
  {
    hide StripBy, IsHyphen, StripRight;
    StripIdempotent(Collapsed(normalized, false), IsHyphen);
    NoHyphenAtEnd(Slug(normalized));
  }

  /** On text whose stripped part is allowed the machine computes the slug of the lowered part. */
  lemma MachineIsSlug(value: string)
    requires IsAscii(value) && AllAllowed(Strip(value))
    ensures Machine(value) == if Slug(Lowered(Strip(value))) == "" then None else Some(Slug(Lowered(Strip(value))))
  {
    hide Strip, IsAlnum, IsSeparator, Scan, StripBy, StripRight, Collapsed, IsHyphen, Lowered;
    var s := Strip(value);
    ScanPutsOutSlug(s, "", false);
    assert "" + Remaining(s, "", false) == Slug(Lowered(s));
    SlugEndsWell(Lowered(s));
  }

  lemma {:induction false} ScanRefuses(s: string, output: string, pending: bool)
    requires !AllAllowed(s)
    ensures Scan(s, output, pending) == None
    decreases |s|
  {
    hide Allowed, IsAlnum, IsSeparator, AsciiLower;
    assert s != "";
    ScanUnfolds(s, output, pending);
    AllowedIs(s[0]);
    if Allowed(s[0]) {
      assert !AllAllowed(s[1..]) by {
        var i :| 0 <= i < |s| && !Allowed(s[i]);
        assert s[1..][i - 1] == s[i];
      }
      if IsSeparator(s[0]) {
        ScanRefuses(s[1..], output, output != "");
      } else {
        ScanRefuses(s[1..], output + (if pending then "-" else "") + [AsciiLower(s[0])], false);
      }
    }
  }

  lemma AllowedIs(c: char)
    ensures Allowed(c) <==> IsAlnum(c) || IsSeparator(c)
  {}

  /** Whatever lies outside the stripped part is white space. */
  lemma AllowedParts(value: string)
    ensures AllAllowed(value) <==> AllAllowed(Strip(value)) && !OddEdges(value)
  {
    hide StripBy;
    var d := StripByPart(value, IsSpace);
    var s := Strip(value);
    forall i | 0 <= i < |s| ensures s[i] == value[d + i] {}
    if AllAllowed(value) {
      forall i | 0 <= i < |s| ensures Allowed(s[i]) { assert s[i] == value[d + i]; }
    }
    if AllAllowed(s) && !OddEdges(value) {
      forall i | 0 <= i < |value| ensures Allowed(value[i]) {
        if d <= i < d + |s| { assert s[i - d] == value[i]; } else { assert IsSpace(value[i]); }
      }
    }
  }

  lemma {:induction false} SlugOfAlnum(s: string)
    ensures HasKeyChar(Lowered(s)) <==> HasAlnum(s)
  {
    if i :| 0 <= i < |s| && IsAlnum(s[i]) { assert IsKeyChar(Lowered(s)[i]); }
    if i :| 0 <= i < |Lowered(s)| && IsKeyChar(Lowered(s)[i]) { assert IsAlnum(s[i]); }
  }

  /** The two programs agree, in result or in refusing, on every text except exactly these: ASCII text
      whose stripped part is acceptable and has a letter or digit, but with a tab, a line break or other
      non-space white space around it, which the machine strips and the pipeline refuses. */
  lemma ProgramsAgreeExactly(value: string)
    ensures Agree(value) <==>
      !(IsAscii(value) && AllAllowed(Strip(value)) && HasAlnum(Strip(value)) && OddEdges(value))
  {
    hide Strip, Allowed, IsAlnum, IsSeparator, IsSpace, Slug, Scan, Dashed, StripBy, Lowered;
    AllowedParts(value);
    var s := Strip(value);
    if IsAscii(value) {
      if AllAllowed(s) {
        MachineIsSlug(value);
        PipelineIsSlug(s);
        SlugOfAlnum(s);
        SlugIsKey(Lowered(s));
        KeyIsSomething(Slug(Lowered(s)));
      } else {
        ScanRefuses(s, "", false);
      }
    }
  }

  lemma KeyIsSomething(s: string)
    ensures IsKey(s) ==> s != ""
  {}

  predicate AllSpaces(s: string) { forall i | 0 <= i < |s| :: s[i] == ' ' }

  /** Hence they agree on every text with nothing but spaces around it. */
  lemma ProgramsAgreeWithinSpaces(lead: string, middle: string, trail: string)
    requires AllSpaces(lead) && AllSpaces(trail)
    requires middle != "" ==> !IsSpace(middle[0]) && !IsSpace(middle[|middle| - 1])
    ensures Agree(lead + middle + trail)
  {
    hide Allowed, Agree, StripBy, IsSpace;
    var value := lead + middle + trail;
    ProgramsAgreeExactly(value);
    if AllAllowed(middle) {
      forall i | 0 <= i < |value| && IsSpace(value[i]) ensures value[i] == ' ' {
        if |lead| <= i < |lead| + |middle| {
          assert value[i] == middle[i - |lead|];
          AllowedSpace(value[i]);
        }
      }
    } else {
      var d := StripByPart(value, IsSpace);
      var k :| 0 <= k < |middle| && !Allowed(middle[k]);
      assert value[|lead|] == middle[0] && value[|lead| + |middle| - 1] == middle[|middle| - 1];
      assert d <= |lead| + k < d + |Strip(value)|;
      assert Strip(value)[|lead| + k - d] == value[|lead| + k] == middle[k];
    }
  }

  lemma AllowedSpace(c: char)
    ensures Allowed(c) && IsSpace(c) ==> c == ' '
  {}

  lemma {:induction false} SpacedIsCollapsed(s: string, inGap: bool)
    requires Spaced(s) && (inGap && s != "" ==> s[0] != '-')
    ensures Collapsed(s, inGap) == s
    decreases s
  {
    if s != "" {
      var rest := s[1..];
      assert forall i | 0 <= i < |rest| :: rest[i] == s[i + 1];
      SpacedIsCollapsed(rest, !IsKeyChar(s[0]));
      assert s == [s[0]] + rest;
    }
  }

  lemma KeyIsItsSlug(key: string)
    requires IsKey(key)
    ensures Slug(key) == key && Lowered(key) == key && IsAscii(key) && AllAllowed(key)
  {
    SpacedIsCollapsed(key, false);
    assert StripLeft(key, IsHyphen) == key && StripRight(key, IsHyphen) == key;
    assert Lowered(key) == key;
  }

  /** What either program returns is a key, and both return it unchanged. */
  lemma ResultsAreFixedPoints(value: string, key: string)
    requires Pipeline(value) == Some(key) || Machine(value) == Some(key)
    ensures IsKey(key) && Pipeline(key) == Some(key) && Machine(key) == Some(key)
  {
    hide Strip, Allowed, IsAlnum, IsSeparator, IsSpace, Slug, Scan, Dashed, StripBy, Lowered, IsKey, IsKeyChar;
    AllowedParts(value);
    var s := Strip(value);
    if !AllAllowed(s) {
      ScanRefuses(s, "", false);
    } else {
      MachineIsSlug(value);
      PipelineIsSlug(s);
      SlugIsKey(Lowered(s));
      assert key == Slug(Lowered(s)) && IsKey(key);
      KeyIsItsSlug(key);
      KeyIsStripped(key);
      KeyIsSomething(key);
      MachineIsSlug(key);
      PipelineIsSlug(key);
    }
  }

  /** Every result of the machine is a key, and normalising it again changes nothing. */
  lemma MachineIsIdempotent(value: string)
    ensures Machine(value).Some? ==> IsKey(Machine(value).value) && Machine(Machine(value).value) == Machine(value)
  {
    hide Machine, Pipeline, IsKey;
    if Machine(value).Some? { ResultsAreFixedPoints(value, Machine(value).value); }
  }

  /** The same for the pipeline. */
  lemma PipelineIsIdempotent(value: string)
    ensures Pipeline(value).Some? ==> IsKey(Pipeline(value).value) && Pipeline(Pipeline(value).value) == Pipeline(value)
  {
    hide Machine, Pipeline, IsKey;
    if Pipeline(value).Some? { ResultsAreFixedPoints(value, Pipeline(value).value); }
  }
}
