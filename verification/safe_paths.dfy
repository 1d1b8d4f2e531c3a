/** What the parser's path rule is for: the file that a safe path names. */
module SafePaths {
  import opened Contracts

  /** The text between the slashes. */
  function Parts(s: string): (p: seq<string>)
    ensures p != []
  {
    if s == "" then [""]
    else if s[0] == '/' then [""] + Parts(s[1..])
    else
      var rest := Parts(s[1..]);
      [[s[0]] + rest[0]] + rest[1..]
  }

  function Joined(parts: seq<string>): string
    requires parts != []
  {
    if |parts| == 1 then parts[0] else parts[0] + "/" + Joined(parts[1..])
  }

  /** The directory or file that the parts lead to from `at`. */
  function Walk(at: seq<string>, parts: seq<string>): seq<string>
    decreases parts
  {
    if parts == [] then at
    else
      var part := parts[0];
      var next := if part == "" || part == "." then at else if part == ".." then Up(at) else at + [part];
      Walk(next, parts[1..])
  }

  function Up(at: seq<string>): seq<string> { if at == [] then [] else at[..|at| - 1] }

  /** What `workspace / s` names; a leading slash starts at the root. */
  function Named(workspace: seq<string>, s: string): seq<string> {
    Walk(if s != "" && s[0] == '/' then [] else workspace, Parts(s))
  }

  predicate SafePart(part: string) { part != "" && part[0] != '.' }

  predicate SafeParts(parts: seq<string>) { forall part | part in parts :: SafePart(part) }

  predicate StartsPart(s: string, i: nat, begins: bool)
    requires i < |s|
  {
    if i == 0 then begins else s[i - 1] == '/'
  }

  /** The rule on positions, for a text that starts a part or goes on with one. */
  predicate GoodFrom(s: string, begins: bool) {
    && (s != "" ==> s[|s| - 1] != '/')
    && (begins ==> s != "")
    && forall i: nat | i < |s| && StartsPart(s, i, begins) :: s[i] != '/' && s[i] != '.'
  }

  lemma {:induction false} GoodIsSafe(s: string, begins: bool)
    ensures GoodFrom(s, begins) <==> (begins ==> SafePart(Parts(s)[0])) && SafeParts(Parts(s)[1..])
    decreases s
  {
    if s != "" {
      var rest := Parts(s[1..]);
      GoodIsSafe(s[1..], s[0] == '/');
      GoodShifts(s, begins);
      if s[0] == '/' {
        assert Parts(s)[1..] == rest && rest == [rest[0]] + rest[1..];
      } else {
        assert Parts(s)[1..] == rest[1..];
      }
    }
  }

  lemma GoodShifts(s: string, begins: bool)
    requires s != ""
    ensures GoodFrom(s, begins) <==> (begins ==> s[0] != '/' && s[0] != '.') && GoodFrom(s[1..], s[0] == '/')
  {
    var t := s[1..];
    if (begins ==> s[0] != '/' && s[0] != '.') && GoodFrom(t, s[0] == '/') {
      forall i: nat | i < |s| && StartsPart(s, i, begins) ensures s[i] != '/' && s[i] != '.' {
        if 0 < i { assert s[i] == t[i - 1] && StartsPart(t, i - 1, s[0] == '/'); }
      }
    }
    if GoodFrom(s, begins) {
      if begins { assert StartsPart(s, 0, begins); }
      forall i: nat | i < |t| && StartsPart(t, i, s[0] == '/') ensures t[i] != '/' && t[i] != '.' {
        assert t[i] == s[i + 1] && StartsPart(s, i + 1, begins);
      }
    }
  }

  /** The rule accepts exactly the texts without a backslash whose every part is there and not hidden. */
  lemma SafeExactly(s: string)
    ensures IsSafePath(s) <==> '\\' !in s && SafeParts(Parts(s))
  {
    GoodIsSafe(s, true);
    assert forall i: nat | i < |s| :: StartsPart(s, i, true) <==> i == 0 || s[i - 1] == '/';
    assert Parts(s) == [Parts(s)[0]] + Parts(s)[1..];
  }

  lemma {:induction false} SafeWalk(at: seq<string>, parts: seq<string>)
    requires SafeParts(parts)
    ensures Walk(at, parts) == at + parts
    decreases parts
  {
    if parts != [] {
      assert SafePart(parts[0]) && parts == [parts[0]] + parts[1..];
      SafeWalk(at + [parts[0]], parts[1..]);
      assert at + [parts[0]] + parts[1..] == at + parts;
    } else {
      assert at + parts == at;
    }
  }

  lemma {:induction false} PartsJoin(s: string)
    ensures Joined(Parts(s)) == s
    decreases s
  {
    if s != "" {
      PartsJoin(s[1..]);
      var rest := Parts(s[1..]);
      if s[0] == '/' {
        assert ([""] + rest)[1..] == rest;
      } else {
        assert ([[s[0]] + rest[0]] + rest[1..])[1..] == rest[1..];
      }
      assert s == [s[0]] + s[1..];
    }
  }

  /** A safe path names a file below the workspace, as deep as it has parts, and different safe paths name
      different files. */
  lemma SafePathsStayInside(workspace: seq<string>, s: string, other: string)
    requires IsSafePath(s)
    ensures Named(workspace, s) == workspace + Parts(s)
    ensures IsSafePath(other) && Named(workspace, other) == Named(workspace, s) ==> other == s
  {
    SafeNamed(workspace, s);
    if IsSafePath(other) && Named(workspace, other) == Named(workspace, s) {
      SafeNamed(workspace, other);
      assert Parts(s) == (workspace + Parts(s))[|workspace|..];
      assert Parts(other) == (workspace + Parts(other))[|workspace|..];
      PartsJoin(s);
      PartsJoin(other);
    }
  }

  lemma SafeNamed(workspace: seq<string>, s: string)
    requires IsSafePath(s)
    ensures Named(workspace, s) == workspace + Parts(s)
  {
    SafeExactly(s);
    SafeWalk(workspace, Parts(s));
  }
}
