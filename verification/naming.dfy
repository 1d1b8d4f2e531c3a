/** Names that the bridge makes up: branch names, project directories and task IDs. */
module Naming {
  import opened Text
  import opened Decimals

  // ----- slugs -----

  /** `re.sub("[^a-z0-9]+", "-", s)`; `inGap` says that the run before `s` was already replaced. */
  function Collapsed(s: string, inGap: bool): string {
    if s == "" then ""
    else if IsKeyChar(s[0]) then [s[0]] + Collapsed(s[1..], false)
    else if inGap then Collapsed(s[1..], true)
    else "-" + Collapsed(s[1..], true)
  }

  predicate IsHyphen(c: char) { c == '-' }

  /** `normalized` is the title in lower case, transliterated. */
  function Slug(normalized: string): string { StripBy(Collapsed(normalized, false), IsHyphen) }

  /** Key characters and single hyphens. */
  predicate Spaced(s: string) {
    && (forall i | 0 <= i < |s| :: IsKeyChar(s[i]) || s[i] == '-')
    && (forall i | 0 < i < |s| :: !(s[i - 1] == '-' && s[i] == '-'))
  }

  lemma {:induction false} CollapsedIsSpaced(s: string, inGap: bool)
    ensures Spaced(Collapsed(s, inGap))
    ensures inGap && Collapsed(s, inGap) != "" ==> Collapsed(s, inGap)[0] != '-'
    decreases s
  {
    if s != "" {
      hide Spaced;
      var key := IsKeyChar(s[0]);
      var rest := Collapsed(s[1..], !key);
      CollapsedIsSpaced(s[1..], !key);
      if key {
        OneMoreSpaced(s[0], rest);
      } else if inGap {
        assert Collapsed(s, inGap) == rest;
      } else {
        OneMoreSpaced('-', rest);
      }
    } else {
    }
  }

  lemma OneMoreSpaced(c: char, rest: string)
    requires Spaced(rest) && (IsKeyChar(c) || (c == '-' && (rest == "" || rest[0] != '-')))
    ensures Spaced([c] + rest)
  {
    var r := [c] + rest;
    forall i | 0 < i < |r| ensures !(r[i - 1] == '-' && r[i] == '-') {
      assert r[i] == rest[i - 1] && (1 < i ==> r[i - 1] == rest[i - 2]);
    }
  }

  predicate HasKeyChar(s: string) { exists i :: 0 <= i < |s| && IsKeyChar(s[i]) }

  lemma {:induction false} CollapsedKeepsKeyChars(s: string, inGap: bool)
    ensures HasKeyChar(Collapsed(s, inGap)) <==> HasKeyChar(s)
    decreases s
  {
    if s != "" {
      var key := IsKeyChar(s[0]);
      CollapsedKeepsKeyChars(s[1..], !key);
      var rest := Collapsed(s[1..], !key);
      HasKeyCharStep(s[0], s[1..]);
      HasKeyCharStep(s[0], rest);
      HasKeyCharStep('-', rest);
      assert s == [s[0]] + s[1..];
    }
  }

  lemma HasKeyCharStep(c: char, rest: string)
    ensures HasKeyChar([c] + rest) <==> IsKeyChar(c) || HasKeyChar(rest)
  {
    var r := [c] + rest;
    if IsKeyChar(c) { assert IsKeyChar(r[0]); }
    if i :| 0 <= i < |rest| && IsKeyChar(rest[i]) { assert r[i + 1] == rest[i]; }
    if i :| 0 <= i < |r| && IsKeyChar(r[i]) && !IsKeyChar(c) { assert rest[i - 1] == r[i]; }
  }

  lemma StrippedHyphens(s: string) returns (d: nat)
    ensures
      var r := StripBy(s, IsHyphen);
      && d + |r| <= |s| && r == s[d..d + |r|]
      && (forall i | 0 <= i < |s| && !(d <= i < d + |r|) :: s[i] == '-')
      && (r != "" ==> r[0] != '-' && r[|r| - 1] != '-')
  {
    hide StripBy;
    StripIdempotent(s, IsHyphen);
    d := StripByPart(s, IsHyphen);
    var r := StripBy(s, IsHyphen);
    forall i | 0 <= i < |s| && !(d <= i < d + |r|) ensures s[i] == '-' { assert IsHyphen(s[i]); }
    if r != "" { assert !IsHyphen(r[0]) && !IsHyphen(r[|r| - 1]); }
  }

  lemma StrippedIsKey(s: string)
    requires Spaced(s)
    ensures
      var r := StripBy(s, IsHyphen);
      (r == "" || IsKey(r)) && (r == "" <==> forall i | 0 <= i < |s| :: !IsKeyChar(s[i]))
  {
    hide StripBy, IsHyphen;
    var d := StrippedHyphens(s);
    var r := StripBy(s, IsHyphen);
    assert forall i | 0 <= i < |r| :: r[i] == s[d + i];
    if r != "" {
      assert s[d] == r[0];
      assert IsKeyChar(s[d]);
    }
  }

  /** A slug is a key, unless the title has no usable character at all. */
  lemma SlugIsKey(normalized: string)
    ensures if HasKeyChar(normalized) then IsKey(Slug(normalized)) else Slug(normalized) == ""
  {
    hide IsKey, IsKeyChar, StripBy, Spaced;
    CollapsedIsSpaced(normalized, false);
    CollapsedKeepsKeyChars(normalized, false);
    StrippedIsKey(Collapsed(normalized, false));
  }

  // ----- branch names -----

  const LONGEST_BRANCH := 80

  /** `s[:k]`, which for a negative `k` leaves out the last characters instead. */
  function Slice(s: string, k: int): string {
    if k < 0 then (if |s| + k <= 0 then "" else s[..|s| + k])
    else if |s| <= k then s
    else s[..k]
  }

  function BranchName(taskId: string, normalized: string): string {
    var slug := if Slug(normalized) == "" then "task" else Slug(normalized);
    var prefix := "task/" + taskId + "-";
    prefix + StripRight(Slice(slug, LONGEST_BRANCH - |prefix|), IsHyphen)
  }

  lemma CutKeyIsKey(s: string, k: nat)
    requires IsKey(s) && 0 < k
    ensures IsKey(StripRight(Slice(s, k), IsHyphen)) && |StripRight(Slice(s, k), IsHyphen)| <= k
  {
    var cut := Slice(s, k);
    var r := StripRight(cut, IsHyphen);
    assert !IsHyphen(cut[0]);
    assert forall i | 0 <= i < |r| :: r[i] == s[i];
  }

  lemma TaskIsKey()
    ensures IsKey("task")
  {
    var t := "task";
    assert forall i | 0 <= i < |t| :: IsKeyChar(t[i]) && t[i] != '-';
  }

  lemma TaskSlugIsKey(normalized: string)
    ensures IsKey(if Slug(normalized) == "" then "task" else Slug(normalized))
  {
    hide IsKey, Slug;
    SlugIsKey(normalized);
    TaskIsKey();
  }

  lemma AssembledIsBranch(taskId: string, tail: string)
    requires IsTaskId(taskId) && IsKey(tail)
    ensures
      var name := "task/" + taskId + "-" + tail;
      |name| == 6 + |taskId| + |tail| && IsBranchAt(name, |taskId|) && IsBranch(name) && name[5..5 + |taskId|] == taskId
  {
    hide IsKey;
    KeyNotEmpty(tail);
    var name := "task/" + taskId + "-" + tail;
    assert name[..5] == "task/" && name[5..5 + |taskId|] == taskId && name[5 + |taskId|] == '-' && name[6 + |taskId|..] == tail;
  }

  lemma BranchNameShape(taskId: string, normalized: string)
    requires IsTaskId(taskId)
    ensures |BranchName(taskId, normalized)| <= LONGEST_BRANCH && IsBranchAt(BranchName(taskId, normalized), |taskId|)
    ensures IsBranch(BranchName(taskId, normalized)) && BranchName(taskId, normalized)[5..5 + |taskId|] == taskId
  {
    hide IsKey, Slug, Slice, StripRight, IsBranchAt, IsBranch;
    TaskSlugIsKey(normalized);
    var slug := if Slug(normalized) == "" then "task" else Slug(normalized);
    CutKeyIsKey(slug, LONGEST_BRANCH - 6 - |taskId|);
    AssembledIsBranch(taskId, StripRight(Slice(slug, LONGEST_BRANCH - 6 - |taskId|), IsHyphen));
  }

  /** Whatever the title, a task ID of three to nine digits gives a name that fits and that the branch
      pattern accepts, truncated or not. */
  lemma BranchNameIsBranch(taskId: string, normalized: string)
    requires IsTaskId(taskId)
    ensures |BranchName(taskId, normalized)| <= LONGEST_BRANCH && IsBranch(BranchName(taskId, normalized))
  {
    hide IsTaskId, IsBranch, IsBranchAt, BranchName;
    BranchNameShape(taskId, normalized);
  }

  lemma KeyNotEmpty(s: string)
    requires IsKey(s)
    ensures s != ""
  {}

  lemma DigitsUpToHyphen(name: string, n: nat)
    requires IsBranchAt(name, n)
    ensures 6 <= n && 5 + n < |name| && name[5 + n] == '-' && forall k | 8 <= k < 5 + n :: IsDigit(name[k])
  {
    hide IsKey;
    var id := name[5..5 + n];
    forall k | 8 <= k < 5 + n ensures IsDigit(name[k]) {
      assert id[3..][k - 8] == name[k] && id[3..][k - 8] in id[3..];
    }
  }

  /** A branch name says where its task ID ends. */
  lemma TaskIdEndsOnce(name: string, m: nat, n: nat)
    requires IsBranchAt(name, m) && IsBranchAt(name, n)
    ensures m == n
  {
    hide IsBranchAt;
    DigitsUpToHyphen(name, m);
    DigitsUpToHyphen(name, n);
  }

  /** Different task IDs never share a branch name, whatever their titles. */
  lemma BranchNamesAreDistinct(a: string, b: string, titleA: string, titleB: string)
    requires IsTaskId(a) && IsTaskId(b) && a != b
    ensures BranchName(a, titleA) != BranchName(b, titleB)
  {
    hide IsBranchAt, IsTaskId, BranchName;
    BranchNameShape(a, titleA);
    BranchNameShape(b, titleB);
    if BranchName(a, titleA) == BranchName(b, titleB) {
      TaskIdEndsOnce(BranchName(a, titleA), |a|, |b|);
    }
  }

  // ----- project directories -----

  function AsciiLower(c: char): char { if 'A' <= c <= 'Z' then (c as int + 32) as char else c }

  function Lowered(s: string): string { seq(|s|, i requires 0 <= i < |s| => AsciiLower(s[i])) }

  function ProjectDirectory(project: string): Option<string> {
    var raw := Strip(project);
    if exists c | c in raw :: '\U{80}' <= c then None
    else if 64 < |raw| || !IsKey(Lowered(raw)) then None
    else Some(Lowered(raw))
  }

  lemma KeyIsStripped(key: string)
    requires IsKey(key)
    ensures Strip(key) == key && forall c | c in key :: c < '\U{80}'
  {
    assert IsKeyChar(key[0]) && IsKeyChar(key[|key| - 1]);
    StripKeeps(key);
  }

  /** An accepted project is a key of at most 64 characters, and accepted unchanged again. */
  lemma ProjectDirectoryIsCanonical(project: string)
    ensures ProjectDirectory(project).Some? ==>
      var key := ProjectDirectory(project).value;
      IsKey(key) && |key| <= 64 && ProjectDirectory(key) == Some(key)
  {
    hide IsSpace, StripBy;
    if ProjectDirectory(project).Some? {
      var key := ProjectDirectory(project).value;
      KeyIsStripped(key);
      assert Lowered(key) == key;
    }
  }

  // ----- task IDs -----

  /** The number in an ID that matches `PY-` and digits. */
  function Number(id: string): Option<nat> {
    if IsNumberedId(id) then Some(Read(id[3..])) else None
  }

  predicate IsHighest(ids: set<string>, n: nat) {
    && (forall id | id in ids && Number(id).Some? :: Number(id).value <= n)
    && (n == 0 || exists id | id in ids :: Number(id) == Some(n))
  }

  lemma {:induction false} HighestExists(ids: set<string>) returns (n: nat)
    ensures IsHighest(ids, n)
    decreases ids
  {
    hide Number;
    if ids == {} { return 0; }
    var id :| id in ids;
    var rest := ids - {id};
    n := HighestExists(rest);
    if Number(id).Some? && n < Number(id).value { n := Number(id).value; }
    forall o | o in ids && Number(o).Some? ensures Number(o).value <= n { assert o == id || o in rest; }
  }

  lemma HighestIsUnique(ids: set<string>, m: nat, n: nat)
    requires IsHighest(ids, m) && IsHighest(ids, n)
    ensures m == n
  {
    hide Number;
  }

  lemma HighestThereIs(ids: set<string>)
    ensures exists n: nat :: IsHighest(ids, n)
  {
    var n := HighestExists(ids);
  }

  ghost function Highest(ids: set<string>): (n: nat)
    ensures IsHighest(ids, n)
  {
    HighestThereIs(ids);
    var n :| IsHighest(ids, n);
    n
  }

  function Numbered(n: nat): string { "PY-" + Padded(n) }

  /** An allocated ID is new: its number exceeds every recorded one, and its printed form reads back. It
      has the form that grading accepts exactly while numbers have at most nine digits. */
  lemma AllocatedIdIsFresh(ids: set<string>)
    ensures
      var n := Highest(ids) + 1;
      && Number(Numbered(n)) == Some(n) && Numbered(n) !in ids
      && (forall id | id in ids && Number(id).Some? :: Number(id).value < n)
      && (IsTaskId(Numbered(n)) <==> n <= 999_999_999)
  {
    var n := Highest(ids) + 1;
    ReadPadded(n);
    DecimalLength(n, 9);
    TenToTheNinth();
    assert Numbered(n)[..3] == "PY-" && Numbered(n)[3..] == Padded(n);
  }

  lemma TenToTheNinth()
    ensures Pow10(9) == 1_000_000_000
  {
    assert Pow10(3) == 1_000;
    assert Pow10(6) == 1_000_000;
  }
}
