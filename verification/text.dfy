/** Character classes, the few text patterns the services check, and the byte order
    that the database uses to break ties between identifiers. */
module Text {

  datatype Option<+T> = None | Some(value: T)

  predicate IsDigit(c: char) { '0' <= c <= '9' }

  predicate IsKeyChar(c: char) { IsDigit(c) || 'a' <= c <= 'z' }

  predicate AllDigits(s: string) { forall c | c in s :: IsDigit(c) }

  /** The pattern `[a-z0-9]+(?:-[a-z0-9]+)*` matched against the whole text. */
  predicate IsKey(s: string) {
    && s != ""
    && (forall i | 0 <= i < |s| :: IsKeyChar(s[i]) || s[i] == '-')
    && s[0] != '-' && s[|s| - 1] != '-'
    && (forall i | 0 < i < |s| :: !(s[i - 1] == '-' && s[i] == '-'))
  }

  lemma KeyJoin(a: string, b: string)
    requires IsKey(a) && IsKey(b)
    ensures IsKey(a + "-" + b)
  {
    var s := a + "-" + b;
    forall i | 0 <= i < |s|
      ensures IsKeyChar(s[i]) || s[i] == '-'
      ensures 0 < i ==> !(s[i - 1] == '-' && s[i] == '-')
    {
      if i < |a| {
        assert s[i] == a[i] && (0 < i ==> s[i - 1] == a[i - 1]);
      } else if i == |a| {
        assert s[i - 1] == a[|a| - 1];
      } else {
        var k := i - |a| - 1;
        assert s[i] == b[k] && (0 < k ==> s[i - 1] == b[k - 1]);
      }
    }
  }

  lemma DigitsAreKey(s: string)
    requires s != "" && AllDigits(s)
    ensures IsKey(s)
  {
    forall i | 0 <= i < |s| ensures IsKeyChar(s[i]) && s[i] != '-' { assert s[i] in s; }
  }

  /** `PY-` followed by digits. */
  predicate IsNumberedId(s: string) {
    3 < |s| && s[..3] == "PY-" && AllDigits(s[3..])
  }

  /** The pattern `PY-[0-9]{3,9}`. */
  predicate IsTaskId(s: string) { 6 <= |s| <= 12 && IsNumberedId(s) }

  /** The pattern `task/PY-[0-9]{3,9}-` followed by a key; `n` is the length of the task ID. */
  predicate IsBranchAt(s: string, n: nat) {
    && n + 6 < |s|
    && s[..5] == "task/"
    && IsTaskId(s[5..5 + n])
    && s[5 + n] == '-'
    && IsKey(s[6 + n..])
  }

  predicate IsBranch(s: string) { exists n: nat | 6 <= n <= 12 :: IsBranchAt(s, n) }

  predicate IsHex(s: string) { forall c | c in s :: IsDigit(c) || 'a' <= c <= 'f' }

  predicate IsSha(s: string) { (|s| == 40 || |s| == 64) && IsHex(s) }

  predicate IsHash(s: string) { |s| == 64 && IsHex(s) }

  type Hash = s: string | IsHash(s) witness seq(64, _ => '0')

  /** The length of the UTF-8 encoding. */
  function Utf8Length(s: string): nat {
    if s == "" then 0
    else
      (if s[0] < '\U{80}' then 1 else if s[0] < '\U{800}' then 2 else if s[0] < '\U{10000}' then 3 else 4)
      + Utf8Length(s[1..])
  }

  lemma {:induction false} Utf8IsLonger(s: string)
    ensures |s| <= Utf8Length(s)
  {
    if s != "" { Utf8IsLonger(s[1..]); }
  }

  /** The characters that `str.strip` and `str.split` treat as white space. */
  predicate IsSpace(c: char) {
    || '\t' <= c <= '\r' || '\U{1c}' <= c <= ' '
    || c == '\U{85}' || c == '\U{a0}' || c == '\U{1680}' || '\U{2000}' <= c <= '\U{200a}'
    || c == '\U{2028}' || c == '\U{2029}' || c == '\U{202f}' || c == '\U{205f}' || c == '\U{3000}'
  }

  function StripLeft(s: string, drop: char -> bool): (r: string)
    ensures r == "" || !drop(r[0])
    ensures |r| <= |s| && r == s[|s| - |r|..]
    ensures forall i | 0 <= i < |s| - |r| :: drop(s[i])
  {
    if s != "" && drop(s[0]) then StripLeft(s[1..], drop) else s
  }

  function StripRight(s: string, drop: char -> bool): (r: string)
    ensures r == "" || !drop(r[|r| - 1])
    ensures |r| <= |s| && r == s[..|r|]
    ensures forall i | |r| <= i < |s| :: drop(s[i])
  {
    if s != "" && drop(s[|s| - 1]) then StripRight(s[..|s| - 1], drop) else s
  }

  function StripBy(s: string, drop: char -> bool): string {
    StripRight(StripLeft(s, drop), drop)
  }

  function Strip(s: string): string { StripBy(s, IsSpace) }

  /** Stripping twice is stripping once. */
  lemma StripIdempotent(s: string, drop: char -> bool)
    ensures StripBy(StripBy(s, drop), drop) == StripBy(s, drop)
    ensures StripBy(s, drop) == "" || (!drop(StripBy(s, drop)[0]) && !drop(StripBy(s, drop)[|StripBy(s, drop)| - 1]))
  {
    var l := StripLeft(s, drop);
    var r := StripRight(l, drop);
    if r != "" {
      assert r[0] == l[0];
      assert StripLeft(r, drop) == r;
    }
  }

  /** Stripping cuts out a part, and everything outside it is dropped. */
  lemma StripByPart(s: string, drop: char -> bool) returns (d: nat)
    ensures
      var r := StripBy(s, drop);
      && d + |r| <= |s| && r == s[d..d + |r|]
      && (forall i | 0 <= i < d :: drop(s[i])) && (forall i | d + |r| <= i < |s| :: drop(s[i]))
  {
    hide StripLeft, StripRight;
    var l := StripLeft(s, drop);
    var r := StripRight(l, drop);
    d := |s| - |l|;
    assert s[d..][..|r|] == s[d..d + |r|];
    forall i | d + |r| <= i < |s| ensures drop(s[i]) { assert drop(l[i - d]); }
  }

  lemma StripKeeps(s: string)
    requires s != "" && !IsSpace(s[0]) && !IsSpace(s[|s| - 1])
    ensures Strip(s) == s
  {
    hide IsSpace;
    assert StripLeft(s, IsSpace) == s && StripRight(s, IsSpace) == s;
  }

  /** `_bounded_text` in `store.py`: the length is checked before stripping. */
  function BoundedText(value: string, maximum: nat): Option<string> {
    if Strip(value) == "" || maximum < |value| || '\0' in value then None else Some(Strip(value))
  }

  /** Byte order of identifiers, as `ORDER BY` compares them. */
  predicate StrLt(a: string, b: string) {
    if b == "" then false
    else if a == "" then true
    else if a[0] != b[0] then a[0] < b[0]
    else StrLt(a[1..], b[1..])
  }

  lemma {:induction false} StrLtTotal(a: string, b: string)
    ensures a == b || StrLt(a, b) || StrLt(b, a)
    ensures !(StrLt(a, b) && StrLt(b, a))
    ensures !StrLt(a, a)
    decreases |a| + |b|
  {
    if a != "" && b != "" && a[0] == b[0] {
      StrLtTotal(a[1..], b[1..]);
      assert a == [a[0]] + a[1..] && b == [b[0]] + b[1..];
    }
    StrLtIrreflexive(a);
  }

  lemma {:induction false} StrLtIrreflexive(a: string)
    ensures !StrLt(a, a)
  {
    if a != "" { StrLtIrreflexive(a[1..]); }
  }

  lemma {:induction false} StrLtTransitive(a: string, b: string, c: string)
    requires StrLt(a, b) && StrLt(b, c)
    ensures StrLt(a, c)
  {
    if a != "" && a[0] == b[0] && b[0] == c[0] { StrLtTransitive(a[1..], b[1..], c[1..]); }
  }
}
