/** JSON values as Python's decoder produces them, and the two notions of equality that the
    graders use: `_json_equal`, which compares types first, and Python's own `==`. */
module Json {

  /** A decoded float. Rounding plays no part in the comparisons, so finite floats are reals. */
  datatype Number = Finite(r: real) | PosInf | NegInf | NaN

  datatype Value =
    | Null
    | Bool(b: bool)
    | Int(i: int)
    | Float(f: Number)
    | Str(s: string)
    | Arr(items: seq<Value>)
    | Obj(fields: map<string, Value>)

  /** `_json_equal` (VM executor). */
  predicate StrictEqual(left: Value, right: Value) {
    match (left, right)
    case (Arr(x), Arr(y)) => |x| == |y| && forall i | 0 <= i < |x| :: StrictEqual(x[i], y[i])
    case (Obj(x), Obj(y)) => x.Keys == y.Keys && forall k | k in x :: StrictEqual(x[k], y[k])
    case (Float(x), Float(y)) => x == y && x != NaN
    case (_, _) => left == right
  }

  predicate IsNumeric(v: Value) { v.Bool? || v.Int? || v.Float? }

  /** The number a Python bool, int or float compares as. */
  function NumberOf(v: Value): Number
    requires IsNumeric(v)
  {
    match v
    case Bool(b) => Finite(if b then 1.0 else 0.0)
    case Int(i) => Finite(i as real)
    case Float(f) => f
  }

  /** Python's `==` on decoded values (local executor). */
  predicate LooseEqual(left: Value, right: Value) {
    if IsNumeric(left) && IsNumeric(right) then
      NumberOf(left) == NumberOf(right) && NumberOf(left) != NaN
    else
      match (left, right)
      case (Arr(x), Arr(y)) => |x| == |y| && forall i | 0 <= i < |x| :: LooseEqual(x[i], y[i])
      case (Obj(x), Obj(y)) => x.Keys == y.Keys && forall k | k in x :: LooseEqual(x[k], y[k])
      case (_, _) => left == right
  }

  /** The two values use the same Python type at every corresponding position. */
  predicate SameTypes(left: Value, right: Value) {
    match (left, right)
    case (Null, Null) => true
    case (Bool(_), Bool(_)) => true
    case (Int(_), Int(_)) => true
    case (Float(_), Float(_)) => true
    case (Str(_), Str(_)) => true
    case (Arr(x), Arr(y)) => forall i | 0 <= i < |x| && i < |y| :: SameTypes(x[i], y[i])
    case (Obj(x), Obj(y)) => forall k | k in x && k in y :: SameTypes(x[k], y[k])
    case (_, _) => false
  }

  predicate HasNaN(v: Value) {
    match v
    case Float(f) => f == NaN
    case Arr(x) => exists i | 0 <= i < |x| :: HasNaN(x[i])
    case Obj(m) => exists k | k in m :: HasNaN(m[k])
    case _ => false
  }

  predicate IsFinite(v: Value) {
    match v
    case Float(f) => f.Finite?
    case Arr(x) => forall i | 0 <= i < |x| :: IsFinite(x[i])
    case Obj(m) => forall k | k in m :: IsFinite(m[k])
    case _ => true
  }

  /** The strict comparator is the loose one plus equal types all the way down. */
  lemma {:induction false} StrictIsLooseWithSameTypes(a: Value, b: Value)
    ensures StrictEqual(a, b) <==> LooseEqual(a, b) && SameTypes(a, b)
  {
    match (a, b)
    case (Arr(x), Arr(y)) =>
      forall i | 0 <= i < |x| && i < |y|
        ensures StrictEqual(x[i], y[i]) <==> LooseEqual(x[i], y[i]) && SameTypes(x[i], y[i])
      {
        StrictIsLooseWithSameTypes(x[i], y[i]);
      }
    case (Obj(x), Obj(y)) =>
      forall k | k in x && k in y
        ensures StrictEqual(x[k], y[k]) <==> LooseEqual(x[k], y[k]) && SameTypes(x[k], y[k])
      {
        StrictIsLooseWithSameTypes(x[k], y[k]);
      }
    case (_, _) =>
  }

  lemma {:induction false} StrictReflexive(a: Value)
    ensures StrictEqual(a, a) <==> !HasNaN(a)
  {
    match a
    case Arr(x) =>
      forall i | 0 <= i < |x| ensures StrictEqual(x[i], x[i]) <==> !HasNaN(x[i]) { StrictReflexive(x[i]); }
    case Obj(m) =>
      forall k | k in m ensures StrictEqual(m[k], m[k]) <==> !HasNaN(m[k]) { StrictReflexive(m[k]); }
    case _ =>
  }

  lemma {:induction false} FiniteHasNoNaN(a: Value)
    requires IsFinite(a)
    ensures !HasNaN(a)
  {
    match a
    case Arr(x) => forall i | 0 <= i < |x| ensures !HasNaN(x[i]) { FiniteHasNoNaN(x[i]); }
    case Obj(m) => forall k | k in m ensures !HasNaN(m[k]) { FiniteHasNoNaN(m[k]); }
    case _ =>
  }

  lemma {:induction false} StrictTransitive(a: Value, b: Value, c: Value)
    requires StrictEqual(a, b) && StrictEqual(b, c)
    ensures StrictEqual(a, c)
  {
    match (a, b, c)
    case (Arr(x), Arr(y), Arr(z)) =>
      forall i | 0 <= i < |x| ensures StrictEqual(x[i], z[i]) { StrictTransitive(x[i], y[i], z[i]); }
    case (Obj(x), Obj(y), Obj(z)) =>
      forall k | k in x ensures StrictEqual(x[k], z[k]) { StrictTransitive(x[k], y[k], z[k]); }
    case (_, _, _) =>
  }

  lemma {:induction false} StrictMeansSameValue(a: Value, b: Value)
    requires StrictEqual(a, b)
    ensures a == b
  {
    match (a, b)
    case (Arr(x), Arr(y)) =>
      forall i | 0 <= i < |x| ensures x[i] == y[i] { StrictMeansSameValue(x[i], y[i]); }
    case (Obj(x), Obj(y)) =>
      forall k | k in x ensures x[k] == y[k] { StrictMeansSameValue(x[k], y[k]); }
      assert x == y;
    case (_, _) =>
  }

  /** On finite values `_json_equal` is an equivalence relation, in fact identity of values. */
  lemma StrictIsEquivalence(a: Value, b: Value, c: Value)
    requires IsFinite(a) && IsFinite(b) && IsFinite(c)
    ensures StrictEqual(a, a)
    ensures StrictEqual(a, b) ==> StrictEqual(b, a)
    ensures StrictEqual(a, b) && StrictEqual(b, c) ==> StrictEqual(a, c)
    ensures StrictEqual(a, b) <==> a == b
  {
    FiniteHasNoNaN(a);
    StrictReflexive(a);
    if StrictEqual(a, b) {
      StrictMeansSameValue(a, b);
      if StrictEqual(b, c) { StrictTransitive(a, b, c); }
    }
  }
}
