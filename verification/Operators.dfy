/** app/operators.py over strict JSON values, with Python's comparison semantics: booleans
    are numbers inside lists but not at the top, lists compare at their first difference,
    and a pair without an order raises TypeError (None here). */
module Operators {
  import opened Ordering

  /** Integers and finite floats compare exactly, so both are reals. */
  datatype Value =
    | Null | Bool(truth: bool) | Num(number: real) | Str(text: string)
    | List(items: seq<Value>) | Dict(entries: map<string, Value>)

  datatype Operator = GreaterThan | LessThan | Equals | NotEquals

  predicate Numeric(v: Value) {
    v.Bool? || v.Num?
  }

  function NumberOf(v: Value): real
    requires Numeric(v)
  {
    match v
    case Bool(truth) => if truth then 1.0 else 0.0
    case Num(number) => number
  }

  /** Python's ==. */
  predicate Same(a: Value, b: Value)
    decreases a
  {
    if Numeric(a) && Numeric(b) then NumberOf(a) == NumberOf(b)
    else
      match (a, b)
      case (Null, Null) => true
      case (Str(s), Str(t)) => s == t
      case (List(s), List(t)) => |s| == |t| && forall i :: 0 <= i < |s| ==> Same(s[i], t[i])
      case (Dict(s), Dict(t)) => s.Keys == t.Keys && forall k :: k in s ==> Same(s[k], t[k])
      case _ => false
  }

  predicate TextLess(s: string, t: string) {
    if s == "" || t == "" then |s| < |t|
    else if s[0] == t[0] then TextLess(s[1..], t[1..])
    else s[0] < t[0]
  }

  /** Python's <; None is TypeError. */
  function Less(a: Value, b: Value): Option<bool>
    decreases a, 1, 0
  {
    if Numeric(a) && Numeric(b) then Some(NumberOf(a) < NumberOf(b))
    else
      match (a, b)
      case (Str(s), Str(t)) => Some(TextLess(s, t))
      case (List(s), List(t)) => ListLess(a, b, 0)
      case _ => None
  }

  /** The comparison of two lists from position i on. */
  function ListLess(a: Value, b: Value, i: nat): Option<bool>
    requires a.List? && b.List? && i <= |a.items| && i <= |b.items|
    decreases a, 0, |a.items| - i
  {
    if i == |a.items| || i == |b.items| then Some(|a.items| < |b.items|)
    else if Same(a.items[i], b.items[i]) then ListLess(a, b, i + 1)
    else Less(a.items[i], b.items[i])
  }

  predicate CompatibleTypes(actual: Value, expected: Value) {
    if actual.Bool? || expected.Bool? then actual.Bool? && expected.Bool?
    else if actual.Num? && expected.Num? then true
    else (actual.Null? && expected.Null?) || (actual.Str? && expected.Str?)
         || (actual.List? && expected.List?) || (actual.Dict? && expected.Dict?)
  }

  function EvaluateOperator(operator: Operator, actual: Value, expected: Value): Option<bool> {
    if !CompatibleTypes(actual, expected) then None
    else
      match operator
      case GreaterThan => Less(expected, actual)
      case LessThan => Less(actual, expected)
      case Equals => Some(Same(actual, expected))
      case NotEquals => Some(!Same(actual, expected))
  }

  // ---------------------------------------------------------------- laws

  lemma {:induction false} SameIsSymmetric(a: Value, b: Value)
    requires Same(a, b)
    ensures Same(b, a)
    decreases a
  {
    match (a, b)
    case (List(s), List(t)) => forall i | 0 <= i < |s| ensures Same(t[i], s[i]) { SameIsSymmetric(s[i], t[i]); }
    case (Dict(s), Dict(t)) => forall k | k in s ensures Same(t[k], s[k]) { SameIsSymmetric(s[k], t[k]); }
    case _ =>
  }

  lemma {:induction false} SameIsTransitive(a: Value, b: Value, c: Value)
    requires Same(a, b) && Same(b, c)
    ensures Same(a, c)
    decreases a
  {
    match (a, b, c)
    case (List(s), List(t), List(u)) =>
      forall i | 0 <= i < |s| ensures Same(s[i], u[i]) { SameIsTransitive(s[i], t[i], u[i]); }
    case (Dict(s), Dict(t), Dict(u)) =>
      forall k | k in s ensures Same(s[k], u[k]) { SameIsTransitive(s[k], t[k], u[k]); }
    case _ =>
  }

  lemma {:induction false} TextTrichotomy(s: string, t: string)
    ensures s == t ==> !TextLess(s, t) && !TextLess(t, s)
    ensures s != t ==> (TextLess(s, t) <==> !TextLess(t, s))
  {
    if s != "" && t != "" && s[0] == t[0] {
      TextTrichotomy(s[1..], t[1..]);
      assert s == [s[0]] + s[1..] && t == [t[0]] + t[1..];
    }
  }

  /** Both orders of two values are defined together, and then exactly one of <, == and >
      holds. */
  lemma {:induction false} LessTrichotomy(a: Value, b: Value)
    ensures Less(a, b).Some? <==> Less(b, a).Some?
    ensures Less(a, b).Some? && Same(a, b) ==> !Less(a, b).value && !Less(b, a).value
    ensures Less(a, b).Some? && !Same(a, b) ==> (Less(a, b).value <==> !Less(b, a).value)
    decreases a, 1, 0
  {
    if a.List? && b.List? {
      ListTrichotomy(a, b, 0);
    } else if a.Str? && b.Str? {
      TextTrichotomy(a.text, b.text);
    }
  }

  lemma {:induction false} ListTrichotomy(a: Value, b: Value, i: nat)
    requires a.List? && b.List? && i <= |a.items| && i <= |b.items|
    requires forall j :: 0 <= j < i ==> Same(a.items[j], b.items[j])
    ensures ListLess(a, b, i).Some? <==> ListLess(b, a, i).Some?
    ensures ListLess(a, b, i).Some? && Same(a, b) ==> !ListLess(a, b, i).value && !ListLess(b, a, i).value
    ensures ListLess(a, b, i).Some? && !Same(a, b) ==> (ListLess(a, b, i).value <==> !ListLess(b, a, i).value)
    decreases a, 0, |a.items| - i
  {
    if i < |a.items| && i < |b.items| {
      if Same(a.items[i], b.items[i]) {
        SameIsSymmetric(a.items[i], b.items[i]);
        ListTrichotomy(a, b, i + 1);
      } else {
        if Same(b.items[i], a.items[i]) {
          SameIsSymmetric(b.items[i], a.items[i]);
        }
        LessTrichotomy(a.items[i], b.items[i]);
      }
    }
  }

  predicate ExactlyOne(a: bool, b: bool, c: bool) {
    (a && !b && !c) || (b && !a && !c) || (c && !a && !b)
  }

  /** The four operators fit together: they fail on the same type mismatches, == and != are
      opposites, > is < with the operands exchanged, and where an order exists exactly one
      of <, == and > holds. */
  lemma OperatorsAgree(a: Value, b: Value)
    ensures EvaluateOperator(Equals, a, b).Some? <==> CompatibleTypes(a, b)
    ensures EvaluateOperator(Equals, a, b) == EvaluateOperator(Equals, b, a)
    ensures EvaluateOperator(GreaterThan, a, b) == EvaluateOperator(LessThan, b, a)
    ensures CompatibleTypes(a, b) ==>
              EvaluateOperator(NotEquals, a, b) == Some(!EvaluateOperator(Equals, a, b).value)
    ensures var (less, equal, greater) := (EvaluateOperator(LessThan, a, b), EvaluateOperator(Equals, a, b),
                                           EvaluateOperator(GreaterThan, a, b));
            && (less.Some? <==> greater.Some?)
            && (less.Some? ==> equal.Some? && ExactlyOne(less.value, equal.value, greater.value))
  {
    hide Less, Same;
    LessTrichotomy(a, b);
    if Same(a, b) {
      SameIsSymmetric(a, b);
    }
    if Same(b, a) {
      SameIsSymmetric(b, a);
    }
  }

  // ---------------------------------------------------------------- which way the order goes

  /** s and t agree before n, and n is where they first differ or where one of them ends. */
  predicate PartAt(s: string, t: string, n: nat) {
    n <= |s| && n <= |t| && (forall i :: 0 <= i < n ==> s[i] == t[i]) && (n < |s| && n < |t| ==> s[n] != t[n])
  }

  /** s is a proper prefix of t, or has the smaller character where they first differ. */
  ghost predicate TextBefore(s: string, t: string) {
    exists n: nat | n < |t| && PartAt(s, t, n) :: n == |s| || s[n] < t[n]
  }

  lemma {:induction false} TextLessAt(s: string, t: string, n: nat)
    requires PartAt(s, t, n)
    ensures TextLess(s, t) <==> n < |t| && (n == |s| || s[n] < t[n])
    decreases n
  {
    if n > 0 {
      assert s[0] == t[0];
      forall i | 0 <= i < n - 1 ensures s[1..][i] == t[1..][i] {
        assert s[i + 1] == t[i + 1];
      }
      TextLessAt(s[1..], t[1..], n - 1);
    }
  }

  lemma {:induction false} TextsPart(s: string, t: string, i: nat) returns (n: nat)
    requires i <= |s| && i <= |t| && forall j :: 0 <= j < i ==> s[j] == t[j]
    ensures PartAt(s, t, n)
    decreases |s| - i
  {
    if i < |s| && i < |t| && s[i] == t[i] {
      n := TextsPart(s, t, i + 1);
    } else {
      n := i;
    }
  }

  lemma TextLessMeans(s: string, t: string)
    ensures TextLess(s, t) <==> TextBefore(s, t)
  {
    var n := TextsPart(s, t, 0);
    TextLessAt(s, t, n);
    if TextBefore(s, t) {
      var m: nat :| m < |t| && PartAt(s, t, m) && (m == |s| || s[m] < t[m]);
      assert m == n;
    }
  }

  /** The value with every boolean written as the number it stands for. */
  function Canonical(v: Value): Value {
    match v
    case Bool(truth) => Num(if truth then 1.0 else 0.0)
    case List(items) => List(seq(|items|, i requires 0 <= i < |items| => Canonical(items[i])))
    case Dict(entries) => Dict(map k | k in entries :: Canonical(entries[k]))
    case _ => v
  }

  lemma CanonicalLists(s: seq<Value>, t: seq<Value>)
    requires forall i :: 0 <= i < |s| && i < |t| ==> (Same(s[i], t[i]) <==> Canonical(s[i]) == Canonical(t[i]))
    ensures Same(List(s), List(t)) <==> Canonical(List(s)) == Canonical(List(t))
  {
    var (a, b) := (Canonical(List(s)).items, Canonical(List(t)).items);
    assert |a| == |s| && |b| == |t|;
    assert forall i :: 0 <= i < |s| ==> a[i] == Canonical(s[i]);
    assert forall i :: 0 <= i < |t| ==> b[i] == Canonical(t[i]);
    if a == b {
      forall i | 0 <= i < |s| ensures Same(s[i], t[i]) {
        assert a[i] == b[i];
      }
    } else if |s| == |t| {
      var i :| 0 <= i < |s| && a[i] != b[i];
      assert !Same(s[i], t[i]);
    }
  }

  lemma CanonicalDicts(s: map<string, Value>, t: map<string, Value>)
    requires forall k :: k in s && k in t ==> (Same(s[k], t[k]) <==> Canonical(s[k]) == Canonical(t[k]))
    ensures Same(Dict(s), Dict(t)) <==> Canonical(Dict(s)) == Canonical(Dict(t))
  {
    var (a, b) := (Canonical(Dict(s)).entries, Canonical(Dict(t)).entries);
    assert a.Keys == s.Keys && b.Keys == t.Keys;
    if a == b {
      forall k | k in s ensures Same(s[k], t[k]) {
        assert a[k] == b[k];
      }
    } else if s.Keys == t.Keys {
      var k :| k in s && a[k] != b[k];
      assert !Same(s[k], t[k]);
    }
  }

  /** Two values are equal exactly when they are identical once booleans are numbers. */
  lemma {:induction false} SameIsCanonicalEquality(a: Value, b: Value)
    ensures Same(a, b) <==> Canonical(a) == Canonical(b)
    decreases a
  {
    if a.List? && b.List? {
      forall i | 0 <= i < |a.items| && i < |b.items|
        ensures Same(a.items[i], b.items[i]) <==> Canonical(a.items[i]) == Canonical(b.items[i])
      {
        SameIsCanonicalEquality(a.items[i], b.items[i]);
      }
      CanonicalLists(a.items, b.items);
    } else if a.Dict? && b.Dict? {
      forall k | k in a.entries && k in b.entries
        ensures Same(a.entries[k], b.entries[k]) <==> Canonical(a.entries[k]) == Canonical(b.entries[k])
      {
        SameIsCanonicalEquality(a.entries[k], b.entries[k]);
      }
      CanonicalDicts(a.entries, b.entries);
    }
  }

  /** The lists agree before n, and n is where they first differ or where one of them ends. */
  ghost predicate ListsPartAt(s: seq<Value>, t: seq<Value>, n: nat) {
    && n <= |s| && n <= |t| && (forall i :: 0 <= i < n ==> Canonical(s[i]) == Canonical(t[i]))
    && (n < |s| && n < |t| ==> Canonical(s[n]) != Canonical(t[n]))
  }

  lemma {:induction false} ListsPart(a: Value, b: Value, i: nat) returns (n: nat)
    requires a.List? && b.List? && i <= |a.items| && i <= |b.items|
    requires forall j :: 0 <= j < i ==> Canonical(a.items[j]) == Canonical(b.items[j])
    ensures ListsPartAt(a.items, b.items, n)
    ensures ListLess(a, b, i) == if n == |a.items| || n == |b.items| then Some(|a.items| < |b.items|)
                                 else Less(a.items[n], b.items[n])
    decreases |a.items| - i
  {
    hide Less, Same, Canonical;
    n := i;
    if i < |a.items| && i < |b.items| {
      SameIsCanonicalEquality(a.items[i], b.items[i]);
      if Same(a.items[i], b.items[i]) {
        n := ListsPart(a, b, i + 1);
      }
    }
  }

  /** The comparison of two lists, by their first difference. */
  ghost predicate ComparesLists(s: seq<Value>, t: seq<Value>, less: Option<bool>) {
    exists n: nat | ListsPartAt(s, t, n) ::
      less == if n == |s| || n == |t| then Some(|s| < |t|) else Less(s[n], t[n])
  }

  predicate SameKind(a: Value, b: Value) {
    && (a.Null? <==> b.Null?) && (a.Bool? <==> b.Bool?) && (a.Num? <==> b.Num?) && (a.Str? <==> b.Str?)
    && (a.List? <==> b.List?) && (a.Dict? <==> b.Dict?)
  }

  /** The order that a list comparison meets inside: numbers and booleans by value, texts by
      their first difference, lists by theirs, and nothing else. */
  lemma LessMeans(a: Value, b: Value)
    ensures a.Num? && b.Num? ==> Less(a, b) == Some(a.number < b.number)
    ensures a.Bool? && b.Bool? ==> Less(a, b) == Some(!a.truth && b.truth)
    ensures a.Bool? && b.Num? ==> Less(a, b) == Some(if a.truth then 1.0 < b.number else 0.0 < b.number)
    ensures a.Num? && b.Bool? ==> Less(a, b) == Some(if b.truth then a.number < 1.0 else a.number < 0.0)
    ensures a.Str? && b.Str? ==> Less(a, b) == Some(TextBefore(a.text, b.text))
    ensures a.List? && b.List? ==> ComparesLists(a.items, b.items, Less(a, b))
    ensures !(Numeric(a) && Numeric(b)) && !(a.Str? && b.Str?) && !(a.List? && b.List?) ==> Less(a, b).None?
  {
    hide ListLess, Same, TextLess;
    if a.Str? && b.Str? {
      TextLessMeans(a.text, b.text);
    } else if a.List? && b.List? {
      var n := ListsPart(a, b, 0);
    }
  }

  /** What an operator answers: nothing for operands of different kinds; > and < by the order
      just described, actual value on the left; == and != by equality. */
  lemma OperatorsMean(a: Value, b: Value)
    ensures forall o :: EvaluateOperator(o, a, b).Some? ==> SameKind(a, b)
    ensures a.Num? && b.Num? ==> EvaluateOperator(GreaterThan, a, b) == Some(a.number > b.number)
                                 && EvaluateOperator(LessThan, a, b) == Some(a.number < b.number)
    ensures a.Str? && b.Str? ==> EvaluateOperator(GreaterThan, a, b) == Some(TextBefore(b.text, a.text))
                                 && EvaluateOperator(LessThan, a, b) == Some(TextBefore(a.text, b.text))
    ensures a.Bool? && b.Bool? ==> EvaluateOperator(GreaterThan, a, b) == Some(a.truth && !b.truth)
                                   && EvaluateOperator(LessThan, a, b) == Some(!a.truth && b.truth)
    ensures a.List? && b.List? ==> ComparesLists(b.items, a.items, EvaluateOperator(GreaterThan, a, b))
                                   && ComparesLists(a.items, b.items, EvaluateOperator(LessThan, a, b))
    ensures a.Null? || a.Dict? ==> EvaluateOperator(GreaterThan, a, b).None? && EvaluateOperator(LessThan, a, b).None?
    ensures SameKind(a, b) ==> EvaluateOperator(Equals, a, b) == Some(Canonical(a) == Canonical(b))
                               && EvaluateOperator(NotEquals, a, b) == Some(Canonical(a) != Canonical(b))
  {
    hide Less, Same, Canonical, ComparesLists;
    LessMeans(a, b);
    LessMeans(b, a);
    SameIsCanonicalEquality(a, b);
  }
}
