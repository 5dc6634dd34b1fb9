/** The slice of the Python runtime that the contracts library relies on: a closed set of
    values, classes identified by name with their ancestors, exceptions, `str`/`repr`,
    `==`, `str.join`, substring `in`, and decimal formatting of integers. */
module Python {

  datatype Option<T> = None | Some(value: T)

  /** Truthiness of a value that is either None or a string: only a non-empty string is
      truthy. */
  predicate IsTruthy(s: Option<string>) {
    s.Some? && s.value != ""
  }

  /** A class, identified by its name, together with the names of all its proper
      ancestors (its method resolution order without itself). The list is meant to be
      complete: a class whose list leaves out an ancestor is not a subclass of it here. */
  datatype PyClass = PyClass(name: string, ancestors: seq<string>)

  /** `issubclass(c, d)`: a class is a subclass of itself and of each of its ancestors. */
  predicate IsSubclass(c: PyClass, d: PyClass) {
    c.name == d.name || d.name in c.ancestors
  }

  const NoneTypeClass := PyClass("NoneType", ["object"])
  const BoolClass := PyClass("bool", ["int", "object"])
  const IntClass := PyClass("int", ["object"])
  const StrClass := PyClass("str", ["object"])
  const ListClass := PyClass("list", ["object"])

  const BaseExceptionClass := PyClass("BaseException", ["object"])
  const ExceptionClass := PyClass("Exception", ["BaseException", "object"])
  const TypeErrorClass := PyClass("TypeError", ["Exception", "BaseException", "object"])
  const ValueErrorClass := PyClass("ValueError", ["Exception", "BaseException", "object"])
  const AttributeErrorClass := PyClass("AttributeError", ["Exception", "BaseException", "object"])
  const AssertionErrorClass := PyClass("AssertionError", ["Exception", "BaseException", "object"])

  /** The values a check can be given. `ListVal` is a Python list;
      an object carries its class, its attributes (each flagged callable or not) and the
      text that `str()` and `repr()` give for it. */
  datatype Value =
    | NoneVal
    | BoolVal(b: bool)
    | IntVal(i: int)
    | StrVal(s: string)
    | ListVal(items: seq<Value>)
    | ObjVal(cls: PyClass, attrs: map<string, bool>, text: string)

  /** A raised exception: its class and `str(e)`. */
  datatype Exc = Exc(cls: PyClass, msg: string)

  /** How a call ended: it returned normally, or it raised. */
  datatype Outcome = Returned | Raised(exc: Exc)

  /** `type(v)` */
  function TypeOf(v: Value): PyClass {
    match v
    case NoneVal => NoneTypeClass
    case BoolVal(_) => BoolClass
    case IntVal(_) => IntClass
    case StrVal(_) => StrClass
    case ListVal(_) => ListClass
    case ObjVal(cls, _, _) => cls
  }

  /** `isinstance(v, cls)` */
  predicate IsInstance(v: Value, cls: PyClass) {
    IsSubclass(TypeOf(v), cls)
  }

  /** The attributes `hasattr` can find, each mapped to whether it is callable. */
  function Attributes(v: Value): map<string, bool> {
    if v.ObjVal? then v.attrs else map[]
  }

  /** `hasattr(v, name)` */
  predicate HasAttr(v: Value, name: string) {
    name in Attributes(v)
  }

  /** `hasattr(v, name) and callable(getattr(v, name))` */
  predicate HasMethod(v: Value, name: string) {
    name in Attributes(v) && Attributes(v)[name]
  }

  /** `isinstance(v, collections.Iterable)` */
  predicate IsIterable(v: Value) {
    v.StrVal? || v.ListVal?
  }

  /** The items `for item in v` visits: a string yields its one-character strings. */
  function Items(v: Value): (items: seq<Value>)
    requires IsIterable(v)
    ensures v.StrVal? ==> |items| == |v.s| && forall k :: 0 <= k < |items| ==> items[k] == StrVal([v.s[k]])
    ensures v.ListVal? ==> items == v.items
  {
    if v.StrVal? then seq(|v.s|, k requires 0 <= k < |v.s| => StrVal([v.s[k]])) else v.items
  }

  // ---------------------------------------------------------------------------
  // Decimal formatting of integers

  function DigitChar(d: nat): char
    requires d < 10
  {
    "0123456789"[d]
  }

  predicate IsDigit(c: char) {
    '0' <= c <= '9'
  }

  /** The decimal digits of `n`, without leading zeros. */
  function NatToString(n: nat): (s: string)
    ensures |s| > 0
    ensures forall k :: 0 <= k < |s| ==> IsDigit(s[k])
    ensures s[0] == '0' ==> n == 0
  {
    if n < 10 then [DigitChar(n)] else NatToString(n / 10) + [DigitChar(n % 10)]
  }

  /** `str(i)` for an integer. */
  function IntToString(i: int): string {
    if i < 0 then "-" + NatToString(-i) else NatToString(i)
  }

  predicate AllDigits(s: string) {
    forall k :: 0 <= k < |s| ==> IsDigit(s[k])
  }

  /** The number a string of decimal digits denotes. */
  function DigitsValue(s: string): int
    requires AllDigits(s)
  {
    if s == [] then 0 else 10 * DigitsValue(s[..|s| - 1]) + (s[|s| - 1] as int - '0' as int)
  }

  /** `int(s)` for an optionally negated, non-empty string of decimal digits. */
  function ParseInt(s: string): Option<int> {
    if |s| > 1 && s[0] == '-' && AllDigits(s[1..]) then Some(-DigitsValue(s[1..]))
    else if |s| > 0 && AllDigits(s) then Some(DigitsValue(s))
    else None
  }

  lemma {:induction false} NatToStringRoundTrip(n: nat)
    ensures DigitsValue(NatToString(n)) == n
  {
    if n >= 10 {
      var s := NatToString(n);
      assert s[..|s| - 1] == NatToString(n / 10);
      NatToStringRoundTrip(n / 10);
    }
  }

  /** Formatting an integer and parsing it back gives the same integer. */
  lemma IntToStringRoundTrip(i: int)
    ensures ParseInt(IntToString(i)) == Some(i)
  {
    var n: nat := if i < 0 then -i else i;
    var t := NatToString(n);
    NatToStringRoundTrip(n);
    assert AllDigits(t);
    if i < 0 {
      var s := "-" + t;
      assert s == IntToString(i);
      assert s[1..] == t;
      assert |s| > 1 && s[0] == '-';
    } else {
      assert t == IntToString(i);
      assert IsDigit(t[0]);
    }
  }

  // ---------------------------------------------------------------------------
  // str() and repr()

  /** `separator.join(parts)` */
  function Join(separator: string, parts: seq<string>): string {
    if |parts| == 0 then ""
    else if |parts| == 1 then parts[0]
    else parts[0] + separator + Join(separator, parts[1..])
  }

  /** Joining two non-empty groups separately and then joining the two results is the
      same as joining all the parts at once. */
  lemma {:induction false} JoinAppend(separator: string, a: seq<string>, b: seq<string>)
    requires |a| > 0 && |b| > 0
    ensures Join(separator, [Join(separator, a), Join(separator, b)]) == Join(separator, a + b)
  {
    assert (a + b)[1..] == a[1..] + b;
    if |a| > 1 {
      JoinAppend(separator, a[1..], b);
    }
  }

  /** `repr(v)`; strings are quoted with single quotes and not escaped. */
  function Repr(v: Value): string {
    match v
    case NoneVal => "None"
    case BoolVal(b) => if b then "True" else "False"
    case IntVal(i) => IntToString(i)
    case StrVal(s) => "'" + s + "'"
    case ListVal(items) => "[" + Join(", ", seq(|items|, k requires 0 <= k < |items| => Repr(items[k]))) + "]"
    case ObjVal(_, _, text) => text
  }

  /** `str(v)`: a string is its own text; every other value prints as its `repr`. */
  function Str(v: Value): string {
    if v.StrVal? then v.s else Repr(v)
  }

  // ---------------------------------------------------------------------------
  // Equality

  predicate IsNumber(v: Value) {
    v.BoolVal? || v.IntVal?
  }

  /** The integer a number denotes; `bool` is a subclass of `int`. */
  function AsInt(v: Value): int
    requires IsNumber(v)
  {
    if v.BoolVal? then (if v.b then 1 else 0) else v.i
  }

  /** `a == b`: numbers compare by value (so `True == 1`), lists element by element,
      every other value by its modelled contents. */
  predicate PyEq(a: Value, b: Value)
    decreases a
  {
    match a
    case ListVal(xs) =>
      b.ListVal? && |xs| == |b.items| && forall k :: 0 <= k < |xs| ==> PyEq(xs[k], b.items[k])
    case BoolVal(_) => IsNumber(b) && AsInt(a) == AsInt(b)
    case IntVal(_) => IsNumber(b) && AsInt(a) == AsInt(b)
    case _ => a == b
  }

  lemma {:induction false} PyEqReflexive(a: Value)
    ensures PyEq(a, a)
    decreases a
  {
    match a
    case ListVal(xs) =>
      forall k | 0 <= k < |xs|
        ensures PyEq(xs[k], xs[k])
      {
        PyEqReflexive(xs[k]);
      }
    case _ =>
  }

  lemma {:induction false} PyEqSymmetric(a: Value, b: Value)
    requires PyEq(a, b)
    ensures PyEq(b, a)
    decreases a
  {
    match a
    case ListVal(xs) =>
      forall k | 0 <= k < |xs|
        ensures PyEq(b.items[k], xs[k])
      {
        PyEqSymmetric(xs[k], b.items[k]);
      }
    case _ =>
  }

  // ---------------------------------------------------------------------------
  // Substrings

  /** `needle in haystack` for strings. */
  predicate Contains(haystack: string, needle: string)
    decreases |haystack|
  {
    |needle| <= |haystack| && (haystack[..|needle|] == needle || Contains(haystack[1..], needle))
  }

  /** `needle` occurs in `haystack` starting at position `i`. */
  ghost predicate OccursAt(haystack: string, needle: string, i: int) {
    0 <= i <= |haystack| - |needle| && haystack[i..i + |needle|] == needle
  }

  /** Substring containment means `needle` occurs at some position of `haystack`. */
  lemma {:induction false} ContainsIffOccurs(haystack: string, needle: string)
    ensures Contains(haystack, needle) <==> exists i :: OccursAt(haystack, needle, i)
    decreases |haystack|
  {
    if |needle| <= |haystack| {
      if haystack[..|needle|] == needle {
        assert OccursAt(haystack, needle, 0);
      } else {
        ContainsIffOccurs(haystack[1..], needle);
        if exists i :: OccursAt(haystack, needle, i) {
          var i :| OccursAt(haystack, needle, i);
          assert i > 0;
          assert OccursAt(haystack[1..], needle, i - 1);
        }
        if Contains(haystack[1..], needle) {
          var i :| OccursAt(haystack[1..], needle, i);
          assert OccursAt(haystack, needle, i + 1);
        }
      }
    }
  }
}
