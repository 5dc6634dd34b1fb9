/** The check catalogue of `contracts/contract.py`: twelve checks, each of which either
    returns normally or raises one fixed kind of error with a fixed message, plus the
    regular-expression step that recovers the subject's name from the caller's source line.

    A check receives, besides its subject, the source line of the call (`callSite`), which
    the original fetches by walking the stack. The subject's name is resolved only when the
    check fails. */
module Contract {
  import opened Python

  // ---------------------------------------------------------------------------
  // Recovering the first argument of the call: the pattern \(([\w.]+)[,)]

  /** `\w` restricted to ASCII: a letter, a digit or an underscore. */
  predicate IsWordChar(c: char) {
    'a' <= c <= 'z' || 'A' <= c <= 'Z' || '0' <= c <= '9' || c == '_'
  }

  /** A character of the class `[\w.]`. */
  predicate IsNameChar(c: char) {
    IsWordChar(c) || c == '.'
  }

  /** A character of the class `[,)]`. */
  predicate IsTerminator(c: char) {
    c == ',' || c == ')'
  }

  /** The pattern matches `line` at position `i` with `name` as its group: an opening
      parenthesis, then `name` (one or more characters of `[\w.]`), then a comma or a
      closing parenthesis. */
  ghost predicate PatternMatchesAt(line: string, i: int, name: string) {
    && 0 <= i
    && i + |name| + 2 <= |line|
    && line[i] == '('
    && |name| > 0
    && (forall k :: 0 <= k < |name| ==> IsNameChar(name[k]))
    && line[i + 1..i + 1 + |name|] == name
    && IsTerminator(line[i + 1 + |name|])
  }

  /** The length of the longest run of `[\w.]` characters of `line` starting at `j`. */
  function RunLength(line: string, j: nat): (n: nat)
    requires j <= |line|
    ensures j + n <= |line|
    ensures forall k :: j <= k < j + n ==> IsNameChar(line[k])
    ensures j + n == |line| || !IsNameChar(line[j + n])
    decreases |line| - j
  {
    if j < |line| && IsNameChar(line[j]) then 1 + RunLength(line, j + 1) else 0
  }

  /** The group the pattern captures when matched at `i`: the greedy `[\w.]+` run, which
      can only be followed by `[,)]` if the whole run is taken. */
  function MatchAt(line: string, i: nat): Option<string>
    requires i < |line|
  {
    if line[i] != '(' then None
    else
      var n := RunLength(line, i + 1);
      if n > 0 && i + 1 + n < |line| && IsTerminator(line[i + 1 + n]) then Some(line[i + 1..i + 1 + n])
      else None
  }

  /** `MatchAt` finds exactly the matches of the pattern. */
  lemma MatchAtIsPattern(line: string, i: nat, name: string)
    requires i < |line|
    ensures MatchAt(line, i) == Some(name) <==> PatternMatchesAt(line, i, name)
  {
    if PatternMatchesAt(line, i, name) {
      assert forall k :: i + 1 <= k < i + 1 + |name| ==> line[k] == name[k - i - 1];
      assert RunLength(line, i + 1) == |name|;
    }
  }

  /** The leftmost position at or after `i` where the pattern matches. */
  function SearchFrom(line: string, i: nat): (r: Option<nat>)
    ensures r.Some? ==> i <= r.value < |line| && MatchAt(line, r.value).Some?
    ensures r.Some? ==> forall j :: i <= j < r.value ==> MatchAt(line, j).None?
    ensures r.None? ==> forall j :: i <= j < |line| ==> MatchAt(line, j).None?
    decreases |line| - i
  {
    if i >= |line| then None
    else if MatchAt(line, i).Some? then Some(i)
    else SearchFrom(line, i + 1)
  }

  /** `_MATCH_FIRST_PARAMETER_REGEX.search(line).groups(0)[0]`, or `None` when the
      pattern does not occur. */
  function ExtractName(line: string): (r: Option<string>)
    ensures r.Some? ==> |r.value| > 0 && forall k :: 0 <= k < |r.value| ==> IsNameChar(r.value[k])
  {
    match SearchFrom(line, 0)
    case None => None
    case Some(i) => MatchAt(line, i)
  }

  /** When a name is extracted, it is the group of a match of the pattern, and the pattern
      matches at no earlier position. */
  lemma ExtractNameIsLeftmostMatch(line: string)
    requires ExtractName(line).Some?
    ensures exists i :: (PatternMatchesAt(line, i, ExtractName(line).value)
      && forall j, other :: 0 <= j < i ==> !PatternMatchesAt(line, j, other))
  {
    var i := SearchFrom(line, 0).value;
    MatchAtIsPattern(line, i, ExtractName(line).value);
    forall j, other | 0 <= j < i
      ensures !PatternMatchesAt(line, j, other)
    {
      MatchAtIsPattern(line, j, other);
    }
  }

  /** Conversely, a leftmost match of the pattern is what is extracted. */
  lemma LeftmostMatchIsExtracted(line: string, i: nat, name: string)
    requires PatternMatchesAt(line, i, name)
    requires forall j, other :: 0 <= j < i ==> !PatternMatchesAt(line, j, other)
    ensures ExtractName(line) == Some(name)
  {
    MatchAtIsPattern(line, i, name);
    var found := SearchFrom(line, 0);
    assert found.Some?;
    if found.value < i {
      var other := MatchAt(line, found.value).value;
      MatchAtIsPattern(line, found.value, other);
    }
  }

  /** Nothing is extracted exactly when the pattern matches nowhere in the line. */
  lemma ExtractNameNoneIffNoMatch(line: string)
    ensures ExtractName(line).None? <==> forall i, name :: !PatternMatchesAt(line, i, name)
  {
    if ExtractName(line).None? {
      forall i, name | PatternMatchesAt(line, i, name)
        ensures false
      {
        MatchAtIsPattern(line, i, name);
      }
    } else {
      ExtractNameIsLeftmostMatch(line);
    }
  }

  // ---------------------------------------------------------------------------
  // Naming the subject

  /** The Exception `_get_parameter_name` raises when the call site has no recognisable
      first argument. */
  const UnexpectedFormat := Exc(ExceptionClass, "The call to the code contract had an unexpected format.")

  /** `expression_str if expression_str else _get_parameter_name()`, with `None` standing
      for the Exception raised when the call site cannot be parsed. */
  function SubjectName(expression: Option<string>, callSite: string): (r: Option<string>)
    ensures r.Some? ==> r.value != ""
  {
    if IsTruthy(expression) then expression else ExtractName(callSite)
  }

  /** The error a failing check raises: `kind` with the subject's name followed by
      `detail`; when the name cannot be resolved, the format Exception instead. */
  function Violation(kind: PyClass, subject: Option<string>, detail: string): Exc {
    match subject
    case Some(name) => Exc(kind, name + detail)
    case None => UnexpectedFormat
  }

  /** Whatever the subject, a violation is either of the check's own kind with a message
      that starts with the subject's name, or the format Exception. */
  lemma ViolationNamesSubject(kind: PyClass, subject: Option<string>, detail: string)
    ensures subject.Some? ==> (Violation(kind, subject, detail).cls == kind
      && Violation(kind, subject, detail).msg[..|subject.value|] == subject.value)
    ensures subject.None? ==> Violation(kind, subject, detail) == UnexpectedFormat
  {
  }

  // ---------------------------------------------------------------------------
  // The checks

  /** `is_not_none(value)` */
  function IsNotNone(value: Value, callSite: string): (r: Outcome)
    ensures r.Raised? <==> value == NoneVal
    ensures r.Raised? ==> r.exc == Violation(TypeErrorClass, ExtractName(callSite), " was equal to None.")
  {
    if value.NoneVal? then Raised(Violation(TypeErrorClass, SubjectName(None, callSite), " was equal to None."))
    else Returned
  }

  /** `is_not_empty(value)` */
  function IsNotEmpty(value: Value, callSite: string): (r: Outcome)
    ensures r.Raised? <==> value == NoneVal || (IsIterable(value) && |Items(value)| == 0)
    ensures r.Raised? ==> r.exc == Violation(ValueErrorClass, ExtractName(callSite), " was empty.")
  {
    if value.NoneVal? || (value.StrVal? && value.s == "") || (IsIterable(value) && |Items(value)| == 0) then
      Raised(Violation(ValueErrorClass, SubjectName(None, callSite), " was empty."))
    else Returned
  }

  /** `value in expected_values` */
  predicate IsMember(value: Value, expected: seq<Value>) {
    exists k | 0 <= k < |expected| :: PyEq(expected[k], value)
  }

  /** `is_equal_to_any(value, expected_values, expression_str)` */
  function IsEqualToAny(value: Value, expected: seq<Value>, expression: Option<string>, callSite: string): (r: Outcome)
    ensures r.Returned? <==> exists k :: 0 <= k < |expected| && PyEq(expected[k], value)
    ensures r.Raised? ==> r.exc == Violation(ValueErrorClass, SubjectName(expression, callSite),
      " with value " + Str(value) + " and type " + TypeOf(value).name + " was not equal to any of the expected values.")
  {
    if !IsMember(value, expected) then
      Raised(Violation(ValueErrorClass, SubjectName(expression, callSite),
        " with value " + Str(value) + " and type " + TypeOf(value).name + " was not equal to any of the expected values."))
    else Returned
  }

  /** `is_true(value, expression_str)`: only the constant `True` passes. */
  function IsTrue(value: Value, expression: Option<string>, callSite: string): (r: Outcome)
    ensures r.Returned? <==> value == BoolVal(true)
    ensures r.Raised? ==> r.exc == Violation(ValueErrorClass, SubjectName(expression, callSite), " was not True.")
  {
    if value != BoolVal(true) then Raised(Violation(ValueErrorClass, SubjectName(expression, callSite), " was not True."))
    else Returned
  }

  /** `is_false(value, expression_str)`: only the constant `False` passes. */
  function IsFalse(value: Value, expression: Option<string>, callSite: string): (r: Outcome)
    ensures r.Returned? <==> value == BoolVal(false)
    ensures r.Raised? ==> r.exc == Violation(ValueErrorClass, SubjectName(expression, callSite), " was not False.")
  {
    if value != BoolVal(false) then Raised(Violation(ValueErrorClass, SubjectName(expression, callSite), " was not False."))
    else Returned
  }

  /** `is_equal(value, expected_value, expression_str)` */
  function IsEqual(value: Value, expected: Value, expression: Option<string>, callSite: string): (r: Outcome)
    ensures r.Returned? <==> PyEq(value, expected)
    ensures r.Raised? ==> r.exc == Violation(ValueErrorClass, SubjectName(expression, callSite),
      " with value " + Str(value) + " was not equal to " + Str(expected) + ".")
  {
    if !PyEq(value, expected) then
      Raised(Violation(ValueErrorClass, SubjectName(expression, callSite),
        " with value " + Str(value) + " was not equal to " + Str(expected) + "."))
    else Returned
  }

  /** `is_greater_than(value, expected_value)` on integers. */
  function IsGreaterThan(value: int, expected: int, callSite: string): (r: Outcome)
    ensures r.Returned? <==> value > expected
    ensures r.Raised? ==> r.exc == Violation(ValueErrorClass, ExtractName(callSite),
      " with value " + IntToString(value) + " was not greater than " + IntToString(expected) + ".")
  {
    if value <= expected then
      Raised(Violation(ValueErrorClass, SubjectName(None, callSite),
        " with value " + IntToString(value) + " was not greater than " + IntToString(expected) + "."))
    else Returned
  }

  /** `is_greater_than_or_equal(value, expected_value)` on integers. */
  function IsGreaterThanOrEqual(value: int, expected: int, callSite: string): (r: Outcome)
    ensures r.Returned? <==> value >= expected
    ensures r.Raised? ==> r.exc == Violation(ValueErrorClass, ExtractName(callSite),
      " with value " + IntToString(value) + " was not greater than or equal to " + IntToString(expected) + ".")
  {
    if value < expected then
      Raised(Violation(ValueErrorClass, SubjectName(None, callSite),
        " with value " + IntToString(value) + " was not greater than or equal to " + IntToString(expected) + "."))
    else Returned
  }

  /** Whether `v` has the member `name`; when `wantMethod`, it must also be callable. */
  predicate Provides(v: Value, name: string, wantMethod: bool) {
    if wantMethod then HasMethod(v, name) else HasAttr(v, name)
  }

  /** The `for item in value` search of `all_have_attribute` and `all_have_method`: the
      index of the first item that lacks the member, if any. */
  function FirstLacking(items: seq<Value>, name: string, wantMethod: bool): (r: Option<nat>)
    ensures r.Some? ==> r.value < |items| && !Provides(items[r.value], name, wantMethod)
    ensures r.Some? ==> forall j :: 0 <= j < r.value ==> Provides(items[j], name, wantMethod)
    ensures r.None? <==> forall j :: 0 <= j < |items| ==> Provides(items[j], name, wantMethod)
  {
    if |items| == 0 then None
    else if !Provides(items[0], name, wantMethod) then Some(0)
    else match FirstLacking(items[1..], name, wantMethod)
      case None => None
      case Some(k) => Some(k + 1)
  }

  /** The message tail for an iterable subject with an item of type `typeName` lacking
      the `what` (attribute or method) `name`. */
  function ItemLacks(typeName: string, what: string, name: string): string {
    " contains an item of type " + typeName + " not having the expected " + what + " '" + name + "'."
  }

  /** The message tail for a single subject of type `typeName` lacking `name`. */
  function SubjectLacks(typeName: string, what: string, name: string): string {
    " with type " + typeName + " does not have the expected " + what + " '" + name + "'."
  }

  /** The body shared by `all_have_attribute` and `all_have_method`. */
  function AllHave(value: Value, name: string, wantMethod: bool, callSite: string): (r: Outcome)
    ensures r.Returned? <==>
      if IsIterable(value) then forall j :: 0 <= j < |Items(value)| ==> Provides(Items(value)[j], name, wantMethod)
      else Provides(value, name, wantMethod)
    ensures r.Raised? && IsIterable(value) ==>
      exists k :: 0 <= k < |Items(value)| && !Provides(Items(value)[k], name, wantMethod)
        && (forall j :: 0 <= j < k ==> Provides(Items(value)[j], name, wantMethod))
        && r.exc == Violation(AttributeErrorClass, ExtractName(callSite),
             ItemLacks(TypeOf(Items(value)[k]).name, if wantMethod then "method" else "attribute", name))
    ensures r.Raised? && !IsIterable(value) ==>
      r.exc == Violation(AttributeErrorClass, ExtractName(callSite),
        SubjectLacks(TypeOf(value).name, if wantMethod then "method" else "attribute", name))
  {
    var what := if wantMethod then "method" else "attribute";
    if IsIterable(value) then
      match FirstLacking(Items(value), name, wantMethod)
      case None => Returned
      case Some(k) =>
        Raised(Violation(AttributeErrorClass, SubjectName(None, callSite), ItemLacks(TypeOf(Items(value)[k]).name, what, name)))
    else if !Provides(value, name, wantMethod) then
      Raised(Violation(AttributeErrorClass, SubjectName(None, callSite), SubjectLacks(TypeOf(value).name, what, name)))
    else Returned
  }

  /** `all_have_attribute(value, attribute_name)` */
  function AllHaveAttribute(value: Value, attribute: string, callSite: string): (r: Outcome)
    ensures r.Returned? <==>
      if IsIterable(value) then forall j :: 0 <= j < |Items(value)| ==> HasAttr(Items(value)[j], attribute)
      else HasAttr(value, attribute)
  {
    AllHave(value, attribute, false, callSite)
  }

  /** `all_have_method(value, method_name)` */
  function AllHaveMethod(value: Value, methodName: string, callSite: string): (r: Outcome)
    ensures r.Returned? <==>
      if IsIterable(value) then forall j :: 0 <= j < |Items(value)| ==> HasMethod(Items(value)[j], methodName)
      else HasMethod(value, methodName)
  {
    AllHave(value, methodName, true, callSite)
  }

  /** `is_callable(value)`: the value has a `__call__` attribute. */
  function IsCallable(value: Value, callSite: string): (r: Outcome)
    ensures r.Returned? <==> HasAttr(value, "__call__")
    ensures r.Raised? ==> r.exc == Violation(TypeErrorClass, ExtractName(callSite),
      " with type " + TypeOf(value).name + " was not callable.")
  {
    if !HasAttr(value, "__call__") then
      Raised(Violation(TypeErrorClass, SubjectName(None, callSite), " with type " + TypeOf(value).name + " was not callable."))
    else Returned
  }

  /** `is_instance(value, cls)`: instances of subclasses pass. */
  function IsInstanceOf(value: Value, cls: PyClass, callSite: string): (r: Outcome)
    ensures r.Returned? <==> IsSubclass(TypeOf(value), cls)
    ensures r.Raised? ==> r.exc == Violation(TypeErrorClass, ExtractName(callSite), " was not an instance of " + cls.name + ".")
  {
    if !IsInstance(value, cls) then
      Raised(Violation(TypeErrorClass, SubjectName(None, callSite), " was not an instance of " + cls.name + "."))
    else Returned
  }

  // ---------------------------------------------------------------------------
  // Properties of the catalogue

  /** A non-empty label names the subject verbatim: the call site no longer matters, and
      the message starts with the label. */
  lemma ExpressionOverridesCallSite(value: Value, other: Value, expected: seq<Value>,
                                    expression: Option<string>, site: string, elsewhere: string)
    requires IsTruthy(expression)
    ensures IsEqual(value, other, expression, site) == IsEqual(value, other, expression, elsewhere)
    ensures IsEqualToAny(value, expected, expression, site) == IsEqualToAny(value, expected, expression, elsewhere)
    ensures IsTrue(value, expression, site) == IsTrue(value, expression, elsewhere)
    ensures IsFalse(value, expression, site) == IsFalse(value, expression, elsewhere)
    ensures IsTrue(value, expression, site).Raised? ==>
      IsTrue(value, expression, site).exc == Exc(ValueErrorClass, expression.value + " was not True.")
  {
  }

  /** An empty label is falsy, so it falls back to the call site just like no label. */
  lemma EmptyExpressionFallsBack(value: Value, other: Value, expected: seq<Value>, callSite: string)
    ensures IsEqual(value, other, Some(""), callSite) == IsEqual(value, other, None, callSite)
    ensures IsEqualToAny(value, expected, Some(""), callSite) == IsEqualToAny(value, expected, None, callSite)
    ensures IsTrue(value, Some(""), callSite) == IsTrue(value, None, callSite)
    ensures IsFalse(value, Some(""), callSite) == IsFalse(value, None, callSite)
  {
  }

  /** `is_greater_than` rejects equality, `is_greater_than_or_equal` accepts it; on integers
      the first is the second with the threshold raised by one. */
  lemma GreaterThanIsStrict(value: int, expected: int, callSite: string)
    ensures IsGreaterThan(value, expected, callSite).Returned? ==> IsGreaterThanOrEqual(value, expected, callSite).Returned?
    ensures IsGreaterThan(value, value, callSite).Raised? && IsGreaterThanOrEqual(value, value, callSite).Returned?
    ensures IsGreaterThan(value, expected, callSite).Returned? <==> IsGreaterThanOrEqual(value, expected + 1, callSite).Returned?
  {
  }

  /** No value passes both `is_true` and `is_false`, and every value that is not a
      boolean constant fails both, truthy or not. */
  lemma TrueAndFalseAreStrict(value: Value, expression: Option<string>, callSite: string)
    ensures IsTrue(value, expression, callSite).Raised? || IsFalse(value, expression, callSite).Raised?
    ensures !value.BoolVal? ==> IsTrue(value, expression, callSite).Raised? && IsFalse(value, expression, callSite).Raised?
  {
  }

  /** Every value is equal to itself. */
  lemma {:induction false} IsEqualReflexive(value: Value, expression: Option<string>, callSite: string)
    ensures IsEqual(value, value, expression, callSite) == Returned
  {
    PyEqReflexive(value);
  }

  /** Swapping the value and the expected value does not change whether `is_equal` passes. */
  lemma {:induction false} IsEqualSymmetric(value: Value, expected: Value, expression: Option<string>, callSite: string)
    ensures IsEqual(value, expected, expression, callSite).Returned? <==> IsEqual(expected, value, expression, callSite).Returned?
  {
    if PyEq(value, expected) { PyEqSymmetric(value, expected); }
    if PyEq(expected, value) { PyEqSymmetric(expected, value); }
  }

  /** `is_equal_to_any` passes exactly when `is_equal` passes against one of the expected
      values. */
  lemma {:induction false} IsEqualToAnyIsSomeIsEqual(value: Value, expected: seq<Value>, expression: Option<string>, callSite: string)
    ensures IsEqualToAny(value, expected, expression, callSite).Returned? <==>
      exists k :: 0 <= k < |expected| && IsEqual(value, expected[k], expression, callSite).Returned?
  {
    forall k | 0 <= k < |expected|
      ensures PyEq(expected[k], value) <==> PyEq(value, expected[k])
    {
      if PyEq(expected[k], value) { PyEqSymmetric(expected[k], value); }
      if PyEq(value, expected[k]) { PyEqSymmetric(value, expected[k]); }
    }
  }

  /** Each of the expected values passes `is_equal_to_any`; nothing passes against an empty
      collection. */
  lemma {:induction false} IsEqualToAnyAcceptsListed(expected: seq<Value>, k: nat, expression: Option<string>, callSite: string)
    requires k < |expected|
    ensures IsEqualToAny(expected[k], expected, expression, callSite) == Returned
    ensures IsEqualToAny(expected[k], [], expression, callSite).Raised?
  {
    PyEqReflexive(expected[k]);
  }

  /** What passes `is_not_empty` also passes `is_not_none`; the empty string and the empty
      list fail it, and a value that is neither None nor iterable never does. */
  lemma NotEmptyRefinesNotNone(value: Value, callSite: string)
    ensures IsNotEmpty(value, callSite).Returned? ==> IsNotNone(value, callSite).Returned?
    ensures IsNotEmpty(StrVal(""), callSite).Raised? && IsNotEmpty(ListVal([]), callSite).Raised?
    ensures value != NoneVal && !IsIterable(value) ==> IsNotEmpty(value, callSite).Returned?
  {
  }

  /** Having every method implies having every attribute of that name. */
  lemma MethodImpliesAttribute(value: Value, name: string, callSite: string)
    ensures AllHaveMethod(value, name, callSite).Returned? ==> AllHaveAttribute(value, name, callSite).Returned?
  {
  }

  /** An empty iterable passes both `all_have_*` checks vacuously. */
  lemma AllHaveVacuous(value: Value, name: string, callSite: string)
    requires IsIterable(value) && |Items(value)| == 0
    ensures AllHaveAttribute(value, name, callSite) == Returned
    ensures AllHaveMethod(value, name, callSite) == Returned
  {
  }

  /** On a single (non-iterable) subject, `is_callable` passes exactly when the subject has
      the attribute `__call__`; when the subject's name is found, the two fail with
      different error classes. */
  lemma CallableIsCallAttribute(value: Value, callSite: string)
    requires !IsIterable(value)
    ensures IsCallable(value, callSite).Returned? <==> AllHaveAttribute(value, "__call__", callSite).Returned?
    ensures ExtractName(callSite).Some? && IsCallable(value, callSite).Raised? ==>
      IsCallable(value, callSite).exc.cls == TypeErrorClass
      && AllHaveAttribute(value, "__call__", callSite).exc.cls == AttributeErrorClass
  {
  }

  /** Every value is an instance of its own class, and a `bool` is an instance of `int`. */
  lemma InstanceOfOwnClassAndAncestors(value: Value, b: bool, callSite: string)
    ensures IsInstanceOf(value, TypeOf(value), callSite) == Returned
    ensures IsInstanceOf(BoolVal(b), IntClass, callSite) == Returned
    ensures IsInstanceOf(BoolVal(b), StrClass, callSite).Raised?
  {
  }
}
