/** The cases of the repository's tests (`tests/contract_test.py`, `tests/assertion_test.py`)
    stated over the model. A call site is the caller's source line as the stack summary
    gives it, with surrounding whitespace stripped. */
module Scenarios {
  import opened Python
  import opened Contract
  import opened Assertion

  /** A call written as `callee(name, ...)` or `callee(name)`, with no parenthesis in
      `callee`, names its subject `name`. */
  lemma FirstArgumentIs(callee: string, name: string, rest: string)
    requires '(' !in callee
    requires |name| > 0 && forall c :: c in name ==> IsNameChar(c)
    requires |rest| > 0 && IsTerminator(rest[0])
    ensures ExtractName(callee + "(" + name + rest) == Some(name)
  {
    var line, i := callee + "(" + name + rest, |callee|;
    assert line[i + 1..i + 1 + |name|] == name;
    assert line[i + 1 + |name|] == rest[0];
    forall k | 0 <= k < |name|
      ensures IsNameChar(name[k])
    {
      assert name[k] in name;
    }
    forall j | 0 <= j < i
      ensures line[j] != '('
    {
      assert line[j] == callee[j];
    }
    LeftmostMatchIsExtracted(line, i, name);
  }

  /** A call whose only opening parenthesis is followed by a `[\w.]` run and then by
      anything but a comma or a closing parenthesis (`callee(a > 0, ...)`) yields no name. */
  lemma NoArgumentIn(callee: string, word: string, rest: string)
    requires '(' !in callee && '(' !in rest
    requires forall c :: c in word ==> IsNameChar(c)
    requires |rest| > 0 && !IsNameChar(rest[0]) && !IsTerminator(rest[0])
    ensures ExtractName(callee + "(" + word + rest) == None
  {
    var line, i := callee + "(" + word + rest, |callee|;
    forall k | i + 1 <= k < i + 1 + |word|
      ensures IsNameChar(line[k])
    {
      assert line[k] == word[k - i - 1];
      assert word[k - i - 1] in word;
    }
    assert line[i + 1 + |word|] == rest[0];
    assert RunLength(line, i + 1) == |word|;
    forall j | 0 <= j < |line| && j != i
      ensures line[j] != '('
    {
      if j < i {
        assert line[j] == callee[j];
        assert callee[j] in callee;
      } else if j < i + 1 + |word| {
        assert IsNameChar(line[j]);
      } else {
        assert line[j] == rest[j - i - 1 - |word|];
        assert rest[j - i - 1 - |word|] in rest;
      }
    }
    forall j, name | PatternMatchesAt(line, j, name)
      ensures false
    {
      MatchAtIsPattern(line, j, name);
    }
    ExtractNameNoneIffNoMatch(line);
  }

  /** When the first argument is itself a call, `callee(f(name...`, the first parenthesis
      is not followed by a match and the search moves on: the subject is named after the
      inner call's first argument. */
  lemma InnerArgumentIs(callee: string, f: string, name: string, rest: string)
    requires '(' !in callee
    requires forall c :: c in f ==> IsNameChar(c)
    requires |name| > 0 && forall c :: c in name ==> IsNameChar(c)
    requires |rest| > 0 && IsTerminator(rest[0])
    ensures ExtractName(callee + "(" + f + "(" + name + rest) == Some(name)
  {
    var line, i := callee + "(" + f + "(" + name + rest, |callee| + 1 + |f|;
    assert line[i + 1..i + 1 + |name|] == name;
    assert line[i + 1 + |name|] == rest[0];
    forall k | 0 <= k < |name|
      ensures IsNameChar(name[k])
    {
      assert name[k] in name;
    }
    forall k | |callee| + 1 <= k < i
      ensures IsNameChar(line[k])
    {
      assert line[k] == f[k - |callee| - 1];
      assert f[k - |callee| - 1] in f;
    }
    assert line[i] == '(' && !IsNameChar('(');
    assert RunLength(line, |callee| + 1) == |f|;
    forall j | 0 <= j < i && j != |callee|
      ensures line[j] != '('
    {
      if j < |callee| {
        assert line[j] == callee[j];
        assert callee[j] in callee;
      } else {
        assert IsNameChar(line[j]);
      }
    }
    forall j, other | 0 <= j < i && PatternMatchesAt(line, j, other)
      ensures false
    {
      MatchAtIsPattern(line, j, other);
    }
    LeftmostMatchIsExtracted(line, i, name);
  }

  /** The shape of a call site whose first argument is a plain name: `callee(name` then a
      comma or a closing parenthesis, with no parenthesis inside `callee`
      (`contract.is_not_none(self.the_param)`, `contract.is_equal(a, expected_value)`). */
  predicate NamesFirstArgument(callee: string, name: string, rest: string) {
    && '(' !in callee
    && |name| > 0 && (forall c :: c in name ==> IsNameChar(c))
    && |rest| > 0 && IsTerminator(rest[0])
  }

  /** tests/contract_test.py:12-16, 67-70, 97-99, 134-145: whatever the callee, the argument
      written at the call site names the subject. */
  lemma NotNoneNamesItsArgument(callee: string, name: string, rest: string)
    requires NamesFirstArgument(callee, name, rest)
    ensures IsNotNone(NoneVal, callee + "(" + name + rest)
      == Raised(Exc(TypeErrorClass, name + " was equal to None."))
    ensures IsNotNone(StrVal("123"), callee + "(" + name + rest) == Returned
  {
    FirstArgumentIs(callee, name, rest);
  }

  /** tests/contract_test.py:18-25 */
  lemma NotEmptyCases(callee: string, name: string, rest: string)
    requires NamesFirstArgument(callee, name, rest)
    ensures IsNotEmpty(NoneVal, callee + "(" + name + rest) == Raised(Exc(ValueErrorClass, name + " was empty."))
    ensures IsNotEmpty(StrVal(""), callee + "(" + name + rest) == Raised(Exc(ValueErrorClass, name + " was empty."))
    ensures IsNotEmpty(ListVal([]), callee + "(" + name + rest) == Raised(Exc(ValueErrorClass, name + " was empty."))
    ensures IsNotEmpty(StrVal("123"), callee + "(" + name + rest) == Returned
    ensures IsNotEmpty(ListVal([IntVal(123)]), callee + "(" + name + rest) == Returned
  {
    FirstArgumentIs(callee, name, rest);
  }

  const Unequal := " was not equal to any of the expected values."

  /** tests/contract_test.py:33-38 */
  lemma EqualToAnyCases(callee: string, name: string, rest: string)
    requires NamesFirstArgument(callee, name, rest)
    ensures IsEqualToAny(IntVal(4), [IntVal(1), IntVal(2), IntVal(3)], None, callee + "(" + name + rest)
      == Raised(Exc(ValueErrorClass, name + (" with value " + "4" + " and type " + "int" + Unequal)))
    ensures IsEqualToAny(IntVal(4), [IntVal(1), IntVal(2), IntVal(3)], Some("something.abc"), callee + "(" + name + rest)
      == Raised(Exc(ValueErrorClass, "something.abc" + (" with value " + "4" + " and type " + "int" + Unequal)))
    ensures IsEqualToAny(IntVal(1), [IntVal(1), IntVal(2), IntVal(3)], None, callee + "(" + name + rest) == Returned
  {
    FirstArgumentIs(callee, name, rest);
    assert Str(IntVal(4)) == "4";
    var expected := [IntVal(1), IntVal(2), IntVal(3)];
    assert !PyEq(expected[0], IntVal(4)) && !PyEq(expected[1], IntVal(4)) && !PyEq(expected[2], IntVal(4));
    assert PyEq(expected[0], IntVal(1));
  }

  /** The shape of a call site whose first argument is not a plain name:
      `callee(word` then something other than a comma or a closing parenthesis
      (`contract.is_true(a > 0, expression)`), with no other opening parenthesis. */
  predicate HidesFirstArgument(callee: string, word: string, rest: string) {
    && '(' !in callee && '(' !in rest
    && (forall c :: c in word ==> IsNameChar(c))
    && |rest| > 0 && !IsNameChar(rest[0]) && !IsTerminator(rest[0])
  }

  /** tests/contract_test.py:40-44: a comparison such as `a > 0` cannot be recovered from
      the call site, so the tests pass it as a label; without one, a failing check raises
      the format Exception. */
  lemma TrueCases(callee: string, word: string, rest: string)
    requires HidesFirstArgument(callee, word, rest)
    ensures IsTrue(BoolVal(false), Some("a > 0"), callee + "(" + word + rest)
      == Raised(Exc(ValueErrorClass, "a > 0" + " was not True."))
    ensures IsTrue(BoolVal(true), None, callee + "(" + word + rest) == Returned
    ensures IsTrue(BoolVal(false), None, callee + "(" + word + rest) == Raised(UnexpectedFormat)
  {
    NoArgumentIn(callee, word, rest);
  }

  /** tests/contract_test.py:46-50 */
  lemma FalseCases(callee: string, word: string, rest: string)
    requires HidesFirstArgument(callee, word, rest)
    ensures IsFalse(BoolVal(true), Some("a > 0"), callee + "(" + word + rest)
      == Raised(Exc(ValueErrorClass, "a > 0" + " was not False."))
    ensures IsFalse(BoolVal(false), None, callee + "(" + word + rest) == Returned
    ensures IsFalse(BoolVal(true), None, callee + "(" + word + rest) == Raised(UnexpectedFormat)
  {
    NoArgumentIn(callee, word, rest);
  }

  /** tests/contract_test.py:52-55 */
  lemma UnequalCases(callee: string, name: string, rest: string)
    requires NamesFirstArgument(callee, name, rest)
    ensures IsEqual(IntVal(2), IntVal(1), None, callee + "(" + name + rest)
      == Raised(Exc(ValueErrorClass, name + (" with value " + "2" + " was not equal to " + "1" + ".")))
    ensures IsEqual(IntVal(2), IntVal(1), Some("self.a"), callee + "(" + name + rest)
      == Raised(Exc(ValueErrorClass, "self.a" + (" with value " + "2" + " was not equal to " + "1" + ".")))
    ensures IsEqual(IntVal(2), IntVal(1), Some("len(tuple)"), callee + "(" + name + rest)
      == Raised(Exc(ValueErrorClass, "len(tuple)" + (" with value " + "2" + " was not equal to " + "1" + ".")))
  {
    FirstArgumentIs(callee, name, rest);
    assert Str(IntVal(2)) == "2" && Str(IntVal(1)) == "1";
  }

  /** tests/contract_test.py:57-59 */
  lemma EqualCases(callSite: string)
    ensures IsEqual(IntVal(1), IntVal(1), None, callSite) == Returned
    ensures IsEqual(StrVal(""), StrVal(""), None, callSite) == Returned
  {
  }

  /** tests/contract_test.py:55 passes the label `len(tuple)`: without it, a call such as
      `contract.is_equal(len(a), 1)` names the subject `a`, the argument of `len`. */
  lemma NestedCallNamesInnerArgument(callee: string, f: string, name: string, rest: string)
    requires '(' !in callee && |f| > 0 && forall c :: c in f ==> IsNameChar(c)
    requires NamesFirstArgument("", name, rest)
    ensures IsEqual(IntVal(2), IntVal(1), None, callee + "(" + f + "(" + name + rest)
      == Raised(Exc(ValueErrorClass, name + (" with value " + "2" + " was not equal to " + "1" + ".")))
  {
    InnerArgumentIs(callee, f, name, rest);
    assert Str(IntVal(2)) == "2" && Str(IntVal(1)) == "1";
  }

  /** Python's `1 == True`: `is_equal` accepts the pair, while `is_true` refuses 1. */
  lemma OneEqualsTrueButIsNotTrue(callSite: string)
    ensures IsEqual(IntVal(1), BoolVal(true), None, callSite) == Returned
    ensures IsTrue(IntVal(1), None, callSite).Raised?
  {
  }

  /** tests/contract_test.py:61-65 */
  lemma GreaterThanCases(callee: string, name: string, rest: string)
    requires NamesFirstArgument(callee, name, rest)
    ensures IsGreaterThan(1, 2, callee + "(" + name + rest)
      == Raised(Exc(ValueErrorClass, name + (" with value " + "1" + " was not greater than " + "2" + ".")))
    ensures IsGreaterThan(2, 1, callee + "(" + name + rest) == Returned
  {
    FirstArgumentIs(callee, name, rest);
    assert IntToString(1) == "1" && IntToString(2) == "2";
  }

  /** tests/contract_test.py:72-90 */
  lemma InstanceCases(callee: string, name: string, rest: string)
    requires NamesFirstArgument(callee, name, rest)
    ensures IsInstanceOf(BoolVal(true), BoolClass, callee + "(" + name + rest) == Returned
    ensures IsInstanceOf(BoolVal(true), StrClass, callee + "(" + name + rest)
      == Raised(Exc(TypeErrorClass, name + (" was not an instance of " + "str" + ".")))
  {
    FirstArgumentIs(callee, name, rest);
  }

  /** tests/assertion_test.py:12-16 and 83-84, where `_raise(cls)` raises `cls(None)`, whose text is
      "None". */
  lemma DoesNotRaiseCases()
    ensures DoesNotRaise(ValueErrorClass, "_raise", Raised(Exc(ValueErrorClass, "None")))
      == Raised(Exc(AssertionErrorClass, "ValueError" + " raised by " + "_raise" + "()."))
    ensures DoesNotRaise(ValueErrorClass, "_raise", Raised(Exc(TypeErrorClass, "None"))) == Returned
    ensures DoesNotRaise(ValueErrorClass, "_does_not_raise", Returned) == Returned
  {
  }

  /** The format Exception of the name lookup is an ordinary `Exception`: `does_not_raise`
      swallows it unless the forbidden class is `Exception` itself, and `raises` reports it
      as the expected exception missing. */
  lemma FormatErrorIsCaught(callableName: string)
    ensures DoesNotRaise(TypeErrorClass, callableName, Raised(UnexpectedFormat)) == Returned
    ensures DoesNotRaise(ExceptionClass, callableName, Raised(UnexpectedFormat)).Raised?
    ensures !RaisedExpected(TypeErrorClass, None, Raised(UnexpectedFormat))
  {
  }

  /** tests/assertion_test.py:19-20: nothing was raised. */
  method RaisesWhenNothingRaised() returns (r: Outcome)
    ensures r == Raised(Exc(AssertionErrorClass, "ValueError" + " was not raised by " + "_does_not_raise" + "()."))
  {
    r := Raises(ValueErrorClass, "_does_not_raise", Returned);
  }

  /** tests/assertion_test.py:21-22: an exception of another class was raised. */
  method RaisesWhenOtherRaised() returns (r: Outcome)
    ensures r == Raised(Exc(AssertionErrorClass, "ValueError" + " was not raised by " + "_raise" + "()."))
  {
    r := Raises(ValueErrorClass, "_raise", Raised(Exc(TypeErrorClass, "None")));
  }

  /** tests/assertion_test.py:23: the expected exception was raised. */
  method RaisesWhenExpectedRaised() returns (r: Outcome)
    ensures r == Returned
  {
    r := Raises(ValueErrorClass, "_raise", Raised(Exc(ValueErrorClass, "None")));
  }

  /** tests/assertion_test.py:28-29: an exception of another class was raised. */
  method RaisesWithMsgWhenOtherRaised() returns (r: Outcome)
    ensures r == Raised(Exc(AssertionErrorClass,
      "ValueError" + " with message '" + "Bad error!" + "' was not raised by " + "_raise" + "()."))
  {
    r := RaisesWithMsg(ValueErrorClass, "_raise", Some("Bad error!"), Raised(Exc(TypeErrorClass, "None")));
  }

  /** tests/assertion_test.py:30-31: `_raise(ValueError)` raises a ValueError whose text is
      "None", which does not contain the expected message. */
  method RaisesWithMsgWhenTextDiffers() returns (r: Outcome)
    ensures r == Raised(Exc(AssertionErrorClass,
      "ValueError" + " with message '" + "Bad error!" + "' was not raised by " + "_raise" + "()."))
  {
    r := RaisesWithMsg(ValueErrorClass, "_raise", Some("Bad error!"), Raised(Exc(ValueErrorClass, "None")));
    assert !Contains("None", "Bad error!");
  }

  /** tests/assertion_test.py:43-46: the history of a mock called as `m(1, 2, 3)`,
      `m(4, 5, c=6)` and `m(a=7, c=9, b=8)`. */
  function ThreeCalls(): seq<Call> {
    [Call([IntVal(1), IntVal(2), IntVal(3)], []),
     Call([IntVal(4), IntVal(5)], [("c", IntVal(6))]),
     Call([], [("a", IntVal(7)), ("c", IntVal(9)), ("b", IntVal(8))])]
  }

  /** tests/assertion_test.py:48-49: a mock that was never called. */
  method NotCalledWithWhenNeverCalled() returns (bare: Outcome, withArguments: Outcome)
    ensures bare == Returned && withArguments == Returned
  {
    bare := NotCalledWith([], [], []);
    withArguments := NotCalledWith([], [IntVal(1), IntVal(2), IntVal(3)], []);
  }

  /** tests/assertion_test.py:52-53: the expected message is passed as a fourth positional
      argument, a call that was never recorded, so the wrapper passes. */
  method NotCalledWithExtraArgument() returns (r: Outcome)
    ensures r == Returned
  {
    var args := [IntVal(1), IntVal(2), IntVal(3), StrVal("Function was unexpectedly called with (1, 2, 3).")];
    r := NotCalledWith(ThreeCalls(), args, []);
  }

  /** tests/assertion_test.py:39-40, 50-51: a mock called once with no argument. */
  method NotCalledWithAfterEmptyCall() returns (r: Outcome)
    ensures r == Raised(Exc(AssertionErrorClass, "Function was unexpectedly called with (" + "" + ")."))
  {
    var history := [Call([], [])];
    assert SameCall(history[0], [], []);
    r := NotCalledWith(history, [], []);
    assert Join(", ", ArgStrings([]) + KwargStrings([])) == "";
  }

  /** tests/assertion_test.py:54-55 */
  method NotCalledWithMatchingCall() returns (r: Outcome)
    ensures r == Raised(Exc(AssertionErrorClass,
      "Function was unexpectedly called with (" + ("4" + ", " + ("5" + ", " + ("c" + "=" + "6"))) + ")."))
  {
    var history := ThreeCalls();
    var args, kwargs := [IntVal(4), IntVal(5)], [("c", IntVal(6))];
    assert SameCall(history[1], args, kwargs);
    r := NotCalledWith(history, args, kwargs);
    assert Str(IntVal(4)) == "4" && Str(IntVal(5)) == "5" && Str(IntVal(6)) == "6";
    var parts := ArgStrings(args) + KwargStrings(kwargs);
    assert parts == ["4", "5", "c" + "=" + "6"];
    assert parts[1..] == ["5", "c" + "=" + "6"] && parts[1..][1..] == ["c" + "=" + "6"];
    assert Join(", ", parts[1..][1..]) == "c" + "=" + "6";
    assert Join(", ", parts[1..]) == "5" + ", " + ("c" + "=" + "6");
  }

  /** tests/assertion_test.py:46, 56: the recorded call `m(a=7, c=9, b=8)` is the call
      `m(a=7, b=8, c=9)`. */
  lemma ReorderedKeywordsMatch()
    ensures SameCall(ThreeCalls()[2], [], [("a", IntVal(7)), ("b", IntVal(8)), ("c", IntVal(9))])
  {
    var a, b, c := ("a", IntVal(7)), ("b", IntVal(8)), ("c", IntVal(9));
    var written := map["a" := IntVal(7), "b" := IntVal(8), "c" := IntVal(9)];
    assert [a, b, c][..2] == [a, b] && [a, b][..1] == [a] && [a][..0] == [];
    assert KeywordMap([a]) == map["a" := IntVal(7)];
    assert KeywordMap([a, b]) == map["a" := IntVal(7), "b" := IntVal(8)];
    assert KeywordMap([a, b, c]) == written;
    SwapKeywords([a], c, b, []);
    assert [a] + [c, b] + [] == ThreeCalls()[2].kwargs;
    assert [a] + [b, c] + [] == [a, b, c];
  }

  /** tests/assertion_test.py:56-57: the call is found although its keywords were written
      in another order, and the message lists them in the order given. */
  method NotCalledWithKeywordsInAnyOrder() returns (r: Outcome)
    ensures r == Raised(Exc(AssertionErrorClass, "Function was unexpectedly called with ("
      + (("a" + "=" + "7") + ", " + (("b" + "=" + "8") + ", " + ("c" + "=" + "9"))) + ")."))
  {
    var kwargs := [("a", IntVal(7)), ("b", IntVal(8)), ("c", IntVal(9))];
    ReorderedKeywordsMatch();
    r := NotCalledWith(ThreeCalls(), [], kwargs);
    assert Str(IntVal(7)) == "7" && Str(IntVal(8)) == "8" && Str(IntVal(9)) == "9";
    var parts := ArgStrings([]) + KwargStrings(kwargs);
    assert parts == ["a" + "=" + "7", "b" + "=" + "8", "c" + "=" + "9"];
    assert parts[1..] == ["b" + "=" + "8", "c" + "=" + "9"] && parts[1..][1..] == ["c" + "=" + "9"];
    assert Join(", ", parts[1..]) == ("b" + "=" + "8") + ", " + ("c" + "=" + "9");
  }

  /** tests/assertion_test.py:59-66 */
  lemma ContainsOneElementCases()
    ensures ContainsOneElementOfClass(IntClass, []) ==
      Raised(Exc(AssertionErrorClass, "Iterable should contain one and only one object of class 'int'."))
    ensures ContainsOneElementOfClass(IntClass, [StrVal("dummy")]).Raised?
    ensures ContainsOneElementOfClass(IntClass, [IntVal(1), IntVal(2)]).Raised?
    ensures ContainsOneElementOfClass(IntClass, [IntVal(1)]) == Returned
  {
  }
}
