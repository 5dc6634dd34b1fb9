/** The test-assertion wrappers of `contracts/assertion.py`. A wrapper is given how the
    wrapped call ended (`Outcome`) and the callable's `__name__`, and itself returns
    normally or raises; its own failures are always `AssertionError`. */
module Assertion {
  import opened Python

  /** `except Exception`: only exceptions derived from `Exception` are caught; any other
      `BaseException` leaves the wrapper unchanged. */
  predicate IsCaught(e: Exc) {
    IsSubclass(e.cls, ExceptionClass)
  }

  /** The call ended in a way the wrapper handles itself: it returned, or raised something
      the wrapper catches. */
  predicate IsHandled(outcome: Outcome) {
    outcome.Returned? || IsCaught(outcome.exc)
  }

  // ---------------------------------------------------------------------------
  // does_not_raise, raises, raises_with_msg

  /** `does_not_raise(exception_cls, callable_obj)`. A caught exception of another class
      is swallowed, not re-raised. */
  function DoesNotRaise(exceptionCls: PyClass, callableName: string, outcome: Outcome): (r: Outcome)
    ensures outcome.Returned? ==> r == Returned
    ensures !IsHandled(outcome) ==> r == outcome
    ensures outcome.Raised? && IsCaught(outcome.exc) ==> (r.Raised? <==> IsSubclass(outcome.exc.cls, exceptionCls))
    ensures IsHandled(outcome) && r.Raised? ==>
      r.exc == Exc(AssertionErrorClass, exceptionCls.name + " raised by " + callableName + "().")
  {
    match outcome
    case Returned => Returned
    case Raised(e) =>
      if !IsCaught(e) then outcome
      else if IsSubclass(e.cls, exceptionCls) then
        Raised(Exc(AssertionErrorClass, exceptionCls.name + " raised by " + callableName + "()."))
      else Returned
  }

  /** What `raises_with_msg` expects of the call: it raised a caught instance of
      `exceptionCls` (or of a subclass) whose text contains `expectedMsg` when that is
      truthy. */
  predicate RaisedExpected(exceptionCls: PyClass, expectedMsg: Option<string>, outcome: Outcome) {
    && outcome.Raised?
    && IsCaught(outcome.exc)
    && IsSubclass(outcome.exc.cls, exceptionCls)
    && (IsTruthy(expectedMsg) ==> Contains(outcome.exc.msg, expectedMsg.value))
  }

  /** `raises_with_msg(exception_cls, callable_obj, expected_exception_msg)` */
  method RaisesWithMsg(exceptionCls: PyClass, callableName: string, expectedMsg: Option<string>, outcome: Outcome)
    returns (r: Outcome)
    ensures !IsHandled(outcome) ==> r == outcome
    ensures IsHandled(outcome) ==> (r.Returned? <==> RaisedExpected(exceptionCls, expectedMsg, outcome))
    ensures IsHandled(outcome) && r.Raised? && !IsTruthy(expectedMsg) ==>
      r.exc == Exc(AssertionErrorClass, exceptionCls.name + " was not raised by " + callableName + "().")
    ensures IsHandled(outcome) && r.Raised? && IsTruthy(expectedMsg) ==>
      r.exc == Exc(AssertionErrorClass,
        exceptionCls.name + " with message '" + expectedMsg.value + "' was not raised by " + callableName + "().")
  {
    var hasRaisedExpectedError := false;
    if outcome.Raised? {
      var e := outcome.exc;
      if !IsCaught(e) {
        return outcome;
      }
      if IsSubclass(e.cls, exceptionCls) {
        hasRaisedExpectedError := if IsTruthy(expectedMsg) then Contains(e.msg, expectedMsg.value) else true;
      }
    }
    if !hasRaisedExpectedError {
      var description := if !IsTruthy(expectedMsg) then exceptionCls.name
                         else exceptionCls.name + " with message '" + expectedMsg.value + "'";
      return Raised(Exc(AssertionErrorClass, description + " was not raised by " + callableName + "()."));
    }
    return Returned;
  }

  /** `raises(exception_cls, callable_obj)`: `raises_with_msg` with no expected message. */
  method Raises(exceptionCls: PyClass, callableName: string, outcome: Outcome) returns (r: Outcome)
    ensures !IsHandled(outcome) ==> r == outcome
    ensures IsHandled(outcome) ==> (r.Returned? <==> RaisedExpected(exceptionCls, None, outcome))
    ensures IsHandled(outcome) ==>
      (r.Returned? <==> outcome.Raised? && IsSubclass(outcome.exc.cls, exceptionCls))
    ensures IsHandled(outcome) && r.Raised? ==>
      r.exc == Exc(AssertionErrorClass, exceptionCls.name + " was not raised by " + callableName + "().")
  {
    r := RaisesWithMsg(exceptionCls, callableName, None, outcome);
  }

  /** For every way the call can end, exactly one of `does_not_raise` and `raises` passes;
      an exception neither catches propagates unchanged through both. */
  lemma DoesNotRaiseExcludesRaises(exceptionCls: PyClass, callableName: string, outcome: Outcome)
    ensures IsHandled(outcome) ==>
      (DoesNotRaise(exceptionCls, callableName, outcome).Returned? <==> !RaisedExpected(exceptionCls, None, outcome))
    ensures !IsHandled(outcome) ==> DoesNotRaise(exceptionCls, callableName, outcome) == outcome
  {
  }

  /** A falsy expected message is no message at all; a given message only narrows the
      expectation; the exception's own full text always matches. */
  lemma {:induction false} ExpectedMessageNarrows(exceptionCls: PyClass, message: string, outcome: Outcome)
    ensures RaisedExpected(exceptionCls, Some(""), outcome) == RaisedExpected(exceptionCls, None, outcome)
    ensures RaisedExpected(exceptionCls, Some(message), outcome) ==> RaisedExpected(exceptionCls, None, outcome)
    ensures outcome.Raised? ==>
      (RaisedExpected(exceptionCls, Some(outcome.exc.msg), outcome) <==> RaisedExpected(exceptionCls, None, outcome))
  {
    if outcome.Raised? {
      ContainsIffOccurs(outcome.exc.msg, outcome.exc.msg);
      assert OccursAt(outcome.exc.msg, outcome.exc.msg, 0);
    }
  }

  /** A caught exception of a subclass satisfies the expectation; one of a proper ancestor
      class does not; and a `BaseException` that is not an `Exception` is never expected. */
  lemma SubclassesAreExpected(e: Exc, expected: PyClass, message: string)
    ensures IsCaught(e) && IsSubclass(e.cls, expected) ==> RaisedExpected(expected, None, Raised(e))
    ensures RaisedExpected(ExceptionClass, None, Raised(Exc(ValueErrorClass, message)))
    ensures !RaisedExpected(ValueErrorClass, None, Raised(Exc(ExceptionClass, message)))
    ensures !RaisedExpected(BaseExceptionClass, None, Raised(Exc(BaseExceptionClass, message)))
  {
  }

  // ---------------------------------------------------------------------------
  // not_called_with

  /** One recorded call of a mock: its positional arguments and its keyword arguments in
      the order they were passed. */
  datatype Call = Call(args: seq<Value>, kwargs: seq<(string, Value)>)

  /** The keyword arguments as a dictionary. */
  function KeywordMap(kwargs: seq<(string, Value)>): map<string, Value> {
    if |kwargs| == 0 then map[]
    else KeywordMap(kwargs[..|kwargs| - 1])[kwargs[|kwargs| - 1].0 := kwargs[|kwargs| - 1].1]
  }

  /** Tuple equality of two positional argument lists. */
  predicate ArgsEqual(a: seq<Value>, b: seq<Value>) {
    |a| == |b| && forall k :: 0 <= k < |a| ==> PyEq(a[k], b[k])
  }

  /** Dictionary equality of two keyword argument lists: order does not matter. */
  predicate KwargsEqual(a: seq<(string, Value)>, b: seq<(string, Value)>) {
    var ma, mb := KeywordMap(a), KeywordMap(b);
    ma.Keys == mb.Keys && forall key :: key in ma ==> PyEq(ma[key], mb[key])
  }

  /** `call(*args, **kwargs) == recorded` */
  predicate SameCall(recorded: Call, args: seq<Value>, kwargs: seq<(string, Value)>) {
    ArgsEqual(recorded.args, args) && KwargsEqual(recorded.kwargs, kwargs)
  }

  /** What `assert_any_call(*args, **kwargs)` accepts: some recorded call is that call. */
  predicate WasCalledWith(history: seq<Call>, args: seq<Value>, kwargs: seq<(string, Value)>) {
    exists k | 0 <= k < |history| :: SameCall(history[k], args, kwargs)
  }

  /** Swapping two adjacent keyword arguments with distinct names gives the same
      dictionary. */
  lemma {:induction false} SwapKeywords(p: seq<(string, Value)>, x: (string, Value), y: (string, Value), q: seq<(string, Value)>)
    requires x.0 != y.0
    ensures KeywordMap(p + [x, y] + q) == KeywordMap(p + [y, x] + q)
    decreases |q|
  {
    var xy, yx := p + [x, y] + q, p + [y, x] + q;
    if |q| == 0 {
      assert xy[..|xy| - 1] == p + [x] && (p + [x])[..|p|] == p;
      assert yx[..|yx| - 1] == p + [y] && (p + [y])[..|p|] == p;
    } else {
      var front := q[..|q| - 1];
      assert xy[..|xy| - 1] == p + [x, y] + front;
      assert yx[..|yx| - 1] == p + [y, x] + front;
      SwapKeywords(p, x, y, front);
    }
  }

  /** No keyword is passed twice, as Python's call syntax demands. */
  predicate DistinctNames(kwargs: seq<(string, Value)>) {
    forall i, j :: 0 <= i < j < |kwargs| ==> kwargs[i].0 != kwargs[j].0
  }

  /** With distinct names, the dictionary holds exactly the passed names, each mapped to
      the value passed with it. */
  lemma {:induction false} KeywordMapContents(kwargs: seq<(string, Value)>)
    requires DistinctNames(kwargs)
    ensures KeywordMap(kwargs).Keys == set p | p in kwargs :: p.0
    ensures forall p :: p in kwargs ==> KeywordMap(kwargs)[p.0] == p.1
  {
    if |kwargs| > 0 {
      var n := |kwargs|;
      var front, last := kwargs[..n - 1], kwargs[n - 1];
      KeywordMapContents(front);
      assert kwargs == front + [last];
      forall p | p in kwargs
        ensures KeywordMap(kwargs)[p.0] == p.1
      {
        if p != last {
          var i :| 0 <= i < n - 1 && front[i] == p;
          assert kwargs[i].0 != kwargs[n - 1].0;
        }
      }
    }
  }

  /** The order in which keyword arguments are written does not change whether a call is
      found in the history: any reordering of the same distinct keyword arguments gives
      the same verdict. */
  lemma {:induction false} KeywordOrderIrrelevant(history: seq<Call>, args: seq<Value>,
                                                  a: seq<(string, Value)>, b: seq<(string, Value)>)
    requires DistinctNames(a) && DistinctNames(b) && multiset(a) == multiset(b)
    ensures WasCalledWith(history, args, a) == WasCalledWith(history, args, b)
  {
    KeywordMapContents(a);
    KeywordMapContents(b);
    forall p ensures p in a <==> p in b {
      assert p in a <==> p in multiset(a);
      assert p in b <==> p in multiset(b);
    }
    assert KeywordMap(a) == KeywordMap(b);
  }

  /** In particular, swapping two adjacent keyword arguments with distinct names keeps
      the verdict, even when other names repeat. */
  lemma AdjacentSwapIrrelevant(history: seq<Call>, args: seq<Value>,
                               p: seq<(string, Value)>, x: (string, Value), y: (string, Value), q: seq<(string, Value)>)
    requires x.0 != y.0
    ensures WasCalledWith(history, args, p + [x, y] + q) == WasCalledWith(history, args, p + [y, x] + q)
  {
    SwapKeywords(p, x, y, q);
  }

  /** `str(arg)` for each positional argument. */
  function ArgStrings(args: seq<Value>): seq<string> {
    seq(|args|, k requires 0 <= k < |args| => Str(args[k]))
  }

  /** `"{0}={1}".format(key, value)` for each keyword argument. */
  function KwargStrings(kwargs: seq<(string, Value)>): seq<string> {
    seq(|kwargs|, k requires 0 <= k < |kwargs| => kwargs[k].0 + "=" + Str(kwargs[k].1))
  }

  /** `not_called_with(mock_obj, *args, **kwargs)`. The message lists the positional
      arguments and then the keyword arguments, all separated by ", ". */
  method NotCalledWith(history: seq<Call>, args: seq<Value>, kwargs: seq<(string, Value)>) returns (r: Outcome)
    ensures r.Returned? <==> !WasCalledWith(history, args, kwargs)
    ensures r.Raised? ==> r.exc == Exc(AssertionErrorClass,
      "Function was unexpectedly called with (" + Join(", ", ArgStrings(args) + KwargStrings(kwargs)) + ").")
  {
    if !WasCalledWith(history, args, kwargs) {
      return Returned;
    }
    var argumentsAsStrings: seq<string> := [];
    if |args| > 0 {
      argumentsAsStrings := argumentsAsStrings + [Join(", ", ArgStrings(args))];
    }
    if |kwargs| > 0 {
      argumentsAsStrings := argumentsAsStrings + [Join(", ", KwargStrings(kwargs))];
    }
    if |args| > 0 && |kwargs| > 0 {
      JoinAppend(", ", ArgStrings(args), KwargStrings(kwargs));
    } else if |args| > 0 {
      assert ArgStrings(args) + KwargStrings(kwargs) == ArgStrings(args);
    } else {
      assert ArgStrings(args) + KwargStrings(kwargs) == KwargStrings(kwargs);
    }
    r := Raised(Exc(AssertionErrorClass, "Function was unexpectedly called with (" + Join(", ", argumentsAsStrings) + ")."));
  }

  // ---------------------------------------------------------------------------
  // contains_one_element_of_class

  /** `contains_one_element_of_class(obj_cls, iterable_obj)`: exactly one element, whose
      class is exactly `objCls`. */
  function ContainsOneElementOfClass(objCls: PyClass, items: seq<Value>): (r: Outcome)
    ensures r.Returned? <==> |items| == 1 && TypeOf(items[0]).name == objCls.name
    ensures r.Raised? ==> r.exc == Exc(AssertionErrorClass,
      "Iterable should contain one and only one object of class '" + objCls.name + "'.")
  {
    if |items| != 1 || TypeOf(items[0]).name != objCls.name then
      Raised(Exc(AssertionErrorClass, "Iterable should contain one and only one object of class '" + objCls.name + "'."))
    else Returned
  }

  /** The exact-class test is stricter than `isinstance`: the single element is an
      instance of the class, but an instance of a subclass does not pass. */
  lemma ExactClassIsStricterThanInstance(objCls: PyClass, items: seq<Value>, b: bool)
    ensures ContainsOneElementOfClass(objCls, items).Returned? ==> IsInstance(items[0], objCls)
    ensures IsInstance(BoolVal(b), IntClass) && ContainsOneElementOfClass(IntClass, [BoolVal(b)]).Raised?
  {
  }
}
