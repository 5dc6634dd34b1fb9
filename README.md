# contracts — a verified model of the code-contract checks and test assertions

The `contracts` library offers two small catalogues.

- **Code contracts.** These are twelve checks called at the top of a function to validate its arguments. Examples: `is_not_none(a)`, `is_equal(a, b, "len(x)")`, `all_have_method(items, "run")`. A check either returns nothing or raises one fixed kind of error. The message starts with the subject's name, followed by a fixed template. When the caller gives no label, the name is recovered from the caller's own source line: the library applies the pattern `\(([\w.]+)[,)]` to it. If the pattern does not occur, the check raises a plain `Exception` saying the call had an unexpected format.
- **Test assertions.** These are `does_not_raise`, `raises`, `raises_with_msg`, `not_called_with` and `contains_one_element_of_class`. Each turns the way a call ended (or a mock's call history, or a list) into success or an `AssertionError` with a fixed message.

The model has four modules:

- `Python` (`python.dfy`) holds the part of the Python runtime the library relies on:
  - a closed set of values, and classes identified by name with their ancestors;
  - exceptions, and the outcome of a call (returned, or raised an exception);
  - `str`/`repr`, `==` (so `True == 1`), `", ".join`, substring `in`, and decimal formatting of integers.
- `Contract` (`contract.dfy`) holds the name extraction and the twelve checks. Each check is a function from its arguments and the caller's source line to an outcome.
- `Assertion` (`assertion.dfy`) holds the five wrappers. `raises_with_msg`, `raises` and `not_called_with` keep the source's step-by-step form as methods. The other two are functions.
- `Scenarios` (`scenarios.dfy`) holds the repository's unit tests, stated over the model. Call sites are quantified: whatever the callee and the argument name, the error names that argument.

Every check and wrapper returns an `Outcome`, and a wrapper is given the `Outcome` of the call it wraps. So a check can be fed straight into a wrapper, as the tests do.

Behaviour followed where the library's own descriptions say otherwise:

- `is_true` and `is_false` raise `ValueError`, although their docstrings promise `TypeError` (`contracts/contract.py:63`, `:76`). The model raises `ValueError`.

Behaviour worth noting:

- `does_not_raise` catches every `Exception` (`contracts/assertion.py:20-25`). One of another class is swallowed, not re-raised. Only exceptions that do not derive from `Exception` pass through unchanged. The same holds for the unexpected-format `Exception` of the name lookup: `does_not_raise(TypeError, f)` succeeds on it, and `raises` turns it into an `AssertionError` (`Scenarios.FormatErrorIsCaught`).
- `all_have_attribute` and `all_have_method` iterate over a string subject character by character, because a string is an `Iterable` (`contracts/contract.py:133-134`). The model iterates the same way, but its one-character strings carry no attributes (see "## Left out"), so on a non-empty string subject both checks always fail.
- `raises_with_msg` turns an exception of an unexpected class into an `AssertionError` instead of letting it propagate (`contracts/assertion.py:57-70`).

## Model

| member | source | states |
|---|---|---|
| `Contract.RunLength` | contracts/contract.py:13 | the greedy `[\w.]+` run starting at a position: it stays inside the line, every character is in the class, and the character after it is not |
| `Contract.MatchAtIsPattern` | contracts/contract.py:13 | the pattern is tried at position `i` with the greedy run; it yields `name` exactly when `(`, then `name` made of `[\w.]`, then `,` or `)` occurs at `i` |
| `Contract.SearchFrom` | contracts/contract.py:197 | `search` from position `i`: the result is a matching position, every earlier position from `i` fails, and `None` means no position matches |
| `Contract.ExtractName` | contracts/contract.py:197-200 | an extracted name is non-empty and made only of `[\w.]` characters |
| `Contract.ExtractNameIsLeftmostMatch` | contracts/contract.py:197-200 | the extracted name is the group of a match of the pattern, and no match starts earlier |
| `Contract.LeftmostMatchIsExtracted` | contracts/contract.py:197-200 | conversely, the group of the leftmost match is what is extracted |
| `Contract.ExtractNameNoneIffNoMatch` | contracts/contract.py:197-199 | the lookup fails (and the format Exception is raised) exactly when the pattern matches nowhere in the line |
| `Contract.SubjectName` | contracts/contract.py:51 | the subject's name, a truthy label or else the extracted name, is never empty |
| `Contract.ViolationNamesSubject` | contracts/contract.py:24 | a violation has the check's own class and a message that starts with the subject's name; an unresolved name gives the format Exception |
| `Contract.IsNotNone` | contracts/contract.py:16-24 | raises exactly when the value is None, a `TypeError` "<name> was equal to None." |
| `Contract.IsNotEmpty` | contracts/contract.py:27-37 | raises exactly when the value is None or an iterable with no items (the empty string included), a `ValueError` "<name> was empty." |
| `Contract.IsEqualToAny` | contracts/contract.py:40-53 | passes exactly when some expected value `==` the value; otherwise a `ValueError` with the label or name, `str(value)` and the type name |
| `Contract.IsTrue` | contracts/contract.py:56-66 | passes exactly for the constant `True`; otherwise a `ValueError` "<name> was not True." |
| `Contract.IsFalse` | contracts/contract.py:69-79 | passes exactly for the constant `False`; otherwise a `ValueError` "<name> was not False." |
| `Contract.IsEqual` | contracts/contract.py:82-95 | passes exactly when the value `==` the expected value; otherwise a `ValueError` citing both values |
| `Contract.IsGreaterThan` | contracts/contract.py:98-108 | passes exactly when value > expected; otherwise a `ValueError` with both numbers in decimal |
| `Contract.IsGreaterThanOrEqual` | contracts/contract.py:111-121 | passes exactly when value >= expected; otherwise a `ValueError` with both numbers in decimal |
| `Contract.FirstLacking` | contracts/contract.py:134-137 | the `for` loop's stopping point: the first item lacking the member, every earlier item having it, and `None` exactly when all have it |
| `Contract.AllHave` | contracts/contract.py:124-162 | passes exactly when every item of an iterable (or the single object) has the member; the error cites the type of the first lacking item, or the subject's own type |
| `Contract.AllHaveAttribute` | contracts/contract.py:124-142 | passes exactly when every item (or the single object) has the attribute |
| `Contract.AllHaveMethod` | contracts/contract.py:145-162 | passes exactly when every item (or the single object) has the attribute and it is callable |
| `Contract.IsCallable` | contracts/contract.py:165-173 | passes exactly when the value has `__call__`; otherwise a `TypeError` citing its type |
| `Contract.IsInstanceOf` | contracts/contract.py:176-185 | passes exactly when the value's class is the class or a subclass of it; otherwise a `TypeError` naming the class |
| `Contract.ExpressionOverridesCallSite` | contracts/contract.py:49-95 | with a truthy label, the call site is irrelevant and the message starts with the label |
| `Contract.EmptyExpressionFallsBack` | contracts/contract.py:49-95 | an empty label behaves exactly like no label |
| `Contract.GreaterThanIsStrict` | contracts/contract.py:98-121 | `is_greater_than` implies `is_greater_than_or_equal`, rejects equality, and equals the latter with the threshold raised by one |
| `Contract.TrueAndFalseAreStrict` | contracts/contract.py:56-79 | no value passes both; every non-boolean value, truthy or not, fails both |
| `Contract.IsEqualReflexive` | contracts/contract.py:82-95 | every value passes `is_equal` against itself |
| `Contract.IsEqualSymmetric` | contracts/contract.py:82-95 | swapping value and expected value does not change the verdict |
| `Contract.IsEqualToAnyIsSomeIsEqual` | contracts/contract.py:40-95 | `is_equal_to_any` passes exactly when `is_equal` passes against one of the expected values |
| `Contract.IsEqualToAnyAcceptsListed` | contracts/contract.py:40-53 | every listed value passes; nothing passes against an empty list |
| `Contract.NotEmptyRefinesNotNone` | contracts/contract.py:16-37 | `is_not_empty` implies `is_not_none`; `""` and `[]` fail; a non-iterable non-None value always passes |
| `Contract.MethodImpliesAttribute` | contracts/contract.py:124-162 | passing `all_have_method` implies passing `all_have_attribute` for the same name |
| `Contract.AllHaveVacuous` | contracts/contract.py:133-137 | an empty iterable passes both `all_have_*` checks |
| `Contract.CallableIsCallAttribute` | contracts/contract.py:165-173 | on a non-iterable subject, `is_callable` passes exactly when `all_have_attribute(value, "__call__")` passes; when the subject's name is found, `is_callable` fails with a `TypeError` and `all_have_attribute` with an `AttributeError` |
| `Contract.InstanceOfOwnClassAndAncestors` | contracts/contract.py:176-185 | every value is an instance of its own class; a `bool` is an `int` and not a `str` |
| `Python.Items` | contracts/contract.py:134 | iterating a string yields, in order, the one-character string of each character; iterating a list yields its elements |
| `Python.NatToString` | contracts/contract.py:108 | the decimal text of a number is non-empty digits without a leading zero |
| `Python.NatToStringRoundTrip` | contracts/contract.py:108 | reading the decimal text of a natural number back gives the number |
| `Python.IntToStringRoundTrip` | contracts/contract.py:108 | parsing `str(i)` gives back `i`, so the numbers in a message identify the values |
| `Python.JoinAppend` | contracts/assertion.py:92-98 | joining the positional group and the keyword group, then joining the two, equals joining all arguments at once |
| `Python.PyEqReflexive` | contracts/contract.py:91 | `==` is reflexive on the modelled values |
| `Python.PyEqSymmetric` | contracts/contract.py:91 | `==` is symmetric on the modelled values |
| `Python.ContainsIffOccurs` | contracts/assertion.py:64 | `msg in str(e)` holds exactly when `msg` occurs at some position of the text |
| `Assertion.DoesNotRaise` | contracts/assertion.py:10-25 | returning passes; an exception of the class (or a subclass) gives "<cls> raised by <f>()."; another `Exception` is swallowed; a non-`Exception` propagates unchanged |
| `Assertion.RaisesWithMsg` | contracts/assertion.py:44-70 | passes exactly when the expected class (or a subclass) was raised and, if a message is given, its text contains it; both forms of the failure message; non-`Exception`s propagate |
| `Assertion.Raises` | contracts/assertion.py:28-41 | `raises_with_msg` without a message: passes exactly when an instance of the class was raised |
| `Assertion.DoesNotRaiseExcludesRaises` | contracts/assertion.py:10-70 | for every outcome, exactly one of `does_not_raise` and `raises` passes; a non-`Exception` propagates through both |
| `Assertion.ExpectedMessageNarrows` | contracts/assertion.py:56-64 | an empty message is no message; a message only narrows the expectation; the exception's full text always matches |
| `Assertion.SubclassesAreExpected` | contracts/assertion.py:59-61 | a caught exception of a subclass of the expected class satisfies the expectation; an `Exception` does not satisfy an expected `ValueError`; a bare `BaseException` is never expected |
| `Assertion.SwapKeywords` | contracts/assertion.py:86 | swapping two adjacent keyword arguments with distinct names gives the same dictionary |
| `Assertion.KeywordMapContents` | contracts/assertion.py:86 | with distinct names, the keyword dictionary holds exactly the passed names, each mapped to its passed value |
| `Assertion.KeywordOrderIrrelevant` | contracts/assertion.py:85-89 | any reordering of the same distinct keyword arguments gives the same verdict on whether the call is in the history |
| `Assertion.AdjacentSwapIrrelevant` | contracts/assertion.py:85-89 | swapping two adjacent keyword arguments with distinct names keeps the verdict, even when other names repeat |
| `Assertion.NotCalledWith` | contracts/assertion.py:73-98 | passes exactly when no recorded call equals the given arguments; otherwise the message lists the positional then the keyword arguments |
| `Assertion.ContainsOneElementOfClass` | contracts/assertion.py:101-111 | passes exactly when there is one element and its class is exactly the class; otherwise a fixed `AssertionError` naming the class |
| `Assertion.ExactClassIsStricterThanInstance` | contracts/assertion.py:109 | a passing element is an instance of the class, but a `bool` fails for `int` |
| `Scenarios.FirstArgumentIs` | contracts/contract.py:188-200 | a call site `callee(name,` or `callee(name)` yields `name` |
| `Scenarios.NoArgumentIn` | contracts/contract.py:197-199 | a call site such as `callee(a > 0, x)` yields no name |
| `Scenarios.InnerArgumentIs` | contracts/contract.py:197-200 | a call site `callee(f(name)` yields the inner call's argument `name` |
| `Scenarios.NotNoneNamesItsArgument` | tests/contract_test.py:12-16 | `is_not_none` names the argument written at the call site, on None and only on None |
| `Scenarios.NotEmptyCases` | tests/contract_test.py:18-25 | None, `""` and `[]` give "<name> was empty."; `"123"` and `[123]` pass |
| `Scenarios.EqualToAnyCases` | tests/contract_test.py:33-38 | 4 against `[1, 2, 3]` fails naming the argument or the label, with "4" and "int"; 1 passes |
| `Scenarios.TrueCases` | tests/contract_test.py:40-44 | with the label "a > 0", `False` fails with it; `True` passes; without a label the format Exception is raised |
| `Scenarios.FalseCases` | tests/contract_test.py:46-50 | the same for `is_false` |
| `Scenarios.UnequalCases` | tests/contract_test.py:52-55 | 2 against 1 fails naming the argument, `self.a` or `len(tuple)` |
| `Scenarios.EqualCases` | tests/contract_test.py:57-59 | 1 against 1 and `""` against `""` pass |
| `Scenarios.NestedCallNamesInnerArgument` | tests/contract_test.py:55 | without a label, `is_equal(len(a), 1)` names its subject `a` |
| `Scenarios.OneEqualsTrueButIsNotTrue` | contracts/contract.py:56-95 | 1 passes `is_equal` against `True` but fails `is_true` |
| `Scenarios.GreaterThanCases` | tests/contract_test.py:61-65 | 1 > 2 fails with both numbers; 2 > 1 passes |
| `Scenarios.InstanceCases` | tests/contract_test.py:72-90 | `True` is a `bool`; it is not a `str`, "value was not an instance of str." |
| `Scenarios.DoesNotRaiseCases` | tests/assertion_test.py:12-16 | a `ValueError` fails, a `TypeError` and a normal return pass |
| `Scenarios.FormatErrorIsCaught` | contracts/assertion.py:20-25 | the unexpected-format `Exception` is swallowed by `does_not_raise(TypeError, ...)` and is not what `raises(TypeError, ...)` expects |
| `Scenarios.RaisesWhenNothingRaised` | tests/assertion_test.py:19-20 | "ValueError was not raised by _does_not_raise()." |
| `Scenarios.RaisesWhenOtherRaised` | tests/assertion_test.py:21-22 | a `TypeError` gives "ValueError was not raised by _raise()." |
| `Scenarios.RaisesWhenExpectedRaised` | tests/assertion_test.py:23 | a `ValueError` passes |
| `Scenarios.RaisesWithMsgWhenOtherRaised` | tests/assertion_test.py:28-29 | a `TypeError` gives the message form that quotes 'Bad error!' |
| `Scenarios.RaisesWithMsgWhenTextDiffers` | tests/assertion_test.py:30-31 | a `ValueError` whose text is "None" does not contain 'Bad error!' and fails |
| `Scenarios.NotCalledWithWhenNeverCalled` | tests/assertion_test.py:48-49 | a mock never called passes, with or without arguments |
| `Scenarios.NotCalledWithExtraArgument` | tests/assertion_test.py:52-53 | a call with an extra fourth argument was never recorded and passes |
| `Scenarios.NotCalledWithAfterEmptyCall` | tests/assertion_test.py:50-51 | "Function was unexpectedly called with ()." |
| `Scenarios.NotCalledWithMatchingCall` | tests/assertion_test.py:54-55 | the call `(4, 5, c=6)` is found and listed as "4, 5, c=6" |
| `Scenarios.ReorderedKeywordsMatch` | tests/assertion_test.py:46-57 | the recorded `m(a=7, c=9, b=8)` equals the call `m(a=7, b=8, c=9)` |
| `Scenarios.NotCalledWithKeywordsInAnyOrder` | tests/assertion_test.py:56-57 | the reordered call is found and listed as "a=7, b=8, c=9" |
| `Scenarios.ContainsOneElementCases` | tests/assertion_test.py:59-66 | `[]`, `["dummy"]` and `[1, 2]` fail with the fixed message; `[1]` passes |

## Left out

- The stack walk of `_get_parameter_name` (`traceback.extract_stack()[-3]`) is not modelled. Each check takes the caller's source line, stripped of surrounding whitespace, as the parameter `callSite`.
- `\w` is taken as ASCII letters, digits and `_`. Python matches any Unicode word character in a `str` pattern.
- Values form a closed set: None, booleans, integers, strings, lists and objects.
  - `ListVal` is a list; user classes are never iterable. Tuples, dicts and sets are not modelled: for them Python's messages would say `tuple` and print `(1, 2)` where the model says `list` and `[1, 2]`, and iterating a dict yields only its keys.
  - `len` raising on an unsized iterable is not modelled.
  - Floats are not modelled.
  - An object carries one text, which stands for its `str`, `repr` and `format` alike; an object whose `__str__` differs from its `__repr__` prints the same in `is_equal`'s message and inside a list. `repr` of a string does not escape quotes.
- Built-in values carry no attributes in the model. In Python, `hasattr(1, "real")` holds, and functions and builtins are callable. An `ObjVal` with the right attributes stands for such a subject, but not for the characters of a string: `Contract.AllHaveAttribute` and `Contract.AllHaveMethod` fail on every non-empty string subject, where Python's `all_have_attribute("ab", "upper")` passes.
- Equality compares the modelled contents. Objects with their own `__eq__` and the identity shortcut of `in` are not modelled.
- Classes are identified by their name and their ancestors' names. Two distinct classes with the same name would be confused by `type(x) is cls`. A `PyClass` must list every ancestor: one that leaves out an ancestor (`PyClass("ValueError", [])`) is not caught by `except` on that ancestor in `Assertion.DoesNotRaise` and the other wrappers.
- `Contract.IsGreaterThan` and `Contract.IsGreaterThanOrEqual` take integers only. Floats, mixed types and the `TypeError` of an unorderable comparison are left out.
- `Contract.IsEqualToAny` takes the expected values as a list; any other container of values is left out.
- The wrappers do not call the callable. They receive the outcome of the call and the callable's `__name__`, so the call's own side effects are left out.
- `Assertion.ContainsOneElementOfClass` takes a list of elements. A string argument, which Python accepts (`contains_one_element_of_class(str, "a")` passes), and the `TypeError` of `len` on an unsized argument are left out.
- A mock is modelled as its list of recorded calls. `assert_any_call`'s signature binding (autospec) and nested attribute calls are left out. Keyword arguments are an ordered list, which Python would never give with a repeated name.
- `from collections import Iterable` stopped working in Python 3.10. That import failure is not modelled.
- The tests of `is_of_type` (`tests/contract_test.py:27-31`, `110-111`) exercise a check that `contracts/contract.py` does not define. They are not part of this model.
