# XCTestPlayground in Dafny

XCTestPlayground is a small unit-test harness for Swift playgrounds. It has two parts, and this project models both.

- **Assertion library** (`assertions.dfy`, module `Assertions`). Each `XCTAssert*` function and `XCTFail` evaluates a condition and returns a status string. On success the string is exactly `"✅"`. On failure it is `"❌"` followed directly by a message, with no separator. For the equality, nil and ordering checks, the message is extended with the rendered operands. Nothing is thrown. `Decode` reads a result string back into a verdict, `Pass` or `Fail(message)`. Each assertion's contract says when its result decodes to `Pass` and, on failure, exactly which text it decodes to. `assertion_properties.dfy` (module `AssertionProperties`) relates the assertions to each other: `XCTAssert`/`XCTAssertTrue` agree, and each *`Not`* or opposite-ordering assertion negates its counterpart.
- **Test-case runner** (`runner.dfy`, module `Runner`). Constructing a `TestCase` runs the class-level `setUp` once. It then walks the enumerated method names in order. For each name starting with `"test"` it calls instance `setUp`, dispatches the method synchronously and calls instance `tearDown`. Last, it runs the class-level `tearDown` once. Each hook call and each dispatch appends an `Event` to the `trace` field. The loop in `RunTestMethods` is proved to produce exactly `ExpectedTrace(methodNames)`, a pure function. Lemmas about `ExpectedTrace` prove:
  - the class-level hooks come first and last, once each;
  - each test method gets one contiguous set-up/dispatch/tear-down triple, in enumeration order;
  - the dispatched selectors are exactly the names with the prefix;
  - a run with no such name holds only the two class-level hooks.

Modelling choices:
- The list of method names that the Objective-C runtime would hand back is an input to the constructor.
- Swift's `\(x)` rendering is an abstract `render` parameter.
- Swift's `@autoclosure` arguments are passed already evaluated.
- The ordering assertions take the type's `<` as a parameter `lt`. They derive `>`, `<=` and `>=` from it the way Swift's `Comparable` does by default: `a > b` is `b < a`, `a <= b` is `!(b < a)`, and `a >= b` is `!(a < b)`. So the negation pairs hold for any `lt`. The trichotomy facts need `lt` to be a strict total order.
- The Swift source has three sequence overloads of `XCTAssertEqual` and three of `XCTAssertNotEqual`: `ArraySlice`, `ContiguousArray` and `Array`. All of them compare element by element and share one failure layout, so each trio is one function over `seq<T>`.
- Hook names follow the code (`class func setUp`, `func setUp`, `func tearDown`, `class func tearDown`).
- The code handles a discovery failure by getting back an empty method list (`mc` stays 0). That case is the empty input here.
- The optional-value `XCTAssertNotEqual` uses the operator text `" =! "` exactly as written. The other overloads use `" != "`.

## Model

| member | source | states |
|---|---|---|
| Assertions.OkMessage | XCTestPlayground.swift:221 | the success marker decodes as a pass |
| Assertions.FailMessage | XCTestPlayground.swift:223 | the result is the failure glyph followed directly by the message (length one more, tail equal to the message); it decodes to that message and never equals the success marker |
| Assertions.ReturnTestResult | XCTestPlayground.swift:217-219 | the result is the success marker iff the condition holds; otherwise it decodes to exactly the given message |
| Assertions.XCTFail | XCTestPlayground.swift:213-215 | always a failure, carrying exactly the given message |
| Assertions.XCTAssert | XCTestPlayground.swift:32-37 | succeeds iff the expression is true; the failure text is the bare message |
| Assertions.XCTAssertTrue | XCTestPlayground.swift:206-211 | succeeds iff the expression is true; the failure text is the bare message |
| Assertions.XCTAssertFalse | XCTestPlayground.swift:89-94 | succeeds iff the expression is false; the failure text is the bare message |
| Assertions.XCTAssertEqualOptional | XCTestPlayground.swift:39-47 | succeeds iff the two optionals are equal (absent equals absent); on failure the text is message, " - expected: ", the second value, ", actual: ", the first value |
| Assertions.XCTAssertEqualSeq | XCTestPlayground.swift:49-77 | succeeds iff the sequences have the same length and agree at every index; on failure the expected/actual layout with the second value as expected |
| Assertions.XCTAssertEqualMap | XCTestPlayground.swift:79-87 | succeeds iff the dictionaries have the same keys and agree on every key; on failure the expected/actual layout |
| Assertions.XCTAssertNotEqualOptional | XCTestPlayground.swift:147-155 | succeeds iff the optionals differ; on failure the text is message, " - expected: ", first value, " =! ", second value |
| Assertions.XCTAssertNotEqualSeq | XCTestPlayground.swift:157-185 | succeeds iff the sequences differ; on failure message, " - expected: ", first, " != ", second |
| Assertions.XCTAssertNotEqualMap | XCTestPlayground.swift:187-195 | succeeds iff the dictionaries differ; on failure message, " - expected: ", first, " != ", second |
| Assertions.XCTAssertNil | XCTestPlayground.swift:136-145 | succeeds iff the value is absent; on failure message, " - expected: nil, actual: ", the rendered value |
| Assertions.XCTAssertNotNil | XCTestPlayground.swift:197-204 | succeeds iff the value is present; on failure the bare message with no value appended |
| Assertions.XCTAssertGreaterThan | XCTestPlayground.swift:96-104 | succeeds iff b < a; on failure message, " - actual: ", a, " > ", b |
| Assertions.XCTAssertGreaterThanOrEqual | XCTestPlayground.swift:106-114 | succeeds iff not a < b; on failure message, " - actual: ", a, " >= ", b |
| Assertions.XCTAssertLessThan | XCTestPlayground.swift:116-124 | succeeds iff a < b; on failure message, " - actual: ", a, " < ", b |
| Assertions.XCTAssertLessThanOrEqual | XCTestPlayground.swift:126-134 | succeeds iff not b < a; on failure message, " - actual: ", a, " <= ", b |
| AssertionProperties.ResultIsOneOfTwo | XCTestPlayground.swift:217-223 | every result is exactly "✅" when the condition holds and exactly "❌" + message otherwise, and these two never coincide |
| AssertionProperties.FailMessageInjective | XCTestPlayground.swift:223 | two failure strings are equal only when their messages are equal, so the message can be recovered |
| AssertionProperties.XCTFailIsFailGlyphAndMessage | XCTestPlayground.swift:213-215 | XCTFail(m) is exactly "❌" + m and never a success |
| AssertionProperties.XCTAssertIsXCTAssertTrue | XCTestPlayground.swift:32-37 | XCTAssert and XCTAssertTrue return identical strings for every input and message |
| AssertionProperties.XCTAssertFalseNegatesXCTAssertTrue | XCTestPlayground.swift:89-94 | XCTAssertFalse succeeds exactly when XCTAssertTrue fails, and then its text is "❌" + the bare message |
| AssertionProperties.NotEqualNegatesEqualOptional | XCTestPlayground.swift:147-155 | the optional XCTAssertNotEqual succeeds exactly when the optional XCTAssertEqual on the same inputs fails |
| AssertionProperties.NotEqualNegatesEqualSeq | XCTestPlayground.swift:157-185 | the sequence XCTAssertNotEqual succeeds exactly when the sequence XCTAssertEqual fails |
| AssertionProperties.NotEqualNegatesEqualMap | XCTestPlayground.swift:187-195 | the dictionary XCTAssertNotEqual succeeds exactly when the dictionary XCTAssertEqual fails |
| AssertionProperties.EqualReflexiveAndSymmetric | XCTestPlayground.swift:39-87 | every XCTAssertEqual overload succeeds on (a, a), and its outcome does not depend on argument order |
| AssertionProperties.NilNegatesNotNil | XCTestPlayground.swift:136-145 | XCTAssertNil succeeds exactly when XCTAssertNotNil fails; only the former appends the rendered value |
| AssertionProperties.GreaterThanNegatesLessThanOrEqual | XCTestPlayground.swift:96-134 | XCTAssertGreaterThan(a, b) succeeds exactly when XCTAssertLessThanOrEqual(a, b) fails, for any `<` |
| AssertionProperties.GreaterThanOrEqualNegatesLessThan | XCTestPlayground.swift:106-124 | XCTAssertGreaterThanOrEqual(a, b) succeeds exactly when XCTAssertLessThan(a, b) fails, for any `<` |
| AssertionProperties.OrderingTrichotomy | XCTestPlayground.swift:96-134 | on a strict total order, at most one of < and > passes, one passes whenever a differs from b, and >= (<=) passes iff > (<) passes or a equals b |
| AssertionProperties.DocCommentExamples | XCTestPlayground.swift:22-30 | worked examples, including the four calls of the doc comment: XCTAssertEqual(1, 2), XCTAssertEqual([1, 2], [2, 3]) and XCTAssertGreaterThanOrEqual(1, 2) give their exact failure strings; XCTAssertEqual([1, 2], [1, 2]) and XCTAssertTrue(true) give "✅"; XCTFail("boom") gives "❌boom" |
| Runner.IsTestMethod | XCTestPlayground.swift:250 | the discovery rule: a name qualifies iff its first four characters are exactly "t", "e", "s", "t", compared case-sensitively, scalar by scalar |
| Runner.TestMethods | XCTestPlayground.swift:248-250 | the selected names are exactly the enumerated names that start with "test" |
| Runner.TestEventsAppend | XCTestPlayground.swift:248-259 | walking a concatenated list yields the events of the first part followed by those of the second |
| Runner.TestEventsSnoc | XCTestPlayground.swift:248-259 | one more loop iteration appends exactly that name's events |
| Runner.TestEventsAreTriples | XCTestPlayground.swift:248-259 | the loop's events are one set-up, dispatch, tear-down triple per selected name, in order |
| Runner.ExpectedTraceIsTriples | XCTestPlayground.swift:243-261 | a construction's trace is the class-level set-up, the triples of the test methods, then the class-level tear-down |
| Runner.ExpectedTraceEnds | XCTestPlayground.swift:243-261 | the trace has 3 events per test method plus 2; the class-level set-up is first and occurs nowhere else; the class-level tear-down is last and occurs nowhere else |
| Runner.ExpectedTraceTriples | XCTestPlayground.swift:248-259 | for the j-th test method, the events at 3j+1, 3j+2 and 3j+3 are set-up, its dispatch and tear-down |
| Runner.ExpectedTraceCounts | XCTestPlayground.swift:243-261 | the class-level hooks occur once each, and instance set-up and tear-down once per test method |
| Runner.ExpectedTraceDispatches | XCTestPlayground.swift:248-259 | the dispatched selectors, in order, are exactly the names with the "test" prefix |
| Runner.OnlyTestMethodsDispatched | XCTestPlayground.swift:250 | only an enumerated name that starts with "test" is ever dispatched |
| Runner.ExpectedTraceBracketing | XCTestPlayground.swift:250-257 | every dispatch is immediately preceded by an instance set-up and immediately followed by an instance tear-down |
| Runner.EmptyRun | XCTestPlayground.swift:243-261 | the trace is only the two class-level hooks iff no enumerated name starts with "test", which includes an empty list |
| Runner.TwoTestsAndAHelper | XCTestPlayground.swift:248-259 | for the names testA, helper, testB the trace is exactly the class-level set-up, two triples for testA and testB, then the class-level tear-down; the prefix test is case-sensitive |
| Runner.TestCase.constructor | XCTestPlayground.swift:230-233 | construction runs the whole cycle and leaves exactly ExpectedTrace of the method list |
| Runner.TestCase.RunTestMethods | XCTestPlayground.swift:243-261 | the loop over the method list appends exactly ExpectedTrace of the list to the trace |
| Runner.TestCase.ClassSetUp | XCTestPlayground.swift:235 | the class-level set-up hook records one event and changes nothing else |
| Runner.TestCase.SetUp | XCTestPlayground.swift:236 | the instance set-up hook records one event |
| Runner.TestCase.TearDown | XCTestPlayground.swift:239 | the instance tear-down hook records one event |
| Runner.TestCase.ClassTearDown | XCTestPlayground.swift:238 | the class-level tear-down hook records one event |
| Runner.TestCase.PerformSelectorOnMainThread | XCTestPlayground.swift:252-255 | dispatching a selector records exactly one Dispatch event for it |

## Left out

- Runtime method enumeration (`class_copyMethodList`, `method_getName`, the walk over the raw `mlist` pointer). The method names are an input sequence, and the `mlist` cursor becomes a loop index.
- The order in which the runtime lists methods is not modelled. Every result holds for whatever order the input list has.
- The 32-bit `CUnsignedInt` method count is not modelled; lists longer than 2^32 do not arise.
- Main-thread dispatch with `waitUntilDone: true`. This is thread affinity and synchronisation, so it is one synchronous `Dispatch` event.
- Test-method bodies and subclass overrides of the four hooks are opaque. Each call only records its event. An abrupt failure inside a test body has no recovery path in the code, so it is not modelled.
- `@autoclosure` laziness and the second evaluation of side-effecting arguments when the failure text is built. The arguments are pure values.
- Swift's string-interpolation rendering of values (`Optional(2)`, array and dictionary formatting). `render` is an abstract parameter.
- The `BooleanType` protocol beyond plain `bool`.
- `Any?` in `XCTAssertNil` and `XCTAssertNotNil` becomes a generic `Option<T>`.
- Swift's `hasPrefix` compares under Unicode canonical equivalence (decomposed forms). The model compares Unicode scalar values, because Dafny strings have no normalisation. A selector whose decomposed form starts with "test" but whose scalars do not is a test method in Swift and not in the model.
- Types whose `Comparable` conformance overrides `>`, `<=` or `>=` inconsistently with `<` are not modelled.
- `Equatable` conformances whose `==` is not an equivalence relation (floating-point NaN) are not modelled. Swift's `==` is Dafny equality here, so `EqualReflexiveAndSymmetric` does not cover them: in Swift, `XCTAssertEqual(Double.nan, Double.nan)` fails.
- The `description` override of `XCTestCase`, which returns an empty string.
- The example playground script, which only instantiates one test case.
- Assertions are deterministic pure functions, so calling one twice on the same inputs gives the same string by construction. No separate lemma states this.
