/** The test-case runner of XCTestPlayground.

    Constructing a `TestCase` runs its whole cycle: the class-level set-up
    hook once, then, for every enumerated method name that starts with
    "test", the instance set-up hook, a synchronous dispatch of the method
    and the instance tear-down hook, and finally the class-level tear-down
    hook once. Each hook and each dispatch is recorded as an `Event` in the
    `trace` field; the method list the Objective-C runtime would enumerate is
    an input.
 */
module Runner {

  datatype Event = ClassSetUp | SetUp | Dispatch(selector: string) | TearDown | ClassTearDown

  const TestPrefix: string := "test"

  /** The discovery rule: a case-sensitive prefix test on the selector name. */
  predicate IsTestMethod(name: string)
    ensures IsTestMethod(name) <==> |name| >= 4 && forall i :: 0 <= i < 4 ==> name[i] == "test"[i]
  {
    TestPrefix <= name
  }

  /** The events one enumerated method contributes. */
  function MethodEvents(name: string): seq<Event> {
    if IsTestMethod(name) then [SetUp, Dispatch(name), TearDown] else []
  }

  /** The events of walking the method list in order. */
  function TestEvents(names: seq<string>): seq<Event> {
    if names == [] then [] else MethodEvents(names[0]) + TestEvents(names[1..])
  }

  /** The specification of one construction: the whole trace it leaves. */
  function ExpectedTrace(names: seq<string>): seq<Event> {
    [ClassSetUp] + TestEvents(names) + [ClassTearDown]
  }

  /** The names that pass the discovery rule, in enumeration order. */
  function TestMethods(names: seq<string>): (r: seq<string>)
    ensures |r| <= |names|
    ensures forall n :: n in r <==> n in names && IsTestMethod(n)
  {
    if names == [] then []
    else if IsTestMethod(names[0]) then [names[0]] + TestMethods(names[1..])
    else TestMethods(names[1..])
  }

  /** An independent description of the per-test part of a trace: one
      set-up, dispatch, tear-down triple per test method, back to back. */
  function Triples(tests: seq<string>): seq<Event> {
    if tests == [] then [] else [SetUp, Dispatch(tests[0]), TearDown] + Triples(tests[1..])
  }

  /** The selectors dispatched in a trace, in order. */
  function Dispatched(trace: seq<Event>): seq<string> {
    if trace == [] then []
    else if trace[0].Dispatch? then [trace[0].selector] + Dispatched(trace[1..])
    else Dispatched(trace[1..])
  }

  lemma {:induction false} TestEventsAppend(a: seq<string>, b: seq<string>)
    ensures TestEvents(a + b) == TestEvents(a) + TestEvents(b)
  {
    if a == [] {
      assert a + b == b;
    } else {
      assert (a + b)[1..] == a[1..] + b;
      TestEventsAppend(a[1..], b);
    }
  }

  /** Walking one more name of the list appends that name's events. */
  lemma TestEventsSnoc(names: seq<string>, i: nat)
    requires i < |names|
    ensures TestEvents(names[..i + 1]) == TestEvents(names[..i]) + MethodEvents(names[i])
  {
    assert names[..i + 1] == names[..i] + [names[i]];
    TestEventsAppend(names[..i], [names[i]]);
    assert TestEvents([names[i]]) == MethodEvents(names[i]) by { assert [names[i]][1..] == []; }
  }

  lemma {:induction false} TestEventsAreTriples(names: seq<string>)
    ensures TestEvents(names) == Triples(TestMethods(names))
  {
    if names != [] {
      TestEventsAreTriples(names[1..]);
      if IsTestMethod(names[0]) {
        assert TestMethods(names)[1..] == TestMethods(names[1..]);
      }
    }
  }

  lemma {:induction false} TriplesAt(tests: seq<string>)
    ensures |Triples(tests)| == 3 * |tests|
    ensures forall j :: 0 <= j < |tests| ==>
      Triples(tests)[3 * j] == SetUp &&
      Triples(tests)[3 * j + 1] == Dispatch(tests[j]) &&
      Triples(tests)[3 * j + 2] == TearDown
  {
    if tests != [] {
      TriplesAt(tests[1..]);
      var t := Triples(tests);
      forall j | 1 <= j < |tests|
        ensures t[3 * j] == SetUp && t[3 * j + 1] == Dispatch(tests[j]) && t[3 * j + 2] == TearDown
      {
        var k := j - 1;
        assert tests[1..][k] == tests[j];
        assert t[3 * j] == Triples(tests[1..])[3 * k];
        assert t[3 * j + 1] == Triples(tests[1..])[3 * k + 1];
        assert t[3 * j + 2] == Triples(tests[1..])[3 * k + 2];
      }
    }
  }

  lemma {:induction false} TriplesCounts(tests: seq<string>)
    ensures multiset(Triples(tests))[SetUp] == |tests|
    ensures multiset(Triples(tests))[TearDown] == |tests|
    ensures multiset(Triples(tests))[ClassSetUp] == 0
    ensures multiset(Triples(tests))[ClassTearDown] == 0
  {
    if tests != [] {
      TriplesCounts(tests[1..]);
      var head: seq<Event> := [SetUp, Dispatch(tests[0]), TearDown];
      assert Triples(tests) == head + Triples(tests[1..]);
      assert multiset(Triples(tests)) == multiset(head) + multiset(Triples(tests[1..]));
    }
  }

  lemma {:induction false} TriplesDispatched(tests: seq<string>)
    ensures Dispatched(Triples(tests)) == tests
  {
    if tests != [] {
      TriplesDispatched(tests[1..]);
      var head: seq<Event> := [SetUp, Dispatch(tests[0]), TearDown];
      DispatchedAppend(head, Triples(tests[1..]));
      var tail: seq<Event> := [TearDown];
      assert Dispatched(tail) == [] by { assert tail[1..] == []; }
      assert Dispatched([Dispatch(tests[0])] + tail) == [tests[0]] by {
        assert ([Dispatch(tests[0])] + tail)[1..] == tail;
      }
      assert head[1..] == [Dispatch(tests[0])] + tail;
      assert tests == [tests[0]] + tests[1..];
    }
  }

  /** Inside the per-test part, every dispatch sits between a set-up just
      before it and a tear-down just after it. */
  lemma {:induction false} TriplesBracket(tests: seq<string>)
    ensures forall k :: 0 <= k < |Triples(tests)| && Triples(tests)[k].Dispatch? ==>
      0 < k < |Triples(tests)| - 1 && Triples(tests)[k - 1] == SetUp && Triples(tests)[k + 1] == TearDown
  {
    if tests != [] {
      TriplesBracket(tests[1..]);
      var t := Triples(tests);
      var rest := Triples(tests[1..]);
      assert t == [SetUp, Dispatch(tests[0]), TearDown] + rest;
      forall k | 0 <= k < |t| && t[k].Dispatch?
        ensures 0 < k < |t| - 1 && t[k - 1] == SetUp && t[k + 1] == TearDown
      {
        if k >= 3 {
          assert t[k] == rest[k - 3];
        }
      }
    }
  }

  lemma {:induction false} DispatchedAppend(a: seq<Event>, b: seq<Event>)
    ensures Dispatched(a + b) == Dispatched(a) + Dispatched(b)
  {
    if a == [] {
      assert a + b == b;
    } else {
      assert (a + b)[1..] == a[1..] + b;
      DispatchedAppend(a[1..], b);
    }
  }

  /** The trace of a construction is the two class-level hooks around the
      triples of the test methods. */
  lemma ExpectedTraceIsTriples(names: seq<string>)
    ensures ExpectedTrace(names) == [ClassSetUp] + Triples(TestMethods(names)) + [ClassTearDown]
  {
    TestEventsAreTriples(names);
  }

  /** No class-level hook occurs inside the triples. */
  lemma TriplesHaveNoClassHooks(tests: seq<string>)
    ensures forall k :: 0 <= k < |Triples(tests)| ==>
      Triples(tests)[k] != ClassSetUp && Triples(tests)[k] != ClassTearDown
  {
    TriplesCounts(tests);
    forall k | 0 <= k < |Triples(tests)|
      ensures Triples(tests)[k] != ClassSetUp && Triples(tests)[k] != ClassTearDown
    {
      assert Triples(tests)[k] in multiset(Triples(tests));
    }
  }

  /** The class-level set-up is the first event and occurs nowhere else; the
      class-level tear-down is the last event and occurs nowhere else. */
  lemma ExpectedTraceEnds(names: seq<string>)
    ensures var t := ExpectedTrace(names);
      && |t| == 3 * |TestMethods(names)| + 2
      && t[0] == ClassSetUp
      && t[|t| - 1] == ClassTearDown
      && (forall i :: 0 < i < |t| ==> t[i] != ClassSetUp)
      && (forall i :: 0 <= i < |t| - 1 ==> t[i] != ClassTearDown)
  {
    var t, mid := ExpectedTrace(names), Triples(TestMethods(names));
    ExpectedTraceIsTriples(names);
    TriplesAt(TestMethods(names));
    TriplesHaveNoClassHooks(TestMethods(names));
    forall i | 0 < i < |t| - 1
      ensures t[i] != ClassSetUp && t[i] != ClassTearDown
    {
      assert t[i] == mid[i - 1];
    }
  }

  /** Between the class-level hooks: one set-up, dispatch, tear-down triple per
      test method, contiguous and in enumeration order. */
  lemma ExpectedTraceTriples(names: seq<string>)
    ensures var t, tests := ExpectedTrace(names), TestMethods(names);
      |t| == 3 * |tests| + 2 &&
      forall j :: 0 <= j < |tests| ==>
        t[3 * j + 1] == SetUp && t[3 * j + 2] == Dispatch(tests[j]) && t[3 * j + 3] == TearDown
  {
    var t, tests := ExpectedTrace(names), TestMethods(names);
    var mid := Triples(tests);
    ExpectedTraceIsTriples(names);
    TriplesAt(tests);
    assert |t| == |mid| + 2;
    forall j | 0 <= j < |tests|
      ensures t[3 * j + 1] == SetUp && t[3 * j + 2] == Dispatch(tests[j]) && t[3 * j + 3] == TearDown
    {
      assert t[3 * j + 1] == mid[3 * j];
      assert t[3 * j + 2] == mid[3 * j + 1];
      assert t[3 * j + 3] == mid[3 * j + 2];
    }
  }

  /** Each hook's number of occurrences: the class-level hooks exactly once,
      the instance hooks once per test method. */
  lemma ExpectedTraceCounts(names: seq<string>)
    ensures var m, n := multiset(ExpectedTrace(names)), |TestMethods(names)|;
      m[ClassSetUp] == 1 && m[ClassTearDown] == 1 && m[SetUp] == n && m[TearDown] == n
  {
    ExpectedTraceIsTriples(names);
    TriplesCounts(TestMethods(names));
  }

  lemma {:induction false} TriplesSelectors(tests: seq<string>, k: nat)
    requires k < |Triples(tests)| && Triples(tests)[k].Dispatch?
    ensures Triples(tests)[k].selector in tests
  {
    if tests != [] && k >= 3 {
      assert Triples(tests)[k] == Triples(tests[1..])[k - 3];
      TriplesSelectors(tests[1..], k - 3);
    }
  }

  /** The dispatched selectors are exactly the test methods, in order. */
  lemma ExpectedTraceDispatches(names: seq<string>)
    ensures Dispatched(ExpectedTrace(names)) == TestMethods(names)
  {
    var mid := Triples(TestMethods(names));
    ExpectedTraceIsTriples(names);
    TriplesDispatched(TestMethods(names));
    DispatchedAppend([ClassSetUp] + mid, [ClassTearDown]);
    DispatchedAppend([ClassSetUp], mid);
    assert Dispatched([ClassSetUp]) == [] by { assert [ClassSetUp][1..] == []; }
    assert Dispatched([ClassTearDown]) == [] by { assert [ClassTearDown][1..] == []; }
  }

  /** Only enumerated names with the prefix are ever dispatched. */
  lemma OnlyTestMethodsDispatched(names: seq<string>, n: string)
    requires Dispatch(n) in ExpectedTrace(names)
    ensures n in names && IsTestMethod(n)
  {
    var t, mid := ExpectedTrace(names), Triples(TestMethods(names));
    ExpectedTraceIsTriples(names);
    var i :| 0 <= i < |t| && t[i] == Dispatch(n);
    assert 0 < i < |t| - 1;
    assert mid[i - 1] == t[i];
    TriplesSelectors(TestMethods(names), i - 1);
  }

  /** Every dispatch in the trace is bracketed by an instance set-up right
      before and an instance tear-down right after. */
  lemma ExpectedTraceBracketing(names: seq<string>)
    ensures var t := ExpectedTrace(names);
      forall k :: 0 <= k < |t| && t[k].Dispatch? ==> 0 < k < |t| - 1 && t[k - 1] == SetUp && t[k + 1] == TearDown
  {
    var t, mid := ExpectedTrace(names), Triples(TestMethods(names));
    ExpectedTraceIsTriples(names);
    TriplesBracket(TestMethods(names));
    forall k | 0 <= k < |t| && t[k].Dispatch?
      ensures 0 < k < |t| - 1 && t[k - 1] == SetUp && t[k + 1] == TearDown
    {
      assert 0 < k < |t| - 1;
      assert t[k] == mid[k - 1];
    }
  }

  /** A run with no test method, including an empty method list, is just the
      two class-level hooks. */
  lemma EmptyRun(names: seq<string>)
    ensures (forall n :: n in names ==> !IsTestMethod(n)) <==> ExpectedTrace(names) == [ClassSetUp, ClassTearDown]
  {
    ExpectedTraceIsTriples(names);
    TriplesAt(TestMethods(names));
    if TestMethods(names) != [] {
      assert TestMethods(names)[0] in TestMethods(names);
      assert |ExpectedTrace(names)| > 2;
    }
  }

  /** The example of a test case with two test methods and one helper. */
  lemma TwoTestsAndAHelper()
    ensures ExpectedTrace(["testA", "helper", "testB"])
         == [ClassSetUp, SetUp, Dispatch("testA"), TearDown, SetUp, Dispatch("testB"), TearDown, ClassTearDown]
    ensures !IsTestMethod("Test") && !IsTestMethod("tes") && IsTestMethod("test")
  {
    assert !IsTestMethod("helper") by { assert "helper"[0] != TestPrefix[0]; }
    assert ["testA", "helper", "testB"][1..] == ["helper", "testB"];
    assert ["helper", "testB"][1..] == ["testB"];
    assert !IsTestMethod("Test") by { assert "Test"[0] != TestPrefix[0]; }
  }

  /** A test case. `methodNames` is the method list of its dynamic type as
      the runtime enumerates it; `trace` records every hook call and every
      dispatch. */
  class TestCase {
    const methodNames: seq<string>
    var trace: seq<Event>

    /** Construction runs the whole cycle. */
    constructor (methodNames: seq<string>)
      ensures this.methodNames == methodNames
      ensures trace == ExpectedTrace(methodNames)
    {
      this.methodNames := methodNames;
      trace := [];
      new;
      RunTestMethods();
    }

    /** The class-level set-up hook. */
    method ClassSetUp()
      modifies this
      ensures trace == old(trace) + [Event.ClassSetUp]
    {
      trace := trace + [Event.ClassSetUp];
    }

    /** The instance set-up hook. */
    method SetUp()
      modifies this
      ensures trace == old(trace) + [Event.SetUp]
    {
      trace := trace + [Event.SetUp];
    }

    /** Runs the selected method on the main thread and waits until it is done. */
    method PerformSelectorOnMainThread(selector: string)
      modifies this
      ensures trace == old(trace) + [Dispatch(selector)]
    {
      trace := trace + [Dispatch(selector)];
    }

    /** The instance tear-down hook. */
    method TearDown()
      modifies this
      ensures trace == old(trace) + [Event.TearDown]
    {
      trace := trace + [Event.TearDown];
    }

    /** The class-level tear-down hook. */
    method ClassTearDown()
      modifies this
      ensures trace == old(trace) + [Event.ClassTearDown]
    {
      trace := trace + [Event.ClassTearDown];
    }

    method RunTestMethods()
      modifies this
      ensures trace == old(trace) + ExpectedTrace(methodNames)
    {
      ClassSetUp();
      var mc := |methodNames|;
      var cursor := 0;
      while cursor < mc
        invariant 0 <= cursor <= mc
        invariant trace == old(trace) + [Event.ClassSetUp] + TestEvents(methodNames[..cursor])
      {
        var m := methodNames[cursor];
        if IsTestMethod(m) {
          SetUp();
          PerformSelectorOnMainThread(m);
          TearDown();
        }
        TestEventsSnoc(methodNames, cursor);
        cursor := cursor + 1;
      }
      assert methodNames[..cursor] == methodNames;
      ClassTearDown();
    }
  }
}
