/** Properties relating the assertions of XCTestPlayground to each other. */
module AssertionProperties {
  import opened Assertions

  /** Every result is exactly the success glyph or exactly the failure glyph
      followed by the message, and the two never coincide. */
  lemma ResultIsOneOfTwo(result: bool, message: string)
    ensures result ==> ReturnTestResult(result, message) == "✅"
    ensures !result ==> ReturnTestResult(result, message) == "❌" + message
    ensures "❌" + message != "✅"
  {
  }

  /** The message can be read back from a failure string. */
  lemma FailMessageInjective(m1: string, m2: string)
    requires FailMessage(m1) == FailMessage(m2)
    ensures m1 == m2
  {
  }

  lemma XCTFailIsFailGlyphAndMessage(message: string)
    ensures XCTFail(message) == "❌" + message
    ensures !Succeeded(XCTFail(message))
  {
  }

  lemma XCTAssertIsXCTAssertTrue(expression: bool, message: string)
    ensures XCTAssert(expression, message) == XCTAssertTrue(expression, message)
  {
  }

  /** XCTAssertFalse succeeds exactly when XCTAssertTrue fails, and its
      failure text is the bare message. */
  lemma XCTAssertFalseNegatesXCTAssertTrue(expression: bool, message: string)
    ensures Succeeded(XCTAssertFalse(expression, message)) <==> !Succeeded(XCTAssertTrue(expression, message))
    ensures expression ==> XCTAssertFalse(expression, message) == "❌" + message
  {
  }

  lemma NotEqualNegatesEqualOptional<T>(a: Option<T>, b: Option<T>, render: Option<T> -> string, message: string)
    ensures Succeeded(XCTAssertNotEqualOptional(a, b, render, message))
        <==> !Succeeded(XCTAssertEqualOptional(a, b, render, message))
  {
  }

  lemma NotEqualNegatesEqualSeq<T>(a: seq<T>, b: seq<T>, render: seq<T> -> string, message: string)
    ensures Succeeded(XCTAssertNotEqualSeq(a, b, render, message))
        <==> !Succeeded(XCTAssertEqualSeq(a, b, render, message))
  {
    if Succeeded(XCTAssertEqualSeq(a, b, render, message)) {
      assert a == b;
    }
  }

  lemma NotEqualNegatesEqualMap<K, V>(a: map<K, V>, b: map<K, V>, render: map<K, V> -> string, message: string)
    ensures Succeeded(XCTAssertNotEqualMap(a, b, render, message))
        <==> !Succeeded(XCTAssertEqualMap(a, b, render, message))
  {
    if Succeeded(XCTAssertEqualMap(a, b, render, message)) {
      assert a == b;
    }
  }

  /** Equality is reflexive and symmetric in outcome, for every overload. */
  lemma EqualReflexiveAndSymmetric<T, K, V>(o1: Option<T>, o2: Option<T>, ro: Option<T> -> string,
                                                   s1: seq<T>, s2: seq<T>, rs: seq<T> -> string,
                                                   m1: map<K, V>, m2: map<K, V>, rm: map<K, V> -> string,
                                                   message: string)
    ensures Succeeded(XCTAssertEqualOptional(o1, o1, ro, message))
    ensures Succeeded(XCTAssertEqualSeq(s1, s1, rs, message))
    ensures Succeeded(XCTAssertEqualMap(m1, m1, rm, message))
    ensures Succeeded(XCTAssertEqualOptional(o1, o2, ro, message)) == Succeeded(XCTAssertEqualOptional(o2, o1, ro, message))
    ensures Succeeded(XCTAssertEqualSeq(s1, s2, rs, message)) == Succeeded(XCTAssertEqualSeq(s2, s1, rs, message))
    ensures Succeeded(XCTAssertEqualMap(m1, m2, rm, message)) == Succeeded(XCTAssertEqualMap(m2, m1, rm, message))
  {
  }

  /** XCTAssertNil and XCTAssertNotNil are exact negations in outcome; only
      XCTAssertNil appends the rendered value to its failure text. */
  lemma NilNegatesNotNil<T>(expression: Option<T>, render: Option<T> -> string, message: string)
    ensures Succeeded(XCTAssertNil(expression, render, message)) <==> !Succeeded(XCTAssertNotNil(expression, message))
    ensures expression.None? ==> XCTAssertNotNil(expression, message) == "❌" + message
    ensures expression.Some? ==>
      XCTAssertNil(expression, render, message) == "❌" + message + " - expected: nil, actual: " + render(expression)
  {
  }

  lemma GreaterThanNegatesLessThanOrEqual<T>(a: T, b: T, lt: (T, T) -> bool, render: T -> string, message: string)
    ensures Succeeded(XCTAssertGreaterThan(a, b, lt, render, message))
        <==> !Succeeded(XCTAssertLessThanOrEqual(a, b, lt, render, message))
  {
  }

  lemma GreaterThanOrEqualNegatesLessThan<T>(a: T, b: T, lt: (T, T) -> bool, render: T -> string, message: string)
    ensures Succeeded(XCTAssertGreaterThanOrEqual(a, b, lt, render, message))
        <==> !Succeeded(XCTAssertLessThan(a, b, lt, render, message))
  {
  }

  /** `lt` behaves like `<` on a totally ordered type. */
  ghost predicate StrictTotalOrder<T(!new)>(lt: (T, T) -> bool) {
    && (forall a :: !lt(a, a))
    && (forall a, b, c :: lt(a, b) && lt(b, c) ==> lt(a, c))
    && (forall a, b :: a != b ==> lt(a, b) || lt(b, a))
  }

  /** On a total order exactly one of `a < b`, `a == b`, `a > b` passes, and
      the non-strict assertions pass on the strict case or on equality. */
  lemma OrderingTrichotomy<T(!new)>(a: T, b: T, lt: (T, T) -> bool, render: T -> string, message: string)
    requires StrictTotalOrder(lt)
    ensures Succeeded(XCTAssertLessThan(a, b, lt, render, message)) ==> a != b
    ensures Succeeded(XCTAssertGreaterThan(a, b, lt, render, message)) ==> a != b
    ensures !(Succeeded(XCTAssertLessThan(a, b, lt, render, message)) &&
              Succeeded(XCTAssertGreaterThan(a, b, lt, render, message)))
    ensures a != b ==> Succeeded(XCTAssertLessThan(a, b, lt, render, message)) ||
                       Succeeded(XCTAssertGreaterThan(a, b, lt, render, message))
    ensures Succeeded(XCTAssertGreaterThanOrEqual(a, b, lt, render, message))
        <==> Succeeded(XCTAssertGreaterThan(a, b, lt, render, message)) || a == b
    ensures Succeeded(XCTAssertLessThanOrEqual(a, b, lt, render, message))
        <==> Succeeded(XCTAssertLessThan(a, b, lt, render, message)) || a == b
  {
    if lt(a, b) && lt(b, a) {
      assert lt(a, a);
    }
  }

  /** Worked examples, including the four calls of the doc comment. */
  lemma DocCommentExamples(renderOptionalInt: Option<int> -> string, renderInts: seq<int> -> string,
                           renderInt: int -> string)
    ensures XCTAssertEqualOptional(Some(1), Some(2), renderOptionalInt)
         == "❌" + " - expected: " + renderOptionalInt(Some(2)) + ", actual: " + renderOptionalInt(Some(1))
    ensures XCTAssertEqualSeq([1, 2], [2, 3], renderInts)
         == "❌" + " - expected: " + renderInts([2, 3]) + ", actual: " + renderInts([1, 2])
    ensures XCTAssertEqualSeq([1, 2], [1, 2], renderInts) == "✅"
    ensures XCTAssertGreaterThanOrEqual(1, 2, (x: int, y: int) => x < y, renderInt)
         == "❌" + " - actual: " + renderInt(1) + " >= " + renderInt(2)
    ensures XCTAssertTrue(true) == "✅"
    ensures XCTFail("boom") == "❌boom"
  {
  }
}
