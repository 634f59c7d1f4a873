/** The assertion library of XCTestPlayground.

    Every assertion evaluates a condition and returns a status string: exactly
    the success glyph when the condition holds, or the failure glyph followed,
    with no separator, by a message. Nothing is thrown; the string is the
    only channel.

    Swift's `@autoclosure` arguments are passed here as already-evaluated
    values, and Swift's string interpolation `\(x)` is an abstract `render`
    parameter. The ordering assertions take the type's `<` as a parameter
    `lt` and derive `>`, `<=` and `>=` from it the way Swift's `Comparable`
    defaults do: `a > b` is `b < a`, `a <= b` is `!(b < a)`, `a >= b` is
    `!(a < b)`.
 */
module Assertions {

  datatype Option<T> = None | Some(value: T)

  const OkGlyph: char := '✅'
  const FailGlyph: char := '❌'
  const DefaultMessage: string := ""

  /** What a reader of a result string learns from it. */
  datatype Verdict = Pass | Fail(message: string) | Unrecognised

  /** Reads a result string back into a verdict. */
  function Decode(r: string): (v: Verdict)
    ensures v.Pass? <==> r == [OkGlyph]
    ensures v.Fail? <==> |r| > 0 && r[0] == FailGlyph
    ensures v.Fail? ==> [FailGlyph] + v.message == r
  {
    if r == [OkGlyph] then Pass
    else if |r| > 0 && r[0] == FailGlyph then Fail(r[1..])
    else Unrecognised
  }

  /** True when a result string is the success marker. */
  predicate Succeeded(r: string) {
    Decode(r).Pass?
  }

  function OkMessage(): (r: string)
    ensures Decode(r) == Pass
  {
    "✅"
  }

  function FailMessage(message: string): (r: string)
    ensures Decode(r) == Fail(message)
    ensures |r| == |message| + 1 && r[1..] == message
    ensures r != OkMessage()
  {
    "❌" + message
  }

  function ReturnTestResult(result: bool, message: string): (r: string)
    ensures Succeeded(r) <==> result
    ensures Decode(r) == if result then Pass else Fail(message)
  {
    if result then OkMessage() else FailMessage(message)
  }

  /** XCTFail: always the failure marker followed by the message. */
  function XCTFail(message: string := DefaultMessage): (r: string)
    ensures !Succeeded(r)
    ensures Decode(r) == Fail(message)
  {
    FailMessage(message)
  }

  function XCTAssert(expression: bool, message: string := DefaultMessage): (r: string)
    ensures Succeeded(r) <==> expression
    ensures Decode(r) == if expression then Pass else Fail(message)
  {
    ReturnTestResult(expression, message)
  }

  function XCTAssertTrue(expression: bool, message: string := DefaultMessage): (r: string)
    ensures Succeeded(r) <==> expression
    ensures Decode(r) == if expression then Pass else Fail(message)
  {
    ReturnTestResult(expression, message)
  }

  function XCTAssertFalse(expression: bool, message: string := DefaultMessage): (r: string)
    ensures Succeeded(r) <==> !expression
    ensures Decode(r) == if expression then Fail(message) else Pass
  {
    ReturnTestResult(!expression, message)
  }

  /** Failure text of the equality assertions. */
  function EqualText(message: string, expected: string, actual: string): string {
    message + " - expected: " + expected + ", actual: " + actual
  }

  /** Failure text of the inequality assertions; `op` is the rendered operator. */
  function NotEqualText(message: string, lhs: string, op: string, rhs: string): string {
    message + " - expected: " + lhs + op + rhs
  }

  /** Failure text of the ordering assertions; `op` is the operator without spaces. */
  function OrderText(message: string, lhs: string, op: string, rhs: string): string {
    message + " - actual: " + lhs + " " + op + " " + rhs
  }

  function XCTAssertEqualOptional<T(==)>(expression1: Option<T>, expression2: Option<T>,
                                         render: Option<T> -> string,
                                         message: string := DefaultMessage): (r: string)
    ensures Succeeded(r) <==> expression1 == expression2
    ensures expression1 != expression2 ==>
      Decode(r) == Fail(EqualText(message, render(expression2), render(expression1)))
  {
    ReturnTestResult(expression1 == expression2,
                     EqualText(message, render(expression2), render(expression1)))
  }

  /** The ArraySlice, ContiguousArray and Array overloads: all compare element by element. */
  function XCTAssertEqualSeq<T(==)>(expression1: seq<T>, expression2: seq<T>,
                                    render: seq<T> -> string,
                                    message: string := DefaultMessage): (r: string)
    ensures Succeeded(r) <==> |expression1| == |expression2| &&
                              forall i :: 0 <= i < |expression1| ==> expression1[i] == expression2[i]
    ensures expression1 != expression2 ==>
      Decode(r) == Fail(EqualText(message, render(expression2), render(expression1)))
  {
    ReturnTestResult(expression1 == expression2,
                     EqualText(message, render(expression2), render(expression1)))
  }

  function XCTAssertEqualMap<K, V(==)>(expression1: map<K, V>, expression2: map<K, V>,
                                       render: map<K, V> -> string,
                                       message: string := DefaultMessage): (r: string)
    ensures Succeeded(r) <==> expression1.Keys == expression2.Keys &&
                              forall k :: k in expression1 ==> expression1[k] == expression2[k]
    ensures expression1 != expression2 ==>
      Decode(r) == Fail(EqualText(message, render(expression2), render(expression1)))
  {
    ReturnTestResult(expression1 == expression2,
                     EqualText(message, render(expression2), render(expression1)))
  }

  function XCTAssertNotEqualOptional<T(==)>(expression1: Option<T>, expression2: Option<T>,
                                            render: Option<T> -> string,
                                            message: string := DefaultMessage): (r: string)
    ensures Succeeded(r) <==> expression1 != expression2
    ensures expression1 == expression2 ==>
      Decode(r) == Fail(NotEqualText(message, render(expression1), " =! ", render(expression2)))
  {
    ReturnTestResult(expression1 != expression2,
                     NotEqualText(message, render(expression1), " =! ", render(expression2)))
  }

  /** The ContiguousArray, ArraySlice and Array overloads. */
  function XCTAssertNotEqualSeq<T(==)>(expression1: seq<T>, expression2: seq<T>,
                                       render: seq<T> -> string,
                                       message: string := DefaultMessage): (r: string)
    ensures Succeeded(r) <==> expression1 != expression2
    ensures expression1 == expression2 ==>
      Decode(r) == Fail(NotEqualText(message, render(expression1), " != ", render(expression2)))
  {
    ReturnTestResult(expression1 != expression2,
                     NotEqualText(message, render(expression1), " != ", render(expression2)))
  }

  function XCTAssertNotEqualMap<K, V(==)>(expression1: map<K, V>, expression2: map<K, V>,
                                          render: map<K, V> -> string,
                                          message: string := DefaultMessage): (r: string)
    ensures Succeeded(r) <==> expression1 != expression2
    ensures expression1 == expression2 ==>
      Decode(r) == Fail(NotEqualText(message, render(expression1), " != ", render(expression2)))
  {
    ReturnTestResult(expression1 != expression2,
                     NotEqualText(message, render(expression1), " != ", render(expression2)))
  }

  function XCTAssertNil<T>(expression: Option<T>, render: Option<T> -> string,
                           message: string := DefaultMessage): (r: string)
    ensures Succeeded(r) <==> expression.None?
    ensures expression.Some? ==>
      Decode(r) == Fail(message + " - expected: nil, actual: " + render(expression))
  {
    var result := if expression.Some? then false else true;
    ReturnTestResult(result, message + " - expected: nil, actual: " + render(expression))
  }

  function XCTAssertNotNil<T>(expression: Option<T>, message: string := DefaultMessage): (r: string)
    ensures Succeeded(r) <==> expression.Some?
    ensures expression.None? ==> Decode(r) == Fail(message)
  {
    var result := if expression.Some? then true else false;
    ReturnTestResult(result, message)
  }

  function XCTAssertGreaterThan<T>(expression1: T, expression2: T, lt: (T, T) -> bool,
                                   render: T -> string,
                                   message: string := DefaultMessage): (r: string)
    ensures Succeeded(r) <==> lt(expression2, expression1)
    ensures !lt(expression2, expression1) ==>
      Decode(r) == Fail(OrderText(message, render(expression1), ">", render(expression2)))
  {
    ReturnTestResult(lt(expression2, expression1),
                     OrderText(message, render(expression1), ">", render(expression2)))
  }

  function XCTAssertGreaterThanOrEqual<T>(expression1: T, expression2: T, lt: (T, T) -> bool,
                                          render: T -> string,
                                          message: string := DefaultMessage): (r: string)
    ensures Succeeded(r) <==> !lt(expression1, expression2)
    ensures lt(expression1, expression2) ==>
      Decode(r) == Fail(OrderText(message, render(expression1), ">=", render(expression2)))
  {
    ReturnTestResult(!lt(expression1, expression2),
                     OrderText(message, render(expression1), ">=", render(expression2)))
  }

  function XCTAssertLessThan<T>(expression1: T, expression2: T, lt: (T, T) -> bool,
                                render: T -> string,
                                message: string := DefaultMessage): (r: string)
    ensures Succeeded(r) <==> lt(expression1, expression2)
    ensures !lt(expression1, expression2) ==>
      Decode(r) == Fail(OrderText(message, render(expression1), "<", render(expression2)))
  {
    ReturnTestResult(lt(expression1, expression2),
                     OrderText(message, render(expression1), "<", render(expression2)))
  }

  function XCTAssertLessThanOrEqual<T>(expression1: T, expression2: T, lt: (T, T) -> bool,
                                       render: T -> string,
                                       message: string := DefaultMessage): (r: string)
    ensures Succeeded(r) <==> !lt(expression2, expression1)
    ensures lt(expression2, expression1) ==>
      Decode(r) == Fail(OrderText(message, render(expression1), "<=", render(expression2)))
  {
    ReturnTestResult(!lt(expression2, expression1),
                     OrderText(message, render(expression1), "<=", render(expression2)))
  }
}
