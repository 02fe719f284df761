/** The two helpers of the "expect on functions" chapter: an addition, and a
    function that either returns its datum or throws, depending on an
    operator string. A JavaScript `throw` is modelled as a value of the
    `Outcome` datatype, which is also the shape in which a spy records each
    call's result (`{ type: "return" | "throw", value }`). */
module Logic {

  /** What one call did: returned a value, or threw an Error with a message. */
  datatype Outcome = Returned(value: string) | Threw(message: string)

  /** The message of the Error thrown for an operator other than
      "throw" and "return" (the misspelling is the source's). */
  function InvalidOperatorMessage(op: string): string
  {
    op + " is invaild operator."
  }

  /** `sum(a, b)`: numbers are modelled as unbounded integers. */
  function Sum(a: int, b: int): int
  {
    a + b
  }

  /** The spy results the chapter asserts for its three calls of `sum`. */
  lemma SumTestResults()
    ensures Sum(10, 20) == 30 && Sum(20, 40) == 60 && Sum(30, 60) == 90
  {
  }

  /** `throwOrReturn(data, op)`. The datum is a string, so the message of
      `new Error(data)` is the datum itself. */
  function ThrowOrReturn(data: string, op: string): (r: Outcome)
    ensures r.Returned? <==> op == "return"
    ensures r.Returned? ==> r.value == data
    ensures op == "throw" ==> r.message == data
    ensures op != "throw" && op != "return" ==> r.message == InvalidOperatorMessage(op)
  {
    if op == "throw" then Threw(data)
    else if op == "return" then Returned(data)
    else Threw(InvalidOperatorMessage(op))
  }

  /** Whether a call returns or throws is decided by the operator alone:
      the datum never turns a throw into a return. (That a call has exactly
      one of the two outcomes is the shape of `Outcome` itself.) */
  lemma OutcomeDependsOnlyOnOperator(d1: string, d2: string, op: string)
    ensures ThrowOrReturn(d1, op).Returned? == ThrowOrReturn(d2, op).Returned?
  {
  }

  /** The outcomes a spy records when `throwOrReturn` is called once per
      `(data, op)` pair, in order, with each throw caught by the caller. */
  function Outcomes(params: seq<(string, string)>): (rs: seq<Outcome>)
    ensures |rs| == |params|
    ensures forall i :: 0 <= i < |params| ==> rs[i] == ThrowOrReturn(params[i].0, params[i].1)
  {
    if params == [] then []
    else [ThrowOrReturn(params[0].0, params[0].1)] + Outcomes(params[1..])
  }

  /** Number of `Returned` outcomes (`toHaveReturnedTimes`). */
  function ReturnCount(rs: seq<Outcome>): nat
  {
    if rs == [] then 0
    else (if rs[0].Returned? then 1 else 0) + ReturnCount(rs[1..])
  }

  /** The returned values, in call order (`toHaveReturnedWith` looks in these). */
  function ReturnedValues(rs: seq<Outcome>): seq<string>
  {
    if rs == [] then []
    else (if rs[0].Returned? then [rs[0].value] else []) + ReturnedValues(rs[1..])
  }

  /** The data of the pairs whose operator is "return", in order. */
  function ReturnData(params: seq<(string, string)>): seq<string>
  {
    if params == [] then []
    else (if params[0].1 == "return" then [params[0].0] else []) + ReturnData(params[1..])
  }

  /** Each returned value is counted once: there are as many returns as values. */
  lemma {:induction false} ReturnCountIsReturnedValues(rs: seq<Outcome>)
    ensures ReturnCount(rs) == |ReturnedValues(rs)|
  {
    if rs != [] {
      ReturnCountIsReturnedValues(rs[1..]);
    }
  }

  /** Folding `throwOrReturn` over the pairs returns exactly the data whose
      operator is "return", in their order, and so returns as often as
      the operator "return" occurs. */
  lemma {:induction false} ReturnedValuesAreReturnData(params: seq<(string, string)>)
    ensures ReturnedValues(Outcomes(params)) == ReturnData(params)
    ensures ReturnCount(Outcomes(params)) == |ReturnData(params)|
  {
    if params != [] {
      ReturnedValuesAreReturnData(params[1..]);
      assert Outcomes(params)[1..] == Outcomes(params[1..]);
    }
    ReturnCountIsReturnedValues(Outcomes(params));
  }

  /** A datum never paired with an operator other than "throw" is never returned. */
  lemma {:induction false} ThrownDatumNeverReturned(params: seq<(string, string)>, d: string)
    requires forall i :: 0 <= i < |params| && params[i].0 == d ==> params[i].1 == "throw"
    ensures d !in ReturnedValues(Outcomes(params))
  {
    ReturnedValuesAreReturnData(params);
    NotInReturnData(params, d);
  }

  lemma {:induction false} NotInReturnData(params: seq<(string, string)>, d: string)
    requires forall i :: 0 <= i < |params| && params[i].0 == d ==> params[i].1 == "throw"
    ensures d !in ReturnData(params)
  {
    if params != [] {
      NotInReturnData(params[1..], d);
    }
  }

  /** The pairs of the chapter's test. */
  function TestParams(): seq<(string, string)>
  {
    [("a", "throw"), ("b", "return"), ("c", "throw"), ("d", "return")]
  }

  /** The chapter's assertions: results `throw a, return b, throw c,
      return d`; two returns; "b" and "d" returned, "a" and "c" not. */
  lemma TestParamsOutcomes()
    ensures Outcomes(TestParams()) == [Threw("a"), Returned("b"), Threw("c"), Returned("d")]
    ensures ReturnCount(Outcomes(TestParams())) == 2
    ensures ReturnedValues(Outcomes(TestParams())) == ["b", "d"]
    ensures "a" !in ReturnedValues(Outcomes(TestParams()))
    ensures "c" !in ReturnedValues(Outcomes(TestParams()))
  {
  }
}
