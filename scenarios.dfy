/**
 * The element-wise arithmetic integration tests, replayed on the model. Each
 * method makes part of one test's calls, in the test's order, on handles
 * created as the test creates them; where the test hands one handle or one
 * list to several calls, so does the method. It returns what the test asserts
 * on, and its postcondition is the test's expectation. The corner-case
 * helpers are generic in the operator, as the test's helpers are.
 */
module Scenarios {
  import opened Results
  import opened Shapes
  import opened Arith
  import opened Tensors
  import opened NDArrays
  import opened Autograd

  /** manager.create(float[]): a 1-d array. */
  method Create(xs: seq<real>) returns (a: NDArray)
    ensures fresh(a) && fresh(a.data) && a.Valid() && a.Value() == Vector(xs) && a.gradient == None
  {
    a := new NDArray.FromTensor(Vector(xs));
  }

  /** manager.create(float): a 0-d array. */
  method CreateScalar(x: real) returns (a: NDArray)
    ensures fresh(a) && fresh(a.data) && a.Valid() && a.Value() == Scalar(x) && a.gradient == None
  {
    a := new NDArray.FromTensor(Scalar(x));
  }

  /** manager.create(Shape): an array of the given shape (its contents taken as zeros). */
  method CreateShaped(s: Shape) returns (a: NDArray)
    ensures fresh(a) && fresh(a.data) && a.Valid() && a.Value() == Filled(s, 0.0) && a.gradient == None
  {
    a := new NDArray.FromTensor(Filled(s, 0.0));
  }

  /** Two 1-d arrays of one length combine element by element, each element as `expected` lists it. */
  lemma ZipVectors(op: BinOp, xs: seq<real>, ys: seq<real>, expected: seq<real>)
    requires |xs| == |ys| == |expected|
    requires forall k :: 0 <= k < |xs| ==> Apply(op, xs[k], ys[k]) == expected[k]
    ensures Zip(op, Vector(xs), Vector(ys)) == Ok(Vector(expected))
  {
    ZipSameShape(op, Vector(xs), Vector(ys));
    var p := Pointwise(op, Vector(xs), Vector(ys));
    assert forall k :: 0 <= k < |p.data| ==> p.data[k] == expected[k];
    assert p.data == expected;
  }

  // ---------------------------------------------------------------------
  // The corner-case helpers.

  /** testCornerCase, first part: 10 (+) 2 on two 0-d arrays; in place, the result is the left handle. */
  method CornerCase(op: BinOp, inplace: bool) returns (scalar: Tensor, aliased: bool)
    ensures scalar == Scalar(Apply(op, 10.0, 2.0))
    ensures inplace ==> aliased
  {
    var a1 := CreateScalar(10.0);
    var a2 := CreateScalar(2.0);
    ZipWithScalar(op, Scalar(10.0), 2.0);
    assert WithNumber(op, Scalar(10.0), 2.0).data == [Apply(op, 10.0, 2.0)];
    var r;
    if inplace {
      r := ArrayOpInPlace(op, a1, a2);
    } else {
      r := ArrayOp(op, a1, a2);
    }
    scalar := r.value.Value();
    aliased := r.value == a1;
  }

  /** testCornerCase, allocating only: [10, 10] (+) a 0-d 5 broadcasts the 5. */
  method CornerCaseWithScalar(op: BinOp) returns (result: Tensor)
    ensures result == Vector([Apply(op, 10.0, 5.0), Apply(op, 10.0, 5.0)])
  {
    var v := Create([10.0, 10.0]);
    var s := CreateScalar(5.0);
    ZipWithScalar(op, Vector([10.0, 10.0]), 5.0);
    assert WithNumber(op, Vector([10.0, 10.0]), 5.0).data == [Apply(op, 10.0, 5.0), Apply(op, 10.0, 5.0)];
    var w := ArrayOp(op, v, s);
    result := w.value.Value();
  }

  /** testCornerCase, allocating only: empty (4, 0, 1) (+) empty (1, 0) is an empty (4, 0, 0). */
  method CornerCaseBothEmpty(op: BinOp) returns (result: Tensor)
    ensures result == Filled([4, 0, 0], 0.0)
  {
    var e1 := CreateShaped([4, 0, 1]);
    var e2 := CreateShaped([1, 0]);
    assert Init([4, 0, 1]) == [4, 0] && Init([1, 0]) == [1] && Init([4, 0]) == [4] && Init([1]) == [];
    assert Broadcast([4], []) == Ok([4]);
    assert Last([4, 0]) == 0 && Last([1]) == 1 && [4] + [Merge(0, 1)] == [4, 0];
    assert Broadcast([4, 0], [1]) == Ok([4, 0]);
    assert Last([4, 0, 1]) == 1 && Last([1, 0]) == 0 && [4, 0] + [Merge(1, 0)] == [4, 0, 0];
    assert Broadcast([4, 0, 1], [1, 0]) == Ok([4, 0, 0]);
    var b := ArrayOp(op, e1, e2);
    result := b.value.Value();
  }

  /** [10] (+) an empty (2, 0, 3): the shapes broadcast to (2, 0, 3) and the result holds nothing. */
  lemma OneWithEmpty(op: BinOp)
    ensures Zip(op, Vector([10.0]), Filled([2, 0, 3], 0.0)) == Ok(Filled([2, 0, 3], 0.0))
  {
    assert Init([1]) == [] && Init([2, 0, 3]) == [2, 0];
    assert Broadcast([], [2, 0]) == Ok([2, 0]);
    assert Last([1]) == 1 && Last([2, 0, 3]) == 3 && [2, 0] + [Merge(1, 3)] == [2, 0, 3];
    assert Broadcast([1], [2, 0, 3]) == Ok([2, 0, 3]);
    assert Size([2, 0, 3]) == 0;
    ZipShape(op, Vector([10.0]), Filled([2, 0, 3], 0.0));
  }

  /** testCornerCase, allocating only: [10] (+) an empty (2, 0, 3) is an empty (2, 0, 3). */
  method CornerCaseOneEmpty(op: BinOp) returns (result: Tensor)
    ensures result == Filled([2, 0, 3], 0.0)
  {
    OneWithEmpty(op);
    var one := Create([10.0]);
    var e := CreateShaped([2, 0, 3]);
    var c := ArrayOp(op, one, e);
    result := c.value.Value();
  }

  /**
   * testReverseCornerCase: the 0-d receiver holding x, rsub/rdiv/rmod a 0-d 2,
   * is 2 (+) x; in place the result is the receiver's handle, which then holds it,
   * and otherwise the receiver is left as it was.
   */
  method ReverseCornerCase(op: BinOp, receiver: NDArray, x: real, inplace: bool) returns (scalar: Tensor, aliased: bool)
    requires receiver.Valid() && receiver.Value() == Scalar(x)
    modifies receiver.data
    ensures scalar == Scalar(Apply(op, 2.0, x))
    ensures inplace ==> aliased && receiver.Value() == scalar
    ensures !inplace ==> receiver.Value() == Scalar(x)
  {
    var a2 := CreateScalar(2.0);
    ZipWithScalar(op, Scalar(x), 2.0);
    assert NumberWith(op, 2.0, Scalar(x)).data == [Apply(op, 2.0, x)];
    var r;
    if inplace {
      r := receiver.ReverseOpInPlace(op, a2);
    } else {
      r := receiver.ReverseOp(op, a2);
    }
    scalar := r.value.Value();
    aliased := r.value == receiver;
  }

  /**
   * The reverse corner cases of testReverseSubNDArray, testReverseDivNDArray and
   * testReverseModNDArray: one 0-d handle holding x is handed first to the
   * allocating and then to the in-place helper. Both see x, and give 2 (+) x.
   */
  method ReverseCornerCases(op: BinOp, x: real) returns (result: Tensor, inPlace: Tensor, aliased: bool)
    ensures result == Scalar(Apply(op, 2.0, x)) && inPlace == result && aliased
  {
    var scalarArray := CreateScalar(x);
    var unused;
    result, unused := ReverseCornerCase(op, scalarArray, x, false);
    inPlace, aliased := ReverseCornerCase(op, scalarArray, x, true);
  }

  /** testScalarCornerCase: a 0-d 20 (+) the number 4; otherwise also an empty (2, 0) (+) 4 stays (2, 0). */
  method ScalarCornerCase(op: BinOp, inplace: bool) returns (scalar: Tensor, aliased: bool, empty: Tensor)
    ensures scalar == Scalar(Apply(op, 20.0, 4.0))
    ensures inplace ==> aliased
    ensures !inplace ==> empty == Filled([2, 0], 0.0)
  {
    var a := CreateScalar(20.0);
    assert WithNumber(op, Scalar(20.0), 4.0).data == [Apply(op, 20.0, 4.0)];
    var r;
    if inplace {
      r := NumberOpInPlace(op, a, 4.0);
    } else {
      r := NumberOp(op, a, 4.0);
    }
    scalar := r.Value();
    aliased := r == a;
    empty := Filled([2, 0], 0.0);
    if !inplace {
      var e := CreateShaped([2, 0]);
      var w := NumberOp(op, e, 4.0);
      empty := w.Value();
    }
  }

  /** testReverseScalarCornerCase: the number 3 (+) a 0-d 9; otherwise also 3 (+) an empty (0, 2, 3) stays (0, 2, 3). */
  method ReverseScalarCornerCase(op: BinOp, inplace: bool) returns (scalar: Tensor, aliased: bool, empty: Tensor)
    ensures scalar == Scalar(Apply(op, 3.0, 9.0))
    ensures inplace ==> aliased
    ensures !inplace ==> empty == Filled([0, 2, 3], 0.0)
  {
    var a := CreateScalar(9.0);
    assert NumberWith(op, 3.0, Scalar(9.0)).data == [Apply(op, 3.0, 9.0)];
    var r;
    if inplace {
      r := ReverseNumberOpInPlace(op, 3.0, a);
    } else {
      r := ReverseNumberOp(op, 3.0, a);
    }
    scalar := r.Value();
    aliased := r == a;
    empty := Filled([0, 2, 3], 0.0);
    if !inplace {
      var e := CreateShaped([0, 2, 3]);
      var w := ReverseNumberOp(op, 3.0, e);
      empty := w.Value();
    }
  }

  // ---------------------------------------------------------------------
  // Addition.

  /**
   * testAddScalar, inside a gradient collector: add(lhs, 2) is a new array
   * [3, 4, 5, 6] with other contents than lhs, and backward from it leaves
   * lhs's attached gradient all ones.
   */
  method AddScalarBackward() returns (result: Tensor, sameContents: bool, outcome: Outcome, gradient: Result<Tensor>)
    ensures result == Vector([3.0, 4.0, 5.0, 6.0]) && !sameContents
    ensures outcome == Pass && gradient == Ok(Vector([1.0, 1.0, 1.0, 1.0]))
  {
    assert WithNumber(Add, Vector([1.0, 2.0, 3.0, 4.0]), 2.0).data == [3.0, 4.0, 5.0, 6.0];
    assert Filled([4], 1.0).data == [1.0, 1.0, 1.0, 1.0];
    var lhs := Create([1.0, 2.0, 3.0, 4.0]);
    var collector := new GradientCollector();
    lhs.AttachGradient();
    var r := collector.AddNumber(lhs, 2.0);
    assert collector.tape == [AddRecord(lhs, r)] && collector.tape[0].output == r;
    assert lhs in Inputs(collector.tape);
    AddNumberGradient(lhs, r);
    outcome := collector.Backward(r);
    sameContents := ContentEquals(lhs, r);
    gradient := lhs.GetGradient();
    collector.Close();
    result := r.Value();
  }

  /** testAddScalar, in place: addi(lhs, 2) writes [3, 4, 5, 6] into lhs and returns lhs. */
  method AddScalarInPlace() returns (inPlace: Tensor, aliased: bool)
    ensures inPlace == Vector([3.0, 4.0, 5.0, 6.0]) && aliased
  {
    var lhs := Create([1.0, 2.0, 3.0, 4.0]);
    var ip := NumberOpInPlace(Add, lhs, 2.0);
    assert WithNumber(Add, Vector([1.0, 2.0, 3.0, 4.0]), 2.0).data == [3.0, 4.0, 5.0, 6.0];
    inPlace := ip.Value();
    aliased := ip == lhs;
  }

  /** testAddNDArray: add of two arrays differs from the addend; addi writes [3, 5, 7, 9] into it. */
  method AddArrays() returns (sameContents: bool, inPlace: Tensor, aliased: bool)
    ensures !sameContents && inPlace == Vector([3.0, 5.0, 7.0, 9.0]) && aliased
  {
    ZipVectors(Add, [1.0, 2.0, 3.0, 4.0], [2.0, 3.0, 4.0, 5.0], [3.0, 5.0, 7.0, 9.0]);
    var addend := Create([1.0, 2.0, 3.0, 4.0]);
    var addendum := Create([2.0, 3.0, 4.0, 5.0]);
    var r := ArrayOp(Add, addend, addendum);
    sameContents := ContentEquals(addend, r.value);
    var ip := ArrayOpInPlace(Add, addend, addendum);
    inPlace := ip.value.Value();
    aliased := ip.value == addend;
  }

  /** testAddNDArray, variadic: add and addi of the three (2, 2) arrays are [7, 7, 7, 7]. */
  lemma AddAll()
    ensures FoldOfThree(Add) == Dense([2, 2], [7.0, 7.0, 7.0, 7.0])
  {
    assert FoldOfThree(Add).data == [7.0, 7.0, 7.0, 7.0];
  }

  /** The three (2, 2) arrays of the variadic tests. */
  function Three(): seq<Tensor> {
    [Dense([2, 2], [1.0, 2.0, 3.0, 4.0]), Dense([2, 2], [4.0, 3.0, 2.0, 1.0]), Dense([2, 2], [2.0, 2.0, 2.0, 2.0])]
  }

  /** The per-element left fold of Three() under op. */
  function FoldOfThree(op: BinOp): Tensor {
    Dense([2, 2], seq(4, k requires 0 <= k < 4 => Apply(op, Apply(op, Three()[0].data[k], Three()[1].data[k]), Three()[2].data[k])))
  }

  /** FoldAll of Three() is its element-wise left fold. */
  lemma FoldThreeValue(op: BinOp)
    ensures FoldAll(op, Three()) == Ok(FoldOfThree(op))
    ensures InPlaceFold(op, Three()) == Ok(FoldOfThree(op))
  {
    var ts := Three();
    assert ts[..2][..1] == [ts[0]];
    ZipSameShape(op, ts[0], ts[1]);
    var p := Pointwise(op, ts[0], ts[1]);
    assert FoldAll(op, ts[..2]) == Ok(p);
    ZipSameShape(op, p, ts[2]);
    assert Pointwise(op, p, ts[2]).data == FoldOfThree(op).data;
  }

  /**
   * Both variadic forms on Three() give the given value, once it is known to be
   * the element-wise fold. Generic in the value, so that the concrete scenarios
   * never unfold the fold on literal arrays, which is costly for the verifier.
   */
  lemma FoldsOfThree(op: BinOp, expected: Tensor)
    requires FoldOfThree(op) == expected
    ensures FoldAll(op, Three()) == Ok(expected) && InPlaceFold(op, Three()) == Ok(expected)
  {
    FoldThreeValue(op);
  }

  /** The test's three manager.create calls for the variadic forms, collected in a list. */
  method CreateThree() returns (list: seq<NDArray>)
    ensures |list| == 3 && forall i :: 0 <= i < |list| ==> list[i].Valid()
    ensures Values(list) == Three()
    ensures forall i :: 0 <= i < |list| ==> fresh(list[i]) && fresh(list[i].data)
  {
    var a := new NDArray.FromTensor(Three()[0]);
    var b := new NDArray.FromTensor(Three()[1]);
    var c := new NDArray.FromTensor(Three()[2]);
    list := [a, b, c];
  }

  /**
   * testAddNDArray, variadic: add(NDArray...) and then addi(NDArray...) on one
   * list [a, b, c]. The allocating result is a handle other than a; the in-place
   * result is a itself, holding [7, 7, 7, 7].
   */
  method AddAllForms() returns (allocAliased: bool, sum: Tensor, inPlaceAliased: bool)
    ensures !allocAliased && inPlaceAliased
    ensures sum == Dense([2, 2], [7.0, 7.0, 7.0, 7.0])
  {
    AddAll();
    FoldsOfThree(Add, Dense([2, 2], [7.0, 7.0, 7.0, 7.0]));
    var list := CreateThree();
    var f := FoldOp(Add, list);
    allocAliased := f.value == list[0];
    var g := FoldOpInPlace(Add, list);
    inPlaceAliased := g.value == list[0];
    sum := g.value.Value();
  }

  // ---------------------------------------------------------------------
  // Subtraction.

  /** testSubScalar: sub(m, 3) leaves m alone; subi(m, 3) writes the same values into m and returns it. */
  method SubScalar() returns (result: Tensor, inPlace: Tensor, aliased: bool)
    ensures result == Vector([3.0, 6.0, 9.0, 8.0, -3.0])
    ensures inPlace == result && aliased
  {
    var minuend := Create([6.0, 9.0, 12.0, 11.0, 0.0]);
    var r := NumberOp(Sub, minuend, 3.0);
    var ip := NumberOpInPlace(Sub, minuend, 3.0);
    assert WithNumber(Sub, Vector([6.0, 9.0, 12.0, 11.0, 0.0]), 3.0).data == [3.0, 6.0, 9.0, 8.0, -3.0];
    result := r.Value();
    inPlace := ip.Value();
    aliased := ip == minuend;
  }

  /** testSubNDArray: element-wise difference, allocating and in place. */
  method SubArrays() returns (result: Tensor, inPlace: Tensor, aliased: bool)
    ensures result == Vector([4.0, 6.0, 8.0, 10.0, -6.0])
    ensures inPlace == result && aliased
  {
    ZipVectors(Sub, [6.0, 9.0, 12.0, 15.0, 0.0], [2.0, 3.0, 4.0, 5.0, 6.0], [4.0, 6.0, 8.0, 10.0, -6.0]);
    var minuend := Create([6.0, 9.0, 12.0, 15.0, 0.0]);
    var subtrahend := Create([2.0, 3.0, 4.0, 5.0, 6.0]);
    var r := ArrayOp(Sub, minuend, subtrahend);
    var ip := ArrayOpInPlace(Sub, minuend, subtrahend);
    result := r.value.Value();
    inPlace := ip.value.Value();
    aliased := ip.value == minuend;
  }

  /** testReverseSubScalar: sub(180, m) is new; subi(180, m) writes the same values into m. */
  method ReverseSubScalar() returns (result: Tensor, equal: bool, aliased: bool)
    ensures result == Vector([174.0, 89.0, 168.0, -35.0, 0.0])
    ensures equal && aliased
  {
    var minuend := Create([6.0, 91.0, 12.0, 215.0, 180.0]);
    var r := ReverseNumberOp(Sub, 180.0, minuend);
    var ip := ReverseNumberOpInPlace(Sub, 180.0, minuend);
    var actual := Create([174.0, 89.0, 168.0, -35.0, 0.0]);
    assert NumberWith(Sub, 180.0, Vector([6.0, 91.0, 12.0, 215.0, 180.0])).data == [174.0, 89.0, 168.0, -35.0, 0.0];
    result := r.Value();
    equal := ContentEquals(actual, ip);
    aliased := ip == minuend;
  }

  /** testReverseSubNDArray: m.rsub(s) is s - m, allocating and in place in m. */
  method ReverseSubArrays() returns (result: Tensor, equal: bool, aliased: bool)
    ensures result == Vector([18.0, 54.0, 84.0, 0.0, 45.0])
    ensures equal && aliased
  {
    ZipVectors(Sub, [24.0, 63.0, 96.0, 15.0, 90.0], [6.0, 9.0, 12.0, 15.0, 45.0], [18.0, 54.0, 84.0, 0.0, 45.0]);
    var minuend := Create([6.0, 9.0, 12.0, 15.0, 45.0]);
    var subtrahend := Create([24.0, 63.0, 96.0, 15.0, 90.0]);
    var r := minuend.ReverseOp(Sub, subtrahend);
    var ip := minuend.ReverseOpInPlace(Sub, subtrahend);
    var actual := Create([18.0, 54.0, 84.0, 0.0, 45.0]);
    result := r.value.Value();
    equal := ContentEquals(actual, ip.value);
    aliased := ip.value == minuend;
  }

  /** testReverseSubNDArray, empty arrays: (4, 0, 1).rsub((1, 0)) is an empty (4, 0, 0). */
  method ReverseSubBothEmpty() returns (result: Tensor)
    ensures result == Filled([4, 0, 0], 0.0)
  {
    assert Init([4, 0, 1]) == [4, 0] && Init([1, 0]) == [1] && Init([4, 0]) == [4] && Init([1]) == [];
    assert Broadcast([], [4]) == Ok([4]);
    assert Last([4, 0]) == 0 && Last([1]) == 1 && [4] + [Merge(1, 0)] == [4, 0];
    assert Broadcast([1], [4, 0]) == Ok([4, 0]);
    assert Last([4, 0, 1]) == 1 && Last([1, 0]) == 0 && [4, 0] + [Merge(0, 1)] == [4, 0, 0];
    assert Broadcast([1, 0], [4, 0, 1]) == Ok([4, 0, 0]);
    var e1 := CreateShaped([4, 0, 1]);
    var e2 := CreateShaped([1, 0]);
    var b := e1.ReverseOp(Sub, e2);
    result := b.value.Value();
  }

  /** testReverseSubNDArray, empty arrays: [10].rsub((2, 0, 3)) is an empty (2, 0, 3). */
  method ReverseSubOneEmpty() returns (result: Tensor)
    ensures result == Filled([2, 0, 3], 0.0)
  {
    assert Init([2, 0, 3]) == [2, 0] && Init([1]) == [];
    assert Broadcast([2, 0], []) == Ok([2, 0]);
    assert Last([2, 0, 3]) == 3 && Last([1]) == 1 && [2, 0] + [Merge(3, 1)] == [2, 0, 3];
    assert Broadcast([2, 0, 3], [1]) == Ok([2, 0, 3]);
    var one := Create([10.0]);
    var e := CreateShaped([2, 0, 3]);
    var c := one.ReverseOp(Sub, e);
    result := c.value.Value();
  }

  // ---------------------------------------------------------------------
  // Multiplication.

  /** testMulScalar: mul(m, 3), allocating and in place. */
  method MulScalar() returns (result: Tensor, inPlace: Tensor, aliased: bool)
    ensures result == Vector([18.0, 27.0, -36.0, 45.0, 0.0])
    ensures inPlace == result && aliased
  {
    var multiplicand := Create([6.0, 9.0, -12.0, 15.0, 0.0]);
    var r := NumberOp(Mul, multiplicand, 3.0);
    var ip := NumberOpInPlace(Mul, multiplicand, 3.0);
    assert WithNumber(Mul, Vector([6.0, 9.0, -12.0, 15.0, 0.0]), 3.0).data == [18.0, 27.0, -36.0, 45.0, 0.0];
    result := r.Value();
    inPlace := ip.Value();
    aliased := ip == multiplicand;
  }

  /** testMulNDArray: element-wise product, allocating and in place. */
  method MulArrays() returns (result: Tensor, inPlace: Tensor, aliased: bool)
    ensures result == Vector([12.0, 27.0, 48.0, 75.0, 0.0])
    ensures inPlace == result && aliased
  {
    ZipVectors(Mul, [6.0, 9.0, 12.0, 15.0, 0.0], [2.0, 3.0, 4.0, 5.0, 6.0], [12.0, 27.0, 48.0, 75.0, 0.0]);
    var multiplicand := Create([6.0, 9.0, 12.0, 15.0, 0.0]);
    var with := Create([2.0, 3.0, 4.0, 5.0, 6.0]);
    var r := ArrayOp(Mul, multiplicand, with);
    var ip := ArrayOpInPlace(Mul, multiplicand, with);
    result := r.value.Value();
    inPlace := ip.value.Value();
    aliased := ip.value == multiplicand;
  }

  /** testMulNDArray, variadic: mul and muli of the three (2, 2) arrays are [8, 12, 12, 8]. */
  lemma MulAll()
    ensures FoldOfThree(Mul) == Dense([2, 2], [8.0, 12.0, 12.0, 8.0])
  {
    assert FoldOfThree(Mul).data == [8.0, 12.0, 12.0, 8.0];
  }

  /**
   * testMulNDArray, variadic: mul(NDArray...) and then muli(NDArray...) on one
   * list [a, b, c]. Afterwards both results hold [8, 12, 12, 8], the allocating
   * one read after muli has written into a; only the in-place result is a.
   */
  method MulAllForms() returns (product: Tensor, allocAliased: bool, inPlace: Tensor, inPlaceAliased: bool)
    ensures !allocAliased && inPlaceAliased
    ensures product == Dense([2, 2], [8.0, 12.0, 12.0, 8.0]) && inPlace == product
  {
    MulAll();
    FoldsOfThree(Mul, Dense([2, 2], [8.0, 12.0, 12.0, 8.0]));
    var list := CreateThree();
    var f := FoldOp(Mul, list);
    var p := f.value;
    label beforeMuli:
    var g := FoldOpInPlace(Mul, list);
    assert unchanged@beforeMuli(p.data);
    allocAliased := p == list[0];
    inPlaceAliased := g.value == list[0];
    product := p.Value();
    inPlace := g.value.Value();
  }

  // Division.

  /** testDivScalar: div(d, 3), allocating and in place. */
  method DivScalar() returns (result: Tensor, inPlace: Tensor, aliased: bool)
    ensures result == Vector([2.0, 3.0, 4.0, 5.0, 0.0])
    ensures inPlace == result && aliased
  {
    var dividend := Create([6.0, 9.0, 12.0, 15.0, 0.0]);
    var r := NumberOp(Div, dividend, 3.0);
    var ip := NumberOpInPlace(Div, dividend, 3.0);
    assert WithNumber(Div, Vector([6.0, 9.0, 12.0, 15.0, 0.0]), 3.0).data == [2.0, 3.0, 4.0, 5.0, 0.0];
    result := r.Value();
    inPlace := ip.Value();
    aliased := ip == dividend;
  }

  /** testDivNDArray: element-wise quotient, allocating and in place. */
  method DivArrays() returns (result: Tensor, inPlace: Tensor, aliased: bool)
    ensures result == Vector([3.0, 3.0, 3.0, 3.0, 0.0])
    ensures inPlace == result && aliased
  {
    ZipVectors(Div, [6.0, 9.0, 12.0, 15.0, 0.0], [2.0, 3.0, 4.0, 5.0, 6.0], [3.0, 3.0, 3.0, 3.0, 0.0]);
    var dividend := Create([6.0, 9.0, 12.0, 15.0, 0.0]);
    var divisor := Create([2.0, 3.0, 4.0, 5.0, 6.0]);
    var r := ArrayOp(Div, dividend, divisor);
    var ip := ArrayOpInPlace(Div, dividend, divisor);
    result := r.value.Value();
    inPlace := ip.value.Value();
    aliased := ip.value == dividend;
  }

  /** testReverseDivScalar: div(180, d), allocating and in place in d. */
  method ReverseDivScalar() returns (result: Tensor, inPlace: Tensor, aliased: bool)
    ensures result == Vector([30.0, 20.0, 15.0, 12.0, 4.0])
    ensures inPlace == result && aliased
  {
    var dividend := Create([6.0, 9.0, 12.0, 15.0, 45.0]);
    var r := ReverseNumberOp(Div, 180.0, dividend);
    var ip := ReverseNumberOpInPlace(Div, 180.0, dividend);
    assert NumberWith(Div, 180.0, Vector([6.0, 9.0, 12.0, 15.0, 45.0])).data == [30.0, 20.0, 15.0, 12.0, 4.0];
    result := r.Value();
    inPlace := ip.Value();
    aliased := ip == dividend;
  }

  /** testReverseDivNDArray: d.rdiv(s) is s / d, allocating and in place in d. */
  method ReverseDivArrays() returns (result: Tensor, equal: bool, aliased: bool)
    ensures result == Vector([4.0, 7.0, 8.0, 1.0, 2.0])
    ensures equal && aliased
  {
    ZipVectors(Div, [24.0, 63.0, 96.0, 15.0, 90.0], [6.0, 9.0, 12.0, 15.0, 45.0], [4.0, 7.0, 8.0, 1.0, 2.0]);
    var dividend := Create([6.0, 9.0, 12.0, 15.0, 45.0]);
    var divisor := Create([24.0, 63.0, 96.0, 15.0, 90.0]);
    var r := dividend.ReverseOp(Div, divisor);
    var ip := dividend.ReverseOpInPlace(Div, divisor);
    var actual := Create([4.0, 7.0, 8.0, 1.0, 2.0]);
    result := r.value.Value();
    equal := ContentEquals(actual, ip.value);
    aliased := ip.value == dividend;
  }

  // ---------------------------------------------------------------------
  // Remainder.

  /** testModScalar: mod(d, 3), allocating and in place. */
  method ModScalar() returns (result: Tensor, inPlace: Tensor, aliased: bool)
    ensures result == Vector([2.0, 0.0, 1.0, 2.0, 0.0])
    ensures inPlace == result && aliased
  {
    var dividend := Create([5.0, 6.0, 7.0, 8.0, 9.0]);
    var r := NumberOp(Mod, dividend, 3.0);
    var ip := NumberOpInPlace(Mod, dividend, 3.0);
    assert WithNumber(Mod, Vector([5.0, 6.0, 7.0, 8.0, 9.0]), 3.0).data == [2.0, 0.0, 1.0, 2.0, 0.0];
    result := r.Value();
    inPlace := ip.Value();
    aliased := ip == dividend;
  }

  /** testModNDArray: element-wise remainder, allocating and in place. */
  method ModArrays() returns (result: Tensor, inPlace: Tensor, aliased: bool)
    ensures result == Vector([1.0, 2.0, 1.0, 0.0, 5.0])
    ensures inPlace == result && aliased
  {
    ZipVectors(Mod, [7.0, 8.0, 9.0, 10.0, 11.0], [2.0, 3.0, 4.0, 5.0, 6.0], [1.0, 2.0, 1.0, 0.0, 5.0]);
    var dividend := Create([7.0, 8.0, 9.0, 10.0, 11.0]);
    var divisor := Create([2.0, 3.0, 4.0, 5.0, 6.0]);
    var r := ArrayOp(Mod, dividend, divisor);
    var ip := ArrayOpInPlace(Mod, dividend, divisor);
    result := r.value.Value();
    inPlace := ip.value.Value();
    aliased := ip.value == dividend;
  }

  /** testReverseModScalar: mod(180, d), allocating and in place in d. */
  method ReverseModScalar() returns (result: Tensor, inPlace: Tensor, aliased: bool)
    ensures result == Vector([0.0, 0.0, 5.0, 4.0, 0.0])
    ensures inPlace == result && aliased
  {
    var dividend := Create([5.0, 6.0, 7.0, 8.0, 9.0]);
    var r := ReverseNumberOp(Mod, 180.0, dividend);
    var ip := ReverseNumberOpInPlace(Mod, 180.0, dividend);
    assert NumberWith(Mod, 180.0, Vector([5.0, 6.0, 7.0, 8.0, 9.0])).data == [0.0, 0.0, 5.0, 4.0, 0.0];
    result := r.Value();
    inPlace := ip.Value();
    aliased := ip == dividend;
  }

  /** testReverseModNDArray: d.rmod(s) is s % d, allocating and in place in d. */
  method ReverseModArrays() returns (result: Tensor, equal: bool, aliased: bool)
    ensures result == Vector([6.0, 5.0, 4.0, 3.0, 2.0])
    ensures equal && aliased
  {
    ZipVectors(Mod, [20.0, 21.0, 22.0, 23.0, 24.0], [7.0, 8.0, 9.0, 10.0, 11.0], [6.0, 5.0, 4.0, 3.0, 2.0]);
    var dividend := Create([7.0, 8.0, 9.0, 10.0, 11.0]);
    var divisor := Create([20.0, 21.0, 22.0, 23.0, 24.0]);
    var r := dividend.ReverseOp(Mod, divisor);
    var ip := dividend.ReverseOpInPlace(Mod, divisor);
    var actual := Create([6.0, 5.0, 4.0, 3.0, 2.0]);
    result := r.value.Value();
    equal := ContentEquals(actual, ip.value);
    aliased := ip.value == dividend;
  }

  // ---------------------------------------------------------------------
  // Power.

  /** testPowScalar: a (1, 5) array squared, allocating and in place. */
  method PowScalar() returns (result: Tensor, inPlace: Tensor, aliased: bool)
    ensures result == Dense([1, 5], [36.0, 0.0, 1.0, 25.0, 4.0])
    ensures inPlace == result && aliased
  {
    var t: Tensor := Dense([1, 5], [6.0, 0.0, -1.0, 5.0, 2.0]);
    var base := new NDArray.FromTensor(t);
    var r := NumberOp(Pow, base, 2.0);
    var ip := NumberOpInPlace(Pow, base, 2.0);
    assert WithNumber(Pow, t, 2.0).data == [36.0, 0.0, 1.0, 25.0, 4.0];
    result := r.Value();
    inPlace := ip.Value();
    aliased := ip == base;
  }

  /** testPowNDArray: element-wise powers, a negative exponent giving a reciprocal. */
  method PowArrays() returns (result: Tensor, inPlace: Tensor, aliased: bool)
    ensures result == Vector([216.0, 1.0, 12.0, 0.25, 0.0])
    ensures inPlace == result && aliased
  {
    ZipVectors(Pow, [6.0, 9.0, 12.0, 2.0, 0.0], [3.0, 0.0, 1.0, -2.0, 3.0], [216.0, 1.0, 12.0, 0.25, 0.0]);
    var base := Create([6.0, 9.0, 12.0, 2.0, 0.0]);
    var power := Create([3.0, 0.0, 1.0, -2.0, 3.0]);
    var r := ArrayOp(Pow, base, power);
    var ip := ArrayOpInPlace(Pow, base, power);
    result := r.value.Value();
    inPlace := ip.value.Value();
    aliased := ip.value == base;
  }

  /** testReversePowScalar: pow(2, a), allocating and in place in a. */
  method ReversePowScalar() returns (result: Tensor, inPlace: Tensor, aliased: bool)
    ensures result == Vector([8.0, 16.0, 32.0, 64.0, 128.0])
    ensures inPlace == result && aliased
  {
    var base := Create([3.0, 4.0, 5.0, 6.0, 7.0]);
    var r := ReverseNumberOp(Pow, 2.0, base);
    var ip := ReverseNumberOpInPlace(Pow, 2.0, base);
    assert NumberWith(Pow, 2.0, Vector([3.0, 4.0, 5.0, 6.0, 7.0])).data == [8.0, 16.0, 32.0, 64.0, 128.0];
    result := r.Value();
    inPlace := ip.Value();
    aliased := ip == base;
  }
}
