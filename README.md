# NDArray element-wise arithmetic and the data-loading configuration

This project models the NDArray element-wise arithmetic contract that the
integration test `NDArrayElementArithmeticOpTest` pins down, and proves
properties of that model. It also models the `DataLoadingConfiguration`
builder of the training API.

The arithmetic part covers:

- **Shapes** (`shapes.dfy`). Trailing-aligned broadcasting of two shapes. It
  has a reference definition dimension by dimension, and the error it
  reports names the trailing-most incompatible axis. It also has the
  row-major index map that reads a smaller operand through a broadcast
  shape.
- **Scalar arithmetic** (`arith.dfy`). The six operator families: add, sub,
  mul, div, mod and pow. Values are exact reals. `%` is Java's truncating
  float remainder (The Java Language Specification, section 15.17.3), whose
  sign follows the dividend. Powers take an integer exponent; a negative
  exponent gives the reciprocal.
- **Array values** (`tensors.dfy`). An array value is a shape plus a
  row-major buffer of exactly `Size(shape)` elements. The module defines:
  - array with array under broadcasting (`Zip`);
  - array with number, and number with array (the reverse forms);
  - the left fold of the variadic `add(NDArray...)`/`mul(NDArray...)`;
  - the result an in-place operation must leave: the allocating result,
    provided it has the target's own shape.
- **NDArray handles** (`ndarrays.dfy`). An `NDArray` is a class over a
  fixed-size `array<real>` buffer with an optional gradient slot.
  - Allocating operations return fresh handles and change nothing.
  - In-place operations (`addi`, `subi(180, a)`, `rsubi`, the variadic
    `addi`/`muli`, ...) write the receiver's or first operand's buffer with
    loops and return that same handle.
  - Each method is proved against the value functions above.
  - `NDArrays.equals` compares contents; `NDArray.equals(Object)` is handle
    identity.
- **Gradient collector** (`autograd.dfy`).
  - A collector scope records `add(array, number)` calls on a tape.
  - `backward(loss)` replays the tape from its last record to its first,
    seeded with ones shaped like the loss.
  - Each tracked input's slot accumulates the gradient that reaches it.
- **The tests themselves** (`scenarios.dfy`). Each scenario makes part of
  one test method's calls, in the test's order, on handles created as the
  test creates them; where a test hands one handle or one list to several
  calls (the variadic folds, the reverse corner cases), the scenario does
  too. Each scenario's
  postcondition is that test's expectation: the values, whether the result
  is the operand's handle, and whether contents are equal. The four
  corner-case helpers are generic in the operator, as the test's helpers
  are.

The data-loading part (`data_loading.dfy`) has:

- the `Builder`, with its documented defaults and eight setters, each of
  which changes only its own field and returns the builder;
- `build()`, which copies the eight fields into an immutable
  `DataLoadingConfiguration` without validating them;
- a few uses showing defaults, last-write-wins, copy-not-alias and the
  absent shuffle/sampler check.

Broadcasting follows the standard rule: aligned sizes must be equal, or one
of them must be 1, and the result takes the other. This reproduces both
empty-shape expectations of the tests: (4, 0, 1) with (1, 0) gives
(4, 0, 0), and (1) with (2, 0, 3) gives (2, 0, 3). A variant in which a
0 against any size collapses the dimension to 0 agrees on those cases and
differs only for 0 against a size above 1, which the code never exercises.
The model rejects that pair, as the standard rule does.

## Model

| member | source | states |
|---|---|---|
| Shapes.SizeIsZeroIff | integration/src/main/java/software/amazon/ai/integration/tests/NDArrayElementArithmeticOpTest.java:66-76 | an array has no elements exactly when some dimension is 0 |
| Shapes.Broadcast | integration/src/main/java/software/amazon/ai/integration/tests/NDArrayElementArithmeticOpTest.java:66-76 | definition of the broadcast rule; pinned by Shapes.BroadcastMeaning, Shapes.BroadcastSucceedsIff and Shapes.BroadcastError |
| Shapes.BroadcastMeaning | integration/src/main/java/software/amazon/ai/integration/tests/NDArrayElementArithmeticOpTest.java:66-76 | the broadcast shape is r exactly when r has the larger rank and each trailing-aligned dimension pair is equal or has a 1, r taking the non-1 size |
| Shapes.BroadcastSucceedsIff | integration/src/main/java/software/amazon/ai/integration/tests/NDArrayElementArithmeticOpTest.java:66-76 | broadcasting succeeds exactly when every aligned pair is compatible |
| Shapes.BroadcastError | integration/src/main/java/software/amazon/ai/integration/tests/NDArrayElementArithmeticOpTest.java:66-76 | a failure names the trailing-most incompatible axis and both of its sizes, every axis after it being compatible |
| Shapes.BroadcastCommutes | integration/src/main/java/software/amazon/ai/integration/tests/NDArrayElementArithmeticOpTest.java:318-328 | operand order does not change whether broadcasting succeeds or the shape it gives, as forward and reverse operations agree |
| Shapes.BroadcastSelf | integration/src/main/java/software/amazon/ai/integration/tests/NDArrayElementArithmeticOpTest.java:240-244 | two operands of one shape broadcast to that shape |
| Shapes.BroadcastScalar | integration/src/main/java/software/amazon/ai/integration/tests/NDArrayElementArithmeticOpTest.java:58-64 | a 0-d operand broadcasts to the other operand's shape, on either side |
| Shapes.BroadcastEmptyIff | integration/src/main/java/software/amazon/ai/integration/tests/NDArrayElementArithmeticOpTest.java:66-76 | a successful broadcast is empty exactly when one operand is empty |
| Shapes.BroadcastExpands | integration/src/main/java/software/amazon/ai/integration/tests/NDArrayElementArithmeticOpTest.java:66-76 | both operands expand to the broadcast shape: each of their dimensions is 1 or the result's |
| Shapes.SrcIndexBound | integration/src/main/java/software/amazon/ai/integration/tests/NDArrayElementArithmeticOpTest.java:58-64 | every output position of an expanded operand reads a position inside that operand's buffer |
| Shapes.SrcIndexSelf | integration/src/main/java/software/amazon/ai/integration/tests/NDArrayElementArithmeticOpTest.java:240-244 | reading an operand through its own shape is the identity |
| Arith.TruncBounds | integration/src/main/java/software/amazon/ai/integration/tests/NDArrayElementArithmeticOpTest.java:511-512 | truncation rounds toward zero: the dropped fraction is in [0, 1) above zero and (-1, 0] below |
| Arith.Apply | integration/src/main/java/software/amazon/ai/integration/tests/NDArrayElementArithmeticOpTest.java:40-55 | definition of the six scalar operators that the test's arithmeticOp lambdas give; pinned per operator by Arith.JavaRemLaw, Arith.QuotientTimesDivisor and Arith.IntPowStep |
| Arith.QuotientTimesDivisor | integration/src/main/java/software/amazon/ai/integration/tests/NDArrayElementArithmeticOpTest.java:411-412 | for a non-zero divisor the quotient times the divisor is the dividend |
| Arith.Quotient | integration/src/main/java/software/amazon/ai/integration/tests/NDArrayElementArithmeticOpTest.java:411-412 | definition of division; pinned by Arith.QuotientTimesDivisor |
| Arith.JavaRemLaw | integration/src/main/java/software/amazon/ai/integration/tests/NDArrayElementArithmeticOpTest.java:511-512 | x % y for y non-zero: x is the truncated quotient times y plus the remainder, the remainder is smaller than y in magnitude and is 0 or has x's sign |
| Arith.JavaRem | integration/src/main/java/software/amazon/ai/integration/tests/NDArrayElementArithmeticOpTest.java:498-512 | definition of Java's float remainder; pinned by Arith.JavaRemLaw |
| Arith.NatPowNonZero | integration/src/main/java/software/amazon/ai/integration/tests/NDArrayElementArithmeticOpTest.java:609-610 | a non-zero base to a natural power is non-zero |
| Arith.IntPowStep | integration/src/main/java/software/amazon/ai/integration/tests/NDArrayElementArithmeticOpTest.java:639-644 | for a non-zero base, raising the exponent by one multiplies by the base, negative exponents included |
| Arith.IntPowReciprocal | integration/src/main/java/software/amazon/ai/integration/tests/NDArrayElementArithmeticOpTest.java:617-621 | x to the power -n is the reciprocal of x to the power n, as 2^-2 = 0.25 |
| Arith.IntPow | integration/src/main/java/software/amazon/ai/integration/tests/NDArrayElementArithmeticOpTest.java:617-621 | definition of a power with an integer exponent; pinned by Arith.IntPowStep and Arith.IntPowReciprocal |
| Tensors.Filled | integration/src/main/java/software/amazon/ai/integration/tests/NDArrayElementArithmeticOpTest.java:161-165 | definition of a constant array of a shape; the gradient it seeds is pinned by Autograd.AddNumberGradient |
| Tensors.Expand | integration/src/main/java/software/amazon/ai/integration/tests/NDArrayElementArithmeticOpTest.java:58-64 | definition of an operand read through a broadcast shape; pinned by Tensors.ExpandSelf, Shapes.SrcIndexBound and Tensors.ZipIntoLeft |
| Tensors.Pointwise | integration/src/main/java/software/amazon/ai/integration/tests/NDArrayElementArithmeticOpTest.java:240-244 | definition of the same-shape combination; pinned by Tensors.ZipSameShape and Tensors.ZipCommutes |
| Tensors.Zip | integration/src/main/java/software/amazon/ai/integration/tests/NDArrayElementArithmeticOpTest.java:49-52 | definition of array (+) array; pinned by Tensors.ZipShape, Tensors.ZipSameShape, Tensors.ZipIntoLeft and Tensors.ZipWithScalar |
| Tensors.WithNumber | integration/src/main/java/software/amazon/ai/integration/tests/NDArrayElementArithmeticOpTest.java:98-118 | array (+) number keeps the array's shape; its elements are pinned by Tensors.ZipWithScalar, Tensors.EmptyWithNumber and Tensors.NumberIdentity |
| Tensors.NumberWith | integration/src/main/java/software/amazon/ai/integration/tests/NDArrayElementArithmeticOpTest.java:120-140 | number (+) array keeps the array's shape; its elements are pinned by Tensors.ZipWithScalar, Tensors.EmptyWithNumber and Tensors.NumberIdentity |
| Tensors.FoldAll | integration/src/main/java/software/amazon/ai/integration/tests/NDArrayElementArithmeticOpTest.java:195-209 | definition of the variadic left fold; pinned by Tensors.FoldAllExtend, Tensors.FoldAllPrefixError and Tensors.FoldSameShape |
| Tensors.InPlace | integration/src/main/java/software/amazon/ai/integration/tests/NDArrayElementArithmeticOpTest.java:53-54 | an in-place result, when there is one, keeps the target's shape |
| Tensors.InPlaceFold | integration/src/main/java/software/amazon/ai/integration/tests/NDArrayElementArithmeticOpTest.java:205-206 | an in-place fold's result, when there is one, has the first array's shape |
| Tensors.FoldAllExtend | integration/src/main/java/software/amazon/ai/integration/tests/NDArrayElementArithmeticOpTest.java:195-209 | folding one more array combines it with the fold of the prefix, or keeps the prefix's error |
| Tensors.FoldAllStep | integration/src/main/java/software/amazon/ai/integration/tests/NDArrayElementArithmeticOpTest.java:195-209 | one left-to-right fold step either extends the fold or is the whole fold's error |
| Tensors.FoldAllPrefixError | integration/src/main/java/software/amazon/ai/integration/tests/NDArrayElementArithmeticOpTest.java:195-209 | a fold that fails on a prefix fails with that error on the whole list |
| Tensors.ZipShape | integration/src/main/java/software/amazon/ai/integration/tests/NDArrayElementArithmeticOpTest.java:66-76 | an array operation succeeds exactly when the shapes broadcast, with the broadcast shape, and fails with the broadcast error otherwise |
| Tensors.ExpandSelf | integration/src/main/java/software/amazon/ai/integration/tests/NDArrayElementArithmeticOpTest.java:240-244 | reading an array through its own shape gives the array |
| Tensors.ZipSameShape | integration/src/main/java/software/amazon/ai/integration/tests/NDArrayElementArithmeticOpTest.java:240-244 | on one shape, an array operation is the position-by-position combination |
| Tensors.ZipIntoLeft | integration/src/main/java/software/amazon/ai/integration/tests/NDArrayElementArithmeticOpTest.java:243-254 | when the result has the left operand's shape, each result element combines the left element with the right operand's mapped element |
| Tensors.ZipIntoRight | integration/src/main/java/software/amazon/ai/integration/tests/NDArrayElementArithmeticOpTest.java:289-302 | the same with the receiver on the right, for rsubi, rdivi and rmodi |
| Tensors.ZipWithScalar | integration/src/main/java/software/amazon/ai/integration/tests/NDArrayElementArithmeticOpTest.java:58-64 | a 0-d operand on either side acts exactly as the plain number would |
| Tensors.ZipCommutes | integration/src/main/java/software/amazon/ai/integration/tests/NDArrayElementArithmeticOpTest.java:184-193 | add and mul of two arrays succeed in either order together and then agree |
| Tensors.EmptyWithNumber | integration/src/main/java/software/amazon/ai/integration/tests/NDArrayElementArithmeticOpTest.java:113-116 | an empty array combined with a number, on either side, is itself, shape included |
| Tensors.NumberIdentity | integration/src/main/java/software/amazon/ai/integration/tests/NDArrayElementArithmeticOpTest.java:145-172 | adding 0 to an array, or multiplying it by 1, on either side, gives the array back, shape and contents |
| Tensors.FoldSameShape | integration/src/main/java/software/amazon/ai/integration/tests/NDArrayElementArithmeticOpTest.java:195-209 | the fold of same-shape arrays succeeds with that shape and each element is the left fold of that position |
| Tensors.InPlaceAgreesWithAllocating | integration/src/main/java/software/amazon/ai/integration/tests/NDArrayElementArithmeticOpTest.java:221-230 | an in-place operation gives the allocating twin's value, and succeeds exactly when the broadcast shape is the target's |
| NDArrays.NDArray.FromTensor | integration/src/main/java/software/amazon/ai/integration/tests/NDArrayElementArithmeticOpTest.java:145 | a created handle owns a new buffer holding the given value, with no gradient |
| NDArrays.NDArray.AttachGradient | integration/src/main/java/software/amazon/ai/integration/tests/NDArrayElementArithmeticOpTest.java:148 | attaching gives the array a zero gradient of its own shape |
| NDArrays.NDArray.GetGradient | integration/src/main/java/software/amazon/ai/integration/tests/NDArrayElementArithmeticOpTest.java:161-165 | the attached gradient, or an error when none is attached |
| NDArrays.NDArray.ApplyInPlace | integration/src/main/java/software/amazon/ai/integration/tests/NDArrayElementArithmeticOpTest.java:53-54 | an in-place array operation writes exactly the in-place value into this buffer and returns this handle, or fails leaving the buffer as it was |
| NDArrays.NDArray.LeftKernel | integration/src/main/java/software/amazon/ai/integration/tests/NDArrayElementArithmeticOpTest.java:189-190 | the element loop of addi-style operations leaves this (+) src in the buffer |
| NDArrays.NDArray.RightKernel | integration/src/main/java/software/amazon/ai/integration/tests/NDArrayElementArithmeticOpTest.java:289-302 | the element loop of rsubi-style operations leaves src (+) this in the buffer |
| NDArrays.NDArray.ApplyNumberInPlace | integration/src/main/java/software/amazon/ai/integration/tests/NDArrayElementArithmeticOpTest.java:168-172 | the loop leaves this (+) n, or n (+) this, in the buffer and returns this handle |
| NDArrays.NDArray.Store | integration/src/main/java/software/amazon/ai/integration/tests/NDArrayElementArithmeticOpTest.java:205-206 | writing a value of this shape leaves exactly that value in the buffer |
| NDArrays.NDArray.ReverseOp | integration/src/main/java/software/amazon/ai/integration/tests/NDArrayElementArithmeticOpTest.java:286-294 | this.rsub(other) is other (+) this in a fresh handle, or the broadcast error |
| NDArrays.NDArray.ReverseOpInPlace | integration/src/main/java/software/amazon/ai/integration/tests/NDArrayElementArithmeticOpTest.java:289-302 | rsubi writes other (+) this into this buffer and returns this handle, or fails unchanged |
| NDArrays.ArrayOp | integration/src/main/java/software/amazon/ai/integration/tests/NDArrayElementArithmeticOpTest.java:49-52 | the allocating array operation: the broadcast combination in a fresh handle, or the broadcast error |
| NDArrays.ArrayOpInPlace | integration/src/main/java/software/amazon/ai/integration/tests/NDArrayElementArithmeticOpTest.java:189-190 | addi(a, b) writes a (+) b into a and returns a, or fails leaving a as it was |
| NDArrays.NumberOp | integration/src/main/java/software/amazon/ai/integration/tests/NDArrayElementArithmeticOpTest.java:148-158 | add(a, n) is a (+) n in a fresh handle with a's shape |
| NDArrays.NumberOpInPlace | integration/src/main/java/software/amazon/ai/integration/tests/NDArrayElementArithmeticOpTest.java:168-172 | addi(a, n) writes a (+) n into a and returns a |
| NDArrays.ReverseNumberOp | integration/src/main/java/software/amazon/ai/integration/tests/NDArrayElementArithmeticOpTest.java:262-268 | sub(180, a) is 180 (+) a in a fresh handle |
| NDArrays.ReverseNumberOpInPlace | integration/src/main/java/software/amazon/ai/integration/tests/NDArrayElementArithmeticOpTest.java:264-276 | subi(180, a) writes 180 (+) a into a and returns a |
| NDArrays.FoldValues | integration/src/main/java/software/amazon/ai/integration/tests/NDArrayElementArithmeticOpTest.java:195-209 | the loop over the list computes the left fold, stopping at the first error |
| NDArrays.FoldOp | integration/src/main/java/software/amazon/ai/integration/tests/NDArrayElementArithmeticOpTest.java:201-203 | add(NDArray...) is the left fold in a fresh handle, distinct from the first array |
| NDArrays.FoldOpInPlace | integration/src/main/java/software/amazon/ai/integration/tests/NDArrayElementArithmeticOpTest.java:205-206 | addi(NDArray...) writes the fold of the values on entry into the first array and returns that handle; other buffers are unchanged |
| NDArrays.ContentEquals | integration/src/main/java/software/amazon/ai/integration/tests/NDArrayElementArithmeticOpTest.java:153-155 | NDArrays.equals is true exactly when both shape and contents agree |
| Autograd.Route | integration/src/main/java/software/amazon/ai/integration/tests/NDArrayElementArithmeticOpTest.java:161-165 | one add record's backward rule keeps every gradient in its array's shape; what it routes (the output's gradient added into the input's) is stated by Autograd.AddNumberGradient |
| Autograd.Replay | integration/src/main/java/software/amazon/ai/integration/tests/NDArrayElementArithmeticOpTest.java:151 | replaying the tape keeps every gradient in its array's shape |
| Autograd.Gradients | integration/src/main/java/software/amazon/ai/integration/tests/NDArrayElementArithmeticOpTest.java:151 | a backward pass from a loss seeded with ones keeps every gradient in its array's shape |
| Autograd.Accumulate | integration/src/main/java/software/amazon/ai/integration/tests/NDArrayElementArithmeticOpTest.java:161-165 | definition of adding a replayed gradient into an attached slot of matching shape; pinned by Autograd.AddNumberGradient and Autograd.GradientCollector.Backward |
| Autograd.GradientCollector.constructor | integration/src/main/java/software/amazon/ai/integration/tests/NDArrayElementArithmeticOpTest.java:147 | a new scope is recording, with an empty tape |
| Autograd.GradientCollector.Close | integration/src/main/java/software/amazon/ai/integration/tests/NDArrayElementArithmeticOpTest.java:166 | leaving the scope stops recording and drops the tape |
| Autograd.GradientCollector.AddNumber | integration/src/main/java/software/amazon/ai/integration/tests/NDArrayElementArithmeticOpTest.java:149 | add(a, n) in a scope is the allocating result, appended to the tape exactly when recording and a is tracked or was produced on the tape |
| Autograd.GradientCollector.Backward | integration/src/main/java/software/amazon/ai/integration/tests/NDArrayElementArithmeticOpTest.java:151 | backward fails outside a scope or for an array not on the tape; otherwise each tracked input's slot gains the gradient that reached it |
| Autograd.AddNumberGradient | integration/src/main/java/software/amazon/ai/integration/tests/NDArrayElementArithmeticOpTest.java:161-165 | a zero-initialised input recorded once by add(lhs, n) ends backward from the result with all ones in its shape |
| Scenarios.Create | integration/src/main/java/software/amazon/ai/integration/tests/NDArrayElementArithmeticOpTest.java:145 | manager.create(float[]) gives a new 1-d handle over a new buffer holding the values, with no gradient |
| Scenarios.CreateScalar | integration/src/main/java/software/amazon/ai/integration/tests/NDArrayElementArithmeticOpTest.java:49-50 | manager.create(float) gives a new 0-d handle over a new buffer holding the value, with no gradient |
| Scenarios.CreateShaped | integration/src/main/java/software/amazon/ai/integration/tests/NDArrayElementArithmeticOpTest.java:67-68 | manager.create(Shape) gives a new handle of that shape over a new buffer, with no gradient |
| Scenarios.CornerCase | integration/src/main/java/software/amazon/ai/integration/tests/NDArrayElementArithmeticOpTest.java:40-55 | 0-d 10 (+) 0-d 2 is 0-d (10 (+) 2) for every operator; in place the result is the left handle |
| Scenarios.CornerCaseWithScalar | integration/src/main/java/software/amazon/ai/integration/tests/NDArrayElementArithmeticOpTest.java:57-64 | [10, 10] (+) 0-d 5 is [y, y] with y = 10 (+) 5 |
| Scenarios.CornerCaseBothEmpty | integration/src/main/java/software/amazon/ai/integration/tests/NDArrayElementArithmeticOpTest.java:66-70 | (4, 0, 1) (+) (1, 0) is an empty (4, 0, 0) |
| Scenarios.CornerCaseOneEmpty | integration/src/main/java/software/amazon/ai/integration/tests/NDArrayElementArithmeticOpTest.java:72-76 | [10] (+) an empty (2, 0, 3) is an empty (2, 0, 3) |
| Scenarios.ReverseCornerCase | integration/src/main/java/software/amazon/ai/integration/tests/NDArrayElementArithmeticOpTest.java:80-96 | the given 0-d receiver holding x, reversed with a 0-d 2, is 2 (+) x; in place the result is the receiver's handle and holds it, otherwise the receiver keeps x |
| Scenarios.ReverseCornerCases | integration/src/main/java/software/amazon/ai/integration/tests/NDArrayElementArithmeticOpTest.java:304-316 | one 0-d handle passed first to rsub and then to rsubi (likewise rdiv/rdivi at 479-491 and rmod/rmodi at 581-593): both calls see x and give 2 (+) x, and the in-place one returns that handle |
| Scenarios.ScalarCornerCase | integration/src/main/java/software/amazon/ai/integration/tests/NDArrayElementArithmeticOpTest.java:98-118 | 0-d 20 (+) 4 is 0-d (20 (+) 4); in place it is the same handle; an empty (2, 0) (+) 4 stays (2, 0) |
| Scenarios.ReverseScalarCornerCase | integration/src/main/java/software/amazon/ai/integration/tests/NDArrayElementArithmeticOpTest.java:120-140 | 3 (+) 0-d 9 is 0-d (3 (+) 9); in place it is the same handle; 3 (+) an empty (0, 2, 3) stays (0, 2, 3) |
| Scenarios.AddScalarBackward | integration/src/main/java/software/amazon/ai/integration/tests/NDArrayElementArithmeticOpTest.java:145-165 | add(lhs, 2) is [3, 4, 5, 6] with contents unlike lhs, and after backward lhs's gradient is [1, 1, 1, 1] |
| Scenarios.AddScalarInPlace | integration/src/main/java/software/amazon/ai/integration/tests/NDArrayElementArithmeticOpTest.java:167-172 | addi(lhs, 2) leaves [3, 4, 5, 6] in lhs and returns lhs |
| Scenarios.AddArrays | integration/src/main/java/software/amazon/ai/integration/tests/NDArrayElementArithmeticOpTest.java:182-193 | add of two arrays differs from the addend; addi leaves [3, 5, 7, 9] in the addend and returns it |
| Scenarios.FoldThreeValue | integration/src/main/java/software/amazon/ai/integration/tests/NDArrayElementArithmeticOpTest.java:195-209 | the fold of the three (2, 2) arrays is their element-wise left fold |
| Scenarios.CreateThree | integration/src/main/java/software/amazon/ai/integration/tests/NDArrayElementArithmeticOpTest.java:196-200 | the three manager.create calls of the variadic tests give three new handles over new buffers holding the three (2, 2) arrays, in order |
| Scenarios.AddAllForms | integration/src/main/java/software/amazon/ai/integration/tests/NDArrayElementArithmeticOpTest.java:195-209 | add(NDArray...) and then addi(NDArray...) on one list: the allocating result is not the first array's handle, the in-place one is, and it holds [7, 7, 7, 7] of shape (2, 2) |
| Scenarios.AddAll | integration/src/main/java/software/amazon/ai/integration/tests/NDArrayElementArithmeticOpTest.java:208-209 | the three arrays sum to [7, 7, 7, 7] of shape (2, 2) |
| Scenarios.SubScalar | integration/src/main/java/software/amazon/ai/integration/tests/NDArrayElementArithmeticOpTest.java:219-234 | sub(m, 3) is [3, 6, 9, 8, -3] and stays so after subi(m, 3), which leaves the same values in m and returns m |
| Scenarios.SubArrays | integration/src/main/java/software/amazon/ai/integration/tests/NDArrayElementArithmeticOpTest.java:240-256 | [6, 9, 12, 15, 0] - [2, 3, 4, 5, 6] is [4, 6, 8, 10, -6], allocating and in place |
| Scenarios.ReverseSubScalar | integration/src/main/java/software/amazon/ai/integration/tests/NDArrayElementArithmeticOpTest.java:262-276 | sub(180, m) is [174, 89, 168, -35, 0]; subi(180, m) leaves equal contents in m and returns m |
| Scenarios.ReverseSubArrays | integration/src/main/java/software/amazon/ai/integration/tests/NDArrayElementArithmeticOpTest.java:286-302 | m.rsub(s) is s - m = [18, 54, 84, 0, 45]; rsubi leaves equal contents in m and returns m |
| Scenarios.ReverseSubBothEmpty | integration/src/main/java/software/amazon/ai/integration/tests/NDArrayElementArithmeticOpTest.java:318-322 | (4, 0, 1).rsub((1, 0)) is an empty (4, 0, 0) |
| Scenarios.ReverseSubOneEmpty | integration/src/main/java/software/amazon/ai/integration/tests/NDArrayElementArithmeticOpTest.java:324-328 | [10].rsub((2, 0, 3)) is an empty (2, 0, 3) |
| Scenarios.MulScalar | integration/src/main/java/software/amazon/ai/integration/tests/NDArrayElementArithmeticOpTest.java:335-347 | [6, 9, -12, 15, 0] * 3 is [18, 27, -36, 45, 0], allocating and in place |
| Scenarios.MulArrays | integration/src/main/java/software/amazon/ai/integration/tests/NDArrayElementArithmeticOpTest.java:358-374 | [6, 9, 12, 15, 0] * [2, 3, 4, 5, 6] is [12, 27, 48, 75, 0], allocating and in place |
| Scenarios.MulAll | integration/src/main/java/software/amazon/ai/integration/tests/NDArrayElementArithmeticOpTest.java:376-388 | the three arrays multiply to [8, 12, 12, 8] of shape (2, 2) |
| Scenarios.MulAllForms | integration/src/main/java/software/amazon/ai/integration/tests/NDArrayElementArithmeticOpTest.java:376-388 | mul(NDArray...) and then muli(NDArray...) on one list: both results hold [8, 12, 12, 8] of shape (2, 2), the allocating one read after muli wrote into the first array, and only the in-place result is that array's handle, contents equal notwithstanding |
| Scenarios.DivScalar | integration/src/main/java/software/amazon/ai/integration/tests/NDArrayElementArithmeticOpTest.java:398-410 | [6, 9, 12, 15, 0] / 3 is [2, 3, 4, 5, 0], allocating and in place |
| Scenarios.DivArrays | integration/src/main/java/software/amazon/ai/integration/tests/NDArrayElementArithmeticOpTest.java:419-432 | [6, 9, 12, 15, 0] / [2, 3, 4, 5, 6] is [3, 3, 3, 3, 0], allocating and in place |
| Scenarios.ReverseDivScalar | integration/src/main/java/software/amazon/ai/integration/tests/NDArrayElementArithmeticOpTest.java:441-453 | div(180, d) is [30, 20, 15, 12, 4], allocating and in place in d |
| Scenarios.ReverseDivArrays | integration/src/main/java/software/amazon/ai/integration/tests/NDArrayElementArithmeticOpTest.java:462-478 | d.rdiv(s) is s / d = [4, 7, 8, 1, 2]; rdivi leaves equal contents in d and returns d |
| Scenarios.ModScalar | integration/src/main/java/software/amazon/ai/integration/tests/NDArrayElementArithmeticOpTest.java:498-510 | [5, 6, 7, 8, 9] % 3 is [2, 0, 1, 2, 0], allocating and in place |
| Scenarios.ModArrays | integration/src/main/java/software/amazon/ai/integration/tests/NDArrayElementArithmeticOpTest.java:519-532 | [7, 8, 9, 10, 11] % [2, 3, 4, 5, 6] is [1, 2, 1, 0, 5], allocating and in place |
| Scenarios.ReverseModScalar | integration/src/main/java/software/amazon/ai/integration/tests/NDArrayElementArithmeticOpTest.java:541-555 | mod(180, d) is [0, 0, 5, 4, 0], allocating and in place in d |
| Scenarios.ReverseModArrays | integration/src/main/java/software/amazon/ai/integration/tests/NDArrayElementArithmeticOpTest.java:564-580 | d.rmod(s) is s % d = [6, 5, 4, 3, 2]; rmodi leaves equal contents in d and returns d |
| Scenarios.PowScalar | integration/src/main/java/software/amazon/ai/integration/tests/NDArrayElementArithmeticOpTest.java:600-607 | the (1, 5) array [6, 0, -1, 5, 2] squared is [36, 0, 1, 25, 4] of shape (1, 5), allocating and in place |
| Scenarios.PowArrays | integration/src/main/java/software/amazon/ai/integration/tests/NDArrayElementArithmeticOpTest.java:617-630 | [6, 9, 12, 2, 0] ^ [3, 0, 1, -2, 3] is [216, 1, 12, 0.25, 0], allocating and in place |
| Scenarios.ReversePowScalar | integration/src/main/java/software/amazon/ai/integration/tests/NDArrayElementArithmeticOpTest.java:639-651 | pow(2, a) is [8, 16, 32, 64, 128], allocating and in place in a |
| DataLoading.Builder.constructor | api/src/main/java/software/amazon/ai/training/dataset/DataLoadingConfiguration.java:85-91 | a new builder holds batch size 1, no shuffle, 0 workers, no pinning, no drop-last, and no sampler, batch sampler or batchifier |
| DataLoading.Builder.SetBatchSize | api/src/main/java/software/amazon/ai/training/dataset/DataLoadingConfiguration.java:93-96 | sets the batch size alone and returns the same builder |
| DataLoading.Builder.SetShuffle | api/src/main/java/software/amazon/ai/training/dataset/DataLoadingConfiguration.java:98-101 | sets shuffle alone and returns the same builder |
| DataLoading.Builder.SetSampler | api/src/main/java/software/amazon/ai/training/dataset/DataLoadingConfiguration.java:103-106 | sets the sampler alone and returns the same builder |
| DataLoading.Builder.SetBatchSampler | api/src/main/java/software/amazon/ai/training/dataset/DataLoadingConfiguration.java:108-111 | sets the batch sampler alone and returns the same builder |
| DataLoading.Builder.SetNumWorkers | api/src/main/java/software/amazon/ai/training/dataset/DataLoadingConfiguration.java:113-116 | sets the worker count alone and returns the same builder |
| DataLoading.Builder.SetBatchifier | api/src/main/java/software/amazon/ai/training/dataset/DataLoadingConfiguration.java:118-121 | sets the batchifier alone and returns the same builder |
| DataLoading.Builder.SetPinMemory | api/src/main/java/software/amazon/ai/training/dataset/DataLoadingConfiguration.java:123-126 | sets pin-memory alone and returns the same builder |
| DataLoading.Builder.SetDropLast | api/src/main/java/software/amazon/ai/training/dataset/DataLoadingConfiguration.java:128-131 | sets drop-last alone and returns the same builder |
| DataLoading.Builder.Build | api/src/main/java/software/amazon/ai/training/dataset/DataLoadingConfiguration.java:133-136 | a new configuration whose getters return the builder's present settings, unchecked |
| DataLoading.DataLoadingConfiguration.Get | api/src/main/java/software/amazon/ai/training/dataset/DataLoadingConfiguration.java:43-73 | definition: the eight getters as one value; pinned by DataLoading.DataLoadingConfiguration.constructor and DataLoading.Builder.Build |
| DataLoading.DataLoadingConfiguration.constructor | api/src/main/java/software/amazon/ai/training/dataset/DataLoadingConfiguration.java:32-41 | each of the eight fields is copied from the builder |
| DataLoading.BuildDefaults | api/src/main/java/software/amazon/ai/training/dataset/DataLoadingConfiguration.java:85-91 | building a fresh builder gives the eight defaults |
| DataLoading.LastWriteWins | api/src/main/java/software/amazon/ai/training/dataset/DataLoadingConfiguration.java:93-116 | a field set twice keeps the later value, across chained setters on one builder |
| DataLoading.BuiltIsACopy | api/src/main/java/software/amazon/ai/training/dataset/DataLoadingConfiguration.java:23-41 | changing the builder after build leaves the built configuration as it was, while a second build sees the change |
| DataLoading.ShuffleWithSampler | api/src/main/java/software/amazon/ai/training/dataset/DataLoadingConfiguration.java:133-136 | shuffle together with a sampler is built unchanged |
| DataLoading.SetEverything | api/src/main/java/software/amazon/ai/training/dataset/DataLoadingConfiguration.java:43-73 | after every setter once, the eight getters return the eight values given |

## Left out

- Floating point: values are exact reals. IEEE rounding is not modelled, so the results `assertAlmostEquals` accepts within a tolerance, and the `(float) Math.pow` casts, are stated exactly.
- Division, remainder and negative powers with a zero operand: `Arith.Quotient`, `Arith.JavaRem` and `Arith.IntPow` give 0 where IEEE arithmetic gives an infinity or NaN; no test divides by zero.
- Arith.Apply: a non-integral exponent is truncated toward zero before the power is taken; every exponent in the tests is integral.
- Data types and devices: every array holds reals on one device.
- Tensors.ZipCommutes: when both orders fail, the two errors name the operands' sizes in opposite order, so only success and the successful values are stated equal.
- NDArrays.FoldOpInPlace: the fold is computed from the values the arrays hold on entry and then written into the first array. The model does not say what happens when the same buffer is listed twice and a native kernel writes before it reads.
- The gradient collector records only `add(array, number)`. That is the one backward rule the tests assert. The other operators' backward rules are not modelled.
- The native autograd engine: the tape of the real collector lives in the native engine and is reached through foreign calls. It is not part of this model.
- Gradient reset: accumulation into a gradient slot is modelled; clearing it between steps is not.
- `NDManager` and its `close()`: memory scopes are not modelled, and a handle is live for as long as it is referenced.
- The test harness: `main`, `IntegrationTest.runTests` and the `Assertions` helpers are not modelled. Each assertion becomes a postcondition of the matching scenario.
- `manager.create(Shape)` leaves contents uninitialised. The model fills them with zeros, and the tests only create empty arrays this way.
- The corner cases of `testReverseDivScalar` pass `sub`/`subi` to the number-with-array helper, so they repeat the subtraction checks. The helper is modelled once, generic in the operator, as `Scenarios.ReverseScalarCornerCase`.
- `TrainResnetWithCifar10`: command-line parsing, model-zoo loading, dataset download, device dispatch, the trainer, its loss, optimizer and metrics, and model saving are orchestration over collaborators not shown. None of it is modelled.
- `Sampler`, `Batchifier`: these are opaque classes. What they sample or stack is not shown.
- The meaning of `numWorkers` and `pinMemory`: both are stored and returned only. Worker threads and pinned memory are not modelled.
- The data loader that consumes a configuration is not part of this model.
