/**
 * NDArray handles and the arithmetic surface over them: every operator family
 * in an allocating form, which returns a fresh handle and leaves its operands
 * alone, and an in-place form, which overwrites an existing buffer and returns
 * that same handle.
 */
module NDArrays {
  import opened Results
  import opened Shapes
  import opened Arith
  import opened Tensors

  /** A handle to an exclusively owned row-major buffer of fixed shape, with an optional gradient slot. */
  class NDArray {
    const shape: Shape
    const data: array<real>
    var gradient: Option<Tensor>

    /** The buffer holds one value per element of the shape. */
    ghost predicate Valid() {
      data.Length == Size(shape)
    }

    /** An attached gradient has the array's own shape. */
    ghost predicate GradientFits()
      reads this
    {
      gradient.Some? ==> gradient.value.shape == shape
    }

    /** The array's current value. */
    function Value(): (t: Tensor)
      reads data
      requires Valid()
      ensures t.shape == shape
    {
      Dense(shape, data[..])
    }

    /** A new handle with a new buffer holding t, not tracked for gradients. */
    constructor FromTensor(t: Tensor)
      ensures Valid() && GradientFits() && fresh(data)
      ensures Value() == t && gradient == None
    {
      shape := t.shape;
      data := new real[|t.data|](k requires 0 <= k < |t.data| => t.data[k]);
      gradient := None;
    }

    /** attachGradient: marks the array for tracking, with a zero gradient of its shape. */
    method AttachGradient()
      modifies this
      ensures gradient == Some(Filled(shape, 0.0)) && GradientFits()
    {
      gradient := Some(Filled(shape, 0.0));
    }

    /** getGradient: the gradient slot, or an error when the array is not tracked. */
    method GetGradient() returns (g: Result<Tensor>)
      ensures gradient.None? ==> g == Err(GradientNotAttached)
      ensures gradient.Some? ==> g == Ok(gradient.value)
    {
      g := if gradient.Some? then Ok(gradient.value) else Err(GradientNotAttached);
    }

    /**
     * The in-place kernel for an array operand: this (+) other, or with
     * `reversed` other (+) this, written into this buffer when the broadcast
     * shape is this array's own shape.
     */
    method ApplyInPlace(op: BinOp, other: NDArray, reversed: bool) returns (r: Result<NDArray>)
      requires Valid() && other.Valid()
      modifies data
      ensures var expected := InPlace(op, old(Value()), old(other.Value()), reversed);
        (r.Ok? <==> expected.Ok?) &&
        (r.Ok? ==> r.value == this && Value() == expected.value) &&
        (r.Err? ==> r.error == expected.error && Value() == old(Value()))
    {
      var src := other.Value();
      var bs := if reversed then Broadcast(other.shape, shape) else Broadcast(shape, other.shape);
      if bs.Err? {
        return Err(bs.error);
      }
      if bs.value != shape {
        return Err(InPlaceShapeMismatch(shape, bs.value));
      }
      if reversed {
        RightKernel(op, src);
      } else {
        LeftKernel(op, src);
      }
      return Ok(this);
    }

    /** Element loop of this (+) src, src broadcast to this array's shape. */
    method LeftKernel(op: BinOp, src: Tensor)
      requires Valid() && Broadcast(shape, src.shape) == Ok(shape)
      modifies data
      ensures Value() == Zip(op, old(Value()), src).value
    {
      ghost var target := Value();
      ghost var expected := Zip(op, target, src).value;
      var k := 0;
      while k < data.Length
        invariant 0 <= k <= data.Length
        invariant forall j :: 0 <= j < k ==> data[j] == expected.data[j]
        invariant forall j :: k <= j < data.Length ==> data[j] == target.data[j]
      {
        ZipIntoLeft(op, target, src, k);
        data[k] := Apply(op, data[k], src.data[SrcIndex(src.shape, shape, k)]);
        k := k + 1;
      }
      assert data[..] == expected.data;
    }

    /** Element loop of src (+) this, src broadcast to this array's shape. */
    method RightKernel(op: BinOp, src: Tensor)
      requires Valid() && Broadcast(src.shape, shape) == Ok(shape)
      modifies data
      ensures Value() == Zip(op, src, old(Value())).value
    {
      ghost var target := Value();
      ghost var expected := Zip(op, src, target).value;
      var k := 0;
      while k < data.Length
        invariant 0 <= k <= data.Length
        invariant forall j :: 0 <= j < k ==> data[j] == expected.data[j]
        invariant forall j :: k <= j < data.Length ==> data[j] == target.data[j]
      {
        ZipIntoRight(op, src, target, k);
        data[k] := Apply(op, src.data[SrcIndex(src.shape, shape, k)], data[k]);
        k := k + 1;
      }
      assert data[..] == expected.data;
    }

    /**
     * The in-place kernel for a number operand: this (+) n, or with
     * `reversed` n (+) this, written into this buffer.
     */
    method ApplyNumberInPlace(op: BinOp, n: real, reversed: bool) returns (r: NDArray)
      requires Valid()
      modifies data
      ensures r == this
      ensures Value() == if reversed then NumberWith(op, n, old(Value())) else WithNumber(op, old(Value()), n)
    {
      ghost var expected := if reversed then NumberWith(op, n, Value()) else WithNumber(op, Value(), n);
      var k := 0;
      while k < data.Length
        invariant 0 <= k <= data.Length
        invariant forall j :: 0 <= j < k ==> data[j] == expected.data[j]
        invariant forall j :: k <= j < data.Length ==> data[j] == old(data[j])
      {
        data[k] := if reversed then Apply(op, n, data[k]) else Apply(op, data[k], n);
        k := k + 1;
      }
      assert data[..] == expected.data;
      return this;
    }

    /** Overwrites the buffer with a value of the same shape. */
    method Store(t: Tensor)
      requires Valid() && t.shape == shape
      modifies data
      ensures Value() == t
    {
      var k := 0;
      while k < data.Length
        invariant 0 <= k <= data.Length
        invariant forall j :: 0 <= j < k ==> data[j] == t.data[j]
      {
        data[k] := t.data[k];
        k := k + 1;
      }
      assert data[..] == t.data;
    }

    /** rsub, rdiv, rmod (allocating): other (+) this, in a fresh handle. */
    method ReverseOp(op: BinOp, other: NDArray) returns (r: Result<NDArray>)
      requires Valid() && other.Valid()
      ensures var z := Zip(op, other.Value(), Value());
        (z.Err? ==> r == Err(z.error)) &&
        (z.Ok? ==> r.Ok? && fresh(r.value) && fresh(r.value.data) && r.value.Valid() &&
                   r.value.Value() == z.value && r.value.gradient == None)
    {
      r := ArrayOp(op, other, this);
    }

    /** rsubi, rdivi, rmodi: other (+) this, written into this buffer; returns this handle. */
    method ReverseOpInPlace(op: BinOp, other: NDArray) returns (r: Result<NDArray>)
      requires Valid() && other.Valid()
      modifies data
      ensures var expected := InPlace(op, old(Value()), old(other.Value()), true);
        (r.Ok? <==> expected.Ok?) &&
        (r.Ok? ==> r.value == this && Value() == expected.value) &&
        (r.Err? ==> r.error == expected.error && Value() == old(Value()))
    {
      r := ApplyInPlace(op, other, true);
    }
  }

  /** NDArrays.add/sub/mul/div/mod/pow(a, b): allocating array (+) array under broadcasting. */
  method ArrayOp(op: BinOp, a: NDArray, b: NDArray) returns (r: Result<NDArray>)
    requires a.Valid() && b.Valid()
    ensures var z := Zip(op, a.Value(), b.Value());
      (z.Err? ==> r == Err(z.error)) &&
      (z.Ok? ==> r.Ok? && fresh(r.value) && fresh(r.value.data) && r.value.Valid() &&
                 r.value.Value() == z.value && r.value.gradient == None)
  {
    var z := Zip(op, a.Value(), b.Value());
    if z.Err? {
      return Err(z.error);
    }
    var handle := new NDArray.FromTensor(z.value);
    return Ok(handle);
  }

  /** addi/subi/muli/divi/modi/powi(a, b): a (+) b written into a; returns a. */
  method ArrayOpInPlace(op: BinOp, a: NDArray, b: NDArray) returns (r: Result<NDArray>)
    requires a.Valid() && b.Valid()
    modifies a.data
    ensures var expected := InPlace(op, old(a.Value()), old(b.Value()), false);
      (r.Ok? <==> expected.Ok?) &&
      (r.Ok? ==> r.value == a && a.Value() == expected.value) &&
      (r.Err? ==> r.error == expected.error && a.Value() == old(a.Value()))
  {
    r := a.ApplyInPlace(op, b, false);
  }

  /** add/sub/mul/div/mod/pow(a, n): allocating array (+) number. */
  method NumberOp(op: BinOp, a: NDArray, n: real) returns (r: NDArray)
    requires a.Valid()
    ensures fresh(r) && fresh(r.data) && r.Valid() && r.gradient == None
    ensures r.Value() == WithNumber(op, a.Value(), n)
  {
    r := new NDArray.FromTensor(WithNumber(op, a.Value(), n));
  }

  /** addi/subi/muli/divi/modi/powi(a, n): array (+) number written into a; returns a. */
  method NumberOpInPlace(op: BinOp, a: NDArray, n: real) returns (r: NDArray)
    requires a.Valid()
    modifies a.data
    ensures r == a && a.Value() == WithNumber(op, old(a.Value()), n)
  {
    r := a.ApplyNumberInPlace(op, n, false);
  }

  /** sub/div/mod/pow(n, a): allocating number (+) array. */
  method ReverseNumberOp(op: BinOp, n: real, a: NDArray) returns (r: NDArray)
    requires a.Valid()
    ensures fresh(r) && fresh(r.data) && r.Valid() && r.gradient == None
    ensures r.Value() == NumberWith(op, n, a.Value())
  {
    r := new NDArray.FromTensor(NumberWith(op, n, a.Value()));
  }

  /** subi/divi/modi/powi(n, a): number (+) array written into a; returns a. */
  method ReverseNumberOpInPlace(op: BinOp, n: real, a: NDArray) returns (r: NDArray)
    requires a.Valid()
    modifies a.data
    ensures r == a && a.Value() == NumberWith(op, n, old(a.Value()))
  {
    r := a.ApplyNumberInPlace(op, n, true);
  }

  /** The values of a list of handles, in order. */
  function Values(xs: seq<NDArray>): (vs: seq<Tensor>)
    reads set i | 0 <= i < |xs| :: xs[i].data
    requires forall i :: 0 <= i < |xs| ==> xs[i].Valid()
    ensures |vs| == |xs| && forall i :: 0 <= i < |xs| ==> vs[i] == xs[i].Value()
  {
    seq(|xs|, i requires 0 <= i < |xs| reads set j | 0 <= j < |xs| :: xs[j].data => xs[i].Value())
  }

  /** The left fold of a list of values, stopping at the first error. */
  method FoldValues(op: BinOp, vs: seq<Tensor>) returns (r: Result<Tensor>)
    ensures r == FoldAll(op, vs)
  {
    if |vs| == 0 {
      return Err(NoOperands);
    }
    var acc := vs[0];
    assert vs[..1] == [acc];
    var i := 1;
    while i < |vs|
      invariant 1 <= i <= |vs|
      invariant FoldAll(op, vs[..i]) == Ok(acc)
    {
      var z := Zip(op, acc, vs[i]);
      FoldAllStep(op, vs, i, acc);
      if z.Err? {
        return z;
      }
      acc := z.value;
      i := i + 1;
    }
    assert vs[..|vs|] == vs;
    return Ok(acc);
  }

  /** add(NDArray...), mul(NDArray...): the left fold in a fresh handle. */
  method FoldOp(op: BinOp, arrays: seq<NDArray>) returns (r: Result<NDArray>)
    requires forall i :: 0 <= i < |arrays| ==> arrays[i].Valid()
    ensures var f := FoldAll(op, Values(arrays));
      (f.Err? ==> r == Err(f.error)) &&
      (f.Ok? ==> r.Ok? && fresh(r.value) && fresh(r.value.data) && r.value.Valid() &&
                 r.value.Value() == f.value && r.value.gradient == None)
  {
    var f := FoldValues(op, Values(arrays));
    if f.Err? {
      return Err(f.error);
    }
    var handle := new NDArray.FromTensor(f.value);
    return Ok(handle);
  }

  /**
   * addi(NDArray...), muli(NDArray...): the left fold of the values on
   * entry, written into the first array, which is returned.
   */
  method FoldOpInPlace(op: BinOp, arrays: seq<NDArray>) returns (r: Result<NDArray>)
    requires forall i :: 0 <= i < |arrays| ==> arrays[i].Valid()
    modifies if |arrays| > 0 then {arrays[0].data} else {}
    ensures var expected := InPlaceFold(op, old(Values(arrays)));
      (r.Ok? <==> expected.Ok?) &&
      (r.Ok? ==> r.value == arrays[0] && arrays[0].Value() == expected.value) &&
      (r.Err? ==> r.error == expected.error &&
                  (|arrays| > 0 ==> arrays[0].Value() == old(arrays[0].Value())))
    ensures forall i :: 1 <= i < |arrays| && arrays[i].data != arrays[0].data ==>
      arrays[i].Value() == old(arrays[i].Value())
  {
    var f := FoldValues(op, Values(arrays));
    if f.Err? {
      return Err(f.error);
    }
    if f.value.shape != arrays[0].shape {
      return Err(InPlaceShapeMismatch(arrays[0].shape, f.value.shape));
    }
    arrays[0].Store(f.value);
    return Ok(arrays[0]);
  }

  /** NDArrays.equals(a, b): same shape and the same value at every position. */
  method ContentEquals(a: NDArray, b: NDArray) returns (eq: bool)
    requires a.Valid() && b.Valid()
    ensures eq <==> a.Value() == b.Value()
  {
    if a.shape != b.shape {
      return false;
    }
    var k := 0;
    while k < a.data.Length
      invariant 0 <= k <= a.data.Length
      invariant forall j :: 0 <= j < k ==> a.data[j] == b.data[j]
    {
      if a.data[k] != b.data[k] {
        assert a.Value().data[k] != b.Value().data[k];
        return false;
      }
      k := k + 1;
    }
    assert a.data[..] == b.data[..];
    return true;
  }
}
