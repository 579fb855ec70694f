/**
 * Values of N-dimensional arrays (a shape plus a row-major buffer) and the
 * element-wise operations on them: array with array under broadcasting,
 * array with number, number with array, and left folds over a list.
 */
module Tensors {
  import opened Results
  import opened Shapes
  import opened Arith

  datatype Dense = Dense(shape: Shape, data: seq<real>)

  /** An array value whose buffer holds exactly one value per element of its shape. */
  type Tensor = t: Dense | |t.data| == Size(t.shape) witness Dense([], [0.0])

  /** A 0-d array holding x. */
  function Scalar(x: real): Tensor {
    Dense([], [x])
  }

  /** A 1-d array. */
  function Vector(xs: seq<real>): Tensor {
    assert Size([|xs|]) == Size([]) * |xs|;
    Dense([|xs|], xs)
  }

  /** An array of shape s with every element x. */
  function Filled(s: Shape, x: real): (t: Tensor)
    ensures t.shape == s && forall k :: 0 <= k < |t.data| ==> t.data[k] == x
  {
    Dense(s, seq(Size(s), _ => x))
  }

  /** The value t read through the larger shape r it broadcasts to. */
  function Expand(t: Tensor, r: Shape): (e: Tensor)
    requires ExpandsTo(t.shape, r)
    ensures e.shape == r
    ensures forall k :: 0 <= k < |e.data| ==>
      SrcIndex(t.shape, r, k) < |t.data| && e.data[k] == t.data[SrcIndex(t.shape, r, k)]
  {
    assert forall k :: 0 <= k < Size(r) ==> SrcIndex(t.shape, r, k) < Size(t.shape) by {
      forall k | 0 <= k < Size(r) ensures SrcIndex(t.shape, r, k) < Size(t.shape) {
        SrcIndexBound(t.shape, r, k);
      }
    }
    Dense(r, seq(Size(r), k requires 0 <= k < Size(r) => t.data[SrcIndex(t.shape, r, k)]))
  }

  /** Element-wise combination of two arrays of one shape. */
  function Pointwise(op: BinOp, x: Tensor, y: Tensor): (t: Tensor)
    requires x.shape == y.shape
    ensures t.shape == x.shape
    ensures forall k :: 0 <= k < |t.data| ==> t.data[k] == Apply(op, x.data[k], y.data[k])
  {
    Dense(x.shape, seq(|x.data|, k requires 0 <= k < |x.data| => Apply(op, x.data[k], y.data[k])))
  }

  /** array (+) array: both operands broadcast to their common shape, then combine element by element. */
  function Zip(op: BinOp, a: Tensor, b: Tensor): Result<Tensor> {
    match Broadcast(a.shape, b.shape)
    case Err(e) => Err(e)
    case Ok(r) =>
      BroadcastExpands(a.shape, b.shape, r);
      Ok(Pointwise(op, Expand(a, r), Expand(b, r)))
  }

  /** array (+) number: the number meets every element; the shape is the array's. */
  function WithNumber(op: BinOp, a: Tensor, n: real): (t: Tensor)
    ensures t.shape == a.shape
  {
    Dense(a.shape, seq(|a.data|, k requires 0 <= k < |a.data| => Apply(op, a.data[k], n)))
  }

  /** number (+) array, the reverse form: the number is the left operand of every element. */
  function NumberWith(op: BinOp, n: real, a: Tensor): (t: Tensor)
    ensures t.shape == a.shape
  {
    Dense(a.shape, seq(|a.data|, k requires 0 <= k < |a.data| => Apply(op, n, a.data[k])))
  }

  /** Variadic form: the left fold ((t0 (+) t1) (+) t2) ... of a non-empty list. */
  function FoldAll(op: BinOp, ts: seq<Tensor>): Result<Tensor>
    decreases |ts|
  {
    if |ts| == 0 then Err(NoOperands)
    else if |ts| == 1 then Ok(ts[0])
    else
      match FoldAll(op, ts[..|ts| - 1])
      case Err(e) => Err(e)
      case Ok(acc) => Zip(op, acc, ts[|ts| - 1])
  }

  /**
   * The value an in-place operation leaves in its target: the allocating
   * result, provided that result has the target's own shape. With `reversed`
   * the target is the right operand (rsub, rdiv, rmod).
   */
  function InPlace(op: BinOp, target: Tensor, other: Tensor, reversed: bool): (r: Result<Tensor>)
    ensures r.Ok? ==> r.value.shape == target.shape
  {
    var z := if reversed then Zip(op, other, target) else Zip(op, target, other);
    if z.Err? then z
    else if z.value.shape != target.shape then Err(InPlaceShapeMismatch(target.shape, z.value.shape))
    else z
  }

  /**
   * The value an in-place fold leaves in the list's first array: the fold,
   * provided it has that array's shape.
   */
  function InPlaceFold(op: BinOp, ts: seq<Tensor>): (r: Result<Tensor>)
    ensures r.Ok? ==> |ts| > 0 && r.value.shape == ts[0].shape
  {
    var f := FoldAll(op, ts);
    if f.Err? then f
    else if f.value.shape != ts[0].shape then Err(InPlaceShapeMismatch(ts[0].shape, f.value.shape))
    else f
  }

  // ---------------------------------------------------------------------
  // Properties.

  /** Folding one more array combines it with the fold of the prefix. */
  lemma FoldAllExtend(op: BinOp, ts: seq<Tensor>, i: nat)
    requires 1 <= i < |ts|
    ensures FoldAll(op, ts[..i]).Err? ==> FoldAll(op, ts[..i + 1]) == FoldAll(op, ts[..i])
    ensures FoldAll(op, ts[..i]).Ok? ==> FoldAll(op, ts[..i + 1]) == Zip(op, FoldAll(op, ts[..i]).value, ts[i])
  {
    assert ts[..i + 1][..i] == ts[..i];
  }

  /** One step of a left-to-right evaluation of FoldAll. */
  lemma FoldAllStep(op: BinOp, ts: seq<Tensor>, i: nat, acc: Tensor)
    requires 1 <= i < |ts| && FoldAll(op, ts[..i]) == Ok(acc)
    ensures Zip(op, acc, ts[i]).Ok? ==> FoldAll(op, ts[..i + 1]) == Zip(op, acc, ts[i])
    ensures Zip(op, acc, ts[i]).Err? ==> FoldAll(op, ts) == Zip(op, acc, ts[i])
  {
    FoldAllExtend(op, ts, i);
    if Zip(op, acc, ts[i]).Err? {
      FoldAllPrefixError(op, ts, i + 1);
    }
  }

  /** Once a prefix of the list fails to fold, the whole list fails with the same error. */
  lemma {:induction false} FoldAllPrefixError(op: BinOp, ts: seq<Tensor>, i: nat)
    requires 1 <= i <= |ts| && FoldAll(op, ts[..i]).Err?
    ensures FoldAll(op, ts) == FoldAll(op, ts[..i])
    decreases |ts| - i
  {
    if i < |ts| {
      assert ts[..i + 1][..i] == ts[..i];
      FoldAllPrefixError(op, ts, i + 1);
    } else {
      assert ts[..i] == ts;
    }
  }

  /** Zip succeeds exactly when the shapes broadcast, with the broadcast shape or its error. */
  lemma ZipShape(op: BinOp, a: Tensor, b: Tensor)
    ensures Zip(op, a, b).Ok? <==> Broadcast(a.shape, b.shape).Ok?
    ensures Zip(op, a, b).Ok? ==> Zip(op, a, b).value.shape == Broadcast(a.shape, b.shape).value
    ensures Zip(op, a, b).Err? ==> Zip(op, a, b).error == Broadcast(a.shape, b.shape).error
  {
  }

  /** Reading an array through its own shape gives the array back. */
  lemma ExpandSelf(t: Tensor)
    ensures ExpandsTo(t.shape, t.shape) && Expand(t, t.shape) == t
  {
    assert ExpandsTo(t.shape, t.shape);
    forall k | 0 <= k < |t.data| ensures Expand(t, t.shape).data[k] == t.data[k] {
      SrcIndexSelf(t.shape, k);
    }
  }

  /** Same-shape operands combine element by element, index for index. */
  lemma ZipSameShape(op: BinOp, a: Tensor, b: Tensor)
    requires a.shape == b.shape
    ensures Zip(op, a, b) == Ok(Pointwise(op, a, b))
  {
    BroadcastSelf(a.shape);
    ExpandSelf(a);
    ExpandSelf(b);
  }

  /**
   * When the broadcast leaves the left operand's shape unchanged, element k
   * combines a's element k with b's broadcast element (the in-place case).
   */
  lemma ZipIntoLeft(op: BinOp, a: Tensor, b: Tensor, k: nat)
    requires Broadcast(a.shape, b.shape) == Ok(a.shape) && k < |a.data|
    ensures ExpandsTo(b.shape, a.shape) && SrcIndex(b.shape, a.shape, k) < |b.data|
    ensures Zip(op, a, b).value.data[k] == Apply(op, a.data[k], b.data[SrcIndex(b.shape, a.shape, k)])
  {
    BroadcastExpands(a.shape, b.shape, a.shape);
    SrcIndexBound(b.shape, a.shape, k);
    ExpandSelf(a);
  }

  /** The same with the target as right operand (reverse operations). */
  lemma ZipIntoRight(op: BinOp, b: Tensor, a: Tensor, k: nat)
    requires Broadcast(b.shape, a.shape) == Ok(a.shape) && k < |a.data|
    ensures ExpandsTo(b.shape, a.shape) && SrcIndex(b.shape, a.shape, k) < |b.data|
    ensures Zip(op, b, a).value.data[k] == Apply(op, b.data[SrcIndex(b.shape, a.shape, k)], a.data[k])
  {
    BroadcastExpands(b.shape, a.shape, a.shape);
    SrcIndexBound(b.shape, a.shape, k);
    ExpandSelf(a);
  }

  /** A 0-d array broadcasts like a plain number, on either side. */
  lemma ZipWithScalar(op: BinOp, a: Tensor, x: real)
    ensures Zip(op, a, Scalar(x)) == Ok(WithNumber(op, a, x))
    ensures Zip(op, Scalar(x), a) == Ok(NumberWith(op, x, a))
  {
    BroadcastScalar(a.shape);
    ExpandSelf(a);
    var s := Scalar(x);
    assert ExpandsTo(s.shape, a.shape);
    var e := Expand(s, a.shape);
    forall k | 0 <= k < |a.data| ensures e.data[k] == x {
    }
    var l := Pointwise(op, a, e);
    var r := Pointwise(op, e, a);
    assert Zip(op, a, s) == Ok(l);
    assert Zip(op, s, a) == Ok(r);
    assert l.data == WithNumber(op, a, x).data;
    assert r.data == NumberWith(op, x, a).data;
  }

  /** Add and Mul do not depend on operand order, broadcasting included. */
  lemma ZipCommutes(op: BinOp, a: Tensor, b: Tensor)
    requires op == Add || op == Mul
    ensures Zip(op, a, b).Ok? <==> Zip(op, b, a).Ok?
    ensures Zip(op, a, b).Ok? ==> Zip(op, a, b) == Zip(op, b, a)
  {
    BroadcastCommutes(a.shape, b.shape);
    if Broadcast(a.shape, b.shape).Ok? {
      var r := Broadcast(a.shape, b.shape).value;
      BroadcastExpands(a.shape, b.shape, r);
      var ea, eb := Expand(a, r), Expand(b, r);
      var x := Pointwise(op, ea, eb);
      var y := Pointwise(op, eb, ea);
      assert Zip(op, a, b) == Ok(x) && Zip(op, b, a) == Ok(y);
      forall k | 0 <= k < |x.data| ensures x.data[k] == y.data[k] {
      }
      assert x.data == y.data;
    }
  }

  /** An empty array combined with a number stays empty and keeps its shape. */
  lemma EmptyWithNumber(op: BinOp, a: Tensor, n: real)
    requires Size(a.shape) == 0
    ensures WithNumber(op, a, n) == a && NumberWith(op, n, a) == a
  {
  }

  /** Adding 0 or multiplying by 1 leaves an array as it is, on either side. */
  lemma NumberIdentity(a: Tensor)
    ensures WithNumber(Add, a, 0.0) == a && WithNumber(Mul, a, 1.0) == a
    ensures NumberWith(Add, 0.0, a) == a && NumberWith(Mul, 1.0, a) == a
  {
    assert WithNumber(Add, a, 0.0).data == a.data;
    assert WithNumber(Mul, a, 1.0).data == a.data;
    assert NumberWith(Add, 0.0, a).data == a.data;
    assert NumberWith(Mul, 1.0, a).data == a.data;
  }

  /** Left fold of the reals of one position across a list of same-shape arrays. */
  function FoldAt(op: BinOp, ts: seq<Tensor>, k: nat): real
    requires |ts| > 0 && forall i :: 0 <= i < |ts| ==> k < |ts[i].data|
    decreases |ts|
  {
    if |ts| == 1 then ts[0].data[k]
    else Apply(op, FoldAt(op, ts[..|ts| - 1], k), ts[|ts| - 1].data[k])
  }

  /**
   * Folding a non-empty list of arrays of one shape succeeds, keeps that
   * shape, and each element is the left fold of that element across the list.
   */
  lemma {:induction false} FoldSameShape(op: BinOp, ts: seq<Tensor>, s: Shape)
    requires |ts| > 0 && forall i :: 0 <= i < |ts| ==> ts[i].shape == s
    ensures FoldAll(op, ts).Ok? && FoldAll(op, ts).value.shape == s
    ensures forall k :: 0 <= k < Size(s) ==> FoldAll(op, ts).value.data[k] == FoldAt(op, ts, k)
    decreases |ts|
  {
    if |ts| > 1 {
      var init := ts[..|ts| - 1];
      FoldSameShape(op, init, s);
      var acc := FoldAll(op, init).value;
      ZipSameShape(op, acc, ts[|ts| - 1]);
    }
  }

  /** An in-place result, when there is one, is the allocating result. */
  lemma InPlaceAgreesWithAllocating(op: BinOp, target: Tensor, other: Tensor, reversed: bool)
    ensures InPlace(op, target, other, reversed).Ok? ==>
      InPlace(op, target, other, reversed) ==
        (if reversed then Zip(op, other, target) else Zip(op, target, other))
    ensures InPlace(op, target, other, reversed).Ok? <==>
      (var bs := if reversed then Broadcast(other.shape, target.shape) else Broadcast(target.shape, other.shape);
       bs == Ok(target.shape))
  {
  }
}
