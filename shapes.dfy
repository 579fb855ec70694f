/**
 * Shapes of N-dimensional arrays and the broadcasting rule that element-wise
 * operations use to reconcile the shapes of their two operands.
 */
module Shapes {
  import opened Results

  /** Dimension sizes, outermost first; a row-major buffer of shape s holds Size(s) values. */
  type Shape = seq<nat>

  function Last(s: Shape): nat
    requires |s| > 0
  {
    s[|s| - 1]
  }

  function Init(s: Shape): Shape
    requires |s| > 0
  {
    s[..|s| - 1]
  }

  function Max(x: nat, y: nat): nat {
    if x < y then y else x
  }

  /** Number of elements; the 0-d shape [] holds one value, any 0 dimension none. */
  function Size(s: Shape): nat
    decreases |s|
  {
    if |s| == 0 then 1 else Size(Init(s)) * Last(s)
  }

  lemma {:induction false} SizeIsZeroIff(s: Shape)
    ensures Size(s) == 0 <==> 0 in s
  {
    if |s| > 0 {
      SizeIsZeroIff(Init(s));
      assert s == Init(s) + [Last(s)];
    }
  }

  /** The k-th dimension counted from the trailing end; a missing leading dimension reads as 1. */
  function DimFromEnd(s: Shape, k: nat): nat {
    if k < |s| then s[|s| - 1 - k] else 1
  }

  /** Two aligned dimensions can be broadcast together. */
  predicate Compatible(x: nat, y: nat) {
    x == y || x == 1 || y == 1
  }

  /** The output dimension of two compatible dimensions: a 1 stretches to the other. */
  function Merge(x: nat, y: nat): nat {
    if x == 1 then y else x
  }

  /**
   * The broadcast shape of a and b, computed from the trailing dimension
   * leftwards; the first incompatible pair met is reported.
   */
  function Broadcast(a: Shape, b: Shape): Result<Shape>
    decreases |a| + |b|
  {
    if |a| == 0 then Ok(b)
    else if |b| == 0 then Ok(a)
    else if !Compatible(Last(a), Last(b)) then
      Err(IncompatibleShapes(Max(|a|, |b|) - 1, Last(a), Last(b)))
    else
      match Broadcast(Init(a), Init(b))
      case Err(e) => Err(e)
      case Ok(p) => Ok(p + [Merge(Last(a), Last(b))])
  }

  // ---------------------------------------------------------------------
  // Reference definition of broadcasting, dimension by dimension.

  /** r is the broadcast of a and b: trailing-aligned, 1-padded, each pair compatible. */
  ghost predicate IsBroadcast(a: Shape, b: Shape, r: Shape) {
    |r| == Max(|a|, |b|) &&
    forall k :: 0 <= k < |r| ==>
      Compatible(DimFromEnd(a, k), DimFromEnd(b, k)) &&
      DimFromEnd(r, k) == Merge(DimFromEnd(a, k), DimFromEnd(b, k))
  }

  /** Every aligned pair of dimensions is compatible. */
  ghost predicate Broadcastable(a: Shape, b: Shape) {
    forall k :: 0 <= k < Max(|a|, |b|) ==> Compatible(DimFromEnd(a, k), DimFromEnd(b, k))
  }

  lemma DimFromEndInit(s: Shape, k: nat)
    requires |s| > 0
    ensures DimFromEnd(Init(s), k) == DimFromEnd(s, k + 1)
  {
  }

  lemma {:induction false} EqualFromEnd(r: Shape, s: Shape)
    requires |r| == |s|
    requires forall k :: 0 <= k < |r| ==> DimFromEnd(r, k) == DimFromEnd(s, k)
    ensures r == s
  {
    forall i | 0 <= i < |r| ensures r[i] == s[i] {
      assert DimFromEnd(r, |r| - 1 - i) == DimFromEnd(s, |r| - 1 - i);
    }
  }

  /** Splitting off the trailing dimension of a reference broadcast. */
  lemma IsBroadcastStep(a: Shape, b: Shape, r: Shape)
    requires |a| > 0 && |b| > 0 && |r| > 0
    ensures IsBroadcast(a, b, r) <==>
      Compatible(Last(a), Last(b)) && Last(r) == Merge(Last(a), Last(b)) &&
      IsBroadcast(Init(a), Init(b), Init(r))
  {
    if IsBroadcast(a, b, r) {
      forall k | 0 <= k < |Init(r)|
        ensures Compatible(DimFromEnd(Init(a), k), DimFromEnd(Init(b), k)) &&
                DimFromEnd(Init(r), k) == Merge(DimFromEnd(Init(a), k), DimFromEnd(Init(b), k))
      {
        DimFromEndInit(a, k); DimFromEndInit(b, k); DimFromEndInit(r, k);
      }
      assert DimFromEnd(a, 0) == Last(a) && DimFromEnd(b, 0) == Last(b) && DimFromEnd(r, 0) == Last(r);
    }
    if Compatible(Last(a), Last(b)) && Last(r) == Merge(Last(a), Last(b)) &&
       IsBroadcast(Init(a), Init(b), Init(r)) {
      forall k | 0 <= k < |r|
        ensures Compatible(DimFromEnd(a, k), DimFromEnd(b, k)) &&
                DimFromEnd(r, k) == Merge(DimFromEnd(a, k), DimFromEnd(b, k))
      {
        if k > 0 {
          DimFromEndInit(a, k - 1); DimFromEndInit(b, k - 1); DimFromEndInit(r, k - 1);
        }
      }
    }
  }

  /** Broadcasting against a missing shape (all 1s) is the identity. */
  lemma IsBroadcastOfEmpty(b: Shape, r: Shape)
    ensures IsBroadcast([], b, r) <==> r == b
    ensures IsBroadcast(b, [], r) <==> r == b
  {
    if IsBroadcast([], b, r) {
      forall k | 0 <= k < |r| ensures DimFromEnd(r, k) == DimFromEnd(b, k) {
        assert Merge(DimFromEnd([], k), DimFromEnd(b, k)) == DimFromEnd(b, k);
      }
      EqualFromEnd(r, b);
    }
    if IsBroadcast(b, [], r) {
      forall k | 0 <= k < |r| ensures DimFromEnd(r, k) == DimFromEnd(b, k) {
        assert Merge(DimFromEnd(b, k), DimFromEnd([], k)) == DimFromEnd(b, k);
      }
      EqualFromEnd(r, b);
    }
  }

  /** Broadcast computes exactly the reference broadcast shape, in both directions. */
  lemma {:induction false} BroadcastMeaning(a: Shape, b: Shape, r: Shape)
    ensures Broadcast(a, b) == Ok(r) <==> IsBroadcast(a, b, r)
    decreases |a| + |b|
  {
    if |a| == 0 || |b| == 0 {
      IsBroadcastOfEmpty(if |a| == 0 then b else a, r);
    } else if |r| == 0 {
      assert Max(|a|, |b|) > 0;
      if Broadcast(a, b).Ok? {
        match Broadcast(Init(a), Init(b))
        case Ok(p) => assert |Broadcast(a, b).value| > 0;
      }
    } else {
      IsBroadcastStep(a, b, r);
      BroadcastMeaning(Init(a), Init(b), Init(r));
      assert r == Init(r) + [Last(r)];
    }
  }

  /** Broadcast fails exactly when some aligned pair is incompatible. */
  lemma {:induction false} BroadcastSucceedsIff(a: Shape, b: Shape)
    ensures Broadcast(a, b).Ok? <==> Broadcastable(a, b)
    decreases |a| + |b|
  {
    if |a| == 0 || |b| == 0 {
    } else {
      BroadcastSucceedsIff(Init(a), Init(b));
      assert DimFromEnd(a, 0) == Last(a) && DimFromEnd(b, 0) == Last(b);
      if Broadcastable(a, b) {
        forall k | 0 <= k < Max(|Init(a)|, |Init(b)|)
          ensures Compatible(DimFromEnd(Init(a), k), DimFromEnd(Init(b), k))
        {
          DimFromEndInit(a, k); DimFromEndInit(b, k);
        }
      }
      if Compatible(Last(a), Last(b)) && Broadcastable(Init(a), Init(b)) {
        forall k | 0 <= k < Max(|a|, |b|) ensures Compatible(DimFromEnd(a, k), DimFromEnd(b, k)) {
          if k > 0 { DimFromEndInit(a, k - 1); DimFromEndInit(b, k - 1); }
        }
      }
    }
  }

  /**
   * The reported error names the trailing-most incompatible pair, with its
   * literal sizes and its index in the broadcast shape.
   */
  lemma {:induction false} BroadcastError(a: Shape, b: Shape)
    requires Broadcast(a, b).Err?
    ensures exists k :: (0 <= k < Max(|a|, |b|) &&
      !Compatible(DimFromEnd(a, k), DimFromEnd(b, k)) &&
      (forall j :: 0 <= j < k ==> Compatible(DimFromEnd(a, j), DimFromEnd(b, j))) &&
      Broadcast(a, b).error == IncompatibleShapes(Max(|a|, |b|) - 1 - k, DimFromEnd(a, k), DimFromEnd(b, k)))
    decreases |a| + |b|
  {
    assert |a| > 0 && |b| > 0;
    if !Compatible(Last(a), Last(b)) {
      assert DimFromEnd(a, 0) == Last(a) && DimFromEnd(b, 0) == Last(b);
    } else {
      BroadcastError(Init(a), Init(b));
      var k :| 0 <= k < Max(|Init(a)|, |Init(b)|) &&
        !Compatible(DimFromEnd(Init(a), k), DimFromEnd(Init(b), k)) &&
        (forall j :: 0 <= j < k ==> Compatible(DimFromEnd(Init(a), j), DimFromEnd(Init(b), j))) &&
        Broadcast(Init(a), Init(b)).error ==
          IncompatibleShapes(Max(|Init(a)|, |Init(b)|) - 1 - k, DimFromEnd(Init(a), k), DimFromEnd(Init(b), k));
      DimFromEndInit(a, k); DimFromEndInit(b, k);
      forall j | 0 <= j < k + 1 ensures Compatible(DimFromEnd(a, j), DimFromEnd(b, j)) {
        if j > 0 { DimFromEndInit(a, j - 1); DimFromEndInit(b, j - 1); }
      }
      assert !Compatible(DimFromEnd(a, k + 1), DimFromEnd(b, k + 1));
    }
  }

  /** The broadcast shape does not depend on operand order. */
  lemma {:induction false} BroadcastCommutes(a: Shape, b: Shape)
    ensures Broadcast(a, b).Ok? <==> Broadcast(b, a).Ok?
    ensures Broadcast(a, b).Ok? ==> Broadcast(a, b).value == Broadcast(b, a).value
    decreases |a| + |b|
  {
    if |a| > 0 && |b| > 0 {
      BroadcastCommutes(Init(a), Init(b));
    }
  }

  /** A shape broadcasts with itself to itself. */
  lemma BroadcastSelf(s: Shape)
    ensures Broadcast(s, s) == Ok(s)
  {
    forall k | 0 <= k < |s| ensures Merge(DimFromEnd(s, k), DimFromEnd(s, k)) == DimFromEnd(s, k) {
    }
    BroadcastMeaning(s, s, s);
  }

  /** A 0-d operand (shape []) broadcasts to the other operand's shape. */
  lemma BroadcastScalar(s: Shape)
    ensures Broadcast([], s) == Ok(s) && Broadcast(s, []) == Ok(s)
  {
  }

  /** Zero-size law: the broadcast is empty exactly when an operand is empty. */
  lemma {:induction false} BroadcastEmptyIff(a: Shape, b: Shape, r: Shape)
    requires Broadcast(a, b) == Ok(r)
    ensures Size(r) == 0 <==> Size(a) == 0 || Size(b) == 0
    decreases |a| + |b|
  {
    SizeIsZeroIff(a); SizeIsZeroIff(b); SizeIsZeroIff(r);
    if |a| > 0 && |b| > 0 {
      var p := Broadcast(Init(a), Init(b)).value;
      BroadcastEmptyIff(Init(a), Init(b), p);
      SizeIsZeroIff(Init(a)); SizeIsZeroIff(Init(b)); SizeIsZeroIff(p);
      assert a == Init(a) + [Last(a)];
      assert b == Init(b) + [Last(b)];
      assert r == p + [Merge(Last(a), Last(b))];
    }
  }

  // ---------------------------------------------------------------------
  // Reading a broadcast operand through the output's row-major index.

  /** Operand shape s stretches to output shape r (trailing-aligned; each dimension equal or 1). */
  predicate ExpandsTo(s: Shape, r: Shape) {
    |s| <= |r| &&
    forall k :: 0 <= k < |s| ==> DimFromEnd(s, k) == 1 || DimFromEnd(s, k) == DimFromEnd(r, k)
  }

  lemma ExpandsToInit(s: Shape, r: Shape)
    requires |s| > 0 && ExpandsTo(s, r)
    ensures ExpandsTo(Init(s), Init(r))
    ensures Last(s) == 1 || Last(s) == Last(r)
  {
    forall k | 0 <= k < |Init(s)|
      ensures DimFromEnd(Init(s), k) == 1 || DimFromEnd(Init(s), k) == DimFromEnd(Init(r), k)
    {
      DimFromEndInit(s, k); DimFromEndInit(r, k);
    }
    assert DimFromEnd(s, 0) == Last(s) && DimFromEnd(r, 0) == Last(r);
  }

  /** Both operands stretch to their broadcast shape. */
  lemma BroadcastExpands(a: Shape, b: Shape, r: Shape)
    requires Broadcast(a, b) == Ok(r)
    ensures ExpandsTo(a, r) && ExpandsTo(b, r)
  {
    BroadcastMeaning(a, b, r);
    forall k | 0 <= k < |a| ensures DimFromEnd(a, k) == 1 || DimFromEnd(a, k) == DimFromEnd(r, k) {
    }
    forall k | 0 <= k < |b| ensures DimFromEnd(b, k) == 1 || DimFromEnd(b, k) == DimFromEnd(r, k) {
    }
  }

  /**
   * Index into the buffer of an operand of shape s of the value used at
   * row-major output index k of shape r: along a stretched dimension the
   * operand's single entry is reused.
   */
  function SrcIndex(s: Shape, r: Shape, k: nat): nat
    decreases |r|
  {
    if |r| == 0 || |s| == 0 || Last(r) == 0 then 0
    else SrcIndex(Init(s), Init(r), k / Last(r)) * Last(s) + (if Last(s) == 1 then 0 else k % Last(r))
  }

  lemma MulBound(q: nat, a: nat, j: nat, l: nat)
    requires q < a && j < l
    ensures q * l + j < a * l
  {
    assert (q + 1) * l <= a * l by {
      assert a * l == (q + 1) * l + (a - q - 1) * l;
    }
  }

  lemma MulLess(x: int, y: int, l: int)
    requires l > 0
    ensures x < y <==> x * l < y * l
  {
  }

  lemma DivBound(k: nat, a: nat, l: nat)
    requires l > 0 && k < a * l
    ensures k / l < a
  {
    assert (k / l) * l <= k;
    MulLess(k / l, a, l);
  }

  /** The operand index stays inside the operand's buffer. */
  lemma {:induction false} SrcIndexBound(s: Shape, r: Shape, k: nat)
    requires ExpandsTo(s, r) && k < Size(r)
    ensures SrcIndex(s, r, k) < Size(s)
    decreases |r|
  {
    if |r| > 0 && |s| > 0 {
      ExpandsToInit(s, r);
      var l := Last(r);
      assert Size(r) == Size(Init(r)) * l;
      assert l > 0;
      DivBound(k, Size(Init(r)), l);
      SrcIndexBound(Init(s), Init(r), k / l);
      var q := SrcIndex(Init(s), Init(r), k / l);
      assert Size(s) == Size(Init(s)) * Last(s);
      if Last(s) == 1 {
        assert SrcIndex(s, r, k) == q * 1;
      } else {
        assert Last(s) == l;
        assert SrcIndex(s, r, k) == q * l + k % l;
        MulBound(q, Size(Init(s)), k % l, l);
      }
    }
  }

  /** Reading an operand through its own shape is the identity. */
  lemma {:induction false} SrcIndexSelf(s: Shape, k: nat)
    requires k < Size(s)
    ensures SrcIndex(s, s, k) == k
    decreases |s|
  {
    if |s| > 0 {
      var l := Last(s);
      assert l > 0;
      assert k / l < Size(Init(s)) by {
        assert k < Size(Init(s)) * l;
      }
      SrcIndexSelf(Init(s), k / l);
      if l == 1 {
      } else {
        assert k == (k / l) * l + k % l;
      }
    }
  }
}
