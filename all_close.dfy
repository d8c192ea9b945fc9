/**
 * The part of numpy that `compareJSONsBtwSD` relies on: `np.array(v)` turns a
 * JSON value into an n-dimensional numeric array, and
 * `np.testing.assert_allclose(actual, desired, rtol)` (with its default
 * `atol = 0`) accepts when the shapes agree and every element satisfies
 * `|actual - desired| <= rtol * |desired|`.  The bound is relative to the
 * DESIRED (second) argument only.
 */
module AllClose {
  import opened Wrappers
  import opened JsonValue

  /** A dense array in row-major order: `data` holds `Product(shape)` elements. */
  datatype NdArray = NdArray(shape: seq<nat>, data: seq<real>)

  function Product(dims: seq<nat>): nat
  {
    if dims == [] then 1 else dims[0] * Product(dims[1..])
  }

  predicate WellSized(a: NdArray)
  {
    |a.data| == Product(a.shape)
  }

  function Abs(x: real): real
  {
    if x < 0.0 then -x else x
  }

  /** `np.array(j)` for a loaded JSON value; `None` where numpy gives no numeric array. */
  function ToArray(j: Json): (r: Option<NdArray>)
    ensures IsNumber(j) ==> r == Some(NdArray([], [NumberValue(j)]))
    ensures j.Arr? && j.items == [] ==> r == Some(NdArray([0], []))
    ensures j.Bool? ==> r == Some(NdArray([], [if j.b then 1.0 else 0.0]))
    ensures r.Some? ==> IsNumber(j) || j.Bool? || j.Arr?
    decreases j, 1
  {
    if IsNumber(j) then Some(NdArray([], [NumberValue(j)]))
    else if j.Bool? then Some(NdArray([], [if j.b then 1.0 else 0.0]))
    else if j.Arr? then (if j.items == [] then Some(NdArray([0], [])) else StackFrom(j, 0))
    else None
  }

  /**
   * The items of the list `j` from position `from` on, stacked along a new
   * leading axis: every item must convert and all must share one shape.  A
   * ragged or non-numeric list gives no numeric array.
   */
  function StackFrom(j: Json, from: nat): (r: Option<NdArray>)
    requires j.Arr? && from < |j.items|
    ensures r.Some? ==> |r.value.shape| >= 1 && r.value.shape[0] == |j.items| - from
    decreases j, 0, |j.items| - from
  {
    var head := ToArray(j.items[from]);
    if from + 1 == |j.items| then
      if head.Some? then Some(NdArray([1] + head.value.shape, head.value.data)) else None
    else
      var rest := StackFrom(j, from + 1);
      if head.Some? && rest.Some? && rest.value.shape[1..] == head.value.shape then
        Some(NdArray([|j.items| - from] + head.value.shape, head.value.data + rest.value.data))
      else
        None
  }

  /** Every array numpy builds from a JSON value holds exactly as many elements as its shape calls for. */
  lemma {:induction false} ToArrayWellSized(j: Json)
    ensures ToArray(j).Some? ==> WellSized(ToArray(j).value)
    decreases j, 1
  {
    if j.Arr? && j.items != [] {
      StackFromWellSized(j, 0);
    }
  }

  lemma {:induction false} StackFromWellSized(j: Json, from: nat)
    requires j.Arr? && from < |j.items|
    ensures StackFrom(j, from).Some? ==> WellSized(StackFrom(j, from).value)
    decreases j, 0, |j.items| - from
  {
    var head := ToArray(j.items[from]);
    ToArrayWellSized(j.items[from]);
    if from + 1 == |j.items| {
      if head.Some? {
        assert ([1] + head.value.shape)[1..] == head.value.shape;
      }
    } else {
      var rest := StackFrom(j, from + 1);
      StackFromWellSized(j, from + 1);
      if head.Some? && rest.Some? && rest.value.shape[1..] == head.value.shape {
        var n, inner := |j.items| - from, head.value.shape;
        assert rest.value.shape == [n - 1] + inner;
        StackedSize(n, inner);
      }
    }
  }

  /** One more slice along the leading axis adds one slice's worth of elements. */
  lemma StackedSize(n: nat, inner: seq<nat>)
    requires n >= 1
    ensures Product([n] + inner) == Product(inner) + Product([n - 1] + inner)
  {
    assert ([n] + inner)[1..] == inner;
    assert ([n - 1] + inner)[1..] == inner;
    var p := Product(inner);
    assert n * p == p + (n - 1) * p;
  }

  /** The element-wise bound of `assert_allclose` with `atol = 0`. */
  predicate WithinTolerance(actual: seq<real>, desired: seq<real>, rtol: real)
  {
    |actual| == |desired| &&
    forall i :: 0 <= i < |actual| ==> Abs(actual[i] - desired[i]) <= rtol * Abs(desired[i])
  }

  /**
   * `np.testing.assert_allclose(np.array(actual), np.array(desired), rtol=rtol)`
   * passes.  A pass pairs the two arrays element for element: both hold the
   * number of elements their common shape calls for.
   */
  predicate Close(actual: Json, desired: Json, rtol: real)
  {
    var a := ToArray(actual);
    var d := ToArray(desired);
    a.Some? && d.Some? && a.value.shape == d.value.shape &&
    WithinTolerance(a.value.data, d.value.data, rtol)
  }

  /** The numeric value of a JSON number. */
  function NumberValue(j: Json): real
    requires IsNumber(j)
  {
    if j.Int? then j.i as real else j.x
  }

  /** A JSON number.  `ToArray` converts the booleans `True` and `False` too, as 1 and 0. */
  predicate IsNumber(j: Json)
  {
    j.Int? || j.Float?
  }

  lemma SingletonWithinTolerance(x: real, y: real, rtol: real)
    ensures WithinTolerance([x], [y], rtol) <==> Abs(x - y) <= rtol * Abs(y)
  {
    if WithinTolerance([x], [y], rtol) {
      assert Abs([x][0] - [y][0]) <= rtol * Abs([y][0]);
    }
  }

  /** Two JSON numbers are close iff the computed one is within `rtol` of the precomputed one, relative to the latter. */
  lemma NumbersClose(actual: Json, desired: Json, rtol: real)
    requires IsNumber(actual) && IsNumber(desired)
    ensures Close(actual, desired, rtol) <==>
              Abs(NumberValue(actual) - NumberValue(desired)) <= rtol * Abs(NumberValue(desired))
  {
    ScalarsClose(actual, desired, NumberValue(actual), NumberValue(desired), rtol);
  }

  lemma ScalarsClose(actual: Json, desired: Json, x: real, y: real, rtol: real)
    requires ToArray(actual) == Some(NdArray([], [x])) && ToArray(desired) == Some(NdArray([], [y]))
    ensures Close(actual, desired, rtol) <==> Abs(x - y) <= rtol * Abs(y)
  {
    CloseOf(actual, desired, NdArray([], [x]), NdArray([], [y]), rtol);
    SingletonWithinTolerance(x, y, rtol);
  }

  /** `Close` on two values whose arrays are known. */
  lemma CloseOf(actual: Json, desired: Json, a: NdArray, d: NdArray, rtol: real)
    requires ToArray(actual) == Some(a) && ToArray(desired) == Some(d)
    ensures Close(actual, desired, rtol) <==> a.shape == d.shape && WithinTolerance(a.data, d.data, rtol)
  {
  }

  /** The numbers of a flat list from position `from` on. */
  function NumbersFrom(xs: seq<Json>, from: nat): seq<real>
    requires from <= |xs|
    requires forall k :: 0 <= k < |xs| ==> IsNumber(xs[k])
    decreases |xs| - from
  {
    if from == |xs| then [] else [NumberValue(xs[from])] + NumbersFrom(xs, from + 1)
  }

  lemma {:induction false} NumbersFromAt(xs: seq<Json>, from: nat, k: nat)
    requires from <= |xs|
    requires forall i :: 0 <= i < |xs| ==> IsNumber(xs[i])
    ensures |NumbersFrom(xs, from)| == |xs| - from
    ensures from + k < |xs| ==> NumbersFrom(xs, from)[k] == NumberValue(xs[from + k])
    decreases |xs| - from
  {
    if from < |xs| {
      NumbersFromAt(xs, from + 1, if k == 0 then 0 else k - 1);
    }
  }

  lemma {:induction false} StackNumbers(xs: seq<Json>, from: nat)
    requires from < |xs|
    requires forall k :: 0 <= k < |xs| ==> IsNumber(xs[k])
    ensures StackFrom(Arr(xs), from) == Some(NdArray([|xs| - from], NumbersFrom(xs, from)))
    decreases |xs| - from
  {
    var head := ToArray(xs[from]);
    assert head == Some(NdArray([], [NumberValue(xs[from])]));
    if from + 1 < |xs| {
      StackNumbers(xs, from + 1);
      var rest := StackFrom(Arr(xs), from + 1);
      assert rest.value.shape[1..] == [] == head.value.shape;
      assert NumbersFrom(xs, from) == [NumberValue(xs[from])] + NumbersFrom(xs, from + 1);
      assert [|xs| - from] + [] == [|xs| - from];
    } else {
      assert NumbersFrom(xs, from + 1) == [];
      assert NumbersFrom(xs, from) == [NumberValue(xs[from])];
      assert [1] + head.value.shape == [|xs| - from];
    }
  }

  /** A flat list of numbers converts to a one-dimensional array holding those numbers in order. */
  lemma VectorToArray(xs: seq<Json>)
    requires forall k :: 0 <= k < |xs| ==> IsNumber(xs[k])
    ensures ToArray(Arr(xs)).Some?
    ensures ToArray(Arr(xs)).value.shape == [|xs|]
    ensures |ToArray(Arr(xs)).value.data| == |xs|
    ensures forall k :: 0 <= k < |xs| ==> ToArray(Arr(xs)).value.data[k] == NumberValue(xs[k])
  {
    NumbersFromAt(xs, 0, 0);
    if xs != [] {
      StackNumbers(xs, 0);
      forall k | 0 <= k < |xs| ensures NumbersFrom(xs, 0)[k] == NumberValue(xs[k]) {
        NumbersFromAt(xs, 0, k);
      }
    }
  }

  /**
   * Two flat lists of numbers are close iff they have the same length and each
   * computed element is within `rtol` of the precomputed element at the same position.
   */
  lemma VectorsClose(actual: seq<Json>, desired: seq<Json>, rtol: real)
    requires forall k :: 0 <= k < |actual| ==> IsNumber(actual[k])
    requires forall k :: 0 <= k < |desired| ==> IsNumber(desired[k])
    ensures Close(Arr(actual), Arr(desired), rtol) <==>
              |actual| == |desired| &&
              forall k :: 0 <= k < |actual| ==>
                Abs(NumberValue(actual[k]) - NumberValue(desired[k])) <= rtol * Abs(NumberValue(desired[k]))
  {
    assert ToArray(Arr(actual)).Some? by { VectorToArray(actual); }
    assert ToArray(Arr(desired)).Some? by { VectorToArray(desired); }
    NestedListsClose(actual, desired, rtol);
    forall k | 0 <= k < |actual| && k < |desired|
      ensures Close(actual[k], desired[k], rtol) <==>
              Abs(NumberValue(actual[k]) - NumberValue(desired[k])) <= rtol * Abs(NumberValue(desired[k]))
    {
      NumbersClose(actual[k], desired[k], rtol);
    }
  }

  /** The bound holds over two concatenations exactly when it holds over the first parts and over the second parts. */
  lemma WithinToleranceAppend(a1: seq<real>, a2: seq<real>, d1: seq<real>, d2: seq<real>, rtol: real)
    requires |a1| == |d1|
    ensures WithinTolerance(a1 + a2, d1 + d2, rtol) <==> WithinTolerance(a1, d1, rtol) && WithinTolerance(a2, d2, rtol)
  {
    var a, d := a1 + a2, d1 + d2;
    if WithinTolerance(a, d, rtol) {
      forall i | 0 <= i < |a1| ensures Abs(a1[i] - d1[i]) <= rtol * Abs(d1[i]) {
        assert a[i] == a1[i] && d[i] == d1[i];
      }
      forall i | 0 <= i < |a2| ensures Abs(a2[i] - d2[i]) <= rtol * Abs(d2[i]) {
        assert a[|a1| + i] == a2[i] && d[|a1| + i] == d2[i];
      }
    }
  }

  /**
   * Two lists stacked from position `from` on pass against each other exactly
   * when their items pass pairwise from that position on.
   */
  lemma {:induction false} StackedClose(xs: seq<Json>, ys: seq<Json>, from: nat, rtol: real)
    requires from < |xs| == |ys|
    requires StackFrom(Arr(xs), from).Some? && StackFrom(Arr(ys), from).Some?
    ensures var a, b := StackFrom(Arr(xs), from).value, StackFrom(Arr(ys), from).value;
            a.shape == b.shape && WithinTolerance(a.data, b.data, rtol) <==> PairwiseClose(xs, ys, from, rtol)
    decreases |xs| - from, 1
  {
    if from + 1 < |xs| {
      StackedCloseMore(xs, ys, from, rtol);
    } else {
      StackedCloseLast(xs, ys, from, rtol);
    }
  }

  /** The step of `StackedClose`: the first pair of items, then the stacks of the rest. */
  lemma {:induction false} StackedCloseMore(xs: seq<Json>, ys: seq<Json>, from: nat, rtol: real)
    requires from + 1 < |xs| == |ys|
    requires StackFrom(Arr(xs), from).Some? && StackFrom(Arr(ys), from).Some?
    ensures var a, b := StackFrom(Arr(xs), from).value, StackFrom(Arr(ys), from).value;
            a.shape == b.shape && WithinTolerance(a.data, b.data, rtol) <==> PairwiseClose(xs, ys, from, rtol)
    decreases |xs| - from, 0
  {
    var a, b := StackFrom(Arr(xs), from).value, StackFrom(Arr(ys), from).value;
    var hx, hy := ToArray(xs[from]).value, ToArray(ys[from]).value;
    var ra, rb := StackFrom(Arr(xs), from + 1).value, StackFrom(Arr(ys), from + 1).value;
    assert a.shape == b.shape && WithinTolerance(a.data, b.data, rtol) <==>
           (hx.shape == hy.shape && WithinTolerance(hx.data, hy.data, rtol)) &&
           (ra.shape == rb.shape && WithinTolerance(ra.data, rb.data, rtol)) by {
      StackFromMore(xs, from);
      StackFromMore(ys, from);
      ToArrayWellSized(xs[from]);
      ToArrayWellSized(ys[from]);
      StackStep(a, b, hx, hy, ra, rb, |xs| - from, rtol);
    }
    assert ra.shape == rb.shape && WithinTolerance(ra.data, rb.data, rtol) <==> PairwiseClose(xs, ys, from + 1, rtol) by {
      StackedClose(xs, ys, from + 1, rtol);
    }
    assert Close(xs[from], ys[from], rtol) <==> hx.shape == hy.shape && WithinTolerance(hx.data, hy.data, rtol) by {
      CloseOf(xs[from], ys[from], hx, hy, rtol);
    }
    PairwiseCloseStep(xs, ys, from, rtol);
  }

  /** The base of `StackedClose`: the last pair of items alone. */
  lemma StackedCloseLast(xs: seq<Json>, ys: seq<Json>, from: nat, rtol: real)
    requires from + 1 == |xs| == |ys|
    requires StackFrom(Arr(xs), from).Some? && StackFrom(Arr(ys), from).Some?
    ensures var a, b := StackFrom(Arr(xs), from).value, StackFrom(Arr(ys), from).value;
            a.shape == b.shape && WithinTolerance(a.data, b.data, rtol) <==> PairwiseClose(xs, ys, from, rtol)
  {
    StackFromLast(xs, from);
    StackFromLast(ys, from);
    var hx, hy := ToArray(xs[from]).value, ToArray(ys[from]).value;
    LastSlice(hx, hy, rtol);
    assert Close(xs[from], ys[from], rtol) <==> hx.shape == hy.shape && WithinTolerance(hx.data, hy.data, rtol) by {
      CloseOf(xs[from], ys[from], hx, hy, rtol);
    }
    PairwiseCloseStep(xs, ys, from, rtol);
  }

  /** The stack of the last item is that item with a leading axis of one. */
  lemma StackFromLast(xs: seq<Json>, from: nat)
    requires from + 1 == |xs| && StackFrom(Arr(xs), from).Some?
    ensures ToArray(xs[from]).Some?
    ensures StackFrom(Arr(xs), from).value == NdArray([1] + ToArray(xs[from]).value.shape, ToArray(xs[from]).value.data)
  {
  }

  /** A longer stack is the first item's slice on top of the stack of the rest, which has the same inner shape. */
  lemma StackFromMore(xs: seq<Json>, from: nat)
    requires from + 1 < |xs| && StackFrom(Arr(xs), from).Some?
    ensures ToArray(xs[from]).Some? && StackFrom(Arr(xs), from + 1).Some?
    ensures StackFrom(Arr(xs), from + 1).value.shape == [|xs| - from - 1] + ToArray(xs[from]).value.shape
    ensures StackFrom(Arr(xs), from).value ==
              NdArray([|xs| - from] + ToArray(xs[from]).value.shape,
                      ToArray(xs[from]).value.data + StackFrom(Arr(xs), from + 1).value.data)
  {
  }

  /** The items of `xs` from position `from` on pass against the items of `ys` at the same positions. */
  predicate PairwiseClose(xs: seq<Json>, ys: seq<Json>, from: nat, rtol: real)
  {
    forall k :: from <= k < |xs| && k < |ys| ==> Close(xs[k], ys[k], rtol)
  }

  lemma PairwiseCloseStep(xs: seq<Json>, ys: seq<Json>, from: nat, rtol: real)
    requires from < |xs| == |ys|
    ensures PairwiseClose(xs, ys, from, rtol) <==> Close(xs[from], ys[from], rtol) && PairwiseClose(xs, ys, from + 1, rtol)
    ensures from + 1 == |xs| ==> PairwiseClose(xs, ys, from + 1, rtol)
  {
  }

  /** Stacking one more pair of slices on two stacks keeps the bound iff both the slices and the stacks keep it. */
  lemma StackStep(a: NdArray, b: NdArray, hx: NdArray, hy: NdArray, ra: NdArray, rb: NdArray, n: nat, rtol: real)
    requires WellSized(hx) && WellSized(hy) && n >= 1
    requires ra.shape == [n - 1] + hx.shape && rb.shape == [n - 1] + hy.shape
    requires a == NdArray([n] + hx.shape, hx.data + ra.data) && b == NdArray([n] + hy.shape, hy.data + rb.data)
    ensures a.shape == b.shape && WithinTolerance(a.data, b.data, rtol) <==>
            (hx.shape == hy.shape && WithinTolerance(hx.data, hy.data, rtol)) &&
            (ra.shape == rb.shape && WithinTolerance(ra.data, rb.data, rtol))
  {
    if hx.shape == hy.shape {
      WithinToleranceAppend(hx.data, ra.data, hy.data, rb.data, rtol);
    } else {
      assert ([n] + hx.shape)[1..] == hx.shape && ([n] + hy.shape)[1..] == hy.shape;
    }
  }

  /** A single slice stacked alone keeps the bound iff the slice does. */
  lemma LastSlice(hx: NdArray, hy: NdArray, rtol: real)
    ensures var a, b := NdArray([1] + hx.shape, hx.data), NdArray([1] + hy.shape, hy.data);
            a.shape == b.shape && WithinTolerance(a.data, b.data, rtol) <==>
            hx.shape == hy.shape && WithinTolerance(hx.data, hy.data, rtol)
  {
    assert ([1] + hx.shape)[1..] == hx.shape && ([1] + hy.shape)[1..] == hy.shape;
  }

  /**
   * Nested lists: two lists numpy converts pass against each other exactly
   * when they have the same length and each computed item passes against the
   * precomputed item at the same position.
   */
  lemma NestedListsClose(xs: seq<Json>, ys: seq<Json>, rtol: real)
    requires ToArray(Arr(xs)).Some? && ToArray(Arr(ys)).Some?
    ensures Close(Arr(xs), Arr(ys), rtol) <==> |xs| == |ys| && forall k :: 0 <= k < |xs| ==> Close(xs[k], ys[k], rtol)
  {
    assert ToArray(Arr(xs)).value.shape[0] == |xs|;
    assert ToArray(Arr(ys)).value.shape[0] == |ys|;
    if |xs| == |ys| && xs != [] {
      StackedClose(xs, ys, 0, rtol);
      assert PairwiseClose(xs, ys, 0, rtol) <==> forall k :: 0 <= k < |xs| ==> Close(xs[k], ys[k], rtol);
    }
  }

  /** A value numpy can convert passes against itself for any non-negative tolerance. */
  lemma CloseReflexive(j: Json, rtol: real)
    requires rtol >= 0.0
    ensures Close(j, j, rtol) <==> ToArray(j).Some?
  {
    if ToArray(j).Some? {
      var a := ToArray(j).value;
      WithinToleranceReflexive(a.data, rtol);
      CloseOf(j, j, a, a, rtol);
    }
  }

  lemma WithinToleranceReflexive(d: seq<real>, rtol: real)
    requires rtol >= 0.0
    ensures WithinTolerance(d, d, rtol)
  {
    forall i | 0 <= i < |d|
      ensures Abs(d[i] - d[i]) <= rtol * Abs(d[i])
    {
      NonNegativeProduct(rtol, Abs(d[i]));
    }
  }

  lemma NonNegativeProduct(x: real, y: real)
    requires x >= 0.0 && y >= 0.0
    ensures x * y >= 0.0
  {
  }

  lemma ScaleMonotone(r1: real, r2: real, y: real)
    requires r1 <= r2 && y >= 0.0
    ensures r1 * y <= r2 * y
  {
  }

  lemma WithinToleranceMonotone(a: seq<real>, d: seq<real>, r1: real, r2: real)
    requires r1 <= r2
    requires WithinTolerance(a, d, r1)
    ensures WithinTolerance(a, d, r2)
  {
    forall i | 0 <= i < |a|
      ensures Abs(a[i] - d[i]) <= r2 * Abs(d[i])
    {
      ScaleMonotone(r1, r2, Abs(d[i]));
    }
  }

  /** Raising the relative tolerance never turns a pass into a failure. */
  lemma CloseMonotone(actual: Json, desired: Json, r1: real, r2: real)
    requires r1 <= r2
    requires Close(actual, desired, r1)
    ensures Close(actual, desired, r2)
  {
    WithinToleranceMonotone(ToArray(actual).value.data, ToArray(desired).value.data, r1, r2);
  }

  /**
   * The bound is relative to the precomputed value only: 0.99005 passes against
   * 1.0 at 1e-2, while 1.0 fails against 0.99005.
   */
  lemma CloseNotSymmetric()
    ensures Close(Float(0.99005), Float(1.0), 0.01)
    ensures !Close(Float(1.0), Float(0.99005), 0.01)
  {
    NumbersClose(Float(0.99005), Float(1.0), 0.01);
    NumbersClose(Float(1.0), Float(0.99005), 0.01);
  }

  /** numpy compares `True` and `False` as the numbers 1 and 0, in either position. */
  lemma BooleansCloseAsNumbers(b: bool, rtol: real)
    requires rtol >= 0.0
    ensures Close(Bool(b), Int(if b then 1 else 0), rtol)
    ensures Close(Int(if b then 1 else 0), Bool(b), rtol)
  {
    var x := if b then 1.0 else 0.0;
    NonNegativeProduct(rtol, Abs(x));
    ScalarsClose(Bool(b), Int(if b then 1 else 0), x, x, rtol);
    ScalarsClose(Int(if b then 1 else 0), Bool(b), x, x, rtol);
  }

  /** A mapping, a string or null gives no numeric array, so it never passes, not even against itself. */
  lemma NonNumericNeverClose(actual: Json, desired: Json, rtol: real)
    requires actual.Obj? || actual.Str? || actual.Null?
    ensures !Close(actual, desired, rtol)
    ensures !Close(desired, actual, rtol)
  {
  }
}
