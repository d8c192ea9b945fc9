/**
 * `compareJSONsBtwSD` of Scripts/tests/test_analyze.py: decide whether a
 * freshly computed JSON document agrees with the precomputed one.
 *
 * The steps, in order: the two documents must have the same Python type; a
 * list must have the length of the other list and is then re-keyed as an
 * index -> element mapping; a mapping must have exactly the key set of the
 * other; and the value under every key is handed to numpy's
 * `assert_allclose` with `rtol = MAXRELERR_COMPARE_THRESHOLD`.  A document
 * that is neither a list nor a mapping passes on the type check alone.
 */
module JsonCompare {
  import opened JsonValue
  import opened AllClose

  /** MAXRELERR_COMPARE_THRESHOLD = 1e-2 */
  const MaxRelErrCompareThreshold: real := 0.01

  /** A key after re-keying: `dict(enumerate(list))` gives integer keys, a JSON object string keys. */
  datatype Key = Index(i: nat) | Name(s: string)

  /** `dict(enumerate(xs))`: each element under its index. */
  function RekeyList(xs: seq<Json>): (m: map<Key, Json>)
    ensures forall k :: k in m <==> k.Index? && k.i < |xs|
    ensures forall i :: 0 <= i < |xs| ==> m[Index(i)] == xs[i]
  {
    map i | 0 <= i < |xs| :: Index(i) := xs[i]
  }

  /** A JSON object with its keys tagged as names. */
  function RekeyObject(fields: map<string, Json>): (m: map<Key, Json>)
    ensures forall k :: k in m <==> k.Name? && k.s in fields
    ensures forall s :: s in fields ==> m[Name(s)] == fields[s]
  {
    map s | s in fields :: Name(s) := fields[s]
  }

  /**
   * The document as the mapping the comparison loop walks over.  A list is
   * keyed by integers and a mapping by strings, so the keys of a re-keyed list
   * never meet those of a re-keyed mapping.
   */
  function Rekey(j: Json): (m: map<Key, Json>)
    requires IsContainer(j)
    ensures forall k :: k in m ==> (k.Index? <==> j.Arr?)
  {
    if j.Arr? then RekeyList(j.items) else RekeyObject(j.fields)
  }

  datatype Failure =
    | TypeMismatch(computed: PyType, precomputed: PyType)
    | LengthMismatch(computedLength: nat, precomputedLength: nat)
    | KeySetMismatch(onlyComputed: set<Key>, onlyPrecomputed: set<Key>)
    | ValueMismatch(keys: set<Key>)

  datatype Outcome = Pass | Fail(failure: Failure)

  /**
   * When two documents agree, stated without re-keying: the same Python type;
   * two lists of one length whose elements are close position by position;
   * two mappings with one key set whose values are close key by key.
   */
  predicate Agree(computed: Json, precomputed: Json, rtol: real)
    ensures Agree(computed, precomputed, rtol) ==> TypeOf(computed) == TypeOf(precomputed)
  {
    if computed.Arr? && precomputed.Arr? then
      |computed.items| == |precomputed.items| &&
      forall i :: 0 <= i < |computed.items| ==> Close(computed.items[i], precomputed.items[i], rtol)
    else if computed.Obj? && precomputed.Obj? then
      computed.fields.Keys == precomputed.fields.Keys &&
      forall s :: s in computed.fields ==> Close(computed.fields[s], precomputed.fields[s], rtol)
    else
      TypeOf(computed) == TypeOf(precomputed)
  }

  /** The keys whose values `assert_allclose` rejects. */
  function FailingKeys(m1: map<Key, Json>, m2: map<Key, Json>, rtol: real): (bad: set<Key>)
    requires m1.Keys == m2.Keys
    ensures forall k :: k in bad <==> k in m1 && !Close(m1[k], m2[k], rtol)
  {
    set k | k in m1 && !Close(m1[k], m2[k], rtol)
  }

  lemma ListsAgreeByIndex(xs: seq<Json>, ys: seq<Json>, rtol: real)
    requires |xs| == |ys|
    ensures RekeyList(xs).Keys == RekeyList(ys).Keys
    ensures FailingKeys(RekeyList(xs), RekeyList(ys), rtol) == {} <==> Agree(Arr(xs), Arr(ys), rtol)
  {
    var m1, m2 := RekeyList(xs), RekeyList(ys);
    assert m1.Keys == m2.Keys;
    var bad := FailingKeys(m1, m2, rtol);
    if bad == {} {
      forall i | 0 <= i < |xs| ensures Close(xs[i], ys[i], rtol) {
        assert Index(i) in m1 && Index(i) !in bad;
      }
    } else {
      var k :| k in bad;
      assert !Close(xs[k.i], ys[k.i], rtol);
    }
  }

  lemma {:induction false} ObjectKeysAgree(f1: map<string, Json>, f2: map<string, Json>)
    ensures RekeyObject(f1).Keys == RekeyObject(f2).Keys <==> f1.Keys == f2.Keys
  {
    var m1, m2 := RekeyObject(f1), RekeyObject(f2);
    if f1.Keys == f2.Keys {
      assert forall k :: k in m1 <==> k in m2;
    } else if s :| s in f1 && s !in f2 {
      assert Name(s) in m1 && Name(s) !in m2;
    } else {
      var s :| s in f2 && s !in f1;
      assert Name(s) in m2 && Name(s) !in m1;
    }
  }

  lemma ObjectsAgreeByName(f1: map<string, Json>, f2: map<string, Json>, rtol: real)
    requires f1.Keys == f2.Keys
    ensures RekeyObject(f1).Keys == RekeyObject(f2).Keys
    ensures FailingKeys(RekeyObject(f1), RekeyObject(f2), rtol) == {} <==> Agree(Obj(f1), Obj(f2), rtol)
  {
    ObjectKeysAgree(f1, f2);
    var bad := FailingKeys(RekeyObject(f1), RekeyObject(f2), rtol);
    if bad == {} {
      NoFailingNameIsClose(f1, f2, rtol);
    } else {
      var k :| k in bad;
      FailingNameIsNotClose(f1, f2, rtol, k);
    }
  }

  /** With no failing key, every name's values are close. */
  lemma NoFailingNameIsClose(f1: map<string, Json>, f2: map<string, Json>, rtol: real)
    requires RekeyObject(f1).Keys == RekeyObject(f2).Keys
    requires FailingKeys(RekeyObject(f1), RekeyObject(f2), rtol) == {}
    ensures forall s :: s in f1 ==> Close(f1[s], f2[s], rtol)
  {
    var m1, m2 := RekeyObject(f1), RekeyObject(f2);
    forall s | s in f1 ensures Close(f1[s], f2[s], rtol) {
      assert Name(s) in m1 && Name(s) !in FailingKeys(m1, m2, rtol);
    }
  }

  /** A failing key names a member whose values are not close. */
  lemma FailingNameIsNotClose(f1: map<string, Json>, f2: map<string, Json>, rtol: real, k: Key)
    requires RekeyObject(f1).Keys == RekeyObject(f2).Keys
    requires k in FailingKeys(RekeyObject(f1), RekeyObject(f2), rtol)
    ensures k.Name? && k.s in f1 && k.s in f2 && !Close(f1[k.s], f2[k.s], rtol)
  {
  }

  /** After the type and length checks, the re-keyed documents agree exactly when the documents do. */
  lemma RekeyedAgree(computed: Json, precomputed: Json, rtol: real)
    requires IsContainer(computed) && TypeOf(computed) == TypeOf(precomputed)
    requires computed.Arr? ==> |computed.items| == |precomputed.items|
    ensures IsContainer(precomputed)
    ensures Rekey(computed).Keys == Rekey(precomputed).Keys <==>
              (computed.Arr? || computed.fields.Keys == precomputed.fields.Keys)
    ensures Rekey(computed).Keys == Rekey(precomputed).Keys ==>
              (FailingKeys(Rekey(computed), Rekey(precomputed), rtol) == {} <==> Agree(computed, precomputed, rtol))
  {
    if computed.Arr? {
      ListsAgreeByIndex(computed.items, precomputed.items, rtol);
    } else {
      ObjectKeysAgree(computed.fields, precomputed.fields);
      if computed.fields.Keys == precomputed.fields.Keys {
        ObjectsAgreeByName(computed.fields, precomputed.fields, rtol);
      }
    }
  }

  /**
   * Two documents that get past the type, length and key-set checks, so that
   * their values are handed to `assert_allclose`.
   */
  predicate ValuesCompared(computed: Json, precomputed: Json)
  {
    TypeOf(computed) == TypeOf(precomputed) &&
    ((computed.Arr? && precomputed.Arr? && |computed.items| == |precomputed.items|) ||
     (computed.Obj? && precomputed.Obj? && computed.fields.Keys == precomputed.fields.Keys))
  }

  /**
   * The comparison with the reason it fails.  A value mismatch names every key
   * whose value is out of tolerance (the test helper stops at the first one in
   * its iteration order; see CompareJsonsBtwSD).
   */
  function Compare(computed: Json, precomputed: Json, rtol: real): (r: Outcome)
    ensures TypeOf(computed) != TypeOf(precomputed) ==>
              r == Fail(TypeMismatch(TypeOf(computed), TypeOf(precomputed)))
    ensures computed.Arr? && precomputed.Arr? && |computed.items| != |precomputed.items| ==>
              r == Fail(LengthMismatch(|computed.items|, |precomputed.items|))
    ensures r.Fail? && r.failure.TypeMismatch? ==> TypeOf(computed) != TypeOf(precomputed)
    ensures r.Fail? && r.failure.LengthMismatch? ==>
              computed.Arr? && precomputed.Arr? && |computed.items| != |precomputed.items|
    ensures r.Fail? && r.failure.KeySetMismatch? ==>
              computed.Obj? && precomputed.Obj? && computed.fields.Keys != precomputed.fields.Keys
    ensures computed.Obj? && precomputed.Obj? && computed.fields.Keys != precomputed.fields.Keys ==>
              r == Fail(KeySetMismatch(Rekey(computed).Keys - Rekey(precomputed).Keys,
                                       Rekey(precomputed).Keys - Rekey(computed).Keys))
    ensures ValuesCompared(computed, precomputed) && !Agree(computed, precomputed, rtol) ==>
              r.Fail? && r.failure.ValueMismatch?
    ensures r.Fail? && r.failure.ValueMismatch? ==>
              IsContainer(computed) && IsContainer(precomputed) &&
              Rekey(computed).Keys == Rekey(precomputed).Keys &&
              r.failure.keys == FailingKeys(Rekey(computed), Rekey(precomputed), rtol) != {}
    ensures r.Pass? <==> Agree(computed, precomputed, rtol)
  {
    if TypeOf(computed) != TypeOf(precomputed) then
      Fail(TypeMismatch(TypeOf(computed), TypeOf(precomputed)))
    else
      SameTypeSameShape(computed, precomputed);
      if !IsContainer(computed) then
        Pass
      else if computed.Arr? && |computed.items| != |precomputed.items| then
        Fail(LengthMismatch(|computed.items|, |precomputed.items|))
      else
        var m1, m2 := Rekey(computed), Rekey(precomputed);
        RekeyedAgree(computed, precomputed, rtol);
        if m1.Keys != m2.Keys then
          Fail(KeySetMismatch(m1.Keys - m2.Keys, m2.Keys - m1.Keys))
        else
          var bad := FailingKeys(m1, m2, rtol);
          if bad == {} then Pass else Fail(ValueMismatch(bad))
  }

  /** `order` enumerates the keys of a JSON object, each once, as Python's dict iteration does. */
  predicate IsIterationOrder(fields: map<string, Json>, order: seq<string>)
  {
    (forall i, j :: 0 <= i < j < |order| ==> order[i] != order[j]) &&
    (forall s :: s in fields ==> s in order) &&
    (forall i :: 0 <= i < |order| ==> order[i] in fields)
  }

  /** The keys `for k1 in j1` visits after re-keying: list indices ascending, or the object's own key order. */
  function LoopKeys(computed: Json, keyOrder: seq<string>): seq<Key>
  {
    if computed.Arr? then seq(|computed.items|, i requires 0 <= i < |computed.items| => Index(i))
    else seq(|keyOrder|, i requires 0 <= i < |keyOrder| => Name(keyOrder[i]))
  }

  /** Every key the loop visits is a key of the re-keyed computed document, and it visits them all. */
  lemma LoopKeysCoverRekey(computed: Json, keyOrder: seq<string>)
    requires IsContainer(computed)
    requires computed.Obj? ==> IsIterationOrder(computed.fields, keyOrder)
    ensures forall j :: 0 <= j < |LoopKeys(computed, keyOrder)| ==> LoopKeys(computed, keyOrder)[j] in Rekey(computed)
    ensures forall k :: k in Rekey(computed) ==> k in LoopKeys(computed, keyOrder)
  {
    var keys := LoopKeys(computed, keyOrder);
    forall k | k in Rekey(computed) ensures k in keys {
      if computed.Arr? {
        assert keys[k.i] == k;
      } else {
        var n :| 0 <= n < |keyOrder| && keyOrder[n] == k.s;
        assert keys[n] == k;
      }
    }
  }

  /** When every visited key passes and the visit covers all keys, no key fails. */
  lemma AllVisitedClose(m1: map<Key, Json>, m2: map<Key, Json>, keys: seq<Key>, rtol: real)
    requires m1.Keys == m2.Keys
    requires forall k :: k in m1 ==> k in keys
    requires forall j :: 0 <= j < |keys| ==> keys[j] in m1 && Close(m1[keys[j]], m2[keys[j]], rtol)
    ensures FailingKeys(m1, m2, rtol) == {}
  {
    forall k | k in m1 ensures Close(m1[k], m2[k], rtol) {
      var j :| 0 <= j < |keys| && keys[j] == k;
    }
  }

  /** Position `n` of the loop's keys is the first whose values are rejected; all before it pass. */
  predicate FirstRejected(computed: Json, precomputed: Json, keyOrder: seq<string>, n: int)
  {
    var keys := LoopKeys(computed, keyOrder);
    IsContainer(computed) && IsContainer(precomputed) &&
    0 <= n < |keys| &&
    (forall j :: 0 <= j <= n ==> keys[j] in Rekey(computed) && keys[j] in Rekey(precomputed)) &&
    !Close(Rekey(computed)[keys[n]], Rekey(precomputed)[keys[n]], MaxRelErrCompareThreshold) &&
    forall j :: 0 <= j < n ==> Close(Rekey(computed)[keys[j]], Rekey(precomputed)[keys[j]], MaxRelErrCompareThreshold)
  }

  /**
   * The body of `for k1 in j1`: visit the keys in order and stop at the first
   * one whose values `assert_allclose` rejects.  Returns its position, or
   * `|keys|` when every value passes.
   */
  method FirstOutOfTolerance(m1: map<Key, Json>, m2: map<Key, Json>, keys: seq<Key>) returns (n: nat)
    requires forall j :: 0 <= j < |keys| ==> keys[j] in m1 && keys[j] in m2
    ensures n <= |keys|
    ensures forall j :: 0 <= j < n ==> Close(m1[keys[j]], m2[keys[j]], MaxRelErrCompareThreshold)
    ensures n < |keys| ==> !Close(m1[keys[n]], m2[keys[n]], MaxRelErrCompareThreshold)
  {
    n := 0;
    while n < |keys|
      invariant n <= |keys|
      invariant forall j :: 0 <= j < n ==> Close(m1[keys[j]], m2[keys[j]], MaxRelErrCompareThreshold)
    {
      if !Close(m1[keys[n]], m2[keys[n]], MaxRelErrCompareThreshold) {
        return;
      }
      n := n + 1;
    }
  }

  /**
   * The comparison as the test helper performs it: sequential assertions, and
   * a loop over the computed document's keys that stops at the first value
   * `assert_allclose` rejects.  Like `Compare` it passes exactly when the
   * documents `Agree` and reports type, length and key-set failures with the
   * same details; a value failure names only the first out-of-tolerance key in
   * iteration order, every earlier key having passed.
   */
  method CompareJsonsBtwSD(computed: Json, precomputed: Json, keyOrder: seq<string>) returns (r: Outcome)
    requires computed.Obj? ==> IsIterationOrder(computed.fields, keyOrder)
    ensures r.Pass? <==> Agree(computed, precomputed, MaxRelErrCompareThreshold)
    ensures TypeOf(computed) != TypeOf(precomputed) ==>
              r == Fail(TypeMismatch(TypeOf(computed), TypeOf(precomputed)))
    ensures computed.Arr? && precomputed.Arr? && |computed.items| != |precomputed.items| ==>
              r == Fail(LengthMismatch(|computed.items|, |precomputed.items|))
    ensures computed.Obj? && precomputed.Obj? && computed.fields.Keys != precomputed.fields.Keys ==>
              r == Fail(KeySetMismatch(Rekey(computed).Keys - Rekey(precomputed).Keys,
                                       Rekey(precomputed).Keys - Rekey(computed).Keys))
    ensures r.Fail? && r.failure.TypeMismatch? ==> TypeOf(computed) != TypeOf(precomputed)
    ensures r.Fail? && r.failure.LengthMismatch? ==>
              computed.Arr? && precomputed.Arr? && |computed.items| != |precomputed.items|
    ensures r.Fail? && r.failure.KeySetMismatch? ==>
              computed.Obj? && precomputed.Obj? && computed.fields.Keys != precomputed.fields.Keys
    ensures ValuesCompared(computed, precomputed) && !Agree(computed, precomputed, MaxRelErrCompareThreshold) ==>
              r.Fail? && r.failure.ValueMismatch?
    ensures r.Fail? && r.failure.ValueMismatch? ==>
              exists n :: FirstRejected(computed, precomputed, keyOrder, n) &&
                          r.failure.keys == {LoopKeys(computed, keyOrder)[n]}
  {
    if TypeOf(computed) != TypeOf(precomputed) {
      return Fail(TypeMismatch(TypeOf(computed), TypeOf(precomputed)));
    }
    if computed.Arr? && |computed.items| != |precomputed.items| {
      return Fail(LengthMismatch(|computed.items|, |precomputed.items|));
    }
    if !IsContainer(computed) {
      return Pass;
    }
    var m1, m2 := Rekey(computed), Rekey(precomputed);
    RekeyedAgree(computed, precomputed, MaxRelErrCompareThreshold);
    if m1.Keys != m2.Keys {
      return Fail(KeySetMismatch(m1.Keys - m2.Keys, m2.Keys - m1.Keys));
    }
    var keys := LoopKeys(computed, keyOrder);
    LoopKeysCoverRekey(computed, keyOrder);
    var n := FirstOutOfTolerance(m1, m2, keys);
    if n < |keys| {
      assert keys[n] in FailingKeys(m1, m2, MaxRelErrCompareThreshold);
      assert FirstRejected(computed, precomputed, keyOrder, n);
      return Fail(ValueMismatch({keys[n]}));
    }
    AllVisitedClose(m1, m2, keys, MaxRelErrCompareThreshold);
    return Pass;
  }

  /**
   * Mappings with different key sets fail on the key sets, whatever the shared
   * values are, and the failure names the keys found on one side only.
   */
  lemma KeySetMismatchRejects(f1: map<string, Json>, f2: map<string, Json>, rtol: real)
    requires f1.Keys != f2.Keys
    ensures Compare(Obj(f1), Obj(f2), rtol) ==
              Fail(KeySetMismatch((set s | s in f1 && s !in f2 :: Name(s)),
                                  (set s | s in f2 && s !in f1 :: Name(s))))
  {
    ObjectKeysAgree(f1, f2);
    OneSidedNames(f1, f2);
    OneSidedNames(f2, f1);
  }

  lemma OneSidedNames(f1: map<string, Json>, f2: map<string, Json>)
    ensures RekeyObject(f1).Keys - RekeyObject(f2).Keys == (set s | s in f1 && s !in f2 :: Name(s))
  {
    var m1, m2 := RekeyObject(f1), RekeyObject(f2);
    forall k | k in m1.Keys - m2.Keys ensures k in (set s | s in f1 && s !in f2 :: Name(s)) {
      assert k == Name(k.s);
    }
  }

  /** A top-level scalar passes once its type matches; its value is never looked at. */
  lemma ScalarsPassOnTypeAlone(computed: Json, precomputed: Json, rtol: real)
    requires !IsContainer(computed)
    ensures Compare(computed, precomputed, rtol).Pass? <==> TypeOf(computed) == TypeOf(precomputed)
  {
  }

  /** Every value under a key of a list or mapping is something numpy turns into a numeric array. */
  predicate NumericValues(j: Json)
  {
    IsContainer(j) ==> forall k :: k in Rekey(j) ==> ToArray(Rekey(j)[k]).Some?
  }

  /**
   * A document passes against itself, for any non-negative tolerance, exactly
   * when all its values are numeric: a string or a nested mapping under a key
   * fails even against an identical copy.
   */
  lemma CompareReflexive(j: Json, rtol: real)
    requires rtol >= 0.0
    ensures Compare(j, j, rtol).Pass? <==> NumericValues(j)
  {
    if IsContainer(j) {
      forall k | k in Rekey(j) ensures Close(Rekey(j)[k], Rekey(j)[k], rtol) <==> ToArray(Rekey(j)[k]).Some? {
        CloseReflexive(Rekey(j)[k], rtol);
      }
    }
  }

  /** Raising the relative threshold never turns a pass into a failure. */
  lemma CompareMonotone(computed: Json, precomputed: Json, r1: real, r2: real)
    requires r1 <= r2
    requires Compare(computed, precomputed, r1).Pass?
    ensures Compare(computed, precomputed, r2).Pass?
  {
    if IsContainer(computed) {
      var m1, m2 := Rekey(computed), Rekey(precomputed);
      forall k | k in m1 ensures Close(m1[k], m2[k], r2) {
        CloseMonotone(m1[k], m2[k], r1, r2);
      }
    }
  }

  /** Swapping the documents can change the verdict: the bound is relative to the precomputed one. */
  lemma CompareNotSymmetric()
    ensures Compare(Arr([Float(0.99005)]), Arr([Float(1.0)]), MaxRelErrCompareThreshold).Pass?
    ensures !Compare(Arr([Float(1.0)]), Arr([Float(0.99005)]), MaxRelErrCompareThreshold).Pass?
  {
    CloseNotSymmetric();
    var low, high := [Float(0.99005)], [Float(1.0)];
    assert Close(low[0], high[0], MaxRelErrCompareThreshold);
    assert !Close(high[0], low[0], MaxRelErrCompareThreshold);
  }

  /**
   * A nested mapping under a key is not compared recursively: numpy cannot turn
   * it into a numeric array, so that key fails even against an identical
   * mapping, while a close value under another key passes.
   */
  lemma NestedMappingValueFails(x1: Json, x2: Json, y1: Json, y2: Json, rtol: real)
    requires Close(x1, x2, rtol)
    requires y1.Obj? && y2.Obj?
    ensures Compare(Obj(map["x" := x1, "y" := y1]), Obj(map["x" := x2, "y" := y2]), rtol)
            == Fail(ValueMismatch({Name("y")}))
  {
    var f1, f2 := map["x" := x1, "y" := y1], map["x" := x2, "y" := y2];
    assert f1.Keys == f2.Keys == {"x", "y"};
    ObjectKeysAgree(f1, f2);
    NonNumericNeverClose(y1, y2, rtol);
    var m1, m2 := RekeyObject(f1), RekeyObject(f2);
    assert m1[Name("x")] == x1 && m2[Name("x")] == x2;
    assert m1[Name("y")] == y1 && m2[Name("y")] == y2;
    forall k | k in FailingKeys(m1, m2, rtol) ensures k == Name("y") {
      assert k.s in f1;
    }
    assert FailingKeys(m1, m2, rtol) == {Name("y")};
  }

  /** A list never matches a mapping, even one keyed by the list's own indices. */
  lemma ListNeverMatchesMapping(xs: seq<Json>, f: map<string, Json>, rtol: real)
    ensures Compare(Arr(xs), Obj(f), rtol) == Fail(TypeMismatch(ListType, DictType))
  {
  }
}
