/**
 * The outcome-code and artifact rules of the recomputation tests in
 * Scripts/tests/test_analyze.py: after an analysis routine has run, its
 * return code is checked, and unless the analysis is expected to fail, each
 * JSON artifact it wrote must exist, be large enough and agree with the
 * stored reference through `compareJSONsBtwSD`.
 *
 * A test's verdict is the list of problems it reports: empty when it passes.
 * The APL, order-parameter and NMR-PCA tests use plain asserts and so stop at
 * the first problem; the MAICoS test records its checks softly and is meant
 * to go on, which it does not after a missing file (`SoftProblemsAsWritten`).
 */
module AnalyzeTests {
  import opened Wrappers
  import opened JsonValue
  import opened JsonCompare

  /** `os.path.getsize(cFile) > 1e3`: an artifact must be larger than one kilobyte. */
  const MinJsonBytes: nat := 1000

  /** `os.path.getsize(cFile) > 10`: the bound for `eq_times.json` of the NMR-PCA test. */
  const MinEqTimesBytes: nat := 10

  /** The artifacts the MAICoS test inspects, in order. */
  const MaicosFiles: seq<string> := ["WaterDensity.json", "LipidDensity.json", "TotalDensity.json", "FormFactor.json"]

  /** The suffix of the order-parameter artifact written for each lipid. */
  const OrderParametersSuffix := "OrderParameters.json"

  /**
   * One artifact as a test finds it: whether the file exists, its size in
   * bytes, the freshly computed document and the stored reference, and the
   * order in which the computed mapping yields its keys.
   */
  datatype Artifact = Artifact(name: string, present: bool, size: nat, computed: Json, precomputed: Json,
                               keyOrder: seq<string>)

  /** What a test reports. */
  datatype Problem =
    | UnexpectedCode(got: int, expected: int) // `assert rCode == rcodex`
    | Missing(name: string)                   // the artifact file does not exist
    | TooSmall(name: string, size: nat)       // the artifact is not larger than the bound
    | Diverged(name: string)                  // `compareJSONsBtwSD` rejected it
    | Aborted(name: string)                   // an exception other than an assertion ended the test

  /** The key order handed to the comparator is the one the parsed mapping iterates in. */
  predicate WellFormed(a: Artifact)
  {
    a.computed.Obj? ==> IsIterationOrder(a.computed.fields, a.keyOrder)
  }

  predicate AllWellFormed(arts: seq<Artifact>)
  {
    forall i :: 0 <= i < |arts| ==> WellFormed(arts[i])
  }

  /** An artifact that passes every check: it exists, exceeds `minBytes` and agrees with the reference. */
  predicate Sound(a: Artifact, minBytes: nat)
  {
    a.present && a.size > minBytes && Agree(a.computed, a.precomputed, MaxRelErrCompareThreshold)
  }

  predicate AllSound(arts: seq<Artifact>, minBytes: nat)
  {
    forall i :: 0 <= i < |arts| ==> Sound(arts[i], minBytes)
  }

  // ---------------------------------------------------------------------------
  // Strict tests: plain asserts, the first failing check ends the test.
  // ---------------------------------------------------------------------------

  /** The first failing check of one artifact, in the order existence, size, comparison. */
  function ArtifactProblem(a: Artifact, minBytes: nat): (p: Option<Problem>)
    ensures p.None? <==> Sound(a, minBytes)
    ensures !a.present ==> p == Some(Missing(a.name))
    ensures a.present && a.size <= minBytes ==> p == Some(TooSmall(a.name, a.size))
    ensures a.present && a.size > minBytes && !Agree(a.computed, a.precomputed, MaxRelErrCompareThreshold) ==>
              p == Some(Diverged(a.name))
  {
    if !a.present then Some(Missing(a.name))
    else if a.size <= minBytes then Some(TooSmall(a.name, a.size))
    else if !Agree(a.computed, a.precomputed, MaxRelErrCompareThreshold) then Some(Diverged(a.name))
    else None
  }

  /** The problem that stops a strict test walking through `arts`: that of the first unsound artifact. */
  function FirstProblem(arts: seq<Artifact>, minBytes: nat): (p: Option<Problem>)
    ensures p.Some? ==> p.value.Missing? || p.value.TooSmall? || p.value.Diverged?
  {
    if arts == [] then None
    else if ArtifactProblem(arts[0], minBytes).Some? then ArtifactProblem(arts[0], minBytes)
    else FirstProblem(arts[1..], minBytes)
  }

  /** A strict test walks through all artifacts without a problem exactly when every one is sound. */
  lemma {:induction false} FirstProblemNone(arts: seq<Artifact>, minBytes: nat)
    ensures FirstProblem(arts, minBytes).None? <==> AllSound(arts, minBytes)
  {
    if arts != [] {
      FirstProblemNone(arts[1..], minBytes);
      assert forall i :: 0 <= i < |arts[1..]| ==> arts[1..][i] == arts[i + 1];
    }
  }

  /** The problem a strict test reports is that of the first unsound artifact, whatever follows it. */
  lemma {:induction false} FirstProblemIsFirst(arts: seq<Artifact>, minBytes: nat, i: nat)
    requires i < |arts| && AllSound(arts[..i], minBytes) && !Sound(arts[i], minBytes)
    ensures FirstProblem(arts, minBytes) == ArtifactProblem(arts[i], minBytes)
  {
    if i > 0 {
      assert arts[..i][0] == arts[0];
      var rest := arts[1..];
      assert rest[i - 1] == arts[i];
      assert forall j :: 0 <= j < i - 1 ==> rest[j] == arts[..i][j + 1];
      FirstProblemIsFirst(rest, minBytes, i - 1);
    }
  }

  /**
   * The verdict of a strict test: a wrong return code fails at once; a test
   * that returns early on the error code checks nothing; otherwise the first
   * problem among the artifacts, if any.
   */
  function StrictTest(rcode: int, expected: int, returnsEarly: bool, arts: seq<Artifact>, minBytes: nat)
    : (problems: seq<Problem>)
    ensures rcode != expected ==> problems == [UnexpectedCode(rcode, expected)]
    ensures rcode == expected && returnsEarly ==> problems == []
    ensures rcode == expected && !returnsEarly ==> (problems == [] <==> AllSound(arts, minBytes))
    ensures |problems| <= 1
  {
    FirstProblemNone(arts, minBytes);
    if rcode != expected then [UnexpectedCode(rcode, expected)]
    else if returnsEarly then []
    else match FirstProblem(arts, minBytes)
      case None => []
      case Some(p) => [p]
  }

  /** The checks on one artifact as the strict tests run them, through the comparator itself. */
  method CheckArtifact(a: Artifact, minBytes: nat) returns (p: Option<Problem>)
    requires WellFormed(a)
    ensures p == ArtifactProblem(a, minBytes)
  {
    if !a.present {
      return Some(Missing(a.name));
    }
    if a.size <= minBytes {
      return Some(TooSmall(a.name, a.size));
    }
    var r := CompareJsonsBtwSD(a.computed, a.precomputed, a.keyOrder);
    if r.Fail? {
      return Some(Diverged(a.name));
    }
    return None;
  }

  /** `test_analyze_apl`: the code must be the "computed" one, then `apl.json` is checked; there is no early return. */
  method AplTest(rcode: int, computedCode: int, apl: Artifact) returns (problems: seq<Problem>)
    requires apl.name == "apl.json" && WellFormed(apl)
    ensures problems == StrictTest(rcode, computedCode, false, [apl], MinJsonBytes)
  {
    if rcode != computedCode {
      return [UnexpectedCode(rcode, computedCode)];
    }
    var p := CheckArtifact(apl, MinJsonBytes);
    problems := if p.Some? then [p.value] else [];
  }

  /** The order-parameter artifact written for lipid `lipid`. */
  function OrderParameterFile(lipid: string): (name: string)
    ensures |name| == |lipid| + |OrderParametersSuffix|
    ensures name[..|lipid|] == lipid && name[|lipid|..] == OrderParametersSuffix
  {
    lipid + OrderParametersSuffix
  }

  /** Different lipids get different order-parameter files. */
  lemma OrderParameterFileInjective(l1: string, l2: string)
    requires OrderParameterFile(l1) == OrderParameterFile(l2)
    ensures l1 == l2
  {
    assert |l1| == |l2|;
    assert l1 == OrderParameterFile(l1)[..|l1|];
  }

  /** The files the OP test inspects: one per lipid of the composition that is a known lipid. */
  function OrderParameterFiles(composition: set<string>, lipids: set<string>): (files: set<string>)
    ensures forall f :: f in files ==>
              |f| >= |OrderParametersSuffix| && f[|f| - |OrderParametersSuffix|..] == OrderParametersSuffix
  {
    set lipid | lipid in composition && lipid in lipids :: OrderParameterFile(lipid)
  }

  /** The order-parameter files of the lipids in `lipids`. */
  function FilesOf(lipids: set<string>): set<string>
  {
    set lipid | lipid in lipids :: OrderParameterFile(lipid)
  }

  lemma {:induction false} FilesOfCount(lipids: set<string>)
    ensures |FilesOf(lipids)| == |lipids|
    decreases lipids
  {
    if lipids != {} {
      var l :| l in lipids;
      var rest := lipids - {l};
      FilesOfCount(rest);
      assert FilesOf(lipids) == FilesOf(rest) + {OrderParameterFile(l)};
    }
  }

  /** The OP test inspects exactly one file per lipid that is both in the composition and a known lipid. */
  lemma OrderParameterFilesCount(composition: set<string>, lipids: set<string>)
    ensures |OrderParameterFiles(composition, lipids)| == |composition * lipids|
  {
    assert OrderParameterFiles(composition, lipids) == FilesOf(composition * lipids);
    FilesOfCount(composition * lipids);
  }

  /** `arts` lists each of `names` exactly once. */
  predicate ArtifactsFor(arts: seq<Artifact>, names: set<string>)
  {
    (forall i :: 0 <= i < |arts| ==> arts[i].name in names) &&
    (forall n :: n in names ==> exists i :: 0 <= i < |arts| && arts[i].name == n) &&
    (forall i, j :: 0 <= i < j < |arts| ==> arts[i].name != arts[j].name)
  }

  /**
   * `test_analyze_op`: the code must be the expected one; the error code ends
   * the test; otherwise each lipid's order-parameter file is checked in turn
   * and the first problem ends the test.
   */
  method OpTest(rcode: int, expected: int, errorCode: int, composition: set<string>, lipids: set<string>,
                arts: seq<Artifact>)
    returns (problems: seq<Problem>)
    requires ArtifactsFor(arts, OrderParameterFiles(composition, lipids)) && AllWellFormed(arts)
    ensures problems == StrictTest(rcode, expected, expected == errorCode, arts, MinJsonBytes)
  {
    if rcode != expected {
      return [UnexpectedCode(rcode, expected)];
    }
    if expected == errorCode {
      return [];
    }
    var i := 0;
    while i < |arts|
      invariant 0 <= i <= |arts|
      invariant FirstProblem(arts, MinJsonBytes) == FirstProblem(arts[i..], MinJsonBytes)
    {
      var p := CheckArtifact(arts[i], MinJsonBytes);
      if p.Some? {
        return [p.value];
      }
      assert arts[i..][1..] == arts[i + 1..];
      i := i + 1;
    }
    return [];
  }

  /**
   * `test_analyze_nmrpca`: the code must be the expected one; a code equal to
   * the error code ends the test; otherwise `eq_times.json` must exceed ten
   * bytes and agree with its reference.
   */
  method NmrPcaTest(rcode: int, expected: int, errorCode: int, eqTimes: Artifact) returns (problems: seq<Problem>)
    requires eqTimes.name == "eq_times.json" && WellFormed(eqTimes)
    ensures problems == StrictTest(rcode, expected, rcode == errorCode, [eqTimes], MinEqTimesBytes)
  {
    if rcode != expected {
      return [UnexpectedCode(rcode, expected)];
    }
    if rcode == errorCode {
      return [];
    }
    var p := CheckArtifact(eqTimes, MinEqTimesBytes);
    problems := if p.Some? then [p.value] else [];
  }

  /** The NMR-PCA test gates on the code it got rather than the one it expected; once they are equal this makes no difference. */
  lemma NmrPcaGateOnExpected(rcode: int, expected: int, errorCode: int, eqTimes: Artifact)
    ensures StrictTest(rcode, expected, rcode == errorCode, [eqTimes], MinEqTimesBytes)
         == StrictTest(rcode, expected, expected == errorCode, [eqTimes], MinEqTimesBytes)
  {
  }

  /** Whatever the artifacts, a test whose analysis ends with the expected error code reports nothing. */
  lemma {:induction false} ErrorCodeChecksNoArtifact(code: int, arts1: seq<Artifact>, arts2: seq<Artifact>, minBytes: nat)
    ensures StrictTest(code, code, true, arts1, minBytes) == StrictTest(code, code, true, arts2, minBytes) == []
    ensures SoftTest(code, code, true, arts1) == SoftTest(code, code, true, arts2) == []
  {
  }

  /** An unexpected return code fails every test with that code alone, whatever the artifacts. */
  lemma UnexpectedCodeIsFatal(rcode: int, expected: int, returnsEarly: bool, arts: seq<Artifact>, minBytes: nat)
    requires rcode != expected
    ensures StrictTest(rcode, expected, returnsEarly, arts, minBytes) == [UnexpectedCode(rcode, expected)]
    ensures SoftTest(rcode, expected, returnsEarly, arts) == [UnexpectedCode(rcode, expected)]
    ensures SoftTestAsWritten(rcode, expected, returnsEarly, arts) == [UnexpectedCode(rcode, expected)]
  {
  }

  /** A strict test reports the first unsound artifact only, whatever follows it. */
  lemma StrictTestStopsAtFirst(code: int, arts: seq<Artifact>, i: nat, minBytes: nat)
    requires i < |arts| && AllSound(arts[..i], minBytes) && !Sound(arts[i], minBytes)
    ensures StrictTest(code, code, false, arts, minBytes) == [ArtifactProblem(arts[i], minBytes).value]
  {
    FirstProblemIsFirst(arts, minBytes, i);
  }

  // ---------------------------------------------------------------------------
  // The soft MAICoS test: every check is recorded and the loop goes on.
  // ---------------------------------------------------------------------------

  /**
   * What the MAICoS test records for one artifact, as evidently intended: a
   * missing file is reported once and its size and contents are not looked at;
   * otherwise a small file and a failed comparison are each reported.
   */
  function SoftArtifactProblems(a: Artifact): (problems: seq<Problem>)
    ensures problems == [] <==> Sound(a, MinJsonBytes)
    ensures Missing(a.name) in problems <==> !a.present
    ensures TooSmall(a.name, a.size) in problems <==> a.present && a.size <= MinJsonBytes
    ensures Diverged(a.name) in problems <==> a.present && !Agree(a.computed, a.precomputed, MaxRelErrCompareThreshold)
    ensures forall p :: p in problems ==> p in {Missing(a.name), TooSmall(a.name, a.size), Diverged(a.name)}
  {
    if !a.present then [Missing(a.name)]
    else
      (if a.size <= MinJsonBytes then [TooSmall(a.name, a.size)] else []) +
      (if Agree(a.computed, a.precomputed, MaxRelErrCompareThreshold) then [] else [Diverged(a.name)])
  }

  /** Everything the MAICoS test records over `arts`, in order; the loop never aborts. */
  function SoftProblems(arts: seq<Artifact>): seq<Problem>
  {
    if arts == [] then [] else SoftArtifactProblems(arts[0]) + SoftProblems(arts[1..])
  }

  /** Recording one more artifact appends its problems to those recorded so far. */
  lemma {:induction false} SoftProblemsSnoc(arts: seq<Artifact>, i: nat)
    requires i < |arts|
    ensures SoftProblems(arts[..i + 1]) == SoftProblems(arts[..i]) + SoftArtifactProblems(arts[i])
  {
    if i == 0 {
      calc {
        SoftProblems(arts[..1]);
        { assert arts[..1][0] == arts[0] && arts[..1][1..] == []; }
        SoftArtifactProblems(arts[0]) + [];
        { AppendEmpty(SoftArtifactProblems(arts[0])); }
        [] + SoftArtifactProblems(arts[0]);
        { assert arts[..0] == []; }
        SoftProblems(arts[..0]) + SoftArtifactProblems(arts[i]);
      }
    } else {
      var tail := arts[1..];
      calc {
        SoftProblems(arts[..i + 1]);
        { SoftProblemsOfPrefix(arts, i + 1); }
        SoftArtifactProblems(arts[0]) + SoftProblems(tail[..i]);
        { SoftProblemsSnoc(tail, i - 1); assert tail[i - 1] == arts[i]; }
        SoftArtifactProblems(arts[0]) + (SoftProblems(tail[..i - 1]) + SoftArtifactProblems(arts[i]));
        { AppendAssociative(SoftArtifactProblems(arts[0]), SoftProblems(tail[..i - 1]), SoftArtifactProblems(arts[i])); }
        (SoftArtifactProblems(arts[0]) + SoftProblems(tail[..i - 1])) + SoftArtifactProblems(arts[i]);
        { SoftProblemsOfPrefix(arts, i); }
        SoftProblems(arts[..i]) + SoftArtifactProblems(arts[i]);
      }
    }
  }

  lemma AppendEmpty(a: seq<Problem>)
    ensures a + [] == a == [] + a
  {
  }

  lemma AppendAssociative(a: seq<Problem>, b: seq<Problem>, c: seq<Problem>)
    ensures a + (b + c) == (a + b) + c
  {
  }

  /** The verdict of the MAICoS test as evidently intended: nothing it checks ends it early. */
  function SoftTest(rcode: int, expected: int, returnsEarly: bool, arts: seq<Artifact>): (problems: seq<Problem>)
    ensures rcode != expected ==> problems == [UnexpectedCode(rcode, expected)]
  {
    if rcode != expected then [UnexpectedCode(rcode, expected)]
    else if returnsEarly then []
    else SoftProblems(arts)
  }

  /** The intended loop records only artifact problems: never a return code, never an abort. */
  lemma SoftProblemsKinds(arts: seq<Artifact>)
    ensures forall p :: p in SoftProblems(arts) ==> !p.UnexpectedCode? && !p.Aborted?
  {
    forall p | p in SoftProblems(arts)
      ensures !p.UnexpectedCode? && !p.Aborted?
    {
      SoftProblemsCollect(arts, p);
    }
  }

  /** With the right code the intended test reports no code problem, and it never reports an abort. */
  lemma SoftTestKinds(rcode: int, expected: int, returnsEarly: bool, arts: seq<Artifact>)
    ensures rcode == expected ==> forall p :: p in SoftTest(rcode, expected, returnsEarly, arts) ==> !p.UnexpectedCode?
    ensures forall p :: p in SoftTest(rcode, expected, returnsEarly, arts) ==> !p.Aborted?
  {
    SoftProblemsKinds(arts);
  }

  /** A problem is recorded exactly when one of the artifacts produces it. */
  lemma {:induction false} SoftProblemsCollect(arts: seq<Artifact>, p: Problem)
    ensures p in SoftProblems(arts) <==> exists i :: 0 <= i < |arts| && p in SoftArtifactProblems(arts[i])
  {
    if arts != [] {
      SoftProblemsCollect(arts[1..], p);
      if p in SoftProblems(arts[1..]) {
        var i :| 0 <= i < |arts[1..]| && p in SoftArtifactProblems(arts[1..][i]);
        assert p in SoftArtifactProblems(arts[i + 1]);
      }
      if exists i :: 0 <= i < |arts| && p in SoftArtifactProblems(arts[i]) {
        var i :| 0 <= i < |arts| && p in SoftArtifactProblems(arts[i]);
        if i > 0 {
          assert arts[1..][i - 1] == arts[i];
        }
      }
    }
  }

  /**
   * The MAICoS test reports every failing artifact: each missing file, each
   * small file and each divergent document is in the list, whatever else fails.
   */
  lemma SoftTestReportsEveryFailure(code: int, arts: seq<Artifact>, i: nat)
    requires i < |arts|
    ensures !arts[i].present ==> Missing(arts[i].name) in SoftTest(code, code, false, arts)
    ensures arts[i].present && arts[i].size <= MinJsonBytes ==>
              TooSmall(arts[i].name, arts[i].size) in SoftTest(code, code, false, arts)
    ensures arts[i].present && !Agree(arts[i].computed, arts[i].precomputed, MaxRelErrCompareThreshold) ==>
              Diverged(arts[i].name) in SoftTest(code, code, false, arts)
  {
    SoftProblemsCollect(arts, Missing(arts[i].name));
    SoftProblemsCollect(arts, TooSmall(arts[i].name, arts[i].size));
    SoftProblemsCollect(arts, Diverged(arts[i].name));
  }

  /** The MAICoS test passes exactly when every artifact is sound. */
  lemma SoftTestPassesIffAllSound(code: int, arts: seq<Artifact>)
    ensures SoftTest(code, code, false, arts) == [] <==> AllSound(arts, MinJsonBytes)
  {
    if AllSound(arts, MinJsonBytes) && SoftProblems(arts) != [] {
      var p := SoftProblems(arts)[0];
      SoftProblemsCollect(arts, p);
    }
    if !AllSound(arts, MinJsonBytes) {
      var i :| 0 <= i < |arts| && !Sound(arts[i], MinJsonBytes);
      var p := SoftArtifactProblems(arts[i])[0];
      SoftProblemsCollect(arts, p);
    }
  }

  /** One pass of the MAICoS loop body: the soft checks on one artifact, through the comparator itself. */
  method RecordArtifact(a: Artifact) returns (found: seq<Problem>)
    requires WellFormed(a)
    ensures found == SoftArtifactProblems(a)
  {
    if !a.present {
      return [Missing(a.name)];
    }
    found := [];
    if a.size <= MinJsonBytes {
      found := [TooSmall(a.name, a.size)];
    }
    var r := CompareJsonsBtwSD(a.computed, a.precomputed, a.keyOrder);
    if r.Fail? {
      found := found + [Diverged(a.name)];
    }
  }

  /**
   * `test_analyze_maicos` as evidently intended: the code must be the expected
   * one; the error code ends the test; otherwise each of the four density and
   * form-factor files is checked and every failing check is recorded, a
   * comparator rejection included.  As written, the test differs after a
   * missing file; see `SoftProblemsAsWritten`.
   */
  method MaicosTest(rcode: int, expected: int, errorCode: int, arts: seq<Artifact>) returns (problems: seq<Problem>)
    requires |arts| == |MaicosFiles| && AllWellFormed(arts)
    requires forall i :: 0 <= i < |arts| ==> arts[i].name == MaicosFiles[i]
    ensures problems == SoftTest(rcode, expected, expected == errorCode, arts)
  {
    if rcode != expected {
      return [UnexpectedCode(rcode, expected)];
    }
    if expected == errorCode {
      return [];
    }
    problems := [];
    var i := 0;
    while i < |arts|
      invariant 0 <= i <= |arts|
      invariant problems == SoftProblems(arts[..i])
    {
      var found := RecordArtifact(arts[i]);
      SoftProblemsSnoc(arts, i);
      problems := problems + found;
      i := i + 1;
    }
    assert arts[..i] == arts;
  }

  /**
   * The MAICoS loop as written: after recording a missing file it asks for that
   * file's size, which raises an uncaught FileNotFoundError and ends the test,
   * so the artifacts after it are never looked at.
   */
  function SoftProblemsAsWritten(arts: seq<Artifact>): seq<Problem>
  {
    if arts == [] then []
    else if !arts[0].present then [Missing(arts[0].name), Aborted(arts[0].name)]
    else SoftArtifactProblems(arts[0]) + SoftProblemsAsWritten(arts[1..])
  }

  /** As written, an abort can only be the last problem reported, and no return code is reported by the loop. */
  lemma {:induction false} AsWrittenAbortsLast(arts: seq<Artifact>)
    ensures forall i :: 0 <= i < |SoftProblemsAsWritten(arts)| - 1 ==> !SoftProblemsAsWritten(arts)[i].Aborted?
    ensures forall p :: p in SoftProblemsAsWritten(arts) ==> !p.UnexpectedCode?
  {
    if arts != [] && arts[0].present {
      var head: seq<Problem>, rest: seq<Problem> := SoftArtifactProblems(arts[0]), SoftProblemsAsWritten(arts[1..]);
      AsWrittenAbortsLast(arts[1..]);
      assert SoftProblemsAsWritten(arts) == head + rest;
      forall i | 0 <= i < |head + rest| - 1
        ensures !(head + rest)[i].Aborted?
      {
        if i < |head| {
          assert head[i] in head;
        } else {
          assert (head + rest)[i] == rest[i - |head|];
        }
      }
      forall p | p in head + rest
        ensures !p.UnexpectedCode?
      {
        assert p in head || p in rest;
      }
    }
  }

  /** The verdict of the MAICoS test as written: an abort, if any, is the last thing reported. */
  function SoftTestAsWritten(rcode: int, expected: int, returnsEarly: bool, arts: seq<Artifact>)
    : (problems: seq<Problem>)
    ensures rcode != expected ==> problems == [UnexpectedCode(rcode, expected)]
  {
    if rcode != expected then [UnexpectedCode(rcode, expected)]
    else if returnsEarly then []
    else SoftProblemsAsWritten(arts)
  }

  /**
   * As written, the MAICoS test reports what the intended one reports for the
   * artifacts before the first missing file, then that file and the abort, and
   * nothing about any later artifact.
   */
  lemma {:induction false} AsWrittenStopsAtFirstMissing(arts: seq<Artifact>, i: nat)
    requires i < |arts| && !arts[i].present
    requires forall j :: 0 <= j < i ==> arts[j].present
    ensures SoftProblemsAsWritten(arts) == SoftProblems(arts[..i]) + [Missing(arts[i].name), Aborted(arts[i].name)]
  {
    var stop := [Missing(arts[i].name), Aborted(arts[i].name)];
    if i > 0 {
      var rest := arts[1..];
      assert rest[i - 1] == arts[i];
      assert forall j :: 0 <= j < i - 1 ==> rest[j] == arts[j + 1];
      assert arts[0].present;
      calc {
        SoftProblemsAsWritten(arts);
        SoftArtifactProblems(arts[0]) + SoftProblemsAsWritten(rest);
        { AsWrittenStopsAtFirstMissing(rest, i - 1); }
        SoftArtifactProblems(arts[0]) + (SoftProblems(rest[..i - 1]) + stop);
        { AppendAssociative(SoftArtifactProblems(arts[0]), SoftProblems(rest[..i - 1]), stop); }
        (SoftArtifactProblems(arts[0]) + SoftProblems(rest[..i - 1])) + stop;
        { SoftProblemsOfPrefix(arts, i); }
        SoftProblems(arts[..i]) + stop;
      }
    } else {
      assert arts[..i] == [];
    }
  }

  /** Recording a non-empty prefix records its first artifact, then the rest of the prefix. */
  lemma SoftProblemsOfPrefix(arts: seq<Artifact>, i: nat)
    requires 0 < i <= |arts|
    ensures SoftProblems(arts[..i]) == SoftArtifactProblems(arts[0]) + SoftProblems(arts[1..][..i - 1])
  {
    assert arts[..i][0] == arts[0] && arts[..i][1..] == arts[1..][..i - 1];
  }

  /** With every file present, the loop as written and the intended one agree. */
  lemma {:induction false} AsWrittenAgreesWhenAllPresent(arts: seq<Artifact>)
    requires forall j :: 0 <= j < |arts| ==> arts[j].present
    ensures SoftProblemsAsWritten(arts) == SoftProblems(arts)
  {
    if arts != [] {
      assert arts[0].present;
      AsWrittenAgreesWhenAllPresent(arts[1..]);
    }
  }

  /**
   * The discrepancy: a missing first file hides a too-small second one. The
   * intended test reports both; the test as written reports only the first
   * and the abort.
   */
  lemma MissingFileHidesLaterFailure(code: int, arts: seq<Artifact>)
    requires |arts| >= 2 && !arts[0].present && arts[1].present && arts[1].size <= MinJsonBytes
    ensures TooSmall(arts[1].name, arts[1].size) in SoftTest(code, code, false, arts)
    ensures TooSmall(arts[1].name, arts[1].size) !in SoftTestAsWritten(code, code, false, arts)
    ensures SoftTestAsWritten(code, code, false, arts) == [Missing(arts[0].name), Aborted(arts[0].name)]
  {
    SoftTestReportsEveryFailure(code, arts, 1);
  }
}
