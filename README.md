# Regression comparator and analysis-test rules of the lipid-membrane databank

This project models, in Dafny, the part of a lipid-membrane simulation databank
that decides whether a recomputed analysis result reproduces the stored one.

- `compareJSONsBtwSD` (Scripts/tests/test_analyze.py) compares a freshly
  computed JSON document with the precomputed reference. The documents must
  have the same Python type. A list must have the other list's length and is
  then re-keyed by index. A mapping must have the other's key set. The value
  under every key is handed to numpy's `assert_allclose` with
  `rtol = MAXRELERR_COMPARE_THRESHOLD = 1e-2` and `atol = 0`. A top-level
  scalar passes on its type alone.
- The recomputation tests `test_analyze_apl`, `test_analyze_op`,
  `test_analyze_maicos` and `test_analyze_nmrpca` share one rule. The analysis
  return code must be the expected one. An expected error code ends the test.
  Otherwise each artifact must exist, exceed 1000 bytes (10 bytes for
  `eq_times.json`) and pass the comparator. Three tests stop at the first
  problem. The MAICoS test is meant to record every problem and go on;
  `MaicosTest` models that corrected test, and the test as written, which
  stops at the first missing file, is under "## Findings".
- `get_databank_paths` (Scripts/WorkflowScripts/Workflow_utils.py) builds the
  seven script locations from the repository root with `os.path.join`.

Modules:

- `JsonValue`: parsed JSON values and their Python types.
- `AllClose`: `np.array` on a parsed value, as an n-dimensional array, and
  the `assert_allclose` acceptance rule.
- `JsonCompare`: the comparator. `Compare` is the declarative verdict.
  `CompareJsonsBtwSD` is the sequential procedure with its key loop. Both are
  proved against `Agree`, so they give the same verdict and the same type,
  length and key-set failures. On a value failure `Compare` names every
  failing key, the procedure only the first in iteration order.
- `AnalyzeTests`: the four tests as methods, each proved equal to a verdict
  function.
- `WorkflowUtils`: `os.path.join` and `get_databank_paths`.
- `Wrappers`: an `Option` type.

Inputs the code reads from outside are parameters of the model:

- the parsed documents;
- whether each artifact file exists and its size;
- the iteration order of a parsed mapping's keys;
- the return codes `RCODE_COMPUTED` and `RCODE_ERROR`, which DatabankLib defines.

Consequences of the code that a reader may not expect:

- The tolerance is one-sided. The difference is bounded by
  `rtol * |precomputed|` only, so swapping the documents can change the
  verdict (`CompareNotSymmetric`), and a precomputed zero demands exact
  equality.
- Nested documents are not compared recursively. The value under each
  top-level key is handed to numpy whole. A nested mapping, a string or null
  fails there even against an identical copy (`NestedMappingValueFails`,
  `CompareReflexive`). A boolean is converted by numpy to 1 or 0 and compared
  as that number.
- A document therefore compares equal to itself only when numpy converts
  every value under its keys (`CompareReflexive`).

## Model

| member | source | states |
|---|---|---|
| AllClose.ToArrayWellSized | Scripts/tests/test_analyze.py:147-148 | every array built from JSON holds exactly product-of-shape elements |
| AllClose.StackFromWellSized | Scripts/tests/test_analyze.py:147-148 | every stacked array holds exactly product-of-shape elements |
| AllClose.NumbersClose | Scripts/tests/test_analyze.py:146-150 | two numbers pass iff the computed one is within rtol of the precomputed one, relative to the precomputed one |
| AllClose.VectorToArray | Scripts/tests/test_analyze.py:147-148 | a flat list of numbers becomes a 1-d array of those numbers in order |
| AllClose.VectorsClose | Scripts/tests/test_analyze.py:146-150 | two flat numeric lists pass iff same length and each element is within the relative bound of the precomputed element at the same position |
| AllClose.CloseReflexive | Scripts/tests/test_analyze.py:146-150 | a value passes against itself, for rtol >= 0, iff numpy can convert it |
| AllClose.CloseMonotone | Scripts/tests/test_analyze.py:146-150 | a pass at one tolerance stays a pass at any larger tolerance |
| AllClose.CloseNotSymmetric | Scripts/tests/test_analyze.py:146-150 | 0.99005 passes against 1.0 at 1e-2 but 1.0 fails against 0.99005 |
| AllClose.BooleansCloseAsNumbers | Scripts/tests/test_analyze.py:146-150 | `True` and `False` pass against 1 and 0, on either side |
| AllClose.NonNumericNeverClose | Scripts/tests/test_analyze.py:147-148 | a mapping, string or null never passes, on either side |
| AllClose.CloseOf | Scripts/tests/test_analyze.py:146-150 | two converted values pass iff their arrays have one shape and every computed element lies within rtol of the precomputed element, relative to the latter |
| AllClose.StackedClose | Scripts/tests/test_analyze.py:147-148 | two stacked lists of one length pass iff their items pass pairwise from that position on |
| AllClose.NestedListsClose | Scripts/tests/test_analyze.py:146-150 | two lists numpy converts, nested or flat, pass iff they have one length and each item passes against the item at its position |
| AllClose.WithinToleranceAppend | Scripts/tests/test_analyze.py:146-150 | the element-wise bound holds over two concatenated buffers iff it holds over each part |
| JsonCompare.Agree | Scripts/tests/test_analyze.py:134-150 | documents that agree have one Python type |
| JsonCompare.Rekey | Scripts/tests/test_analyze.py:139-145 | a re-keyed list has only integer keys and a re-keyed mapping only string keys |
| JsonCompare.ListsAgreeByIndex | Scripts/tests/test_analyze.py:136-150 | equal-length lists have equal re-keyed key sets, and no key fails iff element i is close to element i for every i |
| JsonCompare.ObjectKeysAgree | Scripts/tests/test_analyze.py:143-144 | re-keyed key sets are equal iff the objects' name sets are equal |
| JsonCompare.ObjectsAgreeByName | Scripts/tests/test_analyze.py:143-150 | for objects with one name set, no key fails iff every name's values are close |
| JsonCompare.RekeyedAgree | Scripts/tests/test_analyze.py:136-150 | after the type and length checks, re-keyed key sets match iff lists or equal name sets, and then no key fails iff the documents agree |
| JsonCompare.Compare | Scripts/tests/test_analyze.py:134-155 | passes iff the documents agree; a type mismatch, a list length mismatch and a key-set mismatch (with the keys on one side only) are each reported as such and only then; documents that pass those checks but disagree fail with a value mismatch naming every failing key |
| JsonCompare.LoopKeysCoverRekey | Scripts/tests/test_analyze.py:145 | `for k1 in j1` visits keys of the re-keyed document and visits all of them |
| JsonCompare.FirstOutOfTolerance | Scripts/tests/test_analyze.py:145-155 | the loop's stopping position: every earlier key passes, the key there fails |
| JsonCompare.CompareJsonsBtwSD | Scripts/tests/test_analyze.py:112-157 | passes iff the documents agree; a type, length or key-set failure is reported exactly when that check fails, with the declarative details; documents that pass those checks but disagree fail with a value mismatch naming the first rejected key in iteration order, every earlier key having passed |
| JsonCompare.KeySetMismatchRejects | Scripts/tests/test_analyze.py:143-144 | objects with different name sets fail on the key sets whatever the values, naming the keys found on each side only |
| JsonCompare.ScalarsPassOnTypeAlone | Scripts/tests/test_analyze.py:134-143 | a top-level scalar passes iff the types match, its value unexamined |
| JsonCompare.CompareReflexive | Scripts/tests/test_analyze.py:134-155 | a document passes against itself, for rtol >= 0, iff numpy converts every value under its keys |
| JsonCompare.CompareMonotone | Scripts/tests/test_analyze.py:145-155 | raising the threshold never turns a pass into a failure |
| JsonCompare.CompareNotSymmetric | Scripts/tests/test_analyze.py:146-150 | `[0.99005]` passes against `[1.0]` at 1e-2, and the swap fails |
| JsonCompare.NestedMappingValueFails | Scripts/tests/test_analyze.py:143-155 | a nested mapping under a key fails even when the other key's values are close, and only that key is reported |
| JsonCompare.ListNeverMatchesMapping | Scripts/tests/test_analyze.py:134 | a list against a mapping is a type mismatch, whatever the contents |
| AnalyzeTests.ArtifactProblem | Scripts/tests/test_analyze.py:171-173 | an artifact has no problem iff it exists, exceeds the bound and agrees with its reference; the checks run in order: an absent file is missing, a present file not above the bound is too small, and only a present file above the bound that disagrees has diverged |
| AnalyzeTests.FirstProblem | Scripts/tests/test_analyze.py:190-196 | a strict walk only reports a missing, too-small or diverged artifact |
| AnalyzeTests.FirstProblemNone | Scripts/tests/test_analyze.py:190-196 | a strict walk over the artifacts finds no problem iff all are sound |
| AnalyzeTests.FirstProblemIsFirst | Scripts/tests/test_analyze.py:190-196 | a strict walk reports the problem of the first unsound artifact, whatever follows |
| AnalyzeTests.StrictTest | Scripts/tests/test_analyze.py:184-196 | a wrong code fails with that code alone; an early return reports nothing; otherwise the test passes iff every artifact is sound, with at most one problem |
| AnalyzeTests.CheckArtifact | Scripts/tests/test_analyze.py:194-196 | checking existence, size and comparison through the comparator method gives exactly the artifact's problem |
| AnalyzeTests.AplTest | Scripts/tests/test_analyze.py:160-173 | the APL test equals the strict verdict with no early return, on `apl.json` with bound 1000 |
| AnalyzeTests.OrderParameterFileInjective | Scripts/tests/test_analyze.py:190-193 | different lipids get different order-parameter files |
| AnalyzeTests.OrderParameterFiles | Scripts/tests/test_analyze.py:190-193 | every file the OP test inspects ends in `OrderParameters.json` |
| AnalyzeTests.OrderParameterFilesCount | Scripts/tests/test_analyze.py:190-193 | the OP test inspects exactly one file per lipid that is in the composition and known |
| AnalyzeTests.OpTest | Scripts/tests/test_analyze.py:176-196 | the OP test equals the strict verdict over the lipid files, returning early on the expected error code |
| AnalyzeTests.NmrPcaTest | Scripts/tests/test_analyze.py:229-246 | the NMR-PCA test equals the strict verdict on `eq_times.json` with bound 10, returning early when the code got is the error code |
| AnalyzeTests.NmrPcaGateOnExpected | Scripts/tests/test_analyze.py:238-241 | gating on the code got instead of the code expected gives the same verdict |
| AnalyzeTests.ErrorCodeChecksNoArtifact | Scripts/tests/test_analyze.py:186-188 | with the expected error code, strict and soft tests report nothing, whatever the artifacts |
| AnalyzeTests.UnexpectedCodeIsFatal | Scripts/tests/test_analyze.py:185-186 | an unexpected code fails every test with that code alone, whatever the artifacts |
| AnalyzeTests.StrictTestStopsAtFirst | Scripts/tests/test_analyze.py:190-196 | a strict test reports exactly the first unsound artifact's problem |
| AnalyzeTests.SoftArtifactProblems | Scripts/tests/test_analyze.py:218-225 | an artifact records nothing iff sound; missing iff absent; too small iff present and not above 1000 bytes; diverged iff present and rejected |
| AnalyzeTests.SoftProblemsKinds | Scripts/tests/test_analyze.py:214-225 | the intended soft loop (`SoftProblems`) records only artifact problems, never a wrong code or an abort |
| AnalyzeTests.SoftProblemsSnoc | Scripts/tests/test_analyze.py:214-225 | each pass of the intended loop appends the artifact's problems to those recorded before |
| AnalyzeTests.SoftTestKinds | Scripts/tests/test_analyze.py:205-225 | with the right code the intended MAICoS test reports no code problem, and it never aborts |
| AnalyzeTests.SoftProblemsCollect | Scripts/tests/test_analyze.py:214-225 | the soft loop records a problem iff some artifact produces it |
| AnalyzeTests.SoftTestReportsEveryFailure | Scripts/tests/test_analyze.py:214-225 | every missing, small or divergent artifact is reported, whatever else fails |
| AnalyzeTests.SoftTestPassesIffAllSound | Scripts/tests/test_analyze.py:214-225 | the MAICoS test passes iff every artifact is sound |
| AnalyzeTests.RecordArtifact | Scripts/tests/test_analyze.py:218-225 | one loop pass, through the comparator method, records exactly the artifact's soft problems |
| AnalyzeTests.MaicosTest | Scripts/tests/test_analyze.py:205-225 | the MAICoS test over its four files equals the soft verdict, returning early on the expected error code |
| AnalyzeTests.AsWrittenAbortsLast | Scripts/tests/test_analyze.py:214-225 | the loop as written (`SoftProblemsAsWritten`) reports an abort only as its last problem, and never a code problem |
| AnalyzeTests.AsWrittenStopsAtFirstMissing | Scripts/tests/test_analyze.py:218-219 | as written, the loop reports the intended problems up to the first missing file, then that file and the abort, and nothing later |
| AnalyzeTests.AsWrittenAgreesWhenAllPresent | Scripts/tests/test_analyze.py:214-225 | with every file present, the loop as written and the intended loop report the same |
| AnalyzeTests.MissingFileHidesLaterFailure | Scripts/tests/test_analyze.py:218-219 | a missing first file hides a too-small second file as written; the intended test reports it |
| WorkflowUtils.JoinAbsolute | Scripts/WorkflowScripts/Workflow_utils.py:58-64 | `os.path.join` with an absolute component gives that component |
| WorkflowUtils.JoinAppends | Scripts/WorkflowScripts/Workflow_utils.py:58-64 | joining a relative component keeps the base as prefix, ends with the component, puts one "/" between them when the base does not end in one, and adds at most one character |
| WorkflowUtils.GetDatabankPaths | Scripts/WorkflowScripts/Workflow_utils.py:50-74 | the dictionary holds exactly the seven keys, so seven entries |
| WorkflowUtils.KeyNamesDistinct | Scripts/WorkflowScripts/Workflow_utils.py:66-74 | the seven key strings are pairwise different |
| WorkflowUtils.Entries | Scripts/WorkflowScripts/Workflow_utils.py:58-74 | each key holds the join of its directory and its own name |
| WorkflowUtils.ScriptsDirShape | Scripts/WorkflowScripts/Workflow_utils.py:58-60 | the Scripts directory is the root, a separator unless one is there already, then `Scripts` |
| WorkflowUtils.PathLayout | Scripts/WorkflowScripts/Workflow_utils.py:58-64 | `Builddatabank_path` is root/Scripts/BuildDatabank, `AnalyzeDatabank_path` root/Scripts/AnalyzeDatabank, and the five scripts lie directly in them |
| WorkflowUtils.PathsUnderScripts | Scripts/WorkflowScripts/Workflow_utils.py:58-64 | every path starts with the Scripts directory and a separator |
| WorkflowUtils.PathsUnderRoot | Scripts/WorkflowScripts/Workflow_utils.py:58-64 | every path starts with the root and with the root's Scripts directory |
| WorkflowUtils.PathsDistinct | Scripts/WorkflowScripts/Workflow_utils.py:58-64 | the seven paths are pairwise different |

## Left out

- Reading the JSON files, logging, and the pytest fixtures that download trajectories and wipe result folders: these are I/O. The parsed documents and the artifacts' existence and size are inputs.
- `computeAPL`, `computeOP`, `computeMAICOS`, `computeNMRPCA` and DatabankLib: their return codes are inputs. `RCODE_COMPUTED` and `RCODE_ERROR` are parameters because their values are defined in DatabankLib, which is not part of this model.
- The systems registry and `lipids_set`: the OP test takes the composition's names and the known lipid names as sets.
- `run_command`, `run_python_script` and `delete_info_file` in Workflow_utils.py: these are subprocess calls, `sys.exit` and file deletion.
- Scripts/AnalyzeDatabank/calc_MAICoS.py: an entry point that only forwards to an analysis routine.
- Floating point: numbers are Dafny reals. NaN, infinities and rounding in numpy are not modelled.
- AllClose.Close: shapes must be equal. numpy's broadcasting of a scalar against an array is not modelled. The member has no contract of its own; `CloseOf`, `NumbersClose` and `NestedListsClose` state what it decides.
- AllClose.ToArray: every JSON integer converts. numpy makes an object array from an integer outside the 64-bit range, and `assert_allclose` then raises TypeError; that case is not modelled.
- AllClose.StackFrom: its contract gives only the leading axis. The inner shape and the order of the data are stated through `NestedListsClose` and `StackedClose` instead.
- AllClose.NonNumericNeverClose: for a mapping, string or null numpy raises TypeError rather than AssertionError, and for a ragged list ValueError. The model treats all of these as rejection.
- AnalyzeTests.SoftArtifactProblems: because of that TypeError or ValueError, a non-numeric value or a ragged list would escape the MAICoS loop's `except AssertionError` and end the test. The model records it as `Diverged`, like any other rejection.
- AnalyzeTests.Artifact: a missing reference file would make the comparator raise FileNotFoundError. This is not modelled; reference files are taken to exist.
- JsonCompare.CompareJsonsBtwSD: the failure messages (file name, key, both values) are not modelled. Only the failure kind and the offending keys are kept.
- JsonCompare.IsIterationOrder: Python's dict iteration order is an input that enumerates the keys once each. The order actually produced by `json.load` is not modelled.
- AnalyzeTests.SoftTest: its own contract gives only the wrong-code case. What the intended MAICoS verdict reports is stated by `SoftTestKinds`, `SoftTestPassesIffAllSound` and `SoftTestReportsEveryFailure`, and `MaicosTest` is proved equal to it.
- AnalyzeTests.SoftTestAsWritten: its own contract gives only the wrong-code case. The behaviour of the test as written is stated by `AsWrittenAbortsLast`, `AsWrittenStopsAtFirstMissing`, `AsWrittenAgreesWhenAllPresent` and `MissingFileHidesLaterFailure`.
- AnalyzeTests.Artifact: an artifact that exists but that `json.load` cannot parse raises JSONDecodeError, a ValueError, which escapes the MAICoS loop's `except AssertionError` as well. Documents are taken to be parsed, so `AsWrittenAgreesWhenAllPresent` speaks of files that parse.
- AnalyzeTests.Problem: a `Diverged` problem records which artifact was rejected, not the comparator's own failure.
- WorkflowUtils.Join: models POSIX `os.path.join` of two components. Multi-component calls are nested joins, which is equivalent. Windows paths are not modelled. Its properties are stated by `JoinAbsolute` and `JoinAppends`.
- WorkflowUtils.GetDatabankPaths: the dictionary's keys are the constructors of `PathKey`. `KeyName` gives each one's key string, and `KeyNamesDistinct` shows that no two share one.
- The parametrised system IDs and expected return codes of the four tests are inputs of the test methods.

## Findings

| source | as written | input that shows it | evidently intended | confidence | as-written member | corrected member |
|---|---|---|---|---|---|---|
| Scripts/tests/test_analyze.py:218-219 | after soft-checking that a file exists, the MAICoS test asks for its size; for a missing file `os.path.getsize` raises FileNotFoundError, which nothing catches, so the test ends and the later artifacts are never checked | `WaterDensity.json` absent and `LipidDensity.json` present with 400 bytes: the test reports the missing file and an error, never the small file | the soft checks collect every failing artifact, so a missing file is reported and the loop goes on to the next file | high; not executed | AnalyzeTests.SoftProblemsAsWritten, AnalyzeTests.MissingFileHidesLaterFailure | AnalyzeTests.SoftProblems, AnalyzeTests.SoftTestReportsEveryFailure |
