/**
 * `get_databank_paths` of Scripts/WorkflowScripts/Workflow_utils.py: the
 * locations of the workflow scripts, built from the repository root with
 * `os.path.join`.
 */
module WorkflowUtils {

  /**
   * `os.path.join(a, b)` on POSIX: an absolute `b` replaces `a`; otherwise `b`
   * is appended, with a "/" in between unless `a` is empty or already ends in one.
   */
  function Join(a: string, b: string): string
  {
    if |b| > 0 && b[0] == '/' then b
    else if a == [] || a[|a| - 1] == '/' then a + b
    else a + "/" + b
  }

  /** A path component that `Join` appends rather than substitutes. */
  predicate IsRelative(b: string)
  {
    |b| > 0 && b[0] != '/'
  }

  /** Joining an absolute component discards the base. */
  lemma JoinAbsolute(a: string, b: string)
    requires |b| > 0 && b[0] == '/'
    ensures Join(a, b) == b
  {
  }

  /** Joining a relative component keeps the base as a prefix and ends with the component. */
  lemma JoinAppends(a: string, b: string)
    requires IsRelative(b)
    ensures a <= Join(a, b)
    ensures Join(a, b)[|Join(a, b)| - |b|..] == b
    ensures a != [] && a[|a| - 1] != '/' ==> Join(a, b) == a + "/" + b
    ensures |a| + |b| <= |Join(a, b)| <= |a| + 1 + |b|
  {
  }

  /** The keys of the returned dictionary, one per script location. */
  datatype PathKey =
    | Builddatabank | AddData | AnalyzeDatabank | CalcProperties
    | SearchDatabank | QualityEvaluation | MakeRanking

  /** The string under which the dictionary holds each entry. */
  function KeyName(k: PathKey): string
  {
    match k
    case Builddatabank => "Builddatabank_path"
    case AddData => "AddData_path"
    case AnalyzeDatabank => "AnalyzeDatabank_path"
    case CalcProperties => "calcProperties_path"
    case SearchDatabank => "searchDATABANK_path"
    case QualityEvaluation => "QualityEvaluation_path"
    case MakeRanking => "makeRanking_path"
  }

  /** The seven keys of the returned dictionary. */
  function PathKeys(): set<PathKey>
  {
    {Builddatabank, AddData, AnalyzeDatabank, CalcProperties, SearchDatabank, QualityEvaluation, MakeRanking}
  }

  /** `os.path.join(NMLDB_ROOT_PATH, "Scripts")`, the directory every returned path lies in. */
  function ScriptsDir(root: string): string
  {
    Join(root, "Scripts")
  }

  /** `get_databank_paths(NMLDB_ROOT_PATH)`: a dictionary holding all seven keys and nothing else. */
  function GetDatabankPaths(root: string): (paths: map<PathKey, string>)
    ensures paths.Keys == PathKeys()
    ensures |paths| == 7
  {
    PathKeysCount();
    var builddatabank := Join(Join(root, "Scripts"), "BuildDatabank");
    var addData := Join(builddatabank, "AddData.py");
    var analyzeDatabank := Join(Join(root, "Scripts"), "AnalyzeDatabank");
    var calcProperties := Join(analyzeDatabank, "calcProperties.sh");
    var searchDatabank := Join(builddatabank, "searchDATABANK.py");
    var qualityEvaluation := Join(builddatabank, "QualityEvaluation.py");
    var makeRanking := Join(builddatabank, "makeRanking.py");
    map[
      Builddatabank := builddatabank,
      AddData := addData,
      AnalyzeDatabank := analyzeDatabank,
      CalcProperties := calcProperties,
      SearchDatabank := searchDatabank,
      QualityEvaluation := qualityEvaluation,
      MakeRanking := makeRanking
    ]
  }

  /** The seven keys are seven different constructors. */
  lemma PathKeysCount()
    ensures |PathKeys()| == 7
  {
    var keys := {Builddatabank, AddData, AnalyzeDatabank, CalcProperties, SearchDatabank, QualityEvaluation};
    assert |keys| == 6;
    assert PathKeys() == keys + {MakeRanking};
  }

  /** The seven key strings are different from one another, so the dictionary has seven string keys. */
  lemma KeyNamesDistinct(k1: PathKey, k2: PathKey)
    requires k1 != k2
    ensures KeyName(k1) != KeyName(k2)
  {
    // the first letter tells all keys apart but the two starting with 'A', which differ in length
    assert KeyName(k1)[0] != KeyName(k2)[0] || |KeyName(k1)| != |KeyName(k2)|;
  }

  /** Each entry of the dictionary is the join of its directory and its own name. */
  lemma Entries(root: string)
    ensures GetDatabankPaths(root)[Builddatabank] == Join(ScriptsDir(root), "BuildDatabank")
    ensures GetDatabankPaths(root)[AnalyzeDatabank] == Join(ScriptsDir(root), "AnalyzeDatabank")
    ensures GetDatabankPaths(root)[AddData] == Join(GetDatabankPaths(root)[Builddatabank], "AddData.py")
    ensures GetDatabankPaths(root)[SearchDatabank] == Join(GetDatabankPaths(root)[Builddatabank], "searchDATABANK.py")
    ensures GetDatabankPaths(root)[QualityEvaluation] == Join(GetDatabankPaths(root)[Builddatabank], "QualityEvaluation.py")
    ensures GetDatabankPaths(root)[MakeRanking] == Join(GetDatabankPaths(root)[Builddatabank], "makeRanking.py")
    ensures GetDatabankPaths(root)[CalcProperties] == Join(GetDatabankPaths(root)[AnalyzeDatabank], "calcProperties.sh")
  {
  }

  /** The Scripts directory is the root with "Scripts" appended. */
  lemma ScriptsDirShape(root: string)
    ensures root <= ScriptsDir(root)
    ensures ScriptsDir(root)[|ScriptsDir(root)| - 7..] == "Scripts"
    ensures ScriptsDir(root) == (if root == [] || root[|root| - 1] == '/' then root else root + "/") + "Scripts"
  {
    JoinAppends(root, "Scripts");
  }

  /** A relative component joined to a base ending in `last` (not a separator) follows a single "/". */
  lemma JoinAfter(a: string, b: string, last: char)
    requires |a| > 0 && a[|a| - 1] == last && last != '/'
    requires IsRelative(b)
    ensures Join(a, b) == a + "/" + b
  {
  }

  /** The two script directories are the Scripts directory followed by "/" and their names. */
  lemma DirectoryJoins(root: string)
    ensures Join(ScriptsDir(root), "BuildDatabank") == ScriptsDir(root) + "/BuildDatabank"
    ensures Join(ScriptsDir(root), "AnalyzeDatabank") == ScriptsDir(root) + "/AnalyzeDatabank"
  {
    var scripts := ScriptsDir(root);
    ScriptsDirShape(root);
    assert scripts[|scripts| - 1] == "Scripts"[6];
    JoinAfter(scripts, "BuildDatabank", 's');
    JoinAfter(scripts, "AnalyzeDatabank", 's');
  }

  /** Script names are appended to their directory after a single "/". */
  lemma FileJoins(build: string, analyze: string)
    requires |build| > 0 && build[|build| - 1] == 'k'
    requires |analyze| > 0 && analyze[|analyze| - 1] == 'k'
    ensures Join(build, "AddData.py") == build + "/AddData.py"
    ensures Join(build, "searchDATABANK.py") == build + "/searchDATABANK.py"
    ensures Join(build, "QualityEvaluation.py") == build + "/QualityEvaluation.py"
    ensures Join(build, "makeRanking.py") == build + "/makeRanking.py"
    ensures Join(analyze, "calcProperties.sh") == analyze + "/calcProperties.sh"
  {
    JoinAfter(build, "AddData.py", 'k');
    JoinAfter(build, "searchDATABANK.py", 'k');
    JoinAfter(build, "QualityEvaluation.py", 'k');
    JoinAfter(build, "makeRanking.py", 'k');
    JoinAfter(analyze, "calcProperties.sh", 'k');
  }

  /**
   * The two script directories are root/Scripts/BuildDatabank and
   * root/Scripts/AnalyzeDatabank; the four building scripts lie directly in
   * the first and calcProperties.sh directly in the second.
   */
  lemma PathLayout(root: string)
    ensures GetDatabankPaths(root)[Builddatabank] == ScriptsDir(root) + "/BuildDatabank"
    ensures GetDatabankPaths(root)[AnalyzeDatabank] == ScriptsDir(root) + "/AnalyzeDatabank"
    ensures GetDatabankPaths(root)[AddData] == GetDatabankPaths(root)[Builddatabank] + "/AddData.py"
    ensures GetDatabankPaths(root)[SearchDatabank] == GetDatabankPaths(root)[Builddatabank] + "/searchDATABANK.py"
    ensures GetDatabankPaths(root)[QualityEvaluation] == GetDatabankPaths(root)[Builddatabank] + "/QualityEvaluation.py"
    ensures GetDatabankPaths(root)[MakeRanking] == GetDatabankPaths(root)[Builddatabank] + "/makeRanking.py"
    ensures GetDatabankPaths(root)[CalcProperties] == GetDatabankPaths(root)[AnalyzeDatabank] + "/calcProperties.sh"
  {
    Entries(root);
    DirectoryJoins(root);
    var build := ScriptsDir(root) + "/BuildDatabank";
    var analyze := ScriptsDir(root) + "/AnalyzeDatabank";
    assert build[|build| - 1] == 'k' && analyze[|analyze| - 1] == 'k';
    FileJoins(build, analyze);
  }

  /** Every returned path starts with the root's Scripts directory followed by a separator. */
  lemma PathsUnderScripts(root: string)
    ensures forall k :: k in GetDatabankPaths(root) ==> ScriptsDir(root) + "/" <= GetDatabankPaths(root)[k]
  {
    var paths := GetDatabankPaths(root);
    PathLayout(root);
    LayoutUnder(ScriptsDir(root), paths[Builddatabank], paths[AnalyzeDatabank], paths[AddData],
                paths[SearchDatabank], paths[QualityEvaluation], paths[MakeRanking],
                paths[CalcProperties]);
    forall k | k in paths
      ensures ScriptsDir(root) + "/" <= paths[k]
    {
      match k
      case Builddatabank =>
      case AddData =>
      case AnalyzeDatabank =>
      case CalcProperties =>
      case SearchDatabank =>
      case QualityEvaluation =>
      case MakeRanking =>
    }
  }

  /** Paths laid out as root/Scripts/{BuildDatabank,AnalyzeDatabank}/<script> all lie under "Scripts/". */
  lemma LayoutUnder(scripts: string, build: string, analyze: string, addData: string, search: string,
                    quality: string, ranking: string, properties: string)
    requires build == scripts + "/BuildDatabank" && analyze == scripts + "/AnalyzeDatabank"
    requires addData == build + "/AddData.py" && search == build + "/searchDATABANK.py"
    requires quality == build + "/QualityEvaluation.py" && ranking == build + "/makeRanking.py"
    requires properties == analyze + "/calcProperties.sh"
    ensures scripts + "/" <= build && scripts + "/" <= analyze
    ensures scripts + "/" <= addData && scripts + "/" <= search && scripts + "/" <= quality
    ensures scripts + "/" <= ranking && scripts + "/" <= properties
  {
    assert scripts + "/" <= build && scripts + "/" <= analyze;
    assert build <= addData && build <= search && build <= quality && build <= ranking;
    assert analyze <= properties;
  }

  /** Every returned path starts with the root followed by "Scripts". */
  lemma PathsUnderRoot(root: string)
    ensures forall k :: k in GetDatabankPaths(root) ==> root <= GetDatabankPaths(root)[k]
    ensures forall k :: k in GetDatabankPaths(root) ==> ScriptsDir(root) <= GetDatabankPaths(root)[k]
  {
    ScriptsDirShape(root);
    PathsUnderScripts(root);
    var paths := GetDatabankPaths(root);
    var scripts := ScriptsDir(root);
    forall k | k in paths
      ensures root <= paths[k] && scripts <= paths[k]
    {
      PrefixTransitive(scripts, scripts + "/", paths[k]);
      PrefixTransitive(root, scripts, paths[k]);
    }
  }

  /** A prefix of a prefix is a prefix. */
  lemma PrefixTransitive(a: string, b: string, c: string)
    requires a <= b && b <= c
    ensures a <= c
  {
    assert c[..|a|] == b[..|a|];
  }

  /** The values of the dictionary are its seven entries. */
  lemma PathValues(root: string)
    ensures GetDatabankPaths(root).Values ==
      {GetDatabankPaths(root)[Builddatabank], GetDatabankPaths(root)[AnalyzeDatabank],
       GetDatabankPaths(root)[AddData], GetDatabankPaths(root)[SearchDatabank],
       GetDatabankPaths(root)[QualityEvaluation], GetDatabankPaths(root)[MakeRanking],
       GetDatabankPaths(root)[CalcProperties]}
  {
  }

  /** Paths laid out as root/Scripts/{BuildDatabank,AnalyzeDatabank}/<script> are all different. */
  lemma LayoutDistinct(scripts: string, build: string, analyze: string, addData: string, search: string,
                       quality: string, ranking: string, properties: string)
    requires build == scripts + "/BuildDatabank" && analyze == scripts + "/AnalyzeDatabank"
    requires addData == build + "/AddData.py" && search == build + "/searchDATABANK.py"
    requires quality == build + "/QualityEvaluation.py" && ranking == build + "/makeRanking.py"
    requires properties == analyze + "/calcProperties.sh"
    ensures |{build, analyze, addData, search, quality, ranking, properties}| == 7
  {
    // the first letter after "Scripts/" tells the two directories apart
    var n := |scripts| + 1;
    assert build[n] == 'B' && analyze[n] == 'A';
    assert addData[n] == 'B' && search[n] == 'B' && quality[n] == 'B' && ranking[n] == 'B' && properties[n] == 'A';
    // the first letter of the file name tells the four building scripts apart
    var b := |build| + 1;
    assert addData[b] == 'A' && search[b] == 's' && quality[b] == 'Q' && ranking[b] == 'm';
    assert |build| < |addData| && |build| < |search| && |build| < |quality| && |build| < |ranking|;
    assert |analyze| < |properties|;
  }

  /** The seven returned paths are pairwise distinct: the dictionary holds seven different values. */
  lemma PathsDistinct(root: string)
    ensures |GetDatabankPaths(root).Values| == 7
  {
    PathLayout(root);
    PathValues(root);
    var paths := GetDatabankPaths(root);
    LayoutDistinct(ScriptsDir(root), paths[Builddatabank], paths[AnalyzeDatabank], paths[AddData],
                   paths[SearchDatabank], paths[QualityEvaluation], paths[MakeRanking],
                   paths[CalcProperties]);
  }
}
