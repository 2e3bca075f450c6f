/**
 * The band-structure program's `main`: it turns the `-p` string into a list
 * of symmetry-point labels, checks the material symbol, and then runs one
 * band structure (material and path both given), every path of every
 * material (`-A`), or nothing (status 1).
 *
 * The numerics of a band-structure run are not modelled: a `BandStructure`
 * object records which of its operations were called, with what, and in
 * which order. The list of paths all-materials mode walks through comes
 * from the options object and is a parameter.
 */
module EppMain {
  import opened Optional
  import opened Text
  import opened Materials

  /**
   * The parsed command line: each option's value (its default when it was
   * not given), whether `-p` and `-m` were given explicitly, and the `-A` switch.
   */
  datatype Flags = Flags(
    path: string, pathSet: bool,
    material: string, materialSet: bool,
    nbPoints: int, nbBands: int, nearestNeighbors: int, nbThreads: int,
    resultDir: string, all: bool)

  /** What `main` sees when no option at all is given. */
  const Defaults: Flags := Flags("LGXUG", false, "Si", false, 80, 12, 10, 1, "EPP_RESULTS", false)

  // ---------------------------------------------------------------------------
  // The `-p` string as a list of labels
  // ---------------------------------------------------------------------------

  /** Each character of a path string as a one-character label, in order. */
  function PathPoints(s: string): (r: seq<string>)
    ensures |r| == |s|
    ensures forall i :: 0 <= i < |s| ==> r[i] == [s[i]]
  {
    if s == [] then [] else [[s[0]]] + PathPoints(s[1..])
  }

  /** Writing the labels one after another gives the path string back. */
  lemma {:induction false} PathPointsJoin(s: string)
    ensures Concat(PathPoints(s)) == s
  {
    if s != [] {
      PathPointsJoin(s[1..]);
      assert PathPoints(s)[1..] == PathPoints(s[1..]);
      assert [s[0]] + s[1..] == s;
    }
  }

  /** `path_list` is resized to the string's length and filled index by index. */
  method SplitPath(s: string) returns (pathList: seq<string>)
    ensures pathList == PathPoints(s)
  {
    pathList := seq(|s|, _ => "");
    for i := 0 to |s|
      invariant |pathList| == |s|
      invariant forall k :: 0 <= k < i ==> pathList[k] == [s[k]]
    {
      pathList := pathList[i := [s[i]]];
    }
  }

  /** The labels `main` hands on: empty unless `-p` was given explicitly. */
  function PathList(f: Flags): (r: seq<string>)
    ensures !f.pathSet ==> r == []
    ensures f.pathSet ==> |r| == |f.path| && forall i :: 0 <= i < |r| ==> r[i] == [f.path[i]]
  {
    if f.pathSet then PathPoints(f.path) else []
  }

  // ---------------------------------------------------------------------------
  // One band-structure run
  // ---------------------------------------------------------------------------

  /** The settings an `Options` object carries into a run. */
  datatype RunOptions = RunOptions(nrLevels: int, nrPoints: int, nearestNeighbors: int)

  /** How the energies are computed: `Compute()` or `Compute_parralel(nbThreads)`. */
  datatype Schedule = Sequential | Parallel(nbThreads: int)

  /** A call made on a `BandStructure`; the export goes to `resultDir/<path file name>.txt`. */
  datatype Call =
    | Initialize(material: Material, nbBands: int, path: seq<string>, nbPoints: int, nearestNeighbors: int)
    | Compute
    | ComputeParallel(nbThreads: int)
    | AdjustValues
    | ExportResult(resultDir: string)

  /**
   * A band structure with its numerics left out: the fields `Initialize`
   * stores and the calls made on it so far.
   */
  class BandStructure {
    var material: Option<Material>
    var nbBands: int
    var path: seq<string>
    var nbPoints: int
    var nearestNeighborsNumber: int
    var calls: seq<Call>

    /** The default constructor: 0 points, 10 bands, 10 nearest neighbours. */
    constructor ()
      ensures material == None && path == [] && calls == []
      ensures nbPoints == 0 && nbBands == 10 && nearestNeighborsNumber == 10
    {
      material, path, calls := None, [], [];
      nbPoints, nbBands, nearestNeighborsNumber := 0, 10, 10;
    }

    method Initialize(m: Material, bands: int, p: seq<string>, points: int, neighbors: int)
      modifies this
      ensures material == Some(m) && nbBands == bands && path == p
      ensures nbPoints == points && nearestNeighborsNumber == neighbors
      ensures calls == old(calls) + [Call.Initialize(m, bands, p, points, neighbors)]
    {
      material, nbBands, path, nbPoints, nearestNeighborsNumber := Some(m), bands, p, points, neighbors;
      calls := calls + [Call.Initialize(m, bands, p, points, neighbors)];
    }

    method Compute()
      modifies this`calls
      ensures calls == old(calls) + [Call.Compute]
    {
      calls := calls + [Call.Compute];
    }

    method ComputeParallel(nbThreads: int)
      modifies this`calls
      ensures calls == old(calls) + [Call.ComputeParallel(nbThreads)]
    {
      calls := calls + [Call.ComputeParallel(nbThreads)];
    }

    method AdjustValues()
      modifies this`calls
      ensures calls == old(calls) + [Call.AdjustValues]
    {
      calls := calls + [Call.AdjustValues];
    }

    method ExportResultInFile(resultDir: string)
      modifies this`calls
      ensures calls == old(calls) + [Call.ExportResult(resultDir)]
    {
      calls := calls + [Call.ExportResult(resultDir)];
    }
  }

  /** The calls of one run: initialise, compute, adjust, export. */
  function BandRun(material: Material, path: seq<string>, opts: RunOptions, resultDir: string,
                   schedule: Schedule): (r: seq<Call>)
    ensures |r| == 4
  {
    [Call.Initialize(material, opts.nrLevels, path, opts.nrPoints, opts.nearestNeighbors),
     match schedule
     case Sequential => Call.Compute
     case Parallel(n) => Call.ComputeParallel(n),
     Call.AdjustValues,
     Call.ExportResult(resultDir)]
  }

  /** `compute_path_mat`: one sequential run; the thread count plays no part. */
  method ComputePathMat(material: Material, path: seq<string>, nbPoints: int, nbBands: int,
                        nearestNeighbors: int, resultDir: string)
    returns (status: int, calls: seq<Call>)
    ensures status == 0
    ensures calls == BandRun(material, path, RunOptions(nbBands, nbPoints, nearestNeighbors), resultDir, Sequential)
  {
    var opts := RunOptions(nbBands, nbPoints, nearestNeighbors);
    var bandStructure := new BandStructure();
    bandStructure.Initialize(material, opts.nrLevels, path, opts.nrPoints, opts.nearestNeighbors);
    bandStructure.Compute();
    bandStructure.AdjustValues();
    bandStructure.ExportResultInFile(resultDir);
    return 0, bandStructure.calls;
  }

  // ---------------------------------------------------------------------------
  // Every path of every material
  // ---------------------------------------------------------------------------

  /** Parallel runs of one material over the given paths, in path order. */
  function PathRuns(material: Material, paths: seq<seq<string>>, opts: RunOptions, nbThreads: int,
                    resultDir: string): (r: seq<Call>)
    ensures |r| == 4 * |paths|
  {
    if paths == [] then []
    else PathRuns(material, paths[..|paths| - 1], opts, nbThreads, resultDir)
         + BandRun(material, paths[|paths| - 1], opts, resultDir, Parallel(nbThreads))
  }

  /** Runs for every material, in registry order, each over every path. */
  function AllRuns(registry: seq<Material>, paths: seq<seq<string>>, opts: RunOptions, nbThreads: int,
                   resultDir: string): (r: seq<Call>)
  {
    if registry == [] then []
    else AllRuns(registry[..|registry| - 1], paths, opts, nbThreads, resultDir)
         + PathRuns(registry[|registry| - 1], paths, opts, nbThreads, resultDir)
  }

  /** All-materials mode makes four calls for every (material, path) pair. */
  lemma {:induction false} AllRunsLength(registry: seq<Material>, paths: seq<seq<string>>, opts: RunOptions,
                                         nbThreads: int, resultDir: string)
    ensures |AllRuns(registry, paths, opts, nbThreads, resultDir)| == 4 * |paths| * |registry|
  {
    if registry != [] {
      var n := |registry|;
      AllRunsLength(registry[..n - 1], paths, opts, nbThreads, resultDir);
      assert 4 * |paths| * (n - 1) + 4 * |paths| == 4 * |paths| * n;
    }
  }

  /** Run `p` of a material's runs occupies calls 4p .. 4p + 3. */
  lemma {:induction false} PathRunsAt(material: Material, paths: seq<seq<string>>, opts: RunOptions,
                                      nbThreads: int, resultDir: string, p: nat, t: nat)
    requires p < |paths| && t < 4
    ensures PathRuns(material, paths, opts, nbThreads, resultDir)[4 * p + t]
         == BandRun(material, paths[p], opts, resultDir, Parallel(nbThreads))[t]
  {
    if p < |paths| - 1 {
      PathRunsAt(material, paths[..|paths| - 1], opts, nbThreads, resultDir, p, t);
    }
  }

  /**
   * In all-materials mode, a material's runs are the block of calls that
   * follows the runs of every material before it in the registry: materials
   * outermost, paths innermost. Within the block, run p is calls 4p .. 4p + 3
   * (`PathRunsAt`), and every earlier material contributed 4 * |paths| calls
   * (`AllRunsLength`).
   */
  lemma {:induction false} AllRunsBlock(before: seq<Material>, material: Material, after: seq<Material>,
                                        paths: seq<seq<string>>, opts: RunOptions, nbThreads: int,
                                        resultDir: string, j: nat)
    requires j < 4 * |paths|
    ensures var k := |AllRuns(before, paths, opts, nbThreads, resultDir)| + j;
      k < |AllRuns(before + [material] + after, paths, opts, nbThreads, resultDir)| &&
      AllRuns(before + [material] + after, paths, opts, nbThreads, resultDir)[k]
        == PathRuns(material, paths, opts, nbThreads, resultDir)[j]
  {
    var registry := before + [material] + after;
    var k := |AllRuns(before, paths, opts, nbThreads, resultDir)| + j;
    var last := registry[|registry| - 1];
    var whole := AllRuns(registry, paths, opts, nbThreads, resultDir);
    var prefix := AllRuns(registry[..|registry| - 1], paths, opts, nbThreads, resultDir);
    assert whole == prefix + PathRuns(last, paths, opts, nbThreads, resultDir);
    if after == [] {
      assert registry[..|registry| - 1] == before;
      assert last == material;
    } else {
      var shorter := before + [material] + after[..|after| - 1];
      assert registry[..|registry| - 1] == shorter;
      AllRunsBlock(before, material, after[..|after| - 1], paths, opts, nbThreads, resultDir, j);
      assert k < |prefix|;
    }
  }

  /** All-materials mode never calls the sequential `Compute()`. */
  lemma {:induction false} AllRunsAreParallel(registry: seq<Material>, paths: seq<seq<string>>,
                                              opts: RunOptions, nbThreads: int, resultDir: string)
    ensures Call.Compute !in AllRuns(registry, paths, opts, nbThreads, resultDir)
    ensures forall k :: 0 <= k < |AllRuns(registry, paths, opts, nbThreads, resultDir)| &&
                        AllRuns(registry, paths, opts, nbThreads, resultDir)[k].ComputeParallel? ==>
                        AllRuns(registry, paths, opts, nbThreads, resultDir)[k].nbThreads == nbThreads
  {
    if registry != [] {
      AllRunsAreParallel(registry[..|registry| - 1], paths, opts, nbThreads, resultDir);
      PathRunsAreParallel(registry[|registry| - 1], paths, opts, nbThreads, resultDir);
    }
  }

  lemma {:induction false} PathRunsAreParallel(material: Material, paths: seq<seq<string>>,
                                               opts: RunOptions, nbThreads: int, resultDir: string)
    ensures Call.Compute !in PathRuns(material, paths, opts, nbThreads, resultDir)
    ensures forall k :: 0 <= k < |PathRuns(material, paths, opts, nbThreads, resultDir)| &&
                        PathRuns(material, paths, opts, nbThreads, resultDir)[k].ComputeParallel? ==>
                        PathRuns(material, paths, opts, nbThreads, resultDir)[k].nbThreads == nbThreads
  {
    if paths != [] {
      PathRunsAreParallel(material, paths[..|paths| - 1], opts, nbThreads, resultDir);
    }
  }

  /**
   * `compute_all_path_all_mat`: for every material, for every path, a fresh
   * band structure is initialised, computed in parallel, adjusted and exported.
   */
  method ComputeAllPathAllMat(registry: seq<Material>, paths: seq<seq<string>>, nbBands: int,
                              nearestNeighbors: int, nrPoints: int, nbThreads: int, resultDir: string)
    returns (status: int, calls: seq<Call>)
    ensures status == 0
    ensures calls == AllRuns(registry, paths, RunOptions(nbBands, nrPoints, nearestNeighbors), nbThreads, resultDir)
  {
    var opts := RunOptions(nbBands, nrPoints, nearestNeighbors);
    calls := [];
    for m := 0 to |registry|
      invariant calls == AllRuns(registry[..m], paths, opts, nbThreads, resultDir)
    {
      for p := 0 to |paths|
        invariant calls == AllRuns(registry[..m], paths, opts, nbThreads, resultDir)
                           + PathRuns(registry[m], paths[..p], opts, nbThreads, resultDir)
      {
        var bandStructure := new BandStructure();
        bandStructure.Initialize(registry[m], opts.nrLevels, paths[p], opts.nrPoints, opts.nearestNeighbors);
        bandStructure.ComputeParallel(nbThreads);
        bandStructure.AdjustValues();
        bandStructure.ExportResultInFile(resultDir);
        var run := BandRun(registry[m], paths[p], opts, resultDir, Parallel(nbThreads));
        assert bandStructure.calls == run;
        assert paths[..p + 1][..p] == paths[..p];
        assert PathRuns(registry[m], paths[..p + 1], opts, nbThreads, resultDir)
            == PathRuns(registry[m], paths[..p], opts, nbThreads, resultDir) + run;
        calls := calls + bandStructure.calls;
      }
      assert paths[..|paths|] == paths;
      assert registry[..m + 1][..m] == registry[..m];
      assert AllRuns(registry[..m + 1], paths, opts, nbThreads, resultDir)
          == AllRuns(registry[..m], paths, opts, nbThreads, resultDir)
             + PathRuns(registry[m], paths, opts, nbThreads, resultDir);
    }
    assert registry[..|registry|] == registry;
    status := 0;
  }

  // ---------------------------------------------------------------------------
  // main
  // ---------------------------------------------------------------------------

  datatype Mode = AllMaterials | SinglePath | NothingSpecified

  /** The if / else-if chain of `main`: `-A` first, then both `-m` and `-p` given explicitly. */
  function SelectMode(f: Flags): Mode {
    if f.all then AllMaterials
    else if f.materialSet && f.pathSet then SinglePath
    else NothingSpecified
  }

  function RunOptionsOf(f: Flags): RunOptions {
    RunOptions(f.nbBands, f.nbPoints, f.nearestNeighbors)
  }

  /** What `main` does, given the registry and the list of paths all-materials mode uses. */
  function MainBehaviour(f: Flags, registry: seq<Material>, paths: seq<seq<string>>): (r: (Outcome, seq<Call>))
  {
    match Find(registry, f.material)
    case None => (UncaughtOutOfRange(f.material), [])
    case Some(m) =>
      match SelectMode(f)
      case AllMaterials => (Exit(0), AllRuns(registry, paths, RunOptionsOf(f), f.nbThreads, f.resultDir))
      case SinglePath => (Exit(0), BandRun(m, PathList(f), RunOptionsOf(f), f.resultDir, Sequential))
      case NothingSpecified => (Exit(1), [])
  }

  /** `main`, from the path split to the chosen computation. */
  method MainProgram(f: Flags, registry: seq<Material>, paths: seq<seq<string>>)
    returns (outcome: Outcome, calls: seq<Call>)
    ensures (outcome, calls) == MainBehaviour(f, registry, paths)
  {
    var pathList: seq<string> := [];
    if f.pathSet {
      pathList := SplitPath(f.path);
    }
    var found := Find(registry, f.material);
    if found.None? {
      return UncaughtOutOfRange(f.material), [];
    }
    var status: int;
    if f.all {
      status, calls := ComputeAllPathAllMat(registry, paths, f.nbBands, f.nearestNeighbors, f.nbPoints,
                                            f.nbThreads, f.resultDir);
    } else if f.materialSet && f.pathSet {
      status, calls := ComputePathMat(found.value, pathList, f.nbPoints, f.nbBands, f.nearestNeighbors,
                                      f.resultDir);
    } else {
      status, calls := 1, [];
    }
    outcome := Exit(status);
  }

  /** An unknown material symbol ends the process before any run starts, whatever the other flags say. */
  lemma UnknownMaterialAborts(f: Flags, registry: seq<Material>, paths: seq<seq<string>>)
    requires forall i :: 0 <= i < |registry| ==> registry[i].symbol != f.material
    ensures MainBehaviour(f, registry, paths) == (UncaughtOutOfRange(f.material), [])
  {
  }

  /**
   * `-A` wins over every other flag: two command lines that agree on the
   * symbol and the numeric settings but differ in `-p`, in whether `-m` or
   * `-p` were given, behave the same when both carry `-A`.
   */
  lemma AllSwitchTakesPriority(f: Flags, g: Flags, registry: seq<Material>, paths: seq<seq<string>>)
    requires f.all && g.all
    requires f.material == g.material && f.nbPoints == g.nbPoints && f.nbBands == g.nbBands
    requires f.nearestNeighbors == g.nearestNeighbors && f.nbThreads == g.nbThreads && f.resultDir == g.resultDir
    ensures MainBehaviour(f, registry, paths) == MainBehaviour(g, registry, paths)
  {
  }

  /**
   * Status 1 is returned exactly when the material is known, `-A` is off and
   * `-m` or `-p` was left at its default; a single run needs both given.
   */
  lemma ExitOneIffUnderspecified(f: Flags, registry: seq<Material>, paths: seq<seq<string>>)
    ensures MainBehaviour(f, registry, paths).0 == Exit(1)
        <==> Find(registry, f.material).Some? && !f.all && !(f.materialSet && f.pathSet)
    ensures MainBehaviour(f, registry, paths).0 == Exit(1) ==> MainBehaviour(f, registry, paths).1 == []
  {
  }

  /** With no option given, `main` computes nothing and returns 1, although defaults exist for both. */
  lemma DefaultsComputeNothing(registry: seq<Material>, paths: seq<seq<string>>)
    requires exists i :: 0 <= i < |registry| && registry[i].symbol == "Si"
    ensures MainBehaviour(Defaults, registry, paths) == (Exit(1), [])
  {
  }

  /**
   * Single mode: one sequential run on the looked-up material and the labels
   * of `-p`, in the order initialise, compute, adjust, export; status 0.
   */
  lemma SingleModeRun(f: Flags, registry: seq<Material>, paths: seq<seq<string>>)
    requires Find(registry, f.material).Some? && !f.all && f.materialSet && f.pathSet
    ensures var (outcome, calls) := MainBehaviour(f, registry, paths);
      outcome == Exit(0) && |calls| == 4 &&
      calls[0].Initialize? && calls[0].material.symbol == f.material && calls[0].path == PathPoints(f.path) &&
      calls[0].nbBands == f.nbBands && calls[0].nbPoints == f.nbPoints &&
      calls[0].nearestNeighbors == f.nearestNeighbors &&
      calls[1] == Call.Compute && calls[2] == Call.AdjustValues && calls[3] == Call.ExportResult(f.resultDir)
  {
  }

  /**
   * The parallel computation, with the `-j` thread count, happens only in
   * all-materials mode; the sequential one only in single mode.
   */
  lemma ParallelOnlyInAllMode(f: Flags, registry: seq<Material>, paths: seq<seq<string>>)
    ensures var calls := MainBehaviour(f, registry, paths).1;
      (Call.Compute in calls ==> !f.all) &&
      forall k :: 0 <= k < |calls| && calls[k].ComputeParallel? ==> f.all && calls[k].nbThreads == f.nbThreads
  {
    if Find(registry, f.material).Some? && f.all {
      AllRunsAreParallel(registry, paths, RunOptionsOf(f), f.nbThreads, f.resultDir);
    }
  }
}
