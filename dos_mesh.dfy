/**
 * The DOS program on a Brillouin-zone mesh: it looks the material up, reads
 * the mesh, computes one energy/DOS pair of vectors per band, lays them out
 * as alternating columns with their names, and exports them to a CSV file
 * named after the mesh file.
 *
 * Reading the mesh and the tetrahedron DOS integration are not modelled:
 * the band count found in the mesh and the per-band result of
 * `compute_dos_band_at_band_auto` are parameters.
 */
module DosMesh {
  import opened Optional
  import opened Text
  import opened Materials
  import opened CsvExport

  /** The two vectors one band's DOS computation returns: energies and densities. */
  datatype DosPair = DosPair(energies: seq<real>, densities: seq<real>)

  const EnergyPrefix: string := "energy_band_"
  const DosPrefix: string := "dos_band_"

  function EnergyColumnName(band: nat): string {
    EnergyPrefix + NatToString(band)
  }

  function DosColumnName(band: nat): string {
    DosPrefix + NatToString(band)
  }

  /** Column names after the band loop has run for bands 0 .. bands - 1. */
  function DosHeader(bands: nat): (h: seq<string>)
    ensures |h| == 2 * bands
  {
    if bands == 0 then []
    else DosHeader(bands - 1) + [EnergyColumnName(bands - 1), DosColumnName(bands - 1)]
  }

  /** Column vectors after the band loop has run for bands 0 .. bands - 1. */
  function DosColumns(bands: nat, dosOfBand: nat -> DosPair): (c: seq<seq<real>>)
    ensures |c| == 2 * bands
  {
    if bands == 0 then []
    else DosColumns(bands - 1, dosOfBand) + [dosOfBand(bands - 1).energies, dosOfBand(bands - 1).densities]
  }

  /**
   * Names and vectors are appended in lockstep: entry 2b is band b's energy
   * column, entry 2b + 1 its DOS column, in band order.
   */
  lemma {:induction false} DosTableLayout(bands: nat, dosOfBand: nat -> DosPair, b: nat)
    requires b < bands
    ensures DosHeader(bands)[2 * b] == EnergyColumnName(b)
    ensures DosHeader(bands)[2 * b + 1] == DosColumnName(b)
    ensures DosColumns(bands, dosOfBand)[2 * b] == dosOfBand(b).energies
    ensures DosColumns(bands, dosOfBand)[2 * b + 1] == dosOfBand(b).densities
  {
    if b < bands - 1 {
      DosTableLayout(bands - 1, dosOfBand, b);
    }
  }

  lemma PrefixedNamesInjective(p: string, a: nat, b: nat)
    requires p + NatToString(a) == p + NatToString(b)
    ensures a == b
  {
    assert (p + NatToString(a))[|p|..] == NatToString(a);
    assert (p + NatToString(b))[|p|..] == NatToString(b);
    NatToStringInjective(a, b);
  }

  lemma EnergyAndDosNamesDiffer(a: nat, b: nat)
    ensures EnergyColumnName(a) != DosColumnName(b)
  {
    assert EnergyColumnName(a)[0] == 'e';
    assert DosColumnName(b)[0] == 'd';
  }

  /** The name at position i of the header: even positions energies, odd positions DOS. */
  function ColumnName(i: nat): string {
    if i % 2 == 0 then EnergyColumnName(i / 2) else DosColumnName(i / 2)
  }

  lemma DosHeaderAt(bands: nat, i: nat)
    requires i < 2 * bands
    ensures DosHeader(bands)[i] == ColumnName(i)
  {
    var f: nat -> DosPair := _ => DosPair([], []);
    DosTableLayout(bands, f, i / 2);
    assert i == 2 * (i / 2) || i == 2 * (i / 2) + 1;
  }

  lemma ColumnNameInjective(i: nat, k: nat)
    requires ColumnName(i) == ColumnName(k)
    ensures i == k
  {
    if i % 2 == 0 && k % 2 == 0 {
      PrefixedNamesInjective(EnergyPrefix, i / 2, k / 2);
    } else if i % 2 == 1 && k % 2 == 1 {
      PrefixedNamesInjective(DosPrefix, i / 2, k / 2);
    } else if i % 2 == 0 {
      EnergyAndDosNamesDiffer(i / 2, k / 2);
    } else {
      EnergyAndDosNamesDiffer(k / 2, i / 2);
    }
  }

  /** No two columns of the DOS table share a name. */
  lemma DosHeaderDistinct(bands: nat, i: nat, k: nat)
    requires i < k < 2 * bands
    ensures DosHeader(bands)[i] != DosHeader(bands)[k]
  {
    DosHeaderAt(bands, i);
    DosHeaderAt(bands, k);
    if ColumnName(i) == ColumnName(k) {
      ColumnNameInjective(i, k);
    }
  }

  /**
   * The band loop of `main`: for each band, push the energy and DOS vectors,
   * then the names `energy_band_<b>` and `dos_band_<b>`.
   */
  method AssembleDosTable(numberBands: nat, dosOfBand: nat -> DosPair)
    returns (header: seq<string>, columns: seq<seq<real>>)
    ensures header == DosHeader(numberBands)
    ensures columns == DosColumns(numberBands, dosOfBand)
  {
    header, columns := [], [];
    for band := 0 to numberBands
      invariant header == DosHeader(band)
      invariant columns == DosColumns(band, dosOfBand)
    {
      var pair := dosOfBand(band);
      columns := columns + [pair.energies];
      columns := columns + [pair.densities];
      header := header + [EnergyColumnName(band)];
      header := header + [DosColumnName(band)];
    }
  }

  /** Every band's energy and DOS vectors have the length of band 0's energy vector. */
  predicate UniformBands(bands: nat, dosOfBand: nat -> DosPair) {
    forall b :: 0 <= b < bands ==>
      |dosOfBand(b).energies| == |dosOfBand(0).energies| &&
      |dosOfBand(b).densities| == |dosOfBand(0).energies|
  }

  /**
   * The DOS table is written exactly when there is at least one band and all
   * bands' vectors share one length; it then has one data line per energy.
   */
  lemma DosExportWritten(bands: nat, dosOfBand: nat -> DosPair, fmt: real -> string)
    ensures var r := Export(DosHeader(bands), DosColumns(bands, dosOfBand), fmt);
      r.Written? <==> bands > 0 && UniformBands(bands, dosOfBand)
    ensures var r := Export(DosHeader(bands), DosColumns(bands, dosOfBand), fmt);
      r.Written? ==> |r.lines| == |dosOfBand(0).energies| + 1
  {
    var columns := DosColumns(bands, dosOfBand);
    if bands > 0 {
      DosTableLayout(bands, dosOfBand, 0);
      var n := |dosOfBand(0).energies|;
      if UniformBands(bands, dosOfBand) {
        forall j | 0 <= j < |columns| ensures |columns[j]| == n {
          DosTableLayout(bands, dosOfBand, j / 2);
        }
      } else {
        var b :| 0 <= b < bands && !(|dosOfBand(b).energies| == n && |dosOfBand(b).densities| == n);
        DosTableLayout(bands, dosOfBand, b);
        assert !AllOfLength(columns, n);
      }
    }
  }

  /** The final path component: everything after the last '/'. */
  function FileName(path: string): (r: string)
    ensures '/' !in r
    ensures |r| <= |path| && r == path[|path| - |r|..]
  {
    match LastIndexOf(path, '/')
    case None => path
    case Some(k) => path[k + 1..]
  }

  function LastIndexOf(s: string, c: char): (r: Option<nat>)
    ensures r.None? <==> c !in s
    ensures r.Some? ==> r.value < |s| && s[r.value] == c && c !in s[r.value + 1..]
  {
    if s == [] then None
    else if s[|s| - 1] == c then Some(|s| - 1)
    else
      assert s == s[..|s| - 1] + [s[|s| - 1]];
      LastIndexOf(s[..|s| - 1], c)
  }

  lemma {:induction false} LastIndexOfAfter(s: string, c: char, t: string)
    requires c !in t
    ensures LastIndexOf(s + [c] + t, c) == Some(|s|)
  {
    var u := s + [c] + t;
    if t != [] {
      assert u[|u| - 1] == t[|t| - 1];
      assert u[..|u| - 1] == s + [c] + t[..|t| - 1];
      LastIndexOfAfter(s, c, t[..|t| - 1]);
    }
  }

  /**
   * `std::filesystem::path(name).replace_extension("")` for a name without a
   * directory part: drop the text from the last '.' on, except for "." and
   * "..", and for a name whose only '.' is its first character.
   */
  function StripExtension(name: string): (r: string)
    ensures r <= name
    ensures '.' !in name ==> r == name
  {
    if name == "." || name == ".." then name
    else
      match LastIndexOf(name, '.')
      case None => name
      case Some(k) => if k == 0 then name else name[..k]
  }

  lemma StripOneExtension(base: string, ext: string)
    requires base != [] && base != "."
    requires '.' !in ext
    ensures StripExtension(base + "." + ext) == base
  {
    LastIndexOfAfter(base, '.', ext);
    assert (base + "." + ext)[..|base|] == base;
  }

  /** `in_path.stem().replace_extension("")`: the file name with up to two extensions removed. */
  function DosStem(meshFile: string): (r: string)
    ensures r <= FileName(meshFile)
    ensures '/' !in r
  {
    StripExtension(StripExtension(FileName(meshFile)))
  }

  /** The CSV file the DOS table goes to, in the working directory. */
  function OutputName(meshFile: string): (r: string)
    ensures |r| >= 8
    ensures r[..4] == "DOS_" && r[|r| - 4..] == ".csv"
    ensures '/' !in r
  {
    var stem := DosStem(meshFile);
    assert '/' !in "DOS_" && '/' !in ".csv";
    assert forall c :: c in "DOS_" + stem + ".csv" ==> c in "DOS_" || c in stem || c in ".csv";
    "DOS_" + stem + ".csv"
  }

  lemma FileNameAfterDirectory(dir: string, name: string)
    requires dir == [] || dir[|dir| - 1] == '/'
    requires '/' !in name
    ensures FileName(dir + name) == name
  {
    if dir != [] {
      LastIndexOfAfter(dir[..|dir| - 1], '/', name);
      assert dir[..|dir| - 1] + ['/'] + name == dir + name;
    } else {
      assert dir + name == name;
    }
  }

  /**
   * The directory is dropped and two extensions are removed: the mesh file
   * `dir/base.e1.e2` gives `DOS_base.csv`.
   */
  lemma OutputNameTwoExtensions(dir: string, base: string, e1: string, e2: string)
    requires dir == [] || dir[|dir| - 1] == '/'
    requires base != [] && '.' !in base && '.' !in e1 && '.' !in e2
    requires '/' !in base && '/' !in e1 && '/' !in e2
    ensures OutputName(dir + base + "." + e1 + "." + e2) == "DOS_" + base + ".csv"
  {
    var name := base + "." + e1 + "." + e2;
    assert dir + base + "." + e1 + "." + e2 == dir + name;
    FileNameAfterDirectory(dir, name);
    assert base != "." by {
      assert base[0] != '.';
    }
    StripOneExtension(base + "." + e1, e2);
    StripOneExtension(base, e1);
  }

  /** A mesh file with a single extension, `dir/base.msh`, gives `DOS_base.csv`. */
  lemma OutputNameOneExtension(dir: string, base: string, ext: string)
    requires dir == [] || dir[|dir| - 1] == '/'
    requires base != [] && '.' !in base && '.' !in ext
    requires '/' !in base && '/' !in ext
    ensures OutputName(dir + base + "." + ext) == "DOS_" + base + ".csv"
  {
    assert dir + base + "." + ext == dir + (base + "." + ext);
    FileNameAfterDirectory(dir, base + "." + ext);
    assert base != "." by {
      assert base[0] != '.';
    }
    StripOneExtension(base, ext);
  }

  /** How one run of the DOS program ends: terminated by the lookup, or finished (status 0). */
  datatype DosRun = Aborted(key: string) | Finished(csvFile: string, result: ExportOutcome)

  /** The DOS program from the material lookup to the export. */
  function DosProgram(meshFile: string, symbol: string, registry: seq<Material>,
                      numberBands: nat, dosOfBand: nat -> DosPair, fmt: real -> string): (r: DosRun)
    ensures r.Aborted? <==> Find(registry, symbol).None?
    ensures r.Finished? ==> r.csvFile == OutputName(meshFile)
  {
    match Find(registry, symbol)
    case None => Aborted(symbol)
    case Some(_) =>
      Finished(OutputName(meshFile), Export(DosHeader(numberBands), DosColumns(numberBands, dosOfBand), fmt))
  }

  /** `main` of the DOS program, with the mesh's content given as parameters. */
  method DosMain(meshFile: string, symbol: string, registry: seq<Material>,
                 numberBands: nat, dosOfBand: nat -> DosPair, fmt: real -> string)
    returns (run: DosRun)
    ensures run == DosProgram(meshFile, symbol, registry, numberBands, dosOfBand, fmt)
  {
    var material := Find(registry, symbol);
    if material.None? {
      return Aborted(symbol);
    }
    var header, columns := AssembleDosTable(numberBands, dosOfBand);
    var outFile := "DOS_" + DosStem(meshFile);
    var result := ExportCsv(header, columns, fmt);
    run := Finished(outFile + ".csv", result);
  }
}
