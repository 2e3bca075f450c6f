# BzMeshBandsDos command-line logic in Dafny

This project models the parts of the BzMeshBandsDos programs that are sequential
and exact once floating-point numbers are taken as given. It covers three pieces:

- **The CSV exporter of the DOS program** (`export_multiple_vector_to_csv`). It
  takes a list of column vectors and checks that they all have the first one's
  length. Only then does it write a header line of column names and one line per
  value index, with a trailing placeholder column. The model is `CsvExport.Export`,
  a function of the names, the vectors and a number formatter. `CsvExport.ExportCsv`
  is the source's nested-loop method, proved equal to that function.
- **The DOS table assembly and output file name** in the DOS program's `main`.
  For each band, the energy vector and the DOS vector are appended, together
  with the names `energy_band_<b>` and `dos_band_<b>`. The table goes to
  `DOS_<stem>.csv`, named after the mesh file (module `DosMesh`).
- **The band-structure program's `main`** (module `EppMain`). It splits the
  `-p` string into one-character symmetry-point labels and checks the material
  symbol. It then picks one of three modes: all materials × all paths (`-A`),
  one run (both `-m` and `-p` given), or status 1. A band-structure run is a
  `BandStructure` object whose numerics are not modelled: it records the calls
  made on it (initialise, compute sequentially or in parallel, adjust,
  export), so the model can state their order and arguments.

Conventions:

- Doubles are `real`.
- The text `std::ofstream` prints for a double is a parameter `fmt: real -> string`.
  This includes the placeholder value 0.0.
- A written file is its list of lines. Each line is followed by `"\n"` in the file.
- The material registry (`Materials.Find`) is a list of materials in its own
  iteration order. A failed `.at` lookup is an uncaught `std::out_of_range`,
  which ends the process (`Outcome.UncaughtOutOfRange`).

## Model

| member | source | states |
|---|---|---|
| `CsvExport.Export` | apps/DOS_MeshBZ.cpp:24-52 | nothing is written for an empty vector list; a size mismatch is reported, and no file is written, exactly when some vector's length differs from the first's; the report carries the first vector's size and the size of the first vector that differs (`FirstMismatch`); otherwise the file has one header line plus one line per value of the first vector, and line i+1 is row i |
| `CsvExport.FirstMismatch` | apps/DOS_MeshBZ.cpp:30-37 | the validation loop finds no mismatch iff every vector from the start index on has the reference size; otherwise it finds the first index whose vector differs |
| `CsvExport.HeaderFields` | apps/DOS_MeshBZ.cpp:38-44 | read back as CSV, the header line is the column names followed by `DumbColumn` (for names without commas) |
| `CsvExport.RowFields` | apps/DOS_MeshBZ.cpp:45-50 | read back as CSV, data line i has exactly `|vectors| + 1` fields: field j is the formatted value i of vector j (the transpose) and the last is the formatted 0.0 |
| `CsvExport.ExportCsv` | apps/DOS_MeshBZ.cpp:24-52 | the source's validation loop, header loop and nested row/column loops produce exactly `Export` |
| `DosMesh.DosHeader` | apps/DOS_MeshBZ.cpp:88-103 | after the band loop there are 2 · number of bands column names |
| `DosMesh.DosColumns` | apps/DOS_MeshBZ.cpp:87-103 | after the band loop there are 2 · number of bands column vectors |
| `DosMesh.DosTableLayout` | apps/DOS_MeshBZ.cpp:94-103 | entries 2b and 2b+1 are `energy_band_b` / `dos_band_b` and band b's energy / DOS vectors, in band order |
| `DosMesh.DosHeaderDistinct` | apps/DOS_MeshBZ.cpp:99-100 | no two column names of the DOS table are equal |
| `DosMesh.AssembleDosTable` | apps/DOS_MeshBZ.cpp:87-103 | the push_back loop builds exactly `DosHeader` and `DosColumns` |
| `DosMesh.DosExportWritten` | apps/DOS_MeshBZ.cpp:94-108 | the DOS table is written iff there is at least one band and every band's energy and DOS vectors share one length; it then has one data line per energy |
| `DosMesh.FileName` | apps/DOS_MeshBZ.cpp:105 | the file name has no '/' and is a suffix of the path |
| `DosMesh.StripExtension` | apps/DOS_MeshBZ.cpp:106 | removing an extension gives a prefix of the name and leaves a name without '.' unchanged |
| `DosMesh.StripOneExtension` | apps/DOS_MeshBZ.cpp:106 | `base.ext` loses exactly `.ext` when ext has no '.' and base is neither empty nor "." |
| `DosMesh.DosStem` | apps/DOS_MeshBZ.cpp:105-106 | the stem is a prefix of the file name and contains no directory separator |
| `DosMesh.OutputName` | apps/DOS_MeshBZ.cpp:106-108 | the output name starts with `DOS_`, ends with `.csv` and has no directory part |
| `DosMesh.OutputNameTwoExtensions` | apps/DOS_MeshBZ.cpp:105-108 | the mesh file `dir/base.e1.e2` gives `DOS_base.csv` |
| `DosMesh.OutputNameOneExtension` | apps/DOS_MeshBZ.cpp:105-108 | the mesh file `dir/base.ext` gives `DOS_base.csv` |
| `DosMesh.DosProgram` | apps/DOS_MeshBZ.cpp:77-110 | the program terminates iff the material symbol is unknown; otherwise it finishes and names its CSV file `OutputName(mesh file)` |
| `DosMesh.DosMain` | apps/DOS_MeshBZ.cpp:77-110 | lookup, table assembly, naming and export together behave as `DosProgram` |
| `Materials.Find` | apps/EmpiricalPseudoPotentialMain.cpp:135-136 | the lookup succeeds iff some registry entry has the symbol, and then returns an entry with that symbol |
| `Text.NatToString` | apps/DOS_MeshBZ.cpp:99-100 | `std::to_string` of a band index is a non-empty string of decimal digits without a leading zero |
| `Text.DecimalRoundTrip` | apps/DOS_MeshBZ.cpp:99-100 | reading the decimal rendering back gives the index again |
| `EppMain.PathPoints` | apps/EmpiricalPseudoPotentialMain.cpp:128-131 | the label list has the string's length, and label i is the one-character string of character i |
| `EppMain.PathPointsJoin` | apps/EmpiricalPseudoPotentialMain.cpp:128-131 | joining the labels gives the path string back |
| `EppMain.SplitPath` | apps/EmpiricalPseudoPotentialMain.cpp:128-132 | the resize-then-fill loop produces exactly `PathPoints` |
| `EppMain.PathList` | apps/EmpiricalPseudoPotentialMain.cpp:126-133 | `path_list` is empty unless `-p` was set explicitly; otherwise it is the characters of the string as labels |
| `EppMain.BandStructure.constructor` | src/EPP/BandStructure.h:14 | a new band structure has 0 points, 10 bands and 10 nearest neighbours |
| `EppMain.BandStructure.Initialize` | src/EPP/BandStructure.h:16-30 | initialising records the call with its five arguments; that it also keeps the material, band count, path, point count and neighbour count is taken from the documentation comment, since the body is not part of this model |
| `EppMain.BandStructure.Compute` | src/EPP/BandStructure.h:48 | the sequential compute appends its call to the trace and changes no other field |
| `EppMain.BandStructure.ComputeParallel` | src/EPP/BandStructure.h:49 | the parallel compute appends its call, with the thread count, to the trace and changes no other field |
| `EppMain.BandStructure.AdjustValues` | src/EPP/BandStructure.h:50 | adjusting appends its call to the trace and changes no other field |
| `EppMain.BandStructure.ExportResultInFile` | src/EPP/BandStructure.h:55 | the export appends its call, with the result directory, to the trace and changes no other field |
| `EppMain.ComputePathMat` | apps/EmpiricalPseudoPotentialMain.cpp:40-56 | a single run calls Initialize, the sequential Compute, AdjustValues and the export, in that order, and returns 0 |
| `EppMain.PathRuns` | apps/EmpiricalPseudoPotentialMain.cpp:68-85 | one material's runs over all paths are four calls per path |
| `EppMain.AllRunsLength` | apps/EmpiricalPseudoPotentialMain.cpp:65-86 | all-materials mode makes 4 · |paths| · |materials| calls: four per (material, path) pair |
| `EppMain.PathRunsAt` | apps/EmpiricalPseudoPotentialMain.cpp:68-85 | a material's run over path p occupies calls 4p to 4p+3 of its block: initialised with that material and path, computed in parallel with the requested thread count, adjusted, exported |
| `EppMain.AllRunsBlock` | apps/EmpiricalPseudoPotentialMain.cpp:58-89 | in all-materials mode a material's runs are one contiguous block that starts right after the runs of every material before it in the registry: materials outermost, paths innermost |
| `EppMain.AllRunsAreParallel` | apps/EmpiricalPseudoPotentialMain.cpp:82 | all-materials mode never calls the sequential Compute, and every parallel compute gets the requested thread count |
| `EppMain.ComputeAllPathAllMat` | apps/EmpiricalPseudoPotentialMain.cpp:58-89 | the nested material/path loops produce exactly `AllRuns` and return 0 |
| `EppMain.MainProgram` | apps/EmpiricalPseudoPotentialMain.cpp:120-168 | path split, material check and the if / else-if chain behave as `MainBehaviour` |
| `EppMain.UnknownMaterialAborts` | apps/EmpiricalPseudoPotentialMain.cpp:135-136 | an unknown material symbol ends the process before any band-structure call, even with `-A` |
| `EppMain.AllSwitchTakesPriority` | apps/EmpiricalPseudoPotentialMain.cpp:147-153 | with `-A`, the path string and whether `-m` / `-p` were given make no difference |
| `EppMain.ExitOneIffUnderspecified` | apps/EmpiricalPseudoPotentialMain.cpp:154-166 | `main` returns 1 iff the material is known, `-A` is off and `-m` or `-p` was not given explicitly; nothing is computed then |
| `EppMain.DefaultsComputeNothing` | apps/EmpiricalPseudoPotentialMain.cpp:93-99 | with no option given, the defaults "LGXUG" and "Si" do not start a run: `main` returns 1 |
| `EppMain.SingleModeRun` | apps/EmpiricalPseudoPotentialMain.cpp:154-162 | single mode makes one run on the looked-up material and the `-p` labels: Initialize, the sequential Compute, AdjustValues, export; status 0 |
| `EppMain.ParallelOnlyInAllMode` | apps/EmpiricalPseudoPotentialMain.cpp:52 | the sequential Compute happens only without `-A`; a parallel compute happens only with `-A`, with the `-j` thread count |

## Left out

- Band-structure numerics declared in src/EPP/BandStructure.h are opaque calls:
  basis generation, Hamiltonian diagonalisation, `Compute`, `Compute_parralel`,
  `FindBandgap` and `AdjustValues`. Their bodies are not part of this model.
  Only the order and arguments of the calls are modelled.
- `path_band_filename` and `export_result_in_file`: the export is recorded with its
  result directory only. The file name the band structure derives is not modelled.
- Reading the mesh (`read_mesh_geometry_from_msh_file`, `read_mesh_bands_from_msh_file`),
  the mesh volume and the tetrahedron DOS integration are left out because they are
  file I/O and floating point. The band count and each band's result of
  `compute_dos_band_at_band_auto` are parameters. Each band's result is taken to
  hold two vectors; fewer would be out-of-bounds access in the source.
- Threads: `Compute_parralel` and the multithreaded DOS are recorded or abstracted.
  Their concurrency is not modelled.
- TCLAP parsing is left out. The model starts from each option's value and whether
  it was set.
- Console output is left out: argument printing, the mismatch message text and the
  iso-computing statistics. The mismatch is the value `SizeMismatch(expected, found)`.
- `create_directories` and the four-second sleep are left out.
- Every band-structure call, and `create_directories`, is assumed to return normally. An
  unknown symmetry-point label in `Initialize`, or an export into a directory that cannot be
  written, would throw in the source. The status 0 of `EppMain.ComputePathMat`,
  `EppMain.ComputeAllPathAllMat` and `EppMain.SingleModeRun` rests on this assumption.
- Strings are sequences of `char`, and each `char` stands for one byte of the C++
  `std::string`. `EppMain.PathPoints` and `EppMain.SplitPath` therefore agree with the source
  only for one-byte (ASCII) labels: the source splits a multi-byte UTF-8 label such as "Γ"
  into one label per byte.
- The formatting of doubles by `std::ofstream` is the parameter `fmt`.
- `CsvExport.RowFields` assumes that formatted numbers contain no comma.
- The `filename` argument of the exporter appears only through `DosMesh.OutputName`.
  Whether the file can be opened is not modelled.
- Path handling follows POSIX `std::filesystem` rules with '/' as the only separator.
  Windows root names and separators are not modelled.
- `int` options are modelled as unbounded integers. Their conversion to the
  unsigned parameters of `compute_path_mat` and `Initialize` is not modelled,
  because the types of the `Options` fields are not part of this model. This
  matters only for negative values.
- Material.h, Options.h, SymmetryPoints.h and the material table's physical data
  are not part of this model. A material is its symbol and lattice constant.
  The list of paths for all-materials mode is a parameter.
- src/EPP/bz_meshfile.hpp wraps the gmsh library. EmpiricalPseudopotential/EPseudopotentialApp.h
  is a wxWidgets GUI shell. Both are foreign-library code and are not modelled.
