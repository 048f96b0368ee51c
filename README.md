# nekflows in Dafny

A model of the core of `nekflows`, a small Python package that moves Nek5000
spectral-element fields in and out of flat vectors for modal analysis with
modred. It covers the two modules of the package:

- `nekflows/nek.py`:
  - the vector type `NekVector` with its addition and scaling;
  - the handles `NekHandle` and `ComplexNekHandle`, which gather a field file
    into the flat vector `u ++ v ++ p` and scatter a vector back into a
    template field (a triple loop with a running counter);
  - `get_size`, `mean` and `project`.
- `nekflows/flows.py`, the flow configuration `NekFlowConfig`:
  - the snapshot file names;
  - `load_mesh`: the node coordinates and the mass-matrix weights `dOmega`,
    doubled for the two velocity components;
  - the weighted inner product `dot` and `mask_domain`;
  - the coefficient table of `get_coeffs`;
  - `load_modes` and `load_modes_and_grads`, which fill the columns of
    snapshot matrices and recombine the Laplacian;
  - the masking step of `interp`;
  - `get_velocity` and `get_vorticity`;
  - the four flow cases with their prefixes and default grids.

Layout, one module per file:

| file | module | contents |
|---|---|---|
| `common.dfy` | `Common` | the exceptions under their Python names, `Result`, `Option`, `Outcome`, complex numbers as pairs of reals |
| `fields.dfy` | `Fields` | a field as a list of elements holding `nGLL x nGLL` grids at time level 0; the flat index `i*nGLL^2 + j*nGLL + k`; the one traversal (element, row, column) that every comprehension of the source uses; `_size` |
| `nekvector.dfy` | `NekVectors` | `NekVector`, `__add__`, `__mul__`, reduce-sum and mean, `project` over loaded vectors |
| `storage.dfy` | `Storage` | the file system as maps from path to field and from path to text table, a `Disk` class whose `WriteNek` replaces one entry, `readnek`, `np.loadtxt` with its squeezing |
| `handles.dfy` | `NekHandles` | gathering, the scatter loop of `_put` proved against the function `Written`, the two handles, `get_size`, `mean` over handles |
| `decimal.dfy` | `Decimal` | the `05d` integer format and its inverse on digit strings |
| `flows.dfy` | `Flows` | file names, `load_mesh`, the inner product, masking, `NekFlowConfig` as a class whose methods update its matrices in place |

Conventions:

- Numbers are `real`. A `NekVector`'s float data is held as complex
  entries with zero imaginary part (`Lift`); coordinates, weights and the
  columns of the matrices are lists of reals.
- File reads and writes are lookups in, and updates of, maps from path to
  content.
- Each exception the code can raise is a `Result` error named after its
  Python exception. `FileNotFound` stands for pymech or numpy failing to
  open a file.
- A matrix is a list of columns: `U[i]` is column `i` of `self.U`.
- Where the code and its documentation differ, the model follows the code:
  - `_put` accepts vectors longer than `3n` and ignores the surplus; a
    shorter one raises `IndexError` before anything is written.
  - `ComplexNekHandle._put_vector` reads each target file as its own
    template, so both part files must already exist.
  - Putting complex data through a real `NekHandle` keeps the real parts,
    as numpy's cast into a float array does.
  - `load_mesh` does not check the number of weights in the mass matrix.
    For a one-column or one-row file, `dOmega` has twice as many entries
    as the file has numbers; a file holding a single number raises
    `ValueError`.

## Model

| member | source | states |
|---|---|---|
| `Common.RealPartsOfLift` | nekflows/nek.py:162 | taking the real parts of a float array promoted to complex gives the array back |
| `Fields.PointsIsProduct` | nekflows/nek.py:47-51 | the point count `n` is `nel * nGLL * nGLL` |
| `Fields.Size` | nekflows/nek.py:47-51 | `_size` succeeds exactly on a field with at least one element (else `IndexError`), and yields the element count, the row length of the first element's `pos` and `nel * nGLL^2` |
| `Fields.FlatBound` | nekflows/nek.py:59-60 | every node `(i, j, k)` with `i < nel`, `j, k < nGLL` has a flat position below `n` |
| `Fields.FlatInjective` | nekflows/nek.py:82-89 | distinct nodes get distinct flat positions, so no write of `_put` overwrites another |
| `Fields.Decode` | nekflows/nek.py:59-60 | every flat position below `n` is the position of some node |
| `Fields.TraverseAt` | nekflows/nek.py:59-64 | entry `i*nGLL^2 + j*nGLL + k` of the element-row-column comprehension is node `(j, k)` of element `i` |
| `Fields.TraverseUnique` | nekflows/nek.py:59-64 | the comprehension is the only array of length `n` holding each node at its flat position |
| `NekVectors.Add` | nekflows/nek.py:18-22 | the sum exists exactly for equal lengths (else `ValueError`) and holds the entry-wise sums |
| `NekVectors.Scale` | nekflows/nek.py:24-28 | the product has the operand's length and holds every entry times the scalar |
| `NekVectors.AddCommutes` | nekflows/nek.py:18-22 | `a + b` and `b + a` agree, failure included |
| `NekVectors.ScaleDistributes` | nekflows/nek.py:18-28 | `a*c + b*c == (a + b)*c` |
| `NekVectors.ScaleByOne` | nekflows/nek.py:24-28 | scaling by 1 changes nothing |
| `NekVectors.Sum` | nekflows/nek.py:174-178 | `reduce` of `+` succeeds exactly when all vectors have one length and then holds at each entry the sum of that entry over the list |
| `NekVectors.Mean` | nekflows/nek.py:173-178 | an empty list raises `TypeError`; otherwise each entry is the entry sum times `1/len`, and the mean exists exactly when the lengths agree |
| `NekVectors.MeanSingleton` | nekflows/nek.py:173-178 | the mean of one vector is that vector |
| `NekVectors.MeanOfCopies` | nekflows/nek.py:173-178 | the mean of `m > 0` copies of a vector is that vector |
| `NekVectors.ProjectRow` | nekflows/nek.py:181-187 | one row of the array is `ip(mode, d)` for every data vector `d`, failing exactly when one of them fails |
| `NekVectors.Project` | nekflows/nek.py:181-187 | entry `[i][j]` is `ip(modes[i], data[j])`; the array exists exactly when every inner product does |
| `Storage.ReadNek` | nekflows/nek.py:56 | `readnek` returns the stored field exactly when the path exists, else `FileNotFound` for that path |
| `Storage.Disk.WriteNek` | nekflows/nek.py:90 | `writenek` replaces the field stored at the path and nothing else |
| `Storage.LoadTxt` | nekflows/flows.py:30 | `np.loadtxt` fails with `FileNotFound` on a missing file; a table of several one-value rows becomes the vector of those values; a non-squeezed result is the rectangular table itself |
| `NekHandles.ReadVelPres` | nekflows/nek.py:54-67 | `_get`'s gathering succeeds exactly when the field has elements and `vel[0]`, `vel[1]`, `pres` cover every node, and then has length `3n` |
| `NekHandles.ReadVelPresAt` | nekflows/nek.py:59-66 | entry `idx = i*nGLL^2 + j*nGLL + k` is `vel[0]` of node `(j, k)` of element `i`, entry `n + idx` is `vel[1]`, entry `2n + idx` is `pres` |
| `NekHandles.GetVector` | nekflows/nek.py:119-132 | `_get_vector` raises `FileNotFound` for a missing file and otherwise holds the gathered floats |
| `NekHandles.WrittenKeepsShape` | nekflows/nek.py:83-88 | the scatter keeps the element count, `temp`, `pos[0]`, `pos[1]` and the shape of every written grid |
| `NekHandles.WrittenNone` | nekflows/nek.py:82 | before the loop nothing has been written |
| `NekHandles.WrittenFits` | nekflows/nek.py:83-88 | a template on which the loop can run still fits after any number of writes |
| `NekHandles.WrittenStep` | nekflows/nek.py:85-89 | one iteration at counter `c` turns the first `c` writes into the first `c + 1` |
| `NekHandles.ScatterRow` | nekflows/nek.py:85-89 | the `k` loop advances the counter by `nGLL` and performs exactly the writes up to the new counter |
| `NekHandles.Scatter` | nekflows/nek.py:82-89 | the triple loop keeps `vec_idx == i*nGLL^2 + j*nGLL + k`, ends with `vec_idx == n`, and its field is the template with all `n` nodes written |
| `NekHandles.GatherWritten` | nekflows/nek.py:59-64 | gathering the scattered field gives back the first `n` values of each of `u`, `v`, `p` |
| `NekHandles.Scattered` | nekflows/nek.py:76-81 | `_put` can run exactly when the template has elements, covers every node and the vector has at least `3n` entries |
| `NekHandles.PutFieldVector` | nekflows/nek.py:139-159 | read the template, scatter, write the target: on success only the target changes; any failure changes nothing |
| `NekHandles.ReadScattered` | nekflows/nek.py:79-89 | scattering keeps the size, and gathering the result gives the first `3n` entries of the vector |
| `NekHandles.ScatteredSize` | nekflows/nek.py:76-77 | the scattered field has the template's `_size` |
| `NekHandles.NewNekHandle` | nekflows/nek.py:42-44 | the save template defaults to the handle's own path |
| `NekHandles.NewComplexNekHandle` | nekflows/nek.py:108-111 | the save template defaults to the real-part path |
| `NekHandles.GetSize` | nekflows/nek.py:92-95 | `get_size` reads the save template and returns the point count `n`, failing on a missing or empty template |
| `NekHandles.GetSizeIsThirdOfLength` | nekflows/nek.py:92-95 | for a real handle that is its own template the loaded vector has `3 * get_size()` entries |
| `NekHandles.Put` | nekflows/nek.py:161-165 | the outcome and the new file contents are those of `PutEffect`: the real part written to the real path, then the imaginary part to the imaginary path |
| `NekHandles.NekHandleRoundTrip` | nekflows/nek.py:70-90 | after a successful put, get returns the real parts of the first `3n` entries of the vector |
| `NekHandles.NekHandleRoundTripExact` | nekflows/nek.py:54-90 | for a float vector of exactly `3n` entries, put then get is the identity |
| `NekHandles.NekHandlePutFrame` | nekflows/nek.py:83-90 | a successful put writes only the handle's own file, keeping the template's element count, `temp` and `pos` |
| `NekHandles.CombineParts` | nekflows/nek.py:137 | `real_part + 1j*imag_part` rebuilds the complex vector from its parts |
| `NekHandles.ComplexHandleRoundTrip` | nekflows/nek.py:134-165 | with two distinct part files of one size, put then get gives back the first `3n` complex entries |
| `NekHandles.Get` | nekflows/nek.py:134-137 | a real handle's `_get` is the gathered vector of its file; a complex handle fails with the real part's error, then the imaginary part's, then `ValueError` on parts of different lengths, and otherwise holds `re + 1j*im` at every entry |
| `NekHandles.GetAll` | nekflows/nek.py:177 | loading the handles succeeds exactly when each load does, and then lists their vectors in order; on failure the error is that of the first handle whose load fails |
| `NekHandles.MeanOfHandles` | nekflows/nek.py:173-178 | no handles raise `TypeError`; a failing load raises that load's error; otherwise the mean exists exactly when all vectors have one length (else `ValueError`) and is the entry sum times `1/len` |
| `NekHandles.PutEffect` | nekflows/nek.py:68-90 | a put changes at most the handle's own file (or its two part files), creates them on success, and a failing real put changes nothing |
| `NekHandles.NekHandleStoreLoad` | nekflows/nek.py:52-90 | a real handle that is its own template can always store what it loads, and loading again gives the same vector |
| `NekHandles.MeanOfHandlesSingletonAndEmpty` | nekflows/nek.py:173-178 | `mean([])` raises `TypeError`; the mean of one handle is its vector |
| `Decimal.Digits` | nekflows/flows.py:15 | the decimal digits of a number form a non-empty string of digits |
| `Decimal.PadZeros` | nekflows/flows.py:15 | left padding with zeros reaches the width, keeps the string as the suffix and adds only zeros |
| `Decimal.ValueOfDigits` | nekflows/flows.py:15 | reading the digits of `t` back gives `t` |
| `Decimal.ValueIgnoresLeadingZeros` | nekflows/flows.py:15 | leading zeros do not change the value of a digit string |
| `Decimal.Format05Value` | nekflows/flows.py:15 | `f'{t:05d}'` for `t >= 0` is all digits and denotes `t` |
| `Decimal.Format05Injective` | nekflows/flows.py:15 | distinct non-negative indices give distinct formats |
| `Decimal.Format05Length` | nekflows/flows.py:15 | indices below 100000 take five characters; negative ones start with `-` |
| `Flows.Filename` | nekflows/flows.py:14-15 | a snapshot's file name has at least the prefix's length plus 8 characters |
| `Flows.FilenameParts` | nekflows/flows.py:14-15 | the name is the prefix, then `0.f`, then the `05d` format of the index |
| `Decimal.Format05` | nekflows/flows.py:15 | `f'{t:05d}'` has at least five characters |
| `Decimal.Format05Shape` | nekflows/flows.py:15 | `f'{t:05d}'` begins with `-` exactly for negative `t`, and is digits after its first character |
| `Flows.Prefix` | nekflows/flows.py:145-214 | each case's prefix has three letters, and exactly the two cavities have the prefix `cav` |
| `Flows.PrefixShared` | nekflows/flows.py:145-214 | two different cases share a prefix only when both are cavities (`cav`) |
| `Flows.DefaultGrid` | nekflows/flows.py:151-217 | each case's default grid is non-empty and at least as wide as it is high |
| `Flows.MaskWeights` | nekflows/flows.py:35-40 | the new `dOmega` exists exactly when the mask has the length of the first half (else `IndexError`), and is the masked half twice, with equal halves |
| `Flows.FilenameLength` | nekflows/flows.py:14-15 | `filename(t)` for `0 <= t < 100000` has the length of the prefix plus 8 |
| `Flows.SnapshotPathInjective` | nekflows/flows.py:58 | two snapshot paths under one directory with kinds of one length are equal only for the same kind and index |
| `Flows.Weights` | nekflows/flows.py:30-31 | the concatenation accepts a one-dimensional weight array and raises `ValueError` on a single number |
| `Flows.LoadMesh` | nekflows/flows.py:17-31 | a missing snapshot 1 raises `FileNotFound`; on success `nel` and `nGLL` are `_size` of that snapshot and `Cx`, `Cy` have `n` entries |
| `Flows.MeshOf` | nekflows/flows.py:20-31 | once snapshot 1 is read: an `IndexError` from `_size` or from a coordinate comprehension that runs off the grids comes first, then the error of reading the mass matrix (`FileNotFound` when it is absent), then `ValueError` when the table is not one-dimensional; it succeeds exactly when none of these happens, and then `nel`, `nGLL` are `_size`, `Cx`, `Cy` have `n` entries each and `dOmega` is the weights twice |
| `Flows.LoadMeshIsMeshOf` | nekflows/flows.py:17-31 | once snapshot 1 exists, `load_mesh` is `MeshOf` of it and of the mass-matrix table |
| `Flows.LoadMeshHalvesAgree` | nekflows/flows.py:31 | `dOmega` has even length and its two halves agree entry by entry |
| `Flows.LoadMeshCoordinates` | nekflows/flows.py:25-28 | the grids of snapshot 1 cover every node, and `Cx` and `Cy` hold `pos[0]` and `pos[1]` of node `(j, k)` of element `i` at `i*nGLL^2 + j*nGLL + k` |
| `Flows.LoadMeshWeights` | nekflows/flows.py:30-31 | with a mass-matrix column of `n` weights, `dOmega` has `2n` entries and each half is that column |
| `Flows.DotTermIsWeighted` | nekflows/flows.py:33 | each term of `np.vdot(dOmega*a, b)` is `dOmega[i] * conj(a[i]) * b[i]` |
| `Flows.WeightedDot` | nekflows/flows.py:33 | `dot` succeeds exactly when weights and both arguments have one length, else `ValueError` |
| `Flows.DotOfZeroWeights` | nekflows/flows.py:33 | with all weights zero the inner product is 0 |
| `Flows.DotOfSelfNonNegative` | nekflows/flows.py:33 | with non-negative weights `dot(a, a)` is real and non-negative |
| `Flows.DotConjugateSymmetric` | nekflows/flows.py:33 | `dot(b, a)` is the conjugate of `dot(a, b)` |
| `Flows.DotIgnoresZeroWeights` | nekflows/flows.py:33 | entries under a zero weight do not affect the inner product |
| `Flows.ProjectIsHermitian` | nekflows/nek.py:181-187 | projecting vectors onto themselves with the weighted inner product gives a Hermitian array |
| `Flows.MaskedHalf` | nekflows/flows.py:37-38 | `dOmega[:n][mask] = 0` needs a mask of the slice's length (else `IndexError`) and keeps that length |
| `Flows.MaskWeightsProperties` | nekflows/flows.py:35-40 | on weights of length `2n` the result has length `2n`, equal halves, zeros under the mask and the old first-half value elsewhere |
| `Flows.MaskWeightsRefusesLength` | nekflows/flows.py:38 | a mask of another length than `n` raises `IndexError` |
| `Flows.MaskWeightsIdempotent` | nekflows/flows.py:35-40 | masking twice with one mask is masking once |
| `Flows.VolumeIsUnmaskedWeight` | nekflows/flows.py:39 | the reported integration volume is the total weight of the unmasked nodes |
| `Flows.MaskedDotIgnoresMaskedNodes` | nekflows/flows.py:33-40 | after masking, values at masked nodes do not affect `dot` |
| `Flows.GetVelocity` | nekflows/flows.py:131-137 | a missing file raises `FileNotFound`; otherwise the result exists exactly when `vel[0]` and `vel[1]` cover the mesh (else `IndexError`) and has `2n` entries |
| `Flows.GetVelocityAt` | nekflows/flows.py:133-137 | entry `idx` is `vel[0]` of its node and entry `n + idx` is `vel[1]` |
| `Flows.VelocityIsHandlePrefix` | nekflows/flows.py:131-137 | `get_velocity` of a file is the first `2n` entries of a handle's `_get` of it |
| `Flows.GetVorticity` | nekflows/flows.py:139-143 | as `get_velocity` for `temp`, with `n` entries |
| `Flows.GetVorticityAt` | nekflows/flows.py:141-142 | entry `idx` is `temp` of its node |
| `Flows.CombineLaplacian` | nekflows/flows.py:84-85 | the top half is `uxx + uyy` and the bottom half `vxx + vyy`, entry by entry |
| `Flows.Laplacians` | nekflows/flows.py:83-85 | every column of `lapU` is the recombination of the matching `ddu` and `ddv` columns |
| `Flows.FirstFailure` | nekflows/flows.py:57-58 | the index where a loop of loads stops: every earlier load succeeds and the load there fails |
| `Flows.Filled` | nekflows/flows.py:56-58 | a loop that fills the columns of `np.zeros` succeeds exactly when every load does |
| `Flows.FilledProperties` | nekflows/flows.py:56-58 | an exception is that of some load; columns before the first failure hold their loads; columns from it on stay zero |
| `Flows.FilledAt` | nekflows/flows.py:57-58 | the filled matrix and outcome determined by the first failure and the columns pointwise |
| `Flows.FilledValues` | nekflows/flows.py:57-58 | when every load succeeds the matrix is the list of loaded columns |
| `Flows.NekFlowConfig.constructor` | nekflows/flows.py:9-12 | the configuration holds the mesh, the case's prefix, the grid size and (only for the cylinder wake) the interpolation mask, with empty matrices |
| `Flows.NekFlowConfig.Open` | nekflows/flows.py:145-222 | building a case fails with `load_mesh`'s error, or yields a fresh configuration with that mesh, the case's prefix and the given or default grid; the cylinder's mask has one entry per grid point |
| `Flows.NekFlowConfig.Dot` | nekflows/flows.py:33 | `self.dot` succeeds exactly when the current weights and both arguments have one length |
| `Flows.NekFlowConfig.MaskDomain` | nekflows/flows.py:35-40 | on success `dOmega` becomes the masked first half twice and the reported volume is its sum; on a bad mask it raises `IndexError` and keeps `dOmega`; nothing else changes |
| `Flows.NekFlowConfig.GetCoeffs` | nekflows/flows.py:42-48 | a missing table raises `FileNotFound`; a squeezed one raises `IndexError`; otherwise each row is `[t[x]] + a[x]` |
| `Flows.NekFlowConfig.SnapshotPaths` | nekflows/flows.py:57-58 | the loop reads `r` paths, one per snapshot `1 .. r`; `SnapshotPathsDistinct` shows they are distinct files |
| `Flows.NekFlowConfig.SnapshotPathsDistinct` | nekflows/flows.py:76-80 | the loops of load_modes_and_grads never read one file twice for two kinds or two snapshots |
| `Flows.NekFlowConfig.Loads` | nekflows/flows.py:57-58 | the list of loads has one entry per path |
| `Flows.NekFlowConfig.LoadHeight` | nekflows/flows.py:58-63 | a loaded velocity column has `2n` entries and a vorticity column `n`, the heights of the `np.zeros` matrices |
| `Flows.NekFlowConfig.FilledHeights` | nekflows/flows.py:56-63 | when every load succeeds each column has the reader's height |
| `Flows.NekFlowConfig.LoadColumns` | nekflows/flows.py:56-58 | the column loop yields exactly `Filled` of the loads: stop at the first exception, columns before it loaded, the rest zero |
| `Flows.NekFlowConfig.LoadModes` | nekflows/flows.py:50-63 | a negative `r` raises `ValueError`; `U` is the filled velocity matrix; `vort` is filled only when asked (the default) and the velocities loaded; the other matrices are kept |
| `Flows.NekFlowConfig.LoadSnapshotGradients` | nekflows/flows.py:77-80 | the four loads of one snapshot in order, stopping at the first exception, which is the one reported |
| `Flows.NekFlowConfig.LoadGradients` | nekflows/flows.py:76-80 | the interleaved loop succeeds exactly when all four kinds load for every snapshot, and then column `i` of each matrix is its load of snapshot `i + 1`; on an exception at snapshot `stop + 1` the earlier columns hold their loads, that snapshot's columns assigned before the failing load hold theirs, every other column is zero, and the error is that of the first failing load |
| `Flows.NekFlowConfig.LoadGradsAndLaplacian` | nekflows/flows.py:71-90 | success exactly when every gradient file loads; once the gradient loop is through, `gradUx` and `gradUy` are the loaded matrices, `lapU` their Laplacian recombination, and the `pres_grad` loop's outcome and `gradP` are those of `Filled` on the `dp_` loads; an exception in the gradient loop leaves `lapU` and `gradP` as they were |
| `Flows.NekFlowConfig.LoadModesAndGrads` | nekflows/flows.py:65-90 | success exactly when `r >= 0` and every file the method reads loads; then every matrix is its filled snapshot matrix and `lapU` is the recombination of the second derivatives; `vort` and `pres_grad` default to false |
| `Flows.NekFlowConfig.Interp` | nekflows/flows.py:112-126 | `ngrid` values are required (else `ValueError`); the mask must have `ngrid` entries (else `IndexError`); masked positions become 0 and the others keep the interpolated value |

## Left out

- `pymech`'s file format: `readnek` and `writenek` are lookups in and updates of a map from path to field; the byte layout of `.f` files is not part of this model.
- `np.loadtxt` parsing: a text table is given as its rows of numbers.
- `scipy.interpolate.griddata`: `Interp` takes the interpolated values as a parameter.
- The grid geometry of `interpolation_setup` (`np.linspace`, `np.meshgrid`, the cylinder's `sqrt` test): only the grid size is kept, and the cylinder mask is a parameter of `Open`.
- `plot_field`, matplotlib and seaborn: plotting.
- `load_base_flows_and_grads`: a third copy of the column loop, over a base-flow directory. The model does not cover it.
- `nekflows/__init__.py` is not part of this model; it only builds paths for factories.
- modred's `VecHandle.get`/`put`, with base-handle subtraction and scaling. The model covers `_get` and `_put` only, and `project` over vectors already loaded, with the inner product as a parameter.
- IEEE floating point: numbers are exact reals, so rounding in sums, `1/len` and `vdot` is not modelled.
- numpy broadcasting of length-1 arrays: arrays of different lengths always raise `ValueError` in the model, even where one has a single entry.
- Masks given as integer index arrays: only boolean masks are modelled.
- `Flows.Weights`: a mass-matrix file of several columns is refused with `ValueError`; numpy would concatenate its rows into a two-dimensional `dOmega`, which the rest of the model does not handle.
- `print` in `mask_domain`: the integration volume is returned as an out-parameter instead.
- `Flows.NekFlowConfig.Interp`: when `ngrid == 1`, `np.squeeze` makes a zero-dimensional array; the model returns a one-entry list.
- `Flows.NekFlowConfig.LoadGradsAndLaplacian`: on a failure in the gradient loop it does not state the exception or the partially filled `gradUx` and `gradUy`; `LoadGradients` states both for the loop it runs. A failure in the `pres_grad` loop is fully stated.
- `Flows.NekFlowConfig.LoadModesAndGrads`: on failure it states neither the exception nor the partially filled matrices.
- `Flows.NekFlowConfig.MaskDomain`: the source zeroes the masked weights through a numpy view into the old `self.dOmega` array before replacing it; the model writes into a copy, which is the same as long as nothing else holds that old array.
- MPI and parallel execution: the code is modelled as sequential.
