/** nekflows/flows.py: a flow configuration (NekFlowConfig) that loads the
    mesh of a Nek5000 run, the mass-matrix weights and weighted inner
    product, snapshot matrices of modes and their gradients, the coefficient
    table, and the masking of the interpolated grid. */
module Flows {
  import opened Common
  import opened Fields
  import opened NekVectors
  import opened Storage
  import opened NekHandles
  import opened Decimal

  // ------------------------------------------------------------ file names

  /** filename(t_idx): prefix, "0.f", then t_idx zero-padded to five places. */
  function Filename(prefix: string, t: int): (name: string)
    ensures |name| >= |prefix| + 8
  {
    prefix + "0.f" + Format05(t)
  }

  /** A file name reads as the prefix, "0.f" and the formatted index. */
  lemma FilenameParts(prefix: string, t: int)
    ensures var name := Filename(prefix, t);
      name[..|prefix|] == prefix && name[|prefix|..|prefix| + 3] == "0.f" && name[|prefix| + 3..] == Format05(t)
  {
  }

  /** The file names of snapshots 0 .. 99999 all have the length of the prefix plus eight. */
  lemma FilenameLength(prefix: string, t: int)
    requires 0 <= t < 100000
    ensures |Filename(prefix, t)| == |prefix| + 8
  {
    Format05Length(t);
  }

  /** f'{dir}/{kind}{prefix}0.f{t:05d}': snapshot t of one kind of field
      (kind "" for the field itself, "du_", "dv_", "ddu", "ddv", "dp_" for
      its derivatives) in directory dir. */
  function SnapshotPath(dir: Path, kind: string, prefix: string, t: int): Path
  {
    dir + "/" + kind + Filename(prefix, t)
  }

  /** Within one directory, snapshot paths of kinds of one length name
      distinct files for distinct kinds or distinct non-negative indices. */
  lemma SnapshotPathInjective(dir: Path, prefix: string, k1: string, k2: string, t1: nat, t2: nat)
    requires |k1| == |k2|
    requires SnapshotPath(dir, k1, prefix, t1) == SnapshotPath(dir, k2, prefix, t2)
    ensures k1 == k2 && t1 == t2
  {
    SnapshotPathParts(dir, k1, prefix, t1);
    SnapshotPathParts(dir, k2, prefix, t2);
    Format05Injective(t1, t2);
  }

  /** Where the kind and the formatted index sit in a snapshot path. */
  lemma SnapshotPathParts(dir: Path, kind: string, prefix: string, t: int)
    ensures var p, head := SnapshotPath(dir, kind, prefix, t), |dir| + 1;
      |p| >= head + |kind| + |prefix| + 3 &&
      p[head..head + |kind|] == kind && p[head + |kind| + |prefix| + 3..] == Format05(t)
  {
    var p, head := SnapshotPath(dir, kind, prefix, t), |dir| + 1;
    assert p == (dir + "/") + kind + (prefix + "0.f") + Format05(t);
  }

  // ------------------------------------------------------------ the cases

  /** The four flow configurations of the package. */
  datatype Case = LidDrivenCavity | ShearDrivenCavity | MixingLayer | CylinderWake

  /** The file-name prefix each configuration sets before loading its mesh. */
  function Prefix(c: Case): (p: string)
    ensures |p| == 3
    ensures p == "cav" <==> c == LidDrivenCavity || c == ShearDrivenCavity
  {
    match c
    case LidDrivenCavity => "cav"
    case ShearDrivenCavity => "cav"
    case MixingLayer => "mix"
    case CylinderWake => "cyl"
  }

  /** Two configurations share a prefix only when both are cavities. */
  lemma PrefixShared(c: Case, d: Case)
    ensures Prefix(c) == Prefix(d) <==> c == d || (Prefix(c) == "cav" && Prefix(d) == "cav")
  {
    assert "mix" != "cyl" by { assert "mix"[1] != "cyl"[1]; }
    assert "mix" != "cav" by { assert "mix"[1] != "cav"[1]; }
    assert "cyl" != "cav" by { assert "cyl"[1] != "cav"[1]; }
  }

  /** The default (nx, ny) of each configuration's interpolation_setup. */
  function DefaultGrid(c: Case): (g: (nat, nat))
    ensures g.0 > 0 && g.1 > 0 && g.1 <= g.0
  {
    match c
    case LidDrivenCavity => (200, 200)
    case ShearDrivenCavity => (400, 200)
    case MixingLayer => (400, 120)
    case CylinderWake => (400, 200)
  }

  // -------------------------------------------------------------- the mesh

  /** What load_mesh leaves behind: nel, nGLL, the node coordinates Cx and Cy
      and the doubled weights dOmega. */
  datatype Mesh = Mesh(nel: nat, order: nat, cx: seq<real>, cy: seq<real>, dOmega: seq<real>)

  function MassMatrixPath(fieldPath: Path): Path
  {
    fieldPath + "/mass_matrix.dat"
  }

  /** The one-dimensional weights np.concatenate accepts: a zero-dimensional
      array (a file holding one number) makes it raise ValueError. */
  function Weights(a: NdArray): (r: Result<seq<real>>)
    ensures a.Vector? ==> r == Ok(a.v)
    ensures !a.Vector? ==> r == Err(ValueError)
  {
    match a
    case Vector(v) => Ok(v)
    case _ => Err(ValueError)
  }

  /** load_mesh: read snapshot 1 of the run, take nel and nGLL from it,
      gather the coordinates in element, row, column order and duplicate
      the mass-matrix weights for the two velocity components. */
  function LoadMesh(fields: map<Path, Field>, texts: map<Path, seq<seq<real>>>, fieldPath: Path, prefix: string):
    (r: Result<Mesh>)
    ensures SnapshotPath(fieldPath, "", prefix, 1) !in fields ==>
              r == Err(FileNotFound(SnapshotPath(fieldPath, "", prefix, 1)))
    ensures r.Ok? ==> SnapshotPath(fieldPath, "", prefix, 1) in fields
    ensures r.Ok? ==> var f := fields[SnapshotPath(fieldPath, "", prefix, 1)];
              Size(f).Ok? && r.value.nel == Size(f).value.nel && r.value.order == Size(f).value.order &&
              Fits(f, PosX, r.value.nel, r.value.order) && Fits(f, PosY, r.value.nel, r.value.order)
    ensures r.Ok? ==> |r.value.cx| == Points(r.value.nel, r.value.order) == |r.value.cy|
  {
    var f :- ReadNek(fields, SnapshotPath(fieldPath, "", prefix, 1));
    MeshOf(f, LoadTxt(texts, MassMatrixPath(fieldPath)))
  }

  /** load_mesh once snapshot 1 is read as f: _size, the two coordinate
      comprehensions, then the mass-matrix table (read only when they
      succeed) and its weights. */
  function MeshOf(f: Field, table: Result<NdArray>): (r: Result<Mesh>)
    ensures r.Ok? <==> Size(f).Ok? && Fits(f, PosX, |f.elem|, Order(f)) && Fits(f, PosY, |f.elem|, Order(f)) &&
                       table.Ok? && table.value.Vector?
    // the order of failures: _size, the coordinate comprehensions, loadtxt, concatenate
    ensures Size(f).Err? ==> r == Err(IndexError)
    ensures Size(f).Ok? && !(Fits(f, PosX, |f.elem|, Order(f)) && Fits(f, PosY, |f.elem|, Order(f))) ==> r == Err(IndexError)
    ensures Size(f).Ok? && Fits(f, PosX, |f.elem|, Order(f)) && Fits(f, PosY, |f.elem|, Order(f)) && table.Err? ==>
              r == Err(table.error)
    ensures Size(f).Ok? && Fits(f, PosX, |f.elem|, Order(f)) && Fits(f, PosY, |f.elem|, Order(f)) &&
              table.Ok? && !table.value.Vector? ==>
              r == Err(ValueError)
    ensures r.Ok? ==> Size(f).Ok? && r.value.nel == Size(f).value.nel && r.value.order == Size(f).value.order
    ensures r.Ok? ==> |r.value.cx| == Points(r.value.nel, r.value.order) == |r.value.cy|
    ensures r.Ok? ==> r.value.dOmega == table.value.v + table.value.v
  {
    var d :- Size(f);
    if !(Fits(f, PosX, d.nel, d.order) && Fits(f, PosY, d.nel, d.order)) then Err(IndexError)
    else
      var a :- table;
      var w :- Weights(a);
      Ok(Mesh(d.nel, d.order, Traverse(f, PosX, d.nel, d.order), Traverse(f, PosY, d.nel, d.order), w + w))
  }

  /** Once snapshot 1 exists, load_mesh is MeshOf it and the mass-matrix
      table (which is FileNotFound when mass_matrix.dat is absent). */
  lemma LoadMeshIsMeshOf(fields: map<Path, Field>, texts: map<Path, seq<seq<real>>>, fieldPath: Path, prefix: string)
    requires SnapshotPath(fieldPath, "", prefix, 1) in fields
    ensures LoadMesh(fields, texts, fieldPath, prefix) ==
            MeshOf(fields[SnapshotPath(fieldPath, "", prefix, 1)], LoadTxt(texts, MassMatrixPath(fieldPath)))
  {
  }

  /** dOmega is the weights twice over: its two halves agree entry by entry. */
  lemma LoadMeshHalvesAgree(fields: map<Path, Field>, texts: map<Path, seq<seq<real>>>, fieldPath: Path, prefix: string)
    requires LoadMesh(fields, texts, fieldPath, prefix).Ok?
    ensures var w := LoadMesh(fields, texts, fieldPath, prefix).value.dOmega;
      |w| % 2 == 0 && forall x :: 0 <= x < |w| / 2 ==> w[x] == w[x + |w| / 2]
  {
    LoadMeshIsMeshOf(fields, texts, fieldPath, prefix);
    MeshOfHalvesAgree(fields[SnapshotPath(fieldPath, "", prefix, 1)], LoadTxt(texts, MassMatrixPath(fieldPath)));
  }

  lemma MeshOfHalvesAgree(f: Field, table: Result<NdArray>)
    requires MeshOf(f, table).Ok?
    ensures var w := MeshOf(f, table).value.dOmega;
      |w| % 2 == 0 && forall x :: 0 <= x < |w| / 2 ==> w[x] == w[x + |w| / 2]
  {
  }

  /** Cx and Cy hold pos[0] and pos[1] of every node, entry i*nGLL^2 + j*nGLL + k
      being node (j, k) of element i. */
  lemma LoadMeshCoordinates(fields: map<Path, Field>, texts: map<Path, seq<seq<real>>>, fieldPath: Path, prefix: string,
                            i: nat, j: nat, k: nat)
    requires LoadMesh(fields, texts, fieldPath, prefix).Ok?
    requires var m := LoadMesh(fields, texts, fieldPath, prefix).value; i < m.nel && j < m.order && k < m.order
    ensures NodeAgrees(LoadMesh(fields, texts, fieldPath, prefix).value, fields[SnapshotPath(fieldPath, "", prefix, 1)], i, j, k)
  {
    LoadMeshIsMeshOf(fields, texts, fieldPath, prefix);
    MeshOfCoordinates(fields[SnapshotPath(fieldPath, "", prefix, 1)], LoadTxt(texts, MassMatrixPath(fieldPath)), i, j, k);
  }

  /** Node (i, j, k) of the flat coordinates Cx, Cy of m is the coordinate
      at (j, k) of element i of f. */
  predicate NodeAgrees(m: Mesh, f: Field, i: nat, j: nat, k: nat)
  {
    i < m.nel && j < m.order && k < m.order &&
    |m.cx| == Points(m.nel, m.order) == |m.cy| &&
    Fits(f, PosX, m.nel, m.order) && Fits(f, PosY, m.nel, m.order) &&
    NodeOf(m.cx, m.nel, m.order, i, j, k) == f.elem[i].posX[j][k] &&
    NodeOf(m.cy, m.nel, m.order, i, j, k) == f.elem[i].posY[j][k]
  }

  lemma MeshOfCoordinates(f: Field, table: Result<NdArray>, i: nat, j: nat, k: nat)
    requires MeshOf(f, table).Ok?
    requires var m := MeshOf(f, table).value; i < m.nel && j < m.order && k < m.order
    ensures var m := MeshOf(f, table).value;
      NodeOf(m.cx, m.nel, m.order, i, j, k) == f.elem[i].posX[j][k] &&
      NodeOf(m.cy, m.nel, m.order, i, j, k) == f.elem[i].posY[j][k]
  {
    var d := Size(f).value;
    TraverseAt(f, PosX, d.nel, d.order, i, j, k);
    TraverseAt(f, PosY, d.nel, d.order, i, j, k);
  }

  /** With a mass matrix of one weight per node written as a column, dOmega
      has 2n entries and both halves hold the weights. */
  lemma LoadMeshWeights(fields: map<Path, Field>, texts: map<Path, seq<seq<real>>>, fieldPath: Path, prefix: string)
    requires LoadMesh(fields, texts, fieldPath, prefix).Ok?
    requires var m, rows := LoadMesh(fields, texts, fieldPath, prefix).value, texts[MassMatrixPath(fieldPath)];
      |rows| == Points(m.nel, m.order) >= 2 && Rectangular(rows) && |rows[0]| == 1
    ensures var m, n, rows := LoadMesh(fields, texts, fieldPath, prefix).value,
                              Points(LoadMesh(fields, texts, fieldPath, prefix).value.nel, LoadMesh(fields, texts, fieldPath, prefix).value.order),
                              texts[MassMatrixPath(fieldPath)];
      |m.dOmega| == 2 * n &&
      forall x :: 0 <= x < n ==> m.dOmega[x] == rows[x][0] && m.dOmega[x + n] == rows[x][0]
  {
    LoadMeshIsMeshOf(fields, texts, fieldPath, prefix);
  }

  // ----------------------------------------------------------- inner product

  /** One term of np.vdot(dOmega*a, b): the weighted a-entry conjugated, times the b-entry. */
  function DotTerm(w: real, a: Complex, b: Complex): Complex
  {
    CMul(Conj(Complex(w * a.re, w * a.im)), b)
  }

  /** The term is w * conj(a) * b, since the weight is real. */
  lemma DotTermIsWeighted(w: real, a: Complex, b: Complex)
    ensures DotTerm(w, a, b) == CMul(OfReal(w), CMul(Conj(a), b))
  {
    var t := DotTerm(w, a, b);
    assert t.re == w * (a.re * b.re + a.im * b.im);
    assert t.im == w * (a.re * b.im - a.im * b.re);
  }

  /** The terms summed in index order. */
  function WeightedSum(w: seq<real>, a: seq<Complex>, b: seq<Complex>): Complex
    requires |w| == |a| == |b|
  {
    if |w| == 0 then Complex(0.0, 0.0)
    else CAdd(WeightedSum(w[..|w| - 1], a[..|a| - 1], b[..|b| - 1]), DotTerm(w[|w| - 1], a[|a| - 1], b[|b| - 1]))
  }

  /** dot(a, b) = np.vdot(dOmega*a, b): the product dOmega*a needs matching
      lengths, and so does vdot. */
  function WeightedDot(w: seq<real>, a: seq<Complex>, b: seq<Complex>): (r: Result<Complex>)
    ensures r.Ok? <==> |w| == |a| == |b|
    ensures r.Err? ==> r.error == ValueError
  {
    if |w| == |a| == |b| then Ok(WeightedSum(w, a, b)) else Err(ValueError)
  }

  lemma ZeroWeightTerm(a: Complex, b: Complex)
    ensures DotTerm(0.0, a, b) == Complex(0.0, 0.0)
  {
    ConjOfZeroWeighted(a);
    CMulZero(b);
  }

  lemma ConjOfZeroWeighted(a: Complex)
    ensures Conj(Complex(0.0 * a.re, 0.0 * a.im)) == Complex(0.0, 0.0)
  {
  }

  lemma CMulZero(b: Complex)
    ensures CMul(Complex(0.0, 0.0), b) == Complex(0.0, 0.0)
  {
  }

  /** With all weights zero the inner product is 0. */
  lemma {:induction false} DotOfZeroWeights(w: seq<real>, a: seq<Complex>, b: seq<Complex>)
    requires |w| == |a| == |b|
    requires forall x :: 0 <= x < |w| ==> w[x] == 0.0
    ensures WeightedDot(w, a, b) == Ok(Complex(0.0, 0.0))
  {
    if |w| > 0 {
      DotOfZeroWeights(w[..|w| - 1], a[..|a| - 1], b[..|b| - 1]);
      ZeroWeightTerm(a[|a| - 1], b[|b| - 1]);
    }
  }

  lemma SelfTermNonNegative(w: real, a: Complex)
    requires w >= 0.0
    ensures DotTerm(w, a, a).im == 0.0 && DotTerm(w, a, a).re >= 0.0
  {
    var t := DotTerm(w, a, a);
    assert t.re == w * (a.re * a.re) + w * (a.im * a.im);
    assert a.re * a.re >= 0.0 && a.im * a.im >= 0.0;
    assert w * (a.re * a.re) >= 0.0 && w * (a.im * a.im) >= 0.0;
  }

  /** With non-negative weights, dot(a, a) is real and non-negative. */
  lemma {:induction false} DotOfSelfNonNegative(w: seq<real>, a: seq<Complex>)
    requires |w| == |a|
    requires forall x :: 0 <= x < |w| ==> w[x] >= 0.0
    ensures WeightedDot(w, a, a).Ok?
    ensures WeightedDot(w, a, a).value.im == 0.0 && WeightedDot(w, a, a).value.re >= 0.0
  {
    if |w| > 0 {
      DotOfSelfNonNegative(w[..|w| - 1], a[..|a| - 1]);
      SelfTermNonNegative(w[|w| - 1], a[|a| - 1]);
    }
  }

  lemma TermConjugateSymmetric(w: real, a: Complex, b: Complex)
    ensures DotTerm(w, b, a) == Conj(DotTerm(w, a, b))
  {
    DotTermIsWeighted(w, a, b);
    DotTermIsWeighted(w, b, a);
  }

  /** Swapping the arguments conjugates the inner product. */
  lemma {:induction false} DotConjugateSymmetric(w: seq<real>, a: seq<Complex>, b: seq<Complex>)
    ensures WeightedDot(w, b, a).Ok? == WeightedDot(w, a, b).Ok?
    ensures WeightedDot(w, a, b).Ok? ==> WeightedDot(w, b, a).value == Conj(WeightedDot(w, a, b).value)
  {
    if |w| == |a| == |b| && |w| > 0 {
      DotConjugateSymmetric(w[..|w| - 1], a[..|a| - 1], b[..|b| - 1]);
      TermConjugateSymmetric(w[|w| - 1], a[|a| - 1], b[|b| - 1]);
    }
  }

  /** Entries under a zero weight do not take part in the inner product. */
  lemma {:induction false} DotIgnoresZeroWeights(w: seq<real>, a: seq<Complex>, b: seq<Complex>, a': seq<Complex>, b': seq<Complex>)
    requires |w| == |a| == |b| == |a'| == |b'|
    requires forall x :: 0 <= x < |w| && w[x] != 0.0 ==> a[x] == a'[x] && b[x] == b'[x]
    ensures WeightedDot(w, a, b) == WeightedDot(w, a', b')
  {
    if |w| > 0 {
      var m := |w| - 1;
      DotIgnoresZeroWeights(w[..m], a[..m], b[..m], a'[..m], b'[..m]);
      if w[m] == 0.0 {
        ZeroWeightTerm(a[m], b[m]);
        ZeroWeightTerm(a'[m], b'[m]);
      }
    }
  }

  /** The weighted inner product as project takes it, on loaded vectors. */
  function WeightedInner(w: seq<real>): (NekVector, NekVector) -> Result<Complex>
  {
    (x: NekVector, y: NekVector) => WeightedDot(w, x.data, y.data)
  }

  /** Projecting a list of vectors onto itself with the weighted inner
      product gives a Hermitian array: entry [i][j] is the conjugate of [j][i]. */
  lemma ProjectIsHermitian(w: seq<real>, vs: seq<NekVector>)
    requires Project(vs, vs, WeightedInner(w)).Ok?
    ensures var c := Project(vs, vs, WeightedInner(w)).value;
      forall i, j :: 0 <= i < |vs| && 0 <= j < |vs| ==> c[i][j] == Conj(c[j][i])
  {
    var c := Project(vs, vs, WeightedInner(w)).value;
    forall i, j | 0 <= i < |vs| && 0 <= j < |vs|
      ensures c[i][j] == Conj(c[j][i])
    {
      DotConjugateSymmetric(w, vs[j].data, vs[i].data);
    }
  }

  // ---------------------------------------------------------------- masking

  /** dOmega[:n] with dOmega[mask] = 0: numpy insists that a boolean mask has
      the length of the array it indexes (IndexError otherwise). */
  function MaskedHalf(dOmega: seq<real>, n: nat, mask: seq<bool>): (r: Result<seq<real>>)
    ensures r.Ok? <==> |mask| == Min(n, |dOmega|)
    ensures r.Err? ==> r.error == IndexError
    ensures r.Ok? ==> |r.value| == |mask|
  {
    if |mask| != Min(n, |dOmega|) then Err(IndexError)
    else Ok(seq(|mask|, x requires 0 <= x < |mask| => if mask[x] then 0.0 else dOmega[x]))
  }

  /** The dOmega mask_domain leaves behind: the masked first half, twice. */
  function MaskWeights(dOmega: seq<real>, n: nat, mask: seq<bool>): (r: Result<seq<real>>)
    ensures r.Ok? <==> |mask| == Min(n, |dOmega|)
    ensures r.Err? ==> r.error == IndexError
    ensures r.Ok? ==> |r.value| == 2 * |mask| && r.value[..|mask|] == r.value[|mask|..]
  {
    var h :- MaskedHalf(dOmega, n, mask);
    Ok(h + h)
  }

  /** mask_domain on weights of length 2n (as load_mesh leaves them from n
      weights): the length stays 2n, both halves stay equal, masked entries
      of both halves become 0 and the others keep their first-half value. */
  lemma MaskWeightsProperties(dOmega: seq<real>, n: nat, mask: seq<bool>)
    requires |dOmega| == 2 * n && |mask| == n
    ensures MaskWeights(dOmega, n, mask).Ok?
    ensures var w := MaskWeights(dOmega, n, mask).value;
      |w| == 2 * n &&
      forall x :: 0 <= x < n ==>
        w[x] == w[x + n] &&
        (mask[x] ==> w[x] == 0.0) &&
        (!mask[x] ==> w[x] == dOmega[x])
  {
  }

  /** A mask of the wrong length is refused and the weights are kept. */
  lemma MaskWeightsRefusesLength(dOmega: seq<real>, n: nat, mask: seq<bool>)
    requires |dOmega| == 2 * n && |mask| != n
    ensures MaskWeights(dOmega, n, mask) == Err(IndexError)
  {
  }

  /** Masking twice with the same mask is masking once. */
  lemma MaskWeightsIdempotent(dOmega: seq<real>, n: nat, mask: seq<bool>)
    requires n <= |dOmega|
    requires MaskWeights(dOmega, n, mask).Ok?
    ensures MaskWeights(MaskWeights(dOmega, n, mask).value, n, mask) == MaskWeights(dOmega, n, mask)
  {
    var h := MaskedHalf(dOmega, n, mask).value;
    var h2 := MaskedHalf(h + h, n, mask).value;
    assert h2 == h;
  }

  /** Python's built-in sum, in index order. */
  function SumReals(xs: seq<real>): real
  {
    if |xs| == 0 then 0.0 else SumReals(xs[..|xs| - 1]) + xs[|xs| - 1]
  }

  /** The sum of the weights left unmasked, the reference for the integration volume. */
  function UnmaskedVolume(w: seq<real>, mask: seq<bool>): real
    requires |w| == |mask|
  {
    if |w| == 0 then 0.0
    else UnmaskedVolume(w[..|w| - 1], mask[..|mask| - 1]) + (if mask[|mask| - 1] then 0.0 else w[|w| - 1])
  }

  /** The integration volume mask_domain reports is the total weight of the unmasked nodes. */
  lemma {:induction false} VolumeIsUnmaskedWeight(dOmega: seq<real>, n: nat, mask: seq<bool>)
    requires MaskedHalf(dOmega, n, mask).Ok?
    ensures |mask| <= |dOmega|
    ensures SumReals(MaskedHalf(dOmega, n, mask).value) == UnmaskedVolume(dOmega[..|mask|], mask)
  {
    var h := MaskedHalf(dOmega, n, mask).value;
    if |mask| > 0 {
      var m := |mask| - 1;
      assert MaskedHalf(dOmega[..m], m, mask[..m]).value == h[..m];
      VolumeIsUnmaskedWeight(dOmega[..m], m, mask[..m]);
      assert dOmega[..m][..m] == dOmega[..|mask|][..m];
    }
  }

  /** After masking, what a vector holds at masked nodes no longer matters
      to the inner product. */
  lemma MaskedDotIgnoresMaskedNodes(dOmega: seq<real>, n: nat, mask: seq<bool>,
                                    a: seq<Complex>, b: seq<Complex>, a': seq<Complex>, b': seq<Complex>)
    requires |dOmega| == 2 * n && |mask| == n
    requires |a| == |b| == |a'| == |b'| == 2 * n
    requires forall x :: 0 <= x < n && !mask[x] ==> a[x] == a'[x] && b[x] == b'[x] && a[x + n] == a'[x + n] && b[x + n] == b'[x + n]
    ensures var w := MaskWeights(dOmega, n, mask).value; WeightedDot(w, a, b) == WeightedDot(w, a', b')
  {
    MaskWeightsProperties(dOmega, n, mask);
    var w := MaskWeights(dOmega, n, mask).value;
    forall x | 0 <= x < |w| && w[x] != 0.0
      ensures a[x] == a'[x] && b[x] == b'[x]
    {
      if x >= n {
        assert w[x - n] == w[x];
      }
    }
    DotIgnoresZeroWeights(w, a, b, a', b');
  }

  // ------------------------------------------------------------ snapshots

  /** get_velocity(file): u ++ v of the first nel elements of order nGLL. */
  function GetVelocity(fields: map<Path, Field>, nel: nat, order: nat, path: Path): (r: Result<seq<real>>)
    ensures path !in fields ==> r == Err(FileNotFound(path))
    ensures path in fields ==> (r.Ok? <==> Fits(fields[path], VelX, nel, order) && Fits(fields[path], VelY, nel, order))
    ensures r.Err? && path in fields ==> r.error == IndexError
    ensures r.Ok? ==> |r.value| == 2 * Points(nel, order)
  {
    var f :- ReadNek(fields, path);
    if Fits(f, VelX, nel, order) && Fits(f, VelY, nel, order) then
      Ok(Traverse(f, VelX, nel, order) + Traverse(f, VelY, nel, order))
    else Err(IndexError)
  }

  /** Entry i*nGLL^2 + j*nGLL + k of the velocity is vel[0] of node (j, k) of
      element i, and offset by n it is vel[1]. */
  lemma GetVelocityAt(fields: map<Path, Field>, nel: nat, order: nat, path: Path, i: nat, j: nat, k: nat)
    requires GetVelocity(fields, nel, order, path).Ok?
    requires i < nel && j < order && k < order
    ensures var x, n, idx := GetVelocity(fields, nel, order, path).value, Points(nel, order), Flat(i, j, k, order);
      idx < n && x[idx] == fields[path].elem[i].velX[j][k] && x[n + idx] == fields[path].elem[i].velY[j][k]
  {
    var f := fields[path];
    FlatBound(i, j, k, nel, order);
    TraverseAt(f, VelX, nel, order, i, j, k);
    TraverseAt(f, VelY, nel, order, i, j, k);
  }

  /** get_velocity and a handle's get read one file the same way: the
      velocity is the first 2n entries of the handle's u ++ v ++ p. */
  lemma VelocityIsHandlePrefix(fields: map<Path, Field>, path: Path)
    requires path in fields && ReadVelPres(fields[path]).Ok?
    ensures var d := Size(fields[path]).value;
      GetVelocity(fields, d.nel, d.order, path) == Ok(ReadVelPres(fields[path]).value[..2 * d.n])
  {
    var d := Size(fields[path]).value;
    var f := fields[path];
    var u, v, p := Traverse(f, VelX, d.nel, d.order), Traverse(f, VelY, d.nel, d.order), Traverse(f, Pres, d.nel, d.order);
    assert (u + v + p)[..2 * d.n] == u + v;
  }

  /** get_vorticity(file): temp of the first nel elements of order nGLL. */
  function GetVorticity(fields: map<Path, Field>, nel: nat, order: nat, path: Path): (r: Result<seq<real>>)
    ensures path !in fields ==> r == Err(FileNotFound(path))
    ensures path in fields ==> (r.Ok? <==> Fits(fields[path], Temp, nel, order))
    ensures r.Err? && path in fields ==> r.error == IndexError
    ensures r.Ok? ==> |r.value| == Points(nel, order)
  {
    var f :- ReadNek(fields, path);
    if Fits(f, Temp, nel, order) then Ok(Traverse(f, Temp, nel, order)) else Err(IndexError)
  }

  /** Entry i*nGLL^2 + j*nGLL + k of the vorticity is temp of node (j, k) of element i. */
  lemma GetVorticityAt(fields: map<Path, Field>, nel: nat, order: nat, path: Path, i: nat, j: nat, k: nat)
    requires GetVorticity(fields, nel, order, path).Ok?
    requires i < nel && j < order && k < order
    ensures NodeOf(GetVorticity(fields, nel, order, path).value, nel, order, i, j, k) == fields[path].elem[i].temp[j][k]
  {
    TraverseAt(fields[path], Temp, nel, order, i, j, k);
  }

  /** The Laplacian column of load_modes_and_grads from the ddu and ddv
      columns [uxx, uyy] and [vxx, vyy]: uxx + uyy on top, vxx + vyy below. */
  function CombineLaplacian(lx: seq<real>, ly: seq<real>, n: nat): (r: seq<real>)
    requires |lx| == 2 * n && |ly| == 2 * n
    ensures |r| == 2 * n
    ensures forall x :: 0 <= x < n ==> r[x] == lx[x] + lx[x + n] && r[x + n] == ly[x] + ly[x + n]
  {
    PointwiseSum(lx[..n], lx[n..]) + PointwiseSum(ly[..n], ly[n..])
  }

  /** Column by column, lap is the Laplacian recombination of lx and ly. */
  predicate IsLaplacian(lap: seq<seq<real>>, lx: seq<seq<real>>, ly: seq<seq<real>>, n: nat)
  {
    |lap| == |lx| == |ly| &&
    forall x :: 0 <= x < |lap| ==>
      |lx[x]| == 2 * n && |ly[x]| == 2 * n && lap[x] == CombineLaplacian(lx[x], ly[x], n)
  }

  /** The lapU of load_modes_and_grads: its two row-block assignments, for every column. */
  function Laplacians(lx: seq<seq<real>>, ly: seq<seq<real>>, n: nat): (lap: seq<seq<real>>)
    requires |lx| == |ly|
    requires forall x :: 0 <= x < |lx| ==> |lx[x]| == 2 * n && |ly[x]| == 2 * n
    ensures IsLaplacian(lap, lx, ly, n)
  {
    seq(|lx|, x requires 0 <= x < |lx| => CombineLaplacian(lx[x], ly[x], n))
  }

  /** Index of the first failed load, or the number of loads when none fails. */
  function FirstFailure(loads: seq<Result<seq<real>>>): (m: nat)
    ensures m <= |loads|
    ensures forall x :: 0 <= x < m ==> loads[x].Ok?
    ensures m < |loads| ==> loads[m].Err?
  {
    if |loads| == 0 then 0
    else if loads[0].Err? then 0
    else 1 + FirstFailure(loads[1..])
  }

  predicate AllOk(loads: seq<Result<seq<real>>>)
  {
    forall x :: 0 <= x < |loads| ==> loads[x].Ok?
  }

  /** A matrix from np.zeros whose columns are filled in order by the loads:
      an exception stops the loop, leaving the columns not reached at zero. */
  function Filled(loads: seq<Result<seq<real>>>, height: nat): (r: (Outcome, seq<seq<real>>))
    ensures |r.1| == |loads|
    ensures r.0 == Pass <==> AllOk(loads)
  {
    var m := FirstFailure(loads);
    var outcome := if m == |loads| then Pass else Fail(loads[m].error);
    (outcome, seq(|loads|, x requires 0 <= x < |loads| => if x < m then loads[x].value else Zeros(height)))
  }

  /** Which of the two gatherings a column holds. */
  datatype Reader = Velocity | Vorticity

  /** A flow configuration after load_mesh and interpolation_setup. Matrices
      are held as lists of columns: U[i] is column i of self.U. */
  class NekFlowConfig {
    const fieldPath: Path
    const prefix: string
    const nel: nat
    const order: nat
    const n: nat := Points(nel, order)
    const cx: seq<real>
    const cy: seq<real>
    const ngrid: nat
    const interpMask: Option<seq<bool>>
    var dOmega: seq<real>
    var U: seq<seq<real>>
    var vort: seq<seq<real>>
    var gradUx: seq<seq<real>>
    var gradUy: seq<seq<real>>
    var lapU: seq<seq<real>>
    var gradP: seq<seq<real>>

    /** __init__ with the mesh loaded; only the cylinder wake sets interp_mask. */
    constructor (fieldPath: Path, c: Case, mesh: Mesh, nx: nat, ny: nat, cylinderMask: seq<bool>)
      requires c == CylinderWake ==> |cylinderMask| == nx * ny
      ensures this.fieldPath == fieldPath && prefix == Prefix(c)
      ensures nel == mesh.nel && order == mesh.order && cx == mesh.cx && cy == mesh.cy && dOmega == mesh.dOmega
      ensures ngrid == nx * ny
      ensures interpMask == if c == CylinderWake then Some(cylinderMask) else None
      ensures U == [] && vort == [] && gradUx == [] && gradUy == [] && lapU == [] && gradP == []
    {
      this.fieldPath := fieldPath;
      prefix := Prefix(c);
      nel := mesh.nel;
      order := mesh.order;
      cx := mesh.cx;
      cy := mesh.cy;
      ngrid := nx * ny;
      interpMask := if c == CylinderWake then Some(cylinderMask) else None;
      dOmega := mesh.dOmega;
      U, vort, gradUx, gradUy, lapU, gradP := [], [], [], [], [], [];
    }

    /** Building a configuration of case c: load_mesh from snapshot 1 under
        fieldPath, then interpolation_setup with the given or default grid. */
    static method Open(fields: map<Path, Field>, texts: map<Path, seq<seq<real>>>, fieldPath: Path, c: Case,
                       grid: Option<(nat, nat)>, cylinderMask: seq<bool>)
      returns (r: Result<NekFlowConfig>)
      // the cylinder's mask has one entry per point of the chosen grid
      requires c == CylinderWake ==>
        |cylinderMask| == (if grid.Some? then grid.value.0 * grid.value.1 else DefaultGrid(c).0 * DefaultGrid(c).1)
      ensures r.Ok? && r.value.interpMask.Some? ==> |r.value.interpMask.value| == r.value.ngrid
      ensures var m := LoadMesh(fields, texts, fieldPath, Prefix(c));
        (m.Err? ==> r == Err(m.error)) &&
        (m.Ok? ==> r.Ok? && fresh(r.value) &&
                   r.value.fieldPath == fieldPath && r.value.prefix == Prefix(c) &&
                   r.value.nel == m.value.nel && r.value.order == m.value.order &&
                   r.value.cx == m.value.cx && r.value.cy == m.value.cy && r.value.dOmega == m.value.dOmega &&
                   r.value.ngrid == (if grid.Some? then grid.value.0 * grid.value.1 else DefaultGrid(c).0 * DefaultGrid(c).1) &&
                   r.value.interpMask == (if c == CylinderWake then Some(cylinderMask) else None))
    {
      var m := LoadMesh(fields, texts, fieldPath, Prefix(c));
      if m.Err? {
        return Err(m.error);
      }
      var (nx, ny) := if grid.Some? then grid.value else DefaultGrid(c);
      var config := new NekFlowConfig(fieldPath, c, m.value, nx, ny, cylinderMask);
      r := Ok(config);
    }

    /** self.dot: the weighted inner product with the weights held now. */
    function Dot(a: seq<Complex>, b: seq<Complex>): (r: Result<Complex>)
      reads this
      ensures r.Ok? <==> |dOmega| == |a| == |b|
    {
      WeightedDot(dOmega, a, b)
    }

    /** mask_domain(mask): zero the masked weights of the first half in place
        (a view of self.dOmega), report their sum and duplicate them again. */
    method MaskDomain(mask: seq<bool>) returns (r: Outcome, volume: real)
      modifies this
      ensures var h := MaskedHalf(old(dOmega), n, mask);
        (h.Ok? ==> r == Pass && dOmega == h.value + h.value && volume == SumReals(h.value)) &&
        (h.Err? ==> r == Fail(h.error) && dOmega == old(dOmega))
      ensures U == old(U) && vort == old(vort) && gradUx == old(gradUx) && gradUy == old(gradUy)
      ensures lapU == old(lapU) && gradP == old(gradP)
    {
      var w := dOmega;
      var h := Min(n, |w|);
      volume := 0.0;
      if |mask| != h {
        return Fail(IndexError), volume;
      }
      var a := new real[h](x requires 0 <= x < h => w[x]);
      forall x | 0 <= x < h && mask[x] {
        a[x] := 0.0;
      }
      assert a[..] == MaskedHalf(w, n, mask).value;
      volume := SumReals(a[..]);
      dOmega := a[..] + a[..];
      r := Pass;
    }

    /** get_coeffs: the table at mode_path/fname (defaults field_path and
        "coeffs.dat"); t is its first column and a the remaining ones. A
        table that np.loadtxt squeezes below two dimensions cannot be
        indexed by [:, 0] (IndexError). */
    function GetCoeffs(texts: map<Path, seq<seq<real>>>, modePath: Option<Path>, fname: Option<string>):
      (r: Result<(seq<real>, seq<seq<real>>)>)
      ensures var path := ModeDir(modePath) + "/" + (if fname.Some? then fname.value else "coeffs.dat");
        var table := LoadTxt(texts, path);
        (table.Err? ==> r == Err(table.error)) &&
        (table.Ok? ==> (r.Ok? <==> table.value.Matrix?)) &&
        (r.Err? && table.Ok? ==> r.error == IndexError) &&
        (r.Ok? ==> var rows := texts[path];
           |r.value.0| == |rows| && |r.value.1| == |rows| &&
           forall x :: 0 <= x < |rows| ==> [r.value.0[x]] + r.value.1[x] == rows[x])
    {
      var path := ModeDir(modePath) + "/" + (if fname.Some? then fname.value else "coeffs.dat");
      var table :- LoadTxt(texts, path);
      match table
      case Matrix(rows) =>
        Ok((seq(|rows|, x requires 0 <= x < |rows| => rows[x][0]),
            seq(|rows|, x requires 0 <= x < |rows| => rows[x][1..])))
      case _ => Err(IndexError)
    }

    /** mode_path, defaulting to field_path. */
    function ModeDir(modePath: Option<Path>): Path
    {
      if modePath.Some? then modePath.value else fieldPath
    }

    function Load(fields: map<Path, Field>, reader: Reader, path: Path): Result<seq<real>>
    {
      match reader
      case Velocity => GetVelocity(fields, nel, order, path)
      case Vorticity => GetVorticity(fields, nel, order, path)
    }

    /** The paths of snapshots 1 .. r of one kind under dir, in loop order. */
    function SnapshotPaths(dir: Path, kind: string, r: nat): (paths: seq<Path>)
      ensures |paths| == r
    {
      seq(r, x requires 0 <= x < r => SnapshotPath(dir, kind, prefix, x + 1))
    }

    /** The snapshot paths of two kinds of one length are pairwise distinct,
        except for the same snapshot of the same kind. */
    lemma SnapshotPathsDistinct(dir: Path, k1: string, k2: string, r: nat)
      requires |k1| == |k2|
      ensures forall x, y :: 0 <= x < r && 0 <= y < r && SnapshotPaths(dir, k1, r)[x] == SnapshotPaths(dir, k2, r)[y] ==>
        k1 == k2 && x == y
    {
      forall x, y | 0 <= x < r && 0 <= y < r && SnapshotPaths(dir, k1, r)[x] == SnapshotPaths(dir, k2, r)[y]
        ensures k1 == k2 && x == y
      {
        SnapshotPathsPairDistinct(dir, k1, k2, r, x, y);
      }
    }

    lemma SnapshotPathsPairDistinct(dir: Path, k1: string, k2: string, r: nat, x: nat, y: nat)
      requires |k1| == |k2| && x < r && y < r
      requires SnapshotPaths(dir, k1, r)[x] == SnapshotPaths(dir, k2, r)[y]
      ensures k1 == k2 && x == y
    {
      SnapshotPathsAt(dir, k1, r, x);
      SnapshotPathsAt(dir, k2, r, y);
      SnapshotPathInjective(dir, prefix, k1, k2, x + 1, y + 1);
    }

    lemma SnapshotPathsAt(dir: Path, kind: string, r: nat, x: nat)
      requires x < r
      ensures SnapshotPaths(dir, kind, r)[x] == SnapshotPath(dir, kind, prefix, x + 1)
    {
    }

    /** The loads of the files at paths, in order. */
    function Loads(fields: map<Path, Field>, reader: Reader, paths: seq<Path>): (loads: seq<Result<seq<real>>>)
      ensures |loads| == |paths|
    {
      seq(|paths|, x requires 0 <= x < |paths| => Load(fields, reader, paths[x]))
    }

    /** A successful load of a velocity column has 2n entries, of a vorticity column n. */
    lemma LoadHeight(fields: map<Path, Field>, reader: Reader, path: Path)
      requires Load(fields, reader, path).Ok?
      ensures |Load(fields, reader, path).value| == if reader == Velocity then 2 * n else n
    {
    }

    /** When every load succeeds, each column of the filled matrix has the
        height of its reader: 2n for velocities, n for vorticities. */
    lemma FilledHeights(fields: map<Path, Field>, reader: Reader, paths: seq<Path>)
      requires AllOk(Loads(fields, reader, paths))
      ensures var h := if reader == Velocity then 2 * n else n;
        forall x :: 0 <= x < |paths| ==> |Filled(Loads(fields, reader, paths), h).1[x]| == h
    {
      var h := if reader == Velocity then 2 * n else n;
      var loads := Loads(fields, reader, paths);
      assert FirstFailure(loads) == |paths|;
      forall x | 0 <= x < |paths|
        ensures |Filled(loads, h).1[x]| == h
      {
        assert loads[x] == Load(fields, reader, paths[x]);
        LoadHeight(fields, reader, paths[x]);
      }
    }

    /** One of load_modes' loops: column i of a fresh zero matrix of the
        given height becomes the load of the i-th path. */
    method LoadColumns(fields: map<Path, Field>, reader: Reader, paths: seq<Path>, height: nat)
      returns (res: Outcome, cols: seq<seq<real>>)
      ensures (res, cols) == Filled(Loads(fields, reader, paths), height)
    {
      var loads := Loads(fields, reader, paths);
      var r := |paths|;
      cols := seq(r, x => Zeros(height));
      for i := 0 to r
        invariant |cols| == r
        invariant forall x :: 0 <= x < i ==> loads[x].Ok?
        invariant forall x :: 0 <= x < r ==> cols[x] == if x < i then loads[x].value else Zeros(height)
      {
        var c := Load(fields, reader, paths[i]);
        assert c == loads[i];
        if c.Err? {
          FilledAt(loads, height, i, cols);
          return Fail(c.error), cols;
        }
        cols := cols[i := c.value];
      }
      FilledAt(loads, height, r, cols);
      res := Pass;
    }

    /** load_modes(r, mode_path, vort): U gets the velocities of snapshots
        1 .. r as its columns, then (when vort) vort gets their vorticities.
        np.zeros refuses a negative r with ValueError. */
    method LoadModes(fields: map<Path, Field>, r: int, modePath: Option<Path> := None, withVort: bool := true) returns (res: Outcome)
      modifies this
      ensures r < 0 ==> res == Fail(ValueError) && U == old(U) && vort == old(vort)
      ensures r >= 0 ==>
        var paths := SnapshotPaths(ModeDir(modePath), "", r);
        var vel := Filled(Loads(fields, Velocity, paths), 2 * n);
        U == vel.1 &&
        (vel.0.Fail? || !withVort ==> res == vel.0 && vort == old(vort)) &&
        (vel.0.Pass? && withVort ==> (res, vort) == Filled(Loads(fields, Vorticity, paths), n))
      ensures dOmega == old(dOmega) && gradUx == old(gradUx) && gradUy == old(gradUy)
      ensures lapU == old(lapU) && gradP == old(gradP)
    {
      if r < 0 {
        return Fail(ValueError);
      }
      var paths := SnapshotPaths(ModeDir(modePath), "", r);
      res, U := LoadColumns(fields, Velocity, paths, 2 * n);
      if res.Fail? || !withVort {
        return;
      }
      res, vort := LoadColumns(fields, Vorticity, paths, n);
    }

    /** One pass of that loop's body: the four loads in order, stopping at the
        first that raises. The loads after a failing one are not made; their
        results are reported as that failure. */
    method LoadSnapshotGradients(fields: map<Path, Field>, pu: Path, pv: Path, puu: Path, pvv: Path)
      returns (res: Outcome, a: Result<seq<real>>, b: Result<seq<real>>, c: Result<seq<real>>, d: Result<seq<real>>)
      ensures a == Load(fields, Velocity, pu)
      ensures a.Ok? ==> b == Load(fields, Velocity, pv)
      ensures a.Ok? && b.Ok? ==> c == Load(fields, Velocity, puu)
      ensures a.Ok? && b.Ok? && c.Ok? ==> d == Load(fields, Velocity, pvv)
      ensures res.Pass? <==> a.Ok? && b.Ok? && c.Ok? && d.Ok?
      ensures res.Fail? ==> res.error == (if a.Err? then a.error else if b.Err? then b.error else if c.Err? then c.error else d.error)
    {
      a := GetVelocity(fields, nel, order, pu);
      if a.Err? {
        return Fail(a.error), a, a, a, a;
      }
      b := GetVelocity(fields, nel, order, pv);
      if b.Err? {
        return Fail(b.error), a, b, b, b;
      }
      c := GetVelocity(fields, nel, order, puu);
      if c.Err? {
        return Fail(c.error), a, b, c, c;
      }
      d := GetVelocity(fields, nel, order, pvv);
      res := if d.Err? then Fail(d.error) else Pass;
    }

    /** The loop of load_modes_and_grads: per snapshot the du_, dv_, ddu and
        ddv velocities, in that order, each into its own column of a zero
        matrix. The loop stops at snapshot `stop`; on an exception there the
        columns of that snapshot already assigned keep their loads and every
        later column stays zero. */
    method LoadGradients(fields: map<Path, Field>, du: seq<Path>, dv: seq<Path>, ddu: seq<Path>, ddv: seq<Path>)
      returns (res: Outcome, gx: seq<seq<real>>, gy: seq<seq<real>>, lx: seq<seq<real>>, ly: seq<seq<real>>, stop: nat)
      requires |du| == |dv| == |ddu| == |ddv|
      ensures res.Pass? <==>
        AllOk(Loads(fields, Velocity, du)) && AllOk(Loads(fields, Velocity, dv)) &&
        AllOk(Loads(fields, Velocity, ddu)) && AllOk(Loads(fields, Velocity, ddv))
      ensures res.Pass? ==> |gx| == |gy| == |lx| == |ly| == |du|
      ensures res.Pass? ==> forall x :: 0 <= x < |du| ==>
        gx[x] == Loads(fields, Velocity, du)[x].value &&
        gy[x] == Loads(fields, Velocity, dv)[x].value &&
        lx[x] == Loads(fields, Velocity, ddu)[x].value &&
        ly[x] == Loads(fields, Velocity, ddv)[x].value
      ensures stop <= |du| && (res.Pass? <==> stop == |du|)
      ensures Prefilled(Loads(fields, Velocity, du), gx, stop) && Prefilled(Loads(fields, Velocity, dv), gy, stop)
      ensures Prefilled(Loads(fields, Velocity, ddu), lx, stop) && Prefilled(Loads(fields, Velocity, ddv), ly, stop)
      ensures res.Fail? ==> stop < |du|
      ensures res.Fail? ==> ZeroFrom(gx, stop + 1, 2 * n) && ZeroFrom(gy, stop + 1, 2 * n)
      ensures res.Fail? ==> ZeroFrom(lx, stop + 1, 2 * n) && ZeroFrom(ly, stop + 1, 2 * n)
      ensures res.Fail? ==> StoppedColumns(Loads(fields, Velocity, du)[stop], Loads(fields, Velocity, dv)[stop],
        Loads(fields, Velocity, ddu)[stop], gx[stop], gy[stop], lx[stop], ly[stop], 2 * n)
      ensures res.Fail? ==> res == SnapshotOutcome(Loads(fields, Velocity, du)[stop], Loads(fields, Velocity, dv)[stop],
        Loads(fields, Velocity, ddu)[stop], Loads(fields, Velocity, ddv)[stop])
    {
      var r := |du|;
      var gxs, gys := Loads(fields, Velocity, du), Loads(fields, Velocity, dv);
      var lxs, lys := Loads(fields, Velocity, ddu), Loads(fields, Velocity, ddv);
      var h := 2 * n;
      gx, gy, lx, ly := seq(r, x => Zeros(h)), seq(r, x => Zeros(h)), seq(r, x => Zeros(h)), seq(r, x => Zeros(h));
      for i := 0 to r
        invariant Prefilled(gxs, gx, i) && Prefilled(gys, gy, i) && Prefilled(lxs, lx, i) && Prefilled(lys, ly, i)
        invariant ZeroFrom(gx, i, h) && ZeroFrom(gy, i, h) && ZeroFrom(lx, i, h) && ZeroFrom(ly, i, h)
      {
        var step, a, b, c, d := LoadSnapshotGradients(fields, du[i], dv[i], ddu[i], ddv[i]);
        assert gxs[i] == Load(fields, Velocity, du[i]) && gys[i] == Load(fields, Velocity, dv[i]);
        assert lxs[i] == Load(fields, Velocity, ddu[i]) && lys[i] == Load(fields, Velocity, ddv[i]);
        if step.Fail? {
          // the columns of this snapshot assigned before the failing load keep their values
          var ca := Partial(true, a, h);
          var cb := Partial(a.Ok?, b, h);
          var cc := Partial(a.Ok? && b.Ok?, c, h);
          ZeroFromStep(gx, i, h, ca);
          ZeroFromStep(gy, i, h, cb);
          ZeroFromStep(lx, i, h, cc);
          ZeroFromStep(ly, i, h, Zeros(h));
          PrefilledKeep(gxs, gx, i, ca);
          PrefilledKeep(gys, gy, i, cb);
          PrefilledKeep(lxs, lx, i, cc);
          PrefilledKeep(lys, ly, i, Zeros(h));
          return step, gx[i := ca], gy[i := cb], lx[i := cc], ly[i := Zeros(h)], i;
        }
        PrefilledStep(gxs, gx, i);
        PrefilledStep(gys, gy, i);
        PrefilledStep(lxs, lx, i);
        PrefilledStep(lys, ly, i);
        ZeroFromStep(gx, i, h, a.value);
        ZeroFromStep(gy, i, h, b.value);
        ZeroFromStep(lx, i, h, c.value);
        ZeroFromStep(ly, i, h, d.value);
        gx, gy, lx, ly := gx[i := a.value], gy[i := b.value], lx[i := c.value], ly[i := d.value];
      }
      res, stop := Pass, r;
    }

    /** load_modes_and_grads(r, mode_path, vort, pres_grad): load_modes, the
        gradient columns, lapU recombined from the second derivatives, and
        (when pres_grad) the pressure-gradient columns. It succeeds exactly
        when every file it reads has the needed grids. */
    method LoadModesAndGrads(fields: map<Path, Field>, r: int, modePath: Option<Path> := None, withVort: bool := false,
                              presGrad: bool := false)
      returns (res: Outcome)
      modifies this
      ensures var dir := ModeDir(modePath);
        res.Pass? <==> (r >= 0 &&
          AllOk(Loads(fields, Velocity, SnapshotPaths(dir, "", r))) &&
          (withVort ==> AllOk(Loads(fields, Vorticity, SnapshotPaths(dir, "", r)))) &&
          AllOk(Loads(fields, Velocity, SnapshotPaths(dir, "du_", r))) &&
          AllOk(Loads(fields, Velocity, SnapshotPaths(dir, "dv_", r))) &&
          AllOk(Loads(fields, Velocity, SnapshotPaths(dir, "ddu", r))) &&
          AllOk(Loads(fields, Velocity, SnapshotPaths(dir, "ddv", r))) &&
          (presGrad ==> AllOk(Loads(fields, Velocity, SnapshotPaths(dir, "dp_", r)))))
      ensures res.Pass? ==> var dir := ModeDir(modePath);
        U == Filled(Loads(fields, Velocity, SnapshotPaths(dir, "", r)), 2 * n).1 &&
        (withVort ==> vort == Filled(Loads(fields, Vorticity, SnapshotPaths(dir, "", r)), n).1) &&
        (!withVort ==> vort == old(vort)) &&
        gradUx == Filled(Loads(fields, Velocity, SnapshotPaths(dir, "du_", r)), 2 * n).1 &&
        gradUy == Filled(Loads(fields, Velocity, SnapshotPaths(dir, "dv_", r)), 2 * n).1 &&
        IsLaplacian(lapU, Filled(Loads(fields, Velocity, SnapshotPaths(dir, "ddu", r)), 2 * n).1,
                    Filled(Loads(fields, Velocity, SnapshotPaths(dir, "ddv", r)), 2 * n).1, n) &&
        (presGrad ==> gradP == Filled(Loads(fields, Velocity, SnapshotPaths(dir, "dp_", r)), 2 * n).1) &&
        (!presGrad ==> gradP == old(gradP))
      ensures dOmega == old(dOmega)
    {
      res := LoadModes(fields, r, modePath, withVort);
      if res.Fail? {
        return;
      }
      var dir := ModeDir(modePath);
      res := LoadGradsAndLaplacian(fields, SnapshotPaths(dir, "du_", r), SnapshotPaths(dir, "dv_", r),
                                   SnapshotPaths(dir, "ddu", r), SnapshotPaths(dir, "ddv", r),
                                   SnapshotPaths(dir, "dp_", r), presGrad);
    }

    /** The part of load_modes_and_grads after load_modes: gradUx, gradUy,
        lapU and (when pres_grad) gradP, from the files at the paths of the
        derivative kinds. */
    method LoadGradsAndLaplacian(fields: map<Path, Field>, du: seq<Path>, dv: seq<Path>, ddu: seq<Path>, ddv: seq<Path>,
                                 dp: seq<Path>, presGrad: bool) returns (res: Outcome)
      requires |du| == |dv| == |ddu| == |ddv| == |dp|
      modifies this
      ensures res.Pass? <==>
        AllOk(Loads(fields, Velocity, du)) && AllOk(Loads(fields, Velocity, dv)) &&
        AllOk(Loads(fields, Velocity, ddu)) && AllOk(Loads(fields, Velocity, ddv)) &&
        (presGrad ==> AllOk(Loads(fields, Velocity, dp)))
      // once the gradient loop is through, lapU is recombined and the pres_grad
      // loop fills gradP up to its first exception, which is the outcome
      ensures AllOk(Loads(fields, Velocity, du)) && AllOk(Loads(fields, Velocity, dv)) &&
              AllOk(Loads(fields, Velocity, ddu)) && AllOk(Loads(fields, Velocity, ddv)) ==>
        gradUx == Filled(Loads(fields, Velocity, du), 2 * n).1 &&
        gradUy == Filled(Loads(fields, Velocity, dv), 2 * n).1 &&
        IsLaplacian(lapU, Filled(Loads(fields, Velocity, ddu), 2 * n).1, Filled(Loads(fields, Velocity, ddv), 2 * n).1, n) &&
        (presGrad ==> (res, gradP) == Filled(Loads(fields, Velocity, dp), 2 * n)) &&
        (!presGrad ==> res == Pass && gradP == old(gradP))
      // an exception in the gradient loop leaves lapU and gradP as they were
      ensures !(AllOk(Loads(fields, Velocity, du)) && AllOk(Loads(fields, Velocity, dv)) &&
                AllOk(Loads(fields, Velocity, ddu)) && AllOk(Loads(fields, Velocity, ddv))) ==>
        lapU == old(lapU) && gradP == old(gradP)
      ensures U == old(U) && vort == old(vort) && dOmega == old(dOmega)
    {
      var gx, gy, lx, ly;
      var stop;
      res, gx, gy, lx, ly, stop := LoadGradients(fields, du, dv, ddu, ddv);
      gradUx, gradUy := gx, gy;
      if res.Fail? {
        return;
      }
      FilledValues(Loads(fields, Velocity, du), 2 * n, gx);
      FilledValues(Loads(fields, Velocity, dv), 2 * n, gy);
      FilledValues(Loads(fields, Velocity, ddu), 2 * n, lx);
      FilledValues(Loads(fields, Velocity, ddv), 2 * n, ly);
      FilledHeights(fields, Velocity, ddu);
      FilledHeights(fields, Velocity, ddv);
      lapU := Laplacians(lx, ly, n);
      if presGrad {
        res, gradP := LoadColumns(fields, Velocity, dp, 2 * n);
      }
    }

    /** interp after griddata: the ngrid interpolated values (reshape refuses
        any other count with ValueError), with grid_field[interp_mask] = 0
        applied in place when the configuration has a mask. */
    method Interp(gridValues: seq<real>) returns (r: Result<seq<real>>)
      ensures r.Ok? <==> |gridValues| == ngrid && (interpMask.Some? ==> |interpMask.value| == ngrid)
      ensures |gridValues| != ngrid ==> r == Err(ValueError)
      ensures r.Err? && |gridValues| == ngrid ==> r == Err(IndexError)
      ensures r.Ok? ==> (|r.value| == ngrid &&
        forall x :: 0 <= x < ngrid ==>
          (interpMask.Some? && interpMask.value[x] ==> r.value[x] == 0.0) &&
          (!(interpMask.Some? && interpMask.value[x]) ==> r.value[x] == gridValues[x]))
    {
      if |gridValues| != ngrid {
        return Err(ValueError);
      }
      var a := new real[ngrid](x requires 0 <= x < ngrid => gridValues[x]);
      if interpMask.Some? {
        var mask := interpMask.value;
        if |mask| != ngrid {
          return Err(IndexError);
        }
        forall x | 0 <= x < ngrid && mask[x] {
          a[x] := 0.0;
        }
      }
      r := Ok(a[..]);
    }
  }

  /** The loop stops at the first failing load, with its exception; the
      columns before it hold their loads and the columns from it on stay zero. */
  lemma FilledProperties(loads: seq<Result<seq<real>>>, height: nat)
    ensures var r := Filled(loads, height);
      (r.0.Fail? ==> exists x :: 0 <= x < |loads| && loads[x] == Err(r.0.error)) &&
      (forall x :: 0 <= x < |loads| && (forall y :: 0 <= y <= x ==> loads[y].Ok?) ==> r.1[x] == loads[x].value) &&
      (forall x, y :: 0 <= x <= y < |loads| && loads[x].Err? ==> r.1[y] == Zeros(height))
  {
  }

  /** The first i columns hold the first i loads, all successful. */
  predicate Prefilled(loads: seq<Result<seq<real>>>, cols: seq<seq<real>>, i: nat)
  {
    |cols| == |loads| && i <= |loads| && forall x :: 0 <= x < i ==> loads[x].Ok? && cols[x] == loads[x].value
  }

  /** Columns from i on are still the zero columns of np.zeros. */
  predicate ZeroFrom(cols: seq<seq<real>>, i: nat, height: nat)
  {
    forall x :: i <= x < |cols| ==> cols[x] == Zeros(height)
  }

  lemma ZeroFromStep(cols: seq<seq<real>>, i: nat, height: nat, c: seq<real>)
    requires ZeroFrom(cols, i, height) && i < |cols|
    ensures ZeroFrom(cols[i := c], i + 1, height)
  {
  }

  /** Column i of one kind after an exception at snapshot i: its load when
      every earlier load of that snapshot succeeded (prior) and it did too,
      otherwise the zero column it had. */
  function Partial(prior: bool, load: Result<seq<real>>, height: nat): seq<real>
  {
    if prior && load.Ok? then load.value else Zeros(height)
  }

  /** The four columns of the snapshot whose loads a, b, c (then d) raised:
      each kind keeps its load when every earlier load of the snapshot
      succeeded, and the last kind is never assigned. */
  predicate StoppedColumns(a: Result<seq<real>>, b: Result<seq<real>>, c: Result<seq<real>>,
                           gx: seq<real>, gy: seq<real>, lx: seq<real>, ly: seq<real>, height: nat)
  {
    gx == Partial(true, a, height) && gy == Partial(a.Ok?, b, height) &&
    lx == Partial(a.Ok? && b.Ok?, c, height) && ly == Zeros(height)
  }

  /** The outcome of one snapshot of four loads: the exception of the first, in order, that failed. */
  function SnapshotOutcome(a: Result<seq<real>>, b: Result<seq<real>>, c: Result<seq<real>>, d: Result<seq<real>>): (o: Outcome)
    ensures o.Pass? <==> a.Ok? && b.Ok? && c.Ok? && d.Ok?
    ensures a.Err? ==> o == Fail(a.error)
    ensures a.Ok? && b.Err? ==> o == Fail(b.error)
  {
    if a.Err? then Fail(a.error)
    else if b.Err? then Fail(b.error)
    else if c.Err? then Fail(c.error)
    else if d.Err? then Fail(d.error)
    else Pass
  }

  lemma PrefilledKeep(loads: seq<Result<seq<real>>>, cols: seq<seq<real>>, i: nat, c: seq<real>)
    requires Prefilled(loads, cols, i) && i < |loads|
    ensures Prefilled(loads, cols[i := c], i)
  {
  }

  lemma PrefilledStep(loads: seq<Result<seq<real>>>, cols: seq<seq<real>>, i: nat)
    requires Prefilled(loads, cols, i) && i < |loads| && loads[i].Ok?
    ensures Prefilled(loads, cols[i := loads[i].value], i + 1)
  {
  }

  /** Filled, given the first failure m and the matrix pointwise. */
  lemma FilledAt(loads: seq<Result<seq<real>>>, height: nat, m: nat, cols: seq<seq<real>>)
    requires m <= |loads| && forall x :: 0 <= x < m ==> loads[x].Ok?
    requires m < |loads| ==> loads[m].Err?
    requires |cols| == |loads|
    requires forall x :: 0 <= x < |loads| ==> cols[x] == if x < m then loads[x].value else Zeros(height)
    ensures Filled(loads, height) == (if m == |loads| then Pass else Fail(loads[m].error), cols)
  {
    var f := Filled(loads, height).1;
    assert FirstFailure(loads) == m;
    forall x | 0 <= x < |loads|
      ensures f[x] == cols[x]
    {
    }
    assert f == cols;
  }

  /** When every load succeeds the filled matrix is the list of loaded columns. */
  lemma FilledValues(loads: seq<Result<seq<real>>>, height: nat, cols: seq<seq<real>>)
    requires AllOk(loads) && |cols| == |loads|
    requires forall x :: 0 <= x < |loads| ==> cols[x] == loads[x].value
    ensures Filled(loads, height).1 == cols
  {
    var f := Filled(loads, height).1;
    forall x | 0 <= x < |loads|
      ensures f[x] == cols[x]
    {
    }
  }
}
