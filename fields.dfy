/** The spectral-element field as the field reader delivers it, and the one
    traversal (element, then row, then column) that every flat array of the
    system uses: velocity and pressure blocks, the vorticity scalar and the
    mesh coordinates are all produced by Traverse. */
module Fields {
  import opened Common

  /** The nGLL x nGLL nodal values of one quantity of one element at time
      level 0: rows indexed by j, columns by k (a numpy index [c, 0, j, k]). */
  type Grid = seq<seq<real>>

  /** One spectral element: vel[0], vel[1], pres, temp, pos[0] and pos[1] at time level 0. */
  datatype Element = Element(velX: Grid, velY: Grid, pres: Grid, temp: Grid, posX: Grid, posY: Grid)

  /** A field object: its list of elements (field.elem). */
  datatype Field = Field(elem: seq<Element>)

  datatype Quantity = VelX | VelY | Pres | Temp | PosX | PosY

  function Slot(e: Element, q: Quantity): Grid
  {
    match q
    case VelX => e.velX
    case VelY => e.velY
    case Pres => e.pres
    case Temp => e.temp
    case PosX => e.posX
    case PosY => e.posY
  }

  /** Every index [j][k] with j, k < order exists in the grid. */
  predicate Covers(g: Grid, order: nat)
  {
    order <= |g| && forall j :: 0 <= j < order ==> order <= |g[j]|
  }

  /** The comprehension over i < nel, j < order, k < order reads quantity q
      without an IndexError. */
  predicate Fits(f: Field, q: Quantity, nel: nat, order: nat)
  {
    nel <= |f.elem| && forall i :: 0 <= i < nel ==> Covers(Slot(f.elem[i], q), order)
  }

  /** a * b, written as repeated addition. Index arithmetic below is stated
      with Mul so that the solver treats a product of two variables as a term;
      MulIsProduct connects it with `*`. */
  function Mul(a: nat, b: nat): nat
  {
    if a == 0 then 0 else Mul(a - 1, b) + b
  }

  lemma {:induction false} MulIsProduct(a: nat, b: nat)
    ensures Mul(a, b) == a * b
  {
    if a > 0 {
      MulIsProduct(a - 1, b);
    }
  }

  lemma {:induction false} MulMono(a: nat, b: nat, m: nat)
    requires a <= b
    ensures Mul(a, m) <= Mul(b, m)
  {
    if a < b {
      MulMono(a, b - 1, m);
    }
  }

  /** The number of nodes of nel elements of order nGLL: nel * nGLL^2. */
  function Points(nel: nat, order: nat): nat
  {
    Mul(nel, Mul(order, order))
  }

  lemma PointsIsProduct(nel: nat, order: nat)
    ensures Points(nel, order) == nel * order * order
  {
    MulIsProduct(order, order);
    MulIsProduct(nel, order * order);
  }

  /** Position of node (j, k) of element i in a flat array: i*nGLL^2 + j*nGLL + k. */
  function Flat(i: nat, j: nat, k: nat, order: nat): nat
  {
    Mul(i, Mul(order, order)) + Mul(j, order) + k
  }

  /** The flat position of each node lies below nel * nGLL^2. */
  lemma FlatBound(i: nat, j: nat, k: nat, nel: nat, order: nat)
    requires i < nel && j < order && k < order
    ensures Mul(j, order) + k < Mul(order, order)
    ensures Flat(i, j, k, order) < Points(nel, order)
  {
    MulMono(j + 1, order, order);
    MulMono(i + 1, nel, Mul(order, order));
  }

  /** Distinct nodes have distinct flat positions. */
  lemma FlatInjective(i: nat, j: nat, k: nat, i': nat, j': nat, k': nat, order: nat)
    requires j < order && k < order && j' < order && k' < order
    requires Flat(i, j, k, order) == Flat(i', j', k', order)
    ensures i == i' && j == j' && k == k'
  {
    FlatBound(i, j, k, i + 1, order);
    FlatBound(i', j', k', i' + 1, order);
    if i < i' {
      MulMono(i + 1, i', Mul(order, order));
    } else if i' < i {
      MulMono(i' + 1, i, Mul(order, order));
    }
    if j < j' {
      MulMono(j + 1, j', order);
    } else if j' < j {
      MulMono(j' + 1, j, order);
    }
  }

  lemma MulLtCancel(a: nat, b: nat, m: nat)
    requires Mul(a, m) < Mul(b, m)
    ensures a < b
  {
    if b <= a {
      MulMono(b, a, m);
    }
  }

  /** Euclidean division, stated with Mul. */
  lemma DivRem(x: nat, d: nat)
    requires d > 0
    ensures x == Mul(x / d, d) + x % d && x % d < d
  {
    MulIsProduct(x / d, d);
  }

  lemma PointsPositive(idx: nat, nel: nat, order: nat)
    requires idx < Points(nel, order)
    ensures order > 0
  {
    if order == 0 {
      MulIsProduct(nel, 0);
    }
  }

  /** Every flat position below nel * nGLL^2 is the position of some node. */
  lemma Decode(idx: nat, nel: nat, order: nat) returns (i: nat, j: nat, k: nat)
    requires idx < Points(nel, order)
    ensures i < nel && j < order && k < order && idx == Flat(i, j, k, order)
  {
    PointsPositive(idx, nel, order);
    var m := Mul(order, order);
    MulIsProduct(order, order);
    assert m > 0;
    i := idx / m;
    var rest := idx % m;
    DivRem(idx, m);
    j := rest / order;
    k := rest % order;
    DivRem(rest, order);
    MulLtCancel(i, nel, m);
    MulLtCancel(j, order, order);
  }

  /** The value at node (j, k) of element i of a flat array of nel elements. */
  function NodeOf(s: seq<real>, nel: nat, order: nat, i: nat, j: nat, k: nat): real
    requires |s| == Points(nel, order) && i < nel && j < order && k < order
  {
    FlatBound(i, j, k, nel, order);
    s[Flat(i, j, k, order)]
  }

  /** Concatenation of a list of blocks, as np.concatenate or a nested comprehension. */
  function Concat<T>(blocks: seq<seq<T>>): seq<T>
  {
    if |blocks| == 0 then [] else Concat(blocks[..|blocks| - 1]) + blocks[|blocks| - 1]
  }

  lemma {:induction false} ConcatLength<T>(blocks: seq<seq<T>>, m: nat)
    requires forall x :: 0 <= x < |blocks| ==> |blocks[x]| == m
    ensures |Concat(blocks)| == Mul(|blocks|, m)
  {
    if |blocks| > 0 {
      ConcatLength(blocks[..|blocks| - 1], m);
    }
  }

  /** In a concatenation of blocks of one length m, position b*m + r is entry r of block b. */
  lemma {:induction false} ConcatAt<T>(blocks: seq<seq<T>>, m: nat, b: nat, r: nat)
    requires forall x :: 0 <= x < |blocks| ==> |blocks[x]| == m
    requires b < |blocks| && r < m
    ensures Mul(b, m) + r < |Concat(blocks)|
    ensures Concat(blocks)[Mul(b, m) + r] == blocks[b][r]
  {
    var init := blocks[..|blocks| - 1];
    ConcatLength(blocks, m);
    ConcatLength(init, m);
    if b < |blocks| - 1 {
      ConcatAt(init, m, b, r);
      MulMono(b + 1, |blocks| - 1, m);
    }
  }

  /** One element's grid, rows then columns (the j and k loops). */
  function ElementBlock(g: Grid, order: nat): (r: seq<real>)
    requires Covers(g, order)
    ensures |r| == Mul(order, order)
  {
    var rows := seq(order, j requires 0 <= j < order => g[j][..order]);
    ConcatLength(rows, order);
    Concat(rows)
  }

  lemma ElementBlockAt(g: Grid, order: nat, j: nat, k: nat)
    requires Covers(g, order) && j < order && k < order
    ensures Mul(j, order) + k < |ElementBlock(g, order)|
    ensures ElementBlock(g, order)[Mul(j, order) + k] == g[j][k]
  {
    var rows := seq(order, j requires 0 <= j < order => g[j][..order]);
    ConcatAt(rows, order, j, k);
  }

  /** The shared traversal: quantity q of elements i < nel, then rows j, then
      columns k, the order of every list comprehension of the system. */
  function Traverse(f: Field, q: Quantity, nel: nat, order: nat): (r: seq<real>)
    requires Fits(f, q, nel, order)
    ensures |r| == Points(nel, order)
  {
    var blocks := seq(nel, i requires 0 <= i < nel => ElementBlock(Slot(f.elem[i], q), order));
    ConcatLength(blocks, Mul(order, order));
    Concat(blocks)
  }

  /** Entry i*nGLL^2 + j*nGLL + k of the traversal is node (j, k) of element i. */
  lemma TraverseAt(f: Field, q: Quantity, nel: nat, order: nat, i: nat, j: nat, k: nat)
    requires Fits(f, q, nel, order)
    requires i < nel && j < order && k < order
    ensures NodeOf(Traverse(f, q, nel, order), nel, order, i, j, k) == Slot(f.elem[i], q)[j][k]
  {
    var blocks := seq(nel, i requires 0 <= i < nel => ElementBlock(Slot(f.elem[i], q), order));
    FlatBound(0, j, k, 1, order);
    ConcatAt(blocks, Mul(order, order), i, Mul(j, order) + k);
    ElementBlockAt(Slot(f.elem[i], q), order, j, k);
  }

  /** Two arrays of length nel * order^2 that agree at every node position are equal. */
  lemma FlatExtensionality(r: seq<real>, s: seq<real>, nel: nat, order: nat)
    requires |r| == |s| == Points(nel, order)
    requires forall i, j, k :: 0 <= i < nel && 0 <= j < order && 0 <= k < order ==>
               NodeOf(r, nel, order, i, j, k) == NodeOf(s, nel, order, i, j, k)
    ensures r == s
  {
    forall idx | 0 <= idx < |s|
      ensures r[idx] == s[idx]
    {
      var i, j, k := Decode(idx, nel, order);
      assert NodeOf(r, nel, order, i, j, k) == NodeOf(s, nel, order, i, j, k);
    }
  }

  /** The traversal is the only array of its length with those entries:
      an array that agrees with the nodes at every flat position equals it. */
  lemma TraverseUnique(f: Field, q: Quantity, nel: nat, order: nat, s: seq<real>)
    requires Fits(f, q, nel, order)
    requires |s| == Points(nel, order)
    requires forall i, j, k :: 0 <= i < nel && 0 <= j < order && 0 <= k < order ==>
               NodeOf(s, nel, order, i, j, k) == Slot(f.elem[i], q)[j][k]
    ensures Traverse(f, q, nel, order) == s
  {
    var r := Traverse(f, q, nel, order);
    forall i, j, k | 0 <= i < nel && 0 <= j < order && 0 <= k < order
      ensures NodeOf(r, nel, order, i, j, k) == NodeOf(s, nel, order, i, j, k)
    {
      TraverseAt(f, q, nel, order, i, j, k);
    }
    FlatExtensionality(r, s, nel, order);
  }

  /** What _size returns: element count, order of the mesh and point count. */
  datatype Dims = Dims(nel: nat, order: nat, n: nat)

  /** pos.shape[-1] of the first element: the length of its rows. */
  function Order(f: Field): nat
    requires |f.elem| > 0
  {
    var p := f.elem[0].posX;
    if |p| == 0 then 0 else |p[0]|
  }

  /** _size: field.elem[0] raises IndexError on a field without elements. */
  function Size(f: Field): (r: Result<Dims>)
    ensures r.Ok? <==> |f.elem| > 0
    ensures r.Ok? ==> r.value.nel == |f.elem| && r.value.order == Order(f)
    ensures r.Ok? ==> r.value.n == Points(r.value.nel, r.value.order)
  {
    if |f.elem| == 0 then Err(IndexError)
    else
      var order := Order(f);
      Ok(Dims(|f.elem|, order, Points(|f.elem|, order)))
  }
}
