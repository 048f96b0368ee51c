/** The vector handles of nekflows/nek.py: NekHandle (one field file holding
    u, v and p) and ComplexNekHandle (a real-part file and an imaginary-part
    file). Getting a handle gathers u ++ v ++ p with the shared traversal;
    putting one scatters a flat vector back into a template field with the
    triple loop of _put and writes the result. */
module NekHandles {
  import opened Common
  import opened Fields
  import opened NekVectors
  import opened Storage

  /** The three quantities a handle reads and writes fit the comprehension. */
  predicate FitsVelPres(f: Field, nel: nat, order: nat)
  {
    Fits(f, VelX, nel, order) && Fits(f, VelY, nel, order) && Fits(f, Pres, nel, order)
  }

  // ---------------------------------------------------------------- gather

  /** The body of _get / _get_vector after readnek: u ++ v ++ p, each block
      in element, row, column order. The comprehensions raise IndexError on a
      field whose grids are smaller than the order read from pos. */
  function ReadVelPres(f: Field): (r: Result<seq<real>>)
    ensures r.Ok? <==> Size(f).Ok? && FitsVelPres(f, Size(f).value.nel, Size(f).value.order)
    ensures r.Ok? ==> |r.value| == 3 * Size(f).value.n
  {
    var d :- Size(f);
    if FitsVelPres(f, d.nel, d.order) then
      Ok(Traverse(f, VelX, d.nel, d.order) + Traverse(f, VelY, d.nel, d.order) + Traverse(f, Pres, d.nel, d.order))
    else Err(IndexError)
  }

  /** Entry i*nGLL^2 + j*nGLL + k of u ++ v ++ p is vel[0] of node (j, k) of element i;
      offset by n it is vel[1], offset by 2n it is pres. */
  lemma ReadVelPresAt(f: Field, i: nat, j: nat, k: nat)
    requires ReadVelPres(f).Ok?
    requires i < Size(f).value.nel && j < Size(f).value.order && k < Size(f).value.order
    ensures var d, x, idx := Size(f).value, ReadVelPres(f).value, Flat(i, j, k, Size(f).value.order);
      idx < d.n &&
      x[idx] == f.elem[i].velX[j][k] &&
      x[d.n + idx] == f.elem[i].velY[j][k] &&
      x[2 * d.n + idx] == f.elem[i].pres[j][k]
  {
    var d := Size(f).value;
    FlatBound(i, j, k, d.nel, d.order);
    TraverseAt(f, VelX, d.nel, d.order, i, j, k);
    TraverseAt(f, VelY, d.nel, d.order, i, j, k);
    TraverseAt(f, Pres, d.nel, d.order, i, j, k);
  }

  /** readnek(path) followed by the gathering, as a float vector. */
  function GetVector(fields: map<Path, Field>, path: Path): (r: Result<NekVector>)
    ensures path !in fields ==> r == Err(FileNotFound(path))
    ensures path in fields ==> r.Ok? == ReadVelPres(fields[path]).Ok?
    ensures r.Ok? ==> r.value.data == Lift(ReadVelPres(fields[path]).value)
  {
    var f :- ReadNek(fields, path);
    var x :- ReadVelPres(f);
    Ok(NekVector(Lift(x)))
  }

  // --------------------------------------------------------------- scatter

  /** Grid g of element i after the nodes at flat positions below `upto` have
      been overwritten from src; every other entry is the template's. */
  function WriteGrid(g: Grid, src: seq<real>, i: nat, order: nat, upto: nat): (r: Grid)
    requires upto <= |src|
    ensures |r| == |g| && forall j :: 0 <= j < |g| ==> |r[j]| == |g[j]|
  {
    seq(|g|, j requires 0 <= j < |g| =>
      seq(|g[j]|, k requires 0 <= k < |g[j]| =>
        if j < order && k < order && Flat(i, j, k, order) < upto then src[Flat(i, j, k, order)] else g[j][k]))
  }

  /** The template after the first `upto` iterations of _put's triple loop:
      vel[0], vel[1] and pres of the nodes at flat positions below `upto`
      come from u, v and p; nothing else differs from the template. */
  function Written(t: Field, u: seq<real>, v: seq<real>, p: seq<real>, order: nat, upto: nat): (r: Field)
    requires upto <= |u| && upto <= |v| && upto <= |p|
    ensures |r.elem| == |t.elem|
  {
    Field(seq(|t.elem|, i requires 0 <= i < |t.elem| =>
      t.elem[i].(velX := WriteGrid(t.elem[i].velX, u, i, order, upto),
                 velY := WriteGrid(t.elem[i].velY, v, i, order, upto),
                 pres := WriteGrid(t.elem[i].pres, p, i, order, upto))))
  }

  /** Writing keeps the template's element count, its temp and pos grids and
      the shape of every velocity and pressure grid. */
  lemma WrittenKeepsShape(t: Field, u: seq<real>, v: seq<real>, p: seq<real>, order: nat, upto: nat)
    requires upto <= |u| && upto <= |v| && upto <= |p|
    ensures var r := Written(t, u, v, p, order, upto);
      (forall i :: 0 <= i < |t.elem| ==>
         r.elem[i].temp == t.elem[i].temp && r.elem[i].posX == t.elem[i].posX && r.elem[i].posY == t.elem[i].posY) &&
      (forall i, q :: 0 <= i < |t.elem| && q in {VelX, VelY, Pres} ==>
         |Slot(r.elem[i], q)| == |Slot(t.elem[i], q)| &&
         forall j :: 0 <= j < |Slot(t.elem[i], q)| ==> |Slot(r.elem[i], q)[j]| == |Slot(t.elem[i], q)[j]|)
  {
  }

  /** Before the loop nothing is written. */
  lemma WrittenNone(t: Field, u: seq<real>, v: seq<real>, p: seq<real>, order: nat)
    ensures Written(t, u, v, p, order, 0) == t
  {
    var w := Written(t, u, v, p, order, 0);
    forall i | 0 <= i < |t.elem|
      ensures w.elem[i] == t.elem[i]
    {
      var e := t.elem[i];
      WriteGridNone(e.velX, u, i, order);
      WriteGridNone(e.velY, v, i, order);
      WriteGridNone(e.pres, p, i, order);
    }
    assert w.elem == t.elem;
  }

  lemma WriteGridNone(g: Grid, src: seq<real>, i: nat, order: nat)
    ensures WriteGrid(g, src, i, order, 0) == g
  {
    var w := WriteGrid(g, src, i, order, 0);
    forall j | 0 <= j < |g|
      ensures w[j] == g[j]
    {
    }
  }

  /** The template shape is kept, so the written field still fits. */
  lemma WrittenFits(t: Field, u: seq<real>, v: seq<real>, p: seq<real>, order: nat, upto: nat)
    requires upto <= |u| && upto <= |v| && upto <= |p|
    requires FitsVelPres(t, |t.elem|, order)
    ensures FitsVelPres(Written(t, u, v, p, order, upto), |t.elem|, order)
  {
    var w := Written(t, u, v, p, order, upto);
    WrittenKeepsShape(t, u, v, p, order, upto);
    forall i, q | 0 <= i < |t.elem| && q in {VelX, VelY, Pres}
      ensures Covers(Slot(w.elem[i], q), order)
    {
      assert Covers(Slot(t.elem[i], q), order);
    }
  }

  /** One assignment of the inner loop: field.elem[i].<slot>[0, 0, j, k] = x. */
  function SetAt(g: Grid, j: nat, k: nat, x: real): Grid
    requires j < |g| && k < |g[j]|
  {
    g[j := g[j][k := x]]
  }

  /** The three assignments of one iteration of _put's inner loop. */
  function SetNode(f: Field, i: nat, j: nat, k: nat, a: real, b: real, c: real): (r: Field)
    requires i < |f.elem|
    requires j < |f.elem[i].velX| && k < |f.elem[i].velX[j]|
    requires j < |f.elem[i].velY| && k < |f.elem[i].velY[j]|
    requires j < |f.elem[i].pres| && k < |f.elem[i].pres[j]|
  {
    var e := f.elem[i];
    f.(elem := f.elem[i := e.(velX := SetAt(e.velX, j, k, a), velY := SetAt(e.velY, j, k, b), pres := SetAt(e.pres, j, k, c))])
  }

  /** Writing one more node extends the written prefix by one position. */
  lemma WriteGridStep(g: Grid, src: seq<real>, i': nat, order: nat, i: nat, j: nat, k: nat)
    requires j < order && k < order && Flat(i, j, k, order) < |src|
    requires i' == i ==> Covers(g, order)
    ensures var c := Flat(i, j, k, order);
      WriteGrid(g, src, i', order, c + 1) ==
        if i' == i then SetAt(WriteGrid(g, src, i', order, c), j, k, src[c]) else WriteGrid(g, src, i', order, c)
  {
    var c := Flat(i, j, k, order);
    var after := WriteGrid(g, src, i', order, c + 1);
    var before := WriteGrid(g, src, i', order, c);
    forall j', k' | 0 <= j' < |g| && 0 <= k' < |g[j']| && j' < order && k' < order && Flat(i', j', k', order) == c
      ensures i' == i && j' == j && k' == k
    {
      FlatInjective(i', j', k', i, j, k, order);
    }
    if i' == i {
      var updated := SetAt(before, j, k, src[c]);
      forall j' | 0 <= j' < |g|
        ensures after[j'] == updated[j']
      {
        assert |after[j']| == |updated[j']|;
      }
      assert after == updated;
    } else {
      forall j' | 0 <= j' < |g|
        ensures after[j'] == before[j']
      {
        assert |after[j']| == |before[j']|;
      }
      assert after == before;
    }
  }

  /** One iteration of the inner loop takes Written(..., c) to Written(..., c + 1). */
  lemma WrittenStep(t: Field, u: seq<real>, v: seq<real>, p: seq<real>, order: nat, i: nat, j: nat, k: nat)
    requires FitsVelPres(t, |t.elem|, order)
    requires i < |t.elem| && j < order && k < order
    requires Flat(i, j, k, order) < |u| && Flat(i, j, k, order) < |v| && Flat(i, j, k, order) < |p|
    ensures var c := Flat(i, j, k, order);
      var w := Written(t, u, v, p, order, c);
      i < |w.elem| && j < |w.elem[i].velX| && k < |w.elem[i].velX[j]| &&
      j < |w.elem[i].velY| && k < |w.elem[i].velY[j]| &&
      j < |w.elem[i].pres| && k < |w.elem[i].pres[j]| &&
      Written(t, u, v, p, order, c + 1) == SetNode(w, i, j, k, u[c], v[c], p[c])
  {
    var c := Flat(i, j, k, order);
    var w := Written(t, u, v, p, order, c);
    WrittenFits(t, u, v, p, order, c);
    assert Covers(Slot(w.elem[i], VelX), order) && Covers(Slot(w.elem[i], VelY), order) && Covers(Slot(w.elem[i], Pres), order);
    var after := Written(t, u, v, p, order, c + 1);
    var updated := SetNode(w, i, j, k, u[c], v[c], p[c]);
    forall i' | 0 <= i' < |t.elem|
      ensures after.elem[i'] == updated.elem[i']
    {
      var e := t.elem[i'];
      if i' == i {
        assert Covers(Slot(e, VelX), order) && Covers(Slot(e, VelY), order) && Covers(Slot(e, Pres), order);
      }
      WriteGridStep(e.velX, u, i', order, i, j, k);
      WriteGridStep(e.velY, v, i', order, i, j, k);
      WriteGridStep(e.pres, p, i', order, i, j, k);
    }
    assert after.elem == updated.elem;
  }

  /** The facts one iteration of the inner loop needs. */
  lemma ScatterStep(t: Field, u: seq<real>, v: seq<real>, p: seq<real>, order: nat, i: nat, j: nat, k: nat)
    requires FitsVelPres(t, |t.elem|, order)
    requires i < |t.elem| && j < order && k < order
    requires Points(|t.elem|, order) <= |u| && Points(|t.elem|, order) <= |v| && Points(|t.elem|, order) <= |p|
    ensures Flat(i, j, k, order) < Points(|t.elem|, order)
    ensures var c := Flat(i, j, k, order);
      var w := Written(t, u, v, p, order, c);
      i < |w.elem| && j < |w.elem[i].velX| && k < |w.elem[i].velX[j]| &&
      j < |w.elem[i].velY| && k < |w.elem[i].velY[j]| &&
      j < |w.elem[i].pres| && k < |w.elem[i].pres[j]| &&
      Written(t, u, v, p, order, c + 1) == SetNode(w, i, j, k, u[c], v[c], p[c])
  {
    FlatBound(i, j, k, |t.elem|, order);
    WrittenStep(t, u, v, p, order, i, j, k);
  }

  /** One pass of _put's k loop: the nodes of row j of element i are
      overwritten and the counter advances by nGLL. */
  method ScatterRow(template: Field, u: seq<real>, v: seq<real>, p: seq<real>, order: nat,
                    i: nat, j: nat, field0: Field, count0: nat)
    returns (field: Field, count: nat)
    requires FitsVelPres(template, |template.elem|, order)
    requires Points(|template.elem|, order) <= |u|
    requires Points(|template.elem|, order) <= |v|
    requires Points(|template.elem|, order) <= |p|
    requires i < |template.elem| && j < order
    requires count0 == Mul(i, Mul(order, order)) + Mul(j, order) <= Points(|template.elem|, order)
    requires field0 == Written(template, u, v, p, order, count0)
    ensures count == count0 + order
    ensures count <= Points(|template.elem|, order)
    ensures field == Written(template, u, v, p, order, count)
  {
    field, count := field0, count0;
    FlatBound(i, j, 0, |template.elem|, order);
    for k := 0 to order
      invariant count == Flat(i, j, k, order) <= Points(|template.elem|, order)
      invariant field == Written(template, u, v, p, order, count)
    {
      ScatterStep(template, u, v, p, order, i, j, k);
      field := SetNode(field, i, j, k, u[count], v[count], p[count]);
      count := count + 1;
    }
  }

  /** _put's triple loop over a freshly read template: the running counter
      count (vec_idx) equals i*nGLL^2 + j*nGLL + k at every assignment and
      ends at n; the result is the template with every node overwritten. */
  method Scatter(template: Field, u: seq<real>, v: seq<real>, p: seq<real>, order: nat)
    returns (field: Field, count: nat)
    requires FitsVelPres(template, |template.elem|, order)
    requires Points(|template.elem|, order) <= |u|
    requires Points(|template.elem|, order) <= |v|
    requires Points(|template.elem|, order) <= |p|
    ensures count == Points(|template.elem|, order)
    ensures field == Written(template, u, v, p, order, count)
  {
    var nel := |template.elem|;
    field := template;
    count := 0;
    WrittenNone(template, u, v, p, order);
    for i := 0 to nel
      invariant count == Mul(i, Mul(order, order)) <= Points(nel, order)
      invariant field == Written(template, u, v, p, order, count)
    {
      for j := 0 to order
        invariant count == Mul(i, Mul(order, order)) + Mul(j, order) <= Points(nel, order)
        invariant field == Written(template, u, v, p, order, count)
      {
        field, count := ScatterRow(template, u, v, p, order, i, j, field, count);
      }
      MulMono(i + 1, nel, Mul(order, order));
    }
  }


  /** Gathering a written field gives back the source blocks: the n values
      scattered into vel[0], vel[1] and pres are read back in the same order. */
  lemma GatherWritten(t: Field, u: seq<real>, v: seq<real>, p: seq<real>, order: nat)
    requires FitsVelPres(t, |t.elem|, order)
    requires var n := Points(|t.elem|, order); n <= |u| && n <= |v| && n <= |p|
    ensures var n, w := Points(|t.elem|, order), Written(t, u, v, p, order, Points(|t.elem|, order));
      FitsVelPres(w, |t.elem|, order) &&
      Traverse(w, VelX, |t.elem|, order) == u[..n] &&
      Traverse(w, VelY, |t.elem|, order) == v[..n] &&
      Traverse(w, Pres, |t.elem|, order) == p[..n]
  {
    var nel, n := |t.elem|, Points(|t.elem|, order);
    var w := Written(t, u, v, p, order, n);
    WrittenFits(t, u, v, p, order, n);
    forall i, j, k | 0 <= i < nel && 0 <= j < order && 0 <= k < order
      ensures NodeOf(u[..n], nel, order, i, j, k) == Slot(w.elem[i], VelX)[j][k]
      ensures NodeOf(v[..n], nel, order, i, j, k) == Slot(w.elem[i], VelY)[j][k]
      ensures NodeOf(p[..n], nel, order, i, j, k) == Slot(w.elem[i], Pres)[j][k]
    {
      FlatBound(i, j, k, nel, order);
      assert Covers(Slot(t.elem[i], VelX), order) && Covers(Slot(t.elem[i], VelY), order) && Covers(Slot(t.elem[i], Pres), order);
    }
    TraverseUnique(w, VelX, nel, order, u[..n]);
    TraverseUnique(w, VelY, nel, order, v[..n]);
    TraverseUnique(w, Pres, nel, order, p[..n]);
  }

  /** The field _put hands to writenek: the template scattered with
      data[:n], data[n:2n] and data[2n:]. A vector shorter than 3n, or a
      template whose grids are smaller than its order, raises IndexError
      inside the loop, before anything is written. */
  function Scattered(t: Field, data: seq<real>): (r: Result<Field>)
    ensures r.Ok? <==> Size(t).Ok? && FitsVelPres(t, |t.elem|, Size(t).value.order) && 3 * Size(t).value.n <= |data|
  {
    var d :- Size(t);
    var n := d.n;
    if FitsVelPres(t, d.nel, d.order) && 3 * n <= |data| then
      Ok(Written(t, data[..n], data[n..2 * n], data[2 * n..], d.order, n))
    else Err(IndexError)
  }

  /** readnek(template), scattering, result to be written: the spec of PutFieldVector. */
  function PutField(fields: map<Path, Field>, template: Path, data: seq<real>): Result<Field>
  {
    var t :- ReadNek(fields, template);
    Scattered(t, data)
  }

  /** The shared body of NekHandle._put and ComplexNekHandle._put_vector:
      read the template, run the triple loop, write the result to target. */
  method PutFieldVector(disk: Disk, template: Path, target: Path, data: seq<real>) returns (r: Outcome)
    modifies disk
    ensures var w := PutField(old(disk.fields), template, data);
      (w.Ok? ==> r == Pass && disk.fields == old(disk.fields)[target := w.value]) &&
      (w.Err? ==> r == Fail(w.error) && disk.fields == old(disk.fields))
    ensures disk.texts == old(disk.texts)
  {
    var read := ReadNek(disk.fields, template);
    if read.Err? {
      return Fail(read.error);
    }
    var t := read.value;
    var size := Size(t);
    if size.Err? {
      return Fail(size.error);
    }
    var d := size.value;
    var n := d.n;
    if !(FitsVelPres(t, d.nel, d.order) && 3 * n <= |data|) {
      return Fail(IndexError);
    }
    var u, v, p := data[..n], data[n..2 * n], data[2 * n..];
    var field, count := Scatter(t, u, v, p, d.order);
    disk.WriteNek(target, field);
    r := Pass;
  }

  /** Writing then gathering a float vector of length at least 3n gives back its first 3n entries. */
  lemma ReadScattered(t: Field, data: seq<real>)
    requires Scattered(t, data).Ok?
    ensures Size(Scattered(t, data).value) == Size(t)
    ensures ReadVelPres(Scattered(t, data).value) == Ok(data[..3 * Size(t).value.n])
  {
    var d := Size(t).value;
    var n := d.n;
    var u, v, p := data[..n], data[n..2 * n], data[2 * n..];
    ScatteredSize(t, data);
    GatherWritten(t, u, v, p, d.order);
    SliceThirds(data, n);
  }

  /** The first 3n entries of data are its three consecutive slices of length n. */
  lemma SliceThirds(data: seq<real>, n: nat)
    requires 3 * n <= |data|
    ensures data[..n][..n] == data[..n] && data[n..2 * n][..n] == data[n..2 * n]
    ensures data[2 * n..][..n] == data[2 * n..3 * n]
    ensures data[..3 * n] == data[..n] + data[n..2 * n] + data[2 * n..3 * n]
  {
  }

  /** Scattering keeps the element count and the coordinate grids, hence the size. */
  lemma ScatteredSize(t: Field, data: seq<real>)
    requires Scattered(t, data).Ok?
    ensures Size(Scattered(t, data).value) == Size(t)
  {
    var d := Size(t).value;
    var n := d.n;
    var u, v, p := data[..n], data[n..2 * n], data[2 * n..];
    var w := Scattered(t, data).value;
    WrittenKeepsShape(t, u, v, p, d.order, n);
    assert w.elem[0].posX == t.elem[0].posX;
  }

  // --------------------------------------------------------------- handles

  /** The two handle classes; a handle only records paths. */
  datatype Handle =
    | NekHandle(vecPath: Path, saveTemplate: Path)
    | ComplexNekHandle(realPath: Path, imagPath: Path, saveTemplate: Path)

  /** NekHandle.__init__: the template defaults to the handle's own path. */
  function NewNekHandle(vecPath: Path, saveTemplate: Option<Path>): (h: Handle)
    ensures h.NekHandle? && h.vecPath == vecPath
    ensures h.saveTemplate == if saveTemplate.Some? then saveTemplate.value else vecPath
  {
    NekHandle(vecPath, if saveTemplate.Some? then saveTemplate.value else vecPath)
  }

  /** ComplexNekHandle.__init__: the template defaults to the real-part path. */
  function NewComplexNekHandle(realPath: Path, imagPath: Path, saveTemplate: Option<Path>): (h: Handle)
    ensures h.ComplexNekHandle? && h.realPath == realPath && h.imagPath == imagPath
    ensures h.saveTemplate == if saveTemplate.Some? then saveTemplate.value else realPath
  {
    ComplexNekHandle(realPath, imagPath, if saveTemplate.Some? then saveTemplate.value else realPath)
  }

  /** _get: the gathered vector, or for a complex handle real_part + 1j*imag_part
      (the real part is read first; parts of different lengths do not add). */
  function Get(h: Handle, fields: map<Path, Field>): (r: Result<NekVector>)
    ensures h.NekHandle? ==> r == GetVector(fields, h.vecPath)
    ensures h.ComplexNekHandle? ==>
      var re, im := GetVector(fields, h.realPath), GetVector(fields, h.imagPath);
      (re.Err? ==> r == Err(re.error)) &&
      (re.Ok? && im.Err? ==> r == Err(im.error)) &&
      (re.Ok? && im.Ok? && |re.value.data| != |im.value.data| ==> r == Err(ValueError)) &&
      (re.Ok? && im.Ok? && |re.value.data| == |im.value.data| ==> r.Ok?)
    ensures h.ComplexNekHandle? && r.Ok? ==>
      var re, im := GetVector(fields, h.realPath).value.data, GetVector(fields, h.imagPath).value.data;
      |r.value.data| == |re| == |im| &&
      forall x :: 0 <= x < |re| ==> r.value.data[x] == Complex(re[x].re, im[x].re)
  {
    match h
    case NekHandle(path, _) => GetVector(fields, path)
    case ComplexNekHandle(re, im, _) =>
      var realPart :- GetVector(fields, re);
      var imagPart :- GetVector(fields, im);
      Add(realPart, Scale(imagPart, ImagUnit))
  }

  /** get_size: the point count n of the template (not the flat length 3n). */
  function GetSize(h: Handle, fields: map<Path, Field>): (r: Result<nat>)
    ensures r.Ok? <==> h.saveTemplate in fields && |fields[h.saveTemplate].elem| > 0
    ensures r.Ok? ==> r.value == Points(|fields[h.saveTemplate].elem|, Order(fields[h.saveTemplate]))
  {
    var f :- ReadNek(fields, h.saveTemplate);
    var d :- Size(f);
    Ok(d.n)
  }

  /** What get_size and the flat length have to do with each other: a real
      handle whose template is its own file holds 3 * get_size() entries. */
  lemma GetSizeIsThirdOfLength(h: Handle, fields: map<Path, Field>)
    requires h.NekHandle? && h.saveTemplate == h.vecPath
    requires Get(h, fields).Ok?
    ensures GetSize(h, fields).Ok? && |Get(h, fields).value.data| == 3 * GetSize(h, fields).value
  {
  }

  /** The files a put may write: the handle's own file, or both part files. */
  function Targets(h: Handle): set<Path>
  {
    if h.NekHandle? then {h.vecPath} else {h.realPath, h.imagPath}
  }

  /** The file contents and the outcome after _put: the spec of Put. The
      complex handle writes the real part first, each part with its own
      target file as the template; a failure on the imaginary part leaves
      the real part written. */
  function PutEffect(h: Handle, fields: map<Path, Field>, vec: NekVector): (r: (Outcome, map<Path, Field>))
    ensures fields.Keys <= r.1.Keys <= fields.Keys + Targets(h)
    ensures forall path :: path in fields && path !in Targets(h) ==> r.1[path] == fields[path]
    ensures r.0.Pass? ==> Targets(h) <= r.1.Keys
    ensures h.NekHandle? && r.0.Fail? ==> r.1 == fields
  {
    match h
    case NekHandle(path, template) =>
      (match PutField(fields, template, RealParts(vec.data))
       case Ok(f) => (Pass, fields[path := f])
       case Err(e) => (Fail(e), fields))
    case ComplexNekHandle(re, im, _) =>
      match PutField(fields, re, RealParts(vec.data))
      case Err(e) => (Fail(e), fields)
      case Ok(fr) =>
        var afterReal := fields[re := fr];
        match PutField(afterReal, im, ImagParts(vec.data))
        case Err(e) => (Fail(e), afterReal)
        case Ok(fi) => (Pass, afterReal[im := fi])
  }

  /** _put. A real handle keeps only the real part of complex data (numpy's
      cast of a complex entry into a float array). */
  method Put(h: Handle, disk: Disk, vec: NekVector) returns (r: Outcome)
    modifies disk
    ensures (r, disk.fields) == PutEffect(h, old(disk.fields), vec)
    ensures disk.texts == old(disk.texts)
  {
    match h
    case NekHandle(path, template) =>
      r := PutFieldVector(disk, template, path, RealParts(vec.data));
    case ComplexNekHandle(re, im, _) =>
      r := PutFieldVector(disk, re, re, RealParts(vec.data));
      if r.Pass? {
        r := PutFieldVector(disk, im, im, ImagParts(vec.data));
      }
  }

  /** Round trip of a real handle: after a successful put, get returns the
      real parts of the first 3n entries of the vector put, n being the
      template's point count. */
  lemma NekHandleRoundTrip(h: Handle, fields: map<Path, Field>, vec: NekVector)
    requires h.NekHandle?
    requires PutEffect(h, fields, vec).0 == Pass
    ensures GetSize(h, fields).Ok? && 3 * GetSize(h, fields).value <= |vec.data|
    ensures Get(h, PutEffect(h, fields, vec).1) ==
              Ok(NekVector(Lift(RealParts(vec.data)[..3 * GetSize(h, fields).value])))
  {
    var t := fields[h.saveTemplate];
    ReadScattered(t, RealParts(vec.data));
  }

  /** For a float vector of exactly 3n entries the round trip is the identity. */
  lemma NekHandleRoundTripExact(h: Handle, fields: map<Path, Field>, vec: NekVector)
    requires h.NekHandle?
    requires forall i :: 0 <= i < |vec.data| ==> vec.data[i].im == 0.0
    requires GetSize(h, fields).Ok? && |vec.data| == 3 * GetSize(h, fields).value
    requires PutEffect(h, fields, vec).0 == Pass
    ensures Get(h, PutEffect(h, fields, vec).1) == Ok(vec)
  {
    NekHandleRoundTrip(h, fields, vec);
    var re := RealParts(vec.data);
    assert re[..|re|] == re;
    assert Lift(re) == vec.data;
  }

  /** A real handle that is its own template stores what it loads, and loading
      again gives the same vector. */
  lemma NekHandleStoreLoad(h: Handle, fields: map<Path, Field>)
    requires h.NekHandle? && h.saveTemplate == h.vecPath
    requires Get(h, fields).Ok?
    ensures PutEffect(h, fields, Get(h, fields).value).0 == Pass
    ensures Get(h, PutEffect(h, fields, Get(h, fields).value).1) == Get(h, fields)
  {
    var vec := Get(h, fields).value;
    var xs := ReadVelPres(fields[h.vecPath]).value;
    RealPartsOfLift(xs);
    GetSizeIsThirdOfLength(h, fields);
    NekHandleRoundTripExact(h, fields, vec);
  }

  /** A successful put of a real handle writes its own file only, and the
      written field keeps the template's element count, temp and pos. */
  lemma NekHandlePutFrame(h: Handle, fields: map<Path, Field>, vec: NekVector)
    requires h.NekHandle?
    requires PutEffect(h, fields, vec).0 == Pass
    ensures var after, t := PutEffect(h, fields, vec).1, fields[h.saveTemplate];
      after.Keys == fields.Keys + {h.vecPath} &&
      (forall path :: path in fields && path != h.vecPath ==> after[path] == fields[path]) &&
      |after[h.vecPath].elem| == |t.elem| &&
      forall i :: 0 <= i < |t.elem| ==>
        after[h.vecPath].elem[i].temp == t.elem[i].temp &&
        after[h.vecPath].elem[i].posX == t.elem[i].posX &&
        after[h.vecPath].elem[i].posY == t.elem[i].posY
  {
  }

  lemma CombineParts(re: seq<real>, im: seq<real>, z: seq<Complex>)
    requires |re| == |im| == |z|
    requires forall i :: 0 <= i < |z| ==> z[i] == Complex(re[i], im[i])
    ensures Add(NekVector(Lift(re)), Scale(NekVector(Lift(im)), ImagUnit)) == Ok(NekVector(z))
  {
    var s := Add(NekVector(Lift(re)), Scale(NekVector(Lift(im)), ImagUnit)).value.data;
    forall i | 0 <= i < |z|
      ensures s[i] == z[i]
    {
    }
    assert s == z;
  }

  /** Round trip of a complex handle with two distinct files of one point
      count n: after a successful put, get returns the first 3n entries of
      the vector put, real and imaginary parts recombined. */
  lemma ComplexHandleRoundTrip(h: Handle, fields: map<Path, Field>, vec: NekVector)
    requires h.ComplexNekHandle? && h.realPath != h.imagPath
    requires PutEffect(h, fields, vec).0 == Pass
    requires Size(fields[h.realPath]).Ok? && Size(fields[h.imagPath]).Ok?
    requires Size(fields[h.realPath]).value.n == Size(fields[h.imagPath]).value.n
    ensures 3 * Size(fields[h.realPath]).value.n <= |vec.data|
    ensures Get(h, PutEffect(h, fields, vec).1) == Ok(NekVector(vec.data[..3 * Size(fields[h.realPath]).value.n]))
  {
    var n := Size(fields[h.realPath]).value.n;
    var re, im := RealParts(vec.data), ImagParts(vec.data);
    var tr := fields[h.realPath];
    var ti := fields[h.imagPath];
    var after := PutEffect(h, fields, vec).1;
    var afterReal := fields[h.realPath := Scattered(tr, re).value];
    assert afterReal[h.imagPath] == ti;
    ReadScattered(tr, re);
    ReadScattered(ti, im);
    assert after[h.realPath] == Scattered(tr, re).value;
    assert after[h.imagPath] == Scattered(ti, im).value;
    var z := vec.data[..3 * n];
    CombineParts(re[..3 * n], im[..3 * n], z);
  }

  /** Every handle loaded in list order; the first failure is the result. */
  function GetAll(hs: seq<Handle>, fields: map<Path, Field>): (r: Result<seq<NekVector>>)
    ensures r.Ok? <==> forall x :: 0 <= x < |hs| ==> Get(hs[x], fields).Ok?
    ensures r.Ok? ==> |r.value| == |hs| && forall x :: 0 <= x < |hs| ==> r.value[x] == Get(hs[x], fields).value
    ensures r.Err? ==> exists k :: 0 <= k < |hs| && Get(hs[k], fields) == Err(r.error) &&
                                   forall x :: 0 <= x < k ==> Get(hs[x], fields).Ok?
  {
    if |hs| == 0 then Ok([])
    else
      match Get(hs[0], fields)
      case Err(e) => Err(e)
      case Ok(first) =>
        var rest := GetAll(hs[1..], fields);
        if rest.Err? then
          var k :| 0 <= k < |hs| - 1 && Get(hs[1..][k], fields) == Err(rest.error) &&
                   forall x :: 0 <= x < k ==> Get(hs[1..][x], fields).Ok?;
          assert Get(hs[k + 1], fields) == Err(rest.error);
          assert forall x :: 0 <= x < k + 1 ==> Get(hs[x], fields).Ok? by {
            forall x | 0 <= x < k + 1
              ensures Get(hs[x], fields).Ok?
            {
              if x > 0 {
                assert hs[x] == hs[1..][x - 1];
              }
            }
          }
          Err(rest.error)
        else
          Ok([first] + rest.value)
  }

  /** mean(handles): every handle is loaded first, then averaged. */
  function MeanOfHandles(hs: seq<Handle>, fields: map<Path, Field>): (r: Result<NekVector>)
    ensures |hs| == 0 ==> r == Err(TypeError)
    ensures GetAll(hs, fields).Err? ==> r == Err(GetAll(hs, fields).error)
    ensures GetAll(hs, fields).Ok? && |hs| > 0 ==>
      (r.Ok? <==> forall x :: 0 <= x < |hs| ==> |Get(hs[x], fields).value.data| == |Get(hs[0], fields).value.data|)
    ensures GetAll(hs, fields).Ok? && |hs| > 0 && r.Err? ==> r == Err(ValueError)
    ensures r.Ok? ==> var vs := GetAll(hs, fields).value;
      |hs| > 0 && |r.value.data| == |vs[0].data| &&
      forall k :: 0 <= k < |vs[0].data| ==> r.value.data[k] == CMul(EntrySum(vs, k), OfReal(1.0 / (|hs| as real)))
  {
    var vs :- GetAll(hs, fields);
    assert |hs| > 0 ==> (SameLength(vs) <==>
      forall x :: 0 <= x < |hs| ==> |Get(hs[x], fields).value.data| == |Get(hs[0], fields).value.data|);
    Mean(vs)
  }

  /** mean of one handle is that handle's vector; mean of no handles fails in reduce. */
  lemma MeanOfHandlesSingletonAndEmpty(h: Handle, fields: map<Path, Field>)
    ensures MeanOfHandles([], fields) == Err(TypeError)
    ensures Get(h, fields).Ok? ==> MeanOfHandles([h], fields) == Get(h, fields)
  {
    if Get(h, fields).Ok? {
      assert [h][1..] == [];
      MeanSingleton(Get(h, fields).value);
    }
  }
}
