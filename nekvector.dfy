/** The vector value of nekflows/nek.py (NekVector) and the two module-level
    reductions built on it: mean and project. */
module NekVectors {
  import opened Common

  /** A NekVector: its data_array. Entries are complex so that one type holds
      the float arrays of real fields and the complex arrays of complex modes;
      a float array is held with zero imaginary parts (Lift). */
  datatype NekVector = NekVector(data: seq<Complex>)

  /** __add__: a new vector holding the element-wise sum. numpy refuses to add
      arrays of different lengths (ValueError). */
  function Add(a: NekVector, b: NekVector): (r: Result<NekVector>)
    ensures r.Ok? <==> |a.data| == |b.data|
    ensures r.Ok? ==> |r.value.data| == |a.data|
    ensures r.Ok? ==> forall i :: 0 <= i < |a.data| ==> r.value.data[i] == CAdd(a.data[i], b.data[i])
  {
    if |a.data| != |b.data| then Err(ValueError)
    else Ok(NekVector(seq(|a.data|, i requires 0 <= i < |a.data| => CAdd(a.data[i], b.data[i]))))
  }

  /** __mul__: a new vector holding every entry times the scalar, which may
      be real or complex (modred's __rmul__ delegates to it, so `1j*v` is
      Scale(v, ImagUnit)). */
  function Scale(a: NekVector, c: Complex): (r: NekVector)
    ensures |r.data| == |a.data|
    ensures forall i :: 0 <= i < |a.data| ==> r.data[i] == CMul(a.data[i], c)
  {
    NekVector(seq(|a.data|, i requires 0 <= i < |a.data| => CMul(a.data[i], c)))
  }

  /** Addition is commutative, including its failure. */
  lemma AddCommutes(a: NekVector, b: NekVector)
    ensures Add(a, b) == Add(b, a)
  {
    if |a.data| == |b.data| {
      assert Add(a, b).value.data == Add(b, a).value.data;
    }
  }

  /** Scaling distributes over addition. */
  lemma ScaleDistributes(a: NekVector, b: NekVector, c: Complex)
    requires |a.data| == |b.data|
    ensures Add(Scale(a, c), Scale(b, c)) == Ok(Scale(Add(a, b).value, c))
  {
    var l := Add(Scale(a, c), Scale(b, c)).value.data;
    var r := Scale(Add(a, b).value, c).data;
    forall i | 0 <= i < |a.data|
      ensures l[i] == r[i]
    {
      var x, y := a.data[i], b.data[i];
      calc {
        l[i];
        CAdd(CMul(x, c), CMul(y, c));
        CMul(CAdd(x, y), c);
      }
    }
    assert l == r;
  }

  /** Scaling by the real 1 leaves a vector as it is. */
  lemma ScaleByOne(a: NekVector)
    ensures Scale(a, OfReal(1.0)) == a
  {
    assert Scale(a, OfReal(1.0)).data == a.data;
  }

  /** All vectors have the length of the first one. */
  predicate SameLength(vs: seq<NekVector>)
  {
    forall x :: 0 <= x < |vs| ==> |vs[x].data| == |vs[0].data|
  }

  /** Entry k of every vector, summed in list order: the reference for what
      a sum of the vectors holds at k. */
  function EntrySum(vs: seq<NekVector>, k: nat): Complex
    requires |vs| > 0
    requires forall x :: 0 <= x < |vs| ==> k < |vs[x].data|
  {
    if |vs| == 1 then vs[0].data[k]
    else CAdd(EntrySum(vs[..|vs| - 1], k), vs[|vs| - 1].data[k])
  }

  /** reduce(do_sum, data): a left fold of Add over a non-empty list. It
      succeeds exactly when all vectors have one length, and then holds at
      each entry the sum of that entry over all vectors. */
  function Sum(vs: seq<NekVector>): (r: Result<NekVector>)
    requires |vs| > 0
    ensures r.Ok? <==> SameLength(vs)
    ensures r.Ok? ==> |r.value.data| == |vs[0].data|
    ensures r.Ok? ==> forall k :: 0 <= k < |vs[0].data| ==> r.value.data[k] == EntrySum(vs, k)
    ensures r.Err? ==> r.error == ValueError
  {
    if |vs| == 1 then Ok(vs[0])
    else
      var init := vs[..|vs| - 1];
      assert SameLength(vs) ==> SameLength(init);
      var s :- Sum(init);
      Add(s, vs[|vs| - 1])
  }

  /** mean(handles) once the handles are loaded: the sum times 1/len. An empty
      list fails in reduce (TypeError) before 1/len is reached. */
  function Mean(vs: seq<NekVector>): (r: Result<NekVector>)
    ensures |vs| == 0 ==> r == Err(TypeError)
    ensures |vs| > 0 ==> (r.Ok? <==> SameLength(vs))
    ensures |vs| > 0 && r.Err? ==> r == Err(ValueError)
    ensures r.Ok? ==> |r.value.data| == |vs[0].data|
    ensures r.Ok? ==> forall k :: 0 <= k < |vs[0].data| ==>
              r.value.data[k] == CMul(EntrySum(vs, k), OfReal(1.0 / (|vs| as real)))
  {
    if |vs| == 0 then Err(TypeError)
    else
      var s :- Sum(vs);
      Ok(Scale(s, OfReal(1.0 / (|vs| as real))))
  }

  /** The mean of one vector is that vector. */
  lemma MeanSingleton(v: NekVector)
    ensures Mean([v]) == Ok(v)
  {
    var r := Mean([v]).value;
    forall k | 0 <= k < |v.data|
      ensures r.data[k] == v.data[k]
    {
      assert EntrySum([v], k) == v.data[k];
    }
    assert r.data == v.data;
  }

  lemma {:induction false} EntrySumCopies(v: NekVector, m: nat, k: nat)
    requires m > 0 && k < |v.data|
    ensures EntrySum(seq(m, x => v), k) == Complex((m as real) * v.data[k].re, (m as real) * v.data[k].im)
  {
    var vs := seq(m, x => v);
    if m > 1 {
      assert vs[..m - 1] == seq(m - 1, x => v);
      EntrySumCopies(v, m - 1, k);
    }
  }

  /** The mean of m copies of one vector is that vector. */
  lemma MeanOfCopies(v: NekVector, m: nat)
    requires m > 0
    ensures Mean(seq(m, x => v)) == Ok(v)
  {
    var vs := seq(m, x => v);
    assert SameLength(vs);
    var r := Mean(vs).value;
    forall k | 0 <= k < |v.data|
      ensures r.data[k] == v.data[k]
    {
      EntrySumCopies(v, m, k);
      var c := 1.0 / (m as real);
      assert (m as real) * c == 1.0;
      assert (m as real) * v.data[k].re * c == v.data[k].re;
      assert (m as real) * v.data[k].im * c == v.data[k].im;
    }
    assert r.data == v.data;
  }

  /** One row of the coefficient array: ip(mode, d) for every data vector d. */
  function ProjectRow(mode: NekVector, data: seq<NekVector>, ip: (NekVector, NekVector) -> Result<Complex>):
    (r: Result<seq<Complex>>)
    ensures r.Ok? <==> forall j :: 0 <= j < |data| ==> ip(mode, data[j]).Ok?
    ensures r.Ok? ==> |r.value| == |data| && forall j :: 0 <= j < |data| ==> r.value[j] == ip(mode, data[j]).value
  {
    if |data| == 0 then Ok([])
    else
      var init :- ProjectRow(mode, data[..|data| - 1], ip);
      var last :- ip(mode, data[|data| - 1]);
      Ok(init + [last])
  }

  /** project(mode_handles, data_handles, inner_product) over loaded vectors:
      the array whose entry [i][j] is ip(modes[i], data[j]); any failing
      inner product fails the whole array. */
  function Project(modes: seq<NekVector>, data: seq<NekVector>, ip: (NekVector, NekVector) -> Result<Complex>):
    (r: Result<seq<seq<Complex>>>)
    ensures r.Ok? <==> forall i, j :: 0 <= i < |modes| && 0 <= j < |data| ==> ip(modes[i], data[j]).Ok?
    ensures r.Ok? ==> |r.value| == |modes|
    ensures r.Ok? ==> forall i :: 0 <= i < |modes| ==>
              |r.value[i]| == |data| && forall j :: 0 <= j < |data| ==> r.value[i][j] == ip(modes[i], data[j]).value
  {
    if |modes| == 0 then Ok([])
    else
      var init :- Project(modes[..|modes| - 1], data, ip);
      var row :- ProjectRow(modes[|modes| - 1], data, ip);
      Ok(init + [row])
  }
}
