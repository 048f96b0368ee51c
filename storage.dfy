/** The files the modelled code reads and writes, as maps from path to
    content: the field reader and writer (pymech's readnek and writenek) and
    np.loadtxt. The on-disk byte formats are not part of this model. */
module Storage {
  import opened Common
  import opened Fields

  /** What np.loadtxt returns: it squeezes a one-row or one-column table to a
      one-dimensional array, and a single number to a zero-dimensional one. */
  datatype NdArray = Scalar(x: real) | Vector(v: seq<real>) | Matrix(rows: seq<seq<real>>)

  /** The file system. Field files are written in place; text files are only read. */
  class Disk {
    var fields: map<Path, Field>
    var texts: map<Path, seq<seq<real>>>

    constructor (fields: map<Path, Field>, texts: map<Path, seq<seq<real>>>)
      ensures this.fields == fields && this.texts == texts
    {
      this.fields := fields;
      this.texts := texts;
    }

    /** writenek(path, field): replaces whatever was stored at path. */
    method WriteNek(path: Path, f: Field)
      modifies this
      ensures fields == old(fields)[path := f]
      ensures texts == old(texts)
    {
      fields := fields[path := f];
    }
  }

  /** readnek(path). */
  function ReadNek(fields: map<Path, Field>, path: Path): (r: Result<Field>)
    ensures r.Ok? <==> path in fields
    ensures r.Ok? ==> r.value == fields[path]
    ensures r.Err? ==> r.error == FileNotFound(path)
  {
    if path in fields then Ok(fields[path]) else Err(FileNotFound(path))
  }

  /** Every row of the text has the same number of values. */
  predicate Rectangular(rows: seq<seq<real>>)
  {
    forall x :: 0 <= x < |rows| ==> |rows[x]| == |rows[0]|
  }

  /** np.loadtxt(path) with its default squeezing of single dimensions;
      rows of different widths make it raise ValueError. */
  function LoadTxt(texts: map<Path, seq<seq<real>>>, path: Path): (r: Result<NdArray>)
    ensures path !in texts ==> r == Err(FileNotFound(path))
    ensures r.Ok? && r.value.Matrix? ==>
              r.value.rows == texts[path] && |r.value.rows| >= 2 && |r.value.rows[0]| >= 2 && Rectangular(r.value.rows)
    ensures path in texts && Rectangular(texts[path]) && |texts[path]| >= 2 && |texts[path][0]| == 1 ==>
              r.Ok? && r.value.Vector? && |r.value.v| == |texts[path]| &&
              forall x :: 0 <= x < |texts[path]| ==> r.value.v[x] == texts[path][x][0]
  {
    if path !in texts then Err(FileNotFound(path))
    else
      var rows := texts[path];
      if !Rectangular(rows) then Err(ValueError)
      else if |rows| == 0 || |rows[0]| == 0 then Ok(Vector([]))
      else if |rows| == 1 && |rows[0]| == 1 then Ok(Scalar(rows[0][0]))
      else if |rows| == 1 then Ok(Vector(rows[0]))
      else if |rows[0]| == 1 then Ok(Vector(seq(|rows|, x requires 0 <= x < |rows| => rows[x][0])))
      else Ok(Matrix(rows))
  }
}
