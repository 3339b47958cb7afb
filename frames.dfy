/** The small part of pandas that both analysis scripts lean on: a frame of
    named columns, reading and assigning a column, `Series.replace`, the `+`
    of two series and `Series.apply`. Cells hold exact values: an integer
    cell, a float cell that holds a whole number of hundredths, a missing
    number (NaN), or text. */
module Frames {

  /** The two exceptions the pipeline can raise. */
  datatype Error = KeyError(column: string) | TypeError

  datatype Result<T> = Ok(value: T) | Err(error: Error) {
    predicate IsFailure() { Err? }

    function PropagateFailure<U>(): Result<U>
      requires Err?
    {
      Err(error)
    }

    function Extract(): T
      requires Ok?
    {
      value
    }
  }

  /** One cell. `Hundredths(h)` stands for the float h/100. */
  datatype Value = Text(s: string) | Int(n: int) | Hundredths(h: int) | Nan {
    predicate IsNumber() { Int? || Hundredths? }

    /** The number in hundredths, so that integer and float cells compare alike. */
    function Cents(): int
      requires IsNumber()
    {
      if Int? then 100 * n else h
    }
  }

  /** One row of a frame: column label to cell. */
  type Row = map<string, Value>

  /** A frame keeps its column labels even when it has no rows. */
  datatype Frame = Frame(columns: set<string>, rows: seq<Row>) {
    /** Every row has exactly the frame's columns. */
    predicate Valid() {
      forall i :: 0 <= i < |rows| ==> rows[i].Keys == columns
    }
  }

  /** `df[name]`: the column as a series, or a KeyError when it is absent. */
  function Column(f: Frame, name: string): (r: Result<seq<Value>>)
    requires f.Valid()
    ensures r.Err? <==> name !in f.columns
    ensures r.Err? ==> r.error == KeyError(name)
    ensures r.Ok? ==> |r.value| == |f.rows|
    ensures r.Ok? ==> forall i :: 0 <= i < |f.rows| ==> r.value[i] == f.rows[i][name]
  {
    if name in f.columns then
      Ok(seq(|f.rows|, i requires 0 <= i < |f.rows| => f.rows[i][name]))
    else
      Err(KeyError(name))
  }

  /** `df[name] = values`: overwrites the column, or adds it when absent. */
  function Assign(f: Frame, name: string, values: seq<Value>): (g: Frame)
    requires f.Valid() && |values| == |f.rows|
    ensures g.Valid() && g.columns == f.columns + {name} && |g.rows| == |f.rows|
    ensures forall i :: 0 <= i < |f.rows| ==> g.rows[i] == f.rows[i][name := values[i]]
  {
    Frame(f.columns + {name},
          seq(|f.rows|, i requires 0 <= i < |f.rows| => f.rows[i][name := values[i]]))
  }

  /** `Series.replace(from, to)` on one cell: only a cell equal to `from` changes. */
  function ReplaceValue(v: Value, from: string, to: string): Value {
    if v == Text(from) then Text(to) else v
  }

  /** `Series.replace(from, to)`. */
  function Replace(col: seq<Value>, from: string, to: string): (r: seq<Value>)
    ensures |r| == |col|
    ensures forall i :: 0 <= i < |col| ==> r[i] == ReplaceValue(col[i], from, to)
  {
    seq(|col|, i requires 0 <= i < |col| => ReplaceValue(col[i], from, to))
  }

  /** The `+` of two cells: numbers add (NaN absorbs), two texts concatenate,
      and text with anything else is a TypeError. */
  function Add(a: Value, b: Value): (r: Result<Value>)
    ensures r.Ok? <==> a.Text? == b.Text?
    ensures r.Err? ==> r.error == TypeError
    ensures a.Int? && b.Int? ==> r == Ok(Int(a.n + b.n))
    ensures a.IsNumber() && b.IsNumber() ==>
              r.Ok? && r.value.IsNumber() && r.value.Cents() == a.Cents() + b.Cents()
    ensures (a.Nan? || b.Nan?) && !a.Text? && !b.Text? ==> r == Ok(Nan)
    ensures r.Ok? ==> (r.value.Text? <==> a.Text?)
  {
    if a.Text? && b.Text? then Ok(Text(a.s + b.s))
    else if a.Text? || b.Text? then Err(TypeError)
    else if a.Nan? || b.Nan? then Ok(Nan)
    else if a.Int? && b.Int? then Ok(Int(a.n + b.n))
    else Ok(Hundredths(a.Cents() + b.Cents()))
  }

  /** `Series.apply(f)`: f on every element in order; the first exception
      escapes and no series is produced: the error is that of the
      first element on which f fails. */
  function Traverse<T, U>(s: seq<T>, f: T -> Result<U>): (r: Result<seq<U>>)
    ensures r.Ok? <==> forall i :: 0 <= i < |s| ==> f(s[i]).Ok?
    ensures r.Ok? ==> |r.value| == |s|
    ensures r.Ok? ==> forall i :: 0 <= i < |s| ==> f(s[i]) == Ok(r.value[i])
    ensures r.Err? ==> exists i :: 0 <= i < |s| && f(s[i]) == Err(r.error) &&
                                  (forall j :: 0 <= j < i ==> f(s[j]).Ok?)
  {
    if s == [] then Ok([])
    else
      var head :- f(s[0]);
      var tail :- Traverse(s[1..], f);
      Ok([head] + tail)
  }

  /** Two functions that agree everywhere give the same traversal, errors included. */
  lemma {:induction false} TraverseAgree<T, U>(s: seq<T>, f: T -> Result<U>, g: T -> Result<U>)
    requires forall i :: 0 <= i < |s| ==> f(s[i]) == g(s[i])
    ensures Traverse(s, f) == Traverse(s, g)
  {
    if s != [] {
      TraverseAgree(s[1..], f, g);
    }
  }

  /** The `+` of two series of one length, element by element. */
  function Plus(a: seq<Value>, b: seq<Value>): (r: Result<seq<Value>>)
    requires |a| == |b|
    ensures r.Ok? <==> forall i :: 0 <= i < |a| ==> Add(a[i], b[i]).Ok?
    ensures r.Ok? ==> |r.value| == |a|
    ensures r.Ok? ==> forall i :: 0 <= i < |a| ==> Add(a[i], b[i]) == Ok(r.value[i])
    ensures r.Err? ==> r.error == TypeError
  {
    var pairs := seq(|a|, i requires 0 <= i < |a| => (a[i], b[i]));
    var add := (p: (Value, Value)) => Add(p.0, p.1);
    assert forall i :: 0 <= i < |a| ==> add(pairs[i]) == Add(a[i], b[i]);
    Traverse(pairs, add)
  }
}
