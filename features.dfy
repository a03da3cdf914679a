/**
 Column selection by name, as pandas performs `frame[names]` on a one-row frame built from a
 name-to-value dictionary: the values come out in the order of `names`, names the row does not
 mention raise a KeyError, and keys of the row that `names` does not mention are dropped.
 */
module Features {

  datatype SelectError = KeyError(missing: seq<string>)

  datatype Result<T> = Ok(value: T) | Err(error: SelectError)

  predicate Distinct(names: seq<string>)
  {
    forall i, j :: 0 <= i < j < |names| ==> names[i] != names[j]
  }

  /** The requested names the row lacks, in request order. */
  function Missing<V>(row: map<string, V>, names: seq<string>): (r: seq<string>)
    ensures forall n :: n in r <==> n in names && n !in row
  {
    if names == [] then []
    else (if names[0] in row then [] else [names[0]]) + Missing(row, names[1..])
  }

  /** The row's values in the order of `names`. */
  function Select<V>(row: map<string, V>, names: seq<string>): (r: seq<V>)
    requires forall n :: n in names ==> n in row
    ensures |r| == |names|
    ensures forall i :: 0 <= i < |names| ==> r[i] == row[names[i]]
  {
    if names == [] then [] else [row[names[0]]] + Select(row, names[1..])
  }

  /** `frame[names]`: the values in column order, or a KeyError naming every absent column. */
  function Project<V>(row: map<string, V>, names: seq<string>): (r: Result<seq<V>>)
    ensures r.Err? <==> exists n :: n in names && n !in row
    ensures r.Err? ==> |r.error.missing| > 0
    ensures r.Err? ==> forall n :: n in r.error.missing <==> n in names && n !in row
    ensures r.Ok? ==> |r.value| == |names|
    ensures r.Ok? ==> forall i :: 0 <= i < |names| ==> names[i] in row && r.value[i] == row[names[i]]
  {
    var missing := Missing(row, names);
    if missing == [] then Ok(Select(row, names))
    else
      assert missing[0] in missing;
      Err(KeyError(missing))
  }

  /** Two rows that agree on the requested names. */
  ghost predicate AgreeOn<V>(row1: map<string, V>, row2: map<string, V>, names: seq<string>)
  {
    forall n :: n in names ==> (n in row1 <==> n in row2) && (n in row1 ==> row1[n] == row2[n])
  }

  /** The projection depends only on the requested names: other keys, and the order in which
      the dictionary was written, make no difference. */
  lemma {:induction false} ProjectIgnoresOtherKeys<V>(row1: map<string, V>, row2: map<string, V>, names: seq<string>)
    requires AgreeOn(row1, row2, names)
    ensures Project(row1, names) == Project(row2, names)
  {
    MissingAgree(row1, row2, names);
    if Missing(row1, names) == [] {
      SelectAgree(row1, row2, names);
    }
  }

  lemma {:induction false} MissingAgree<V>(row1: map<string, V>, row2: map<string, V>, names: seq<string>)
    requires AgreeOn(row1, row2, names)
    ensures Missing(row1, names) == Missing(row2, names)
  {
    if names != [] {
      assert names[0] in names;
      MissingAgree(row1, row2, names[1..]);
    }
  }

  lemma {:induction false} SelectAgree<V>(row1: map<string, V>, row2: map<string, V>, names: seq<string>)
    requires AgreeOn(row1, row2, names)
    requires forall n :: n in names ==> n in row1
    ensures Select(row1, names) == Select(row2, names)
  {
    if names != [] {
      assert names[0] in names;
      SelectAgree(row1, row2, names[1..]);
    }
  }

  /** The dictionary that writes `values` under `names`, one key per position. */
  function RowDict<V>(names: seq<string>, values: seq<V>): (r: map<string, V>)
    requires |names| == |values|
    requires Distinct(names)
    ensures r.Keys == set n | n in names
    ensures forall i :: 0 <= i < |names| ==> r[names[i]] == values[i]
  {
    map i | 0 <= i < |names| :: names[i] := values[i]
  }

  /** Writing a row under distinct names and projecting it back in the same order gives the row. */
  lemma RowDictRoundTrip<V>(names: seq<string>, values: seq<V>)
    requires |names| == |values|
    requires Distinct(names)
    ensures Project(RowDict(names, values), names) == Ok(values)
  {
    var r := Project(RowDict(names, values), names);
    assert r.Ok?;
    assert r.value == values;
  }
}
