/** The feature contract shared by the HTTP service and the library predictor:
    the required set, the missing set, and the ordered feature row. */
module Features {

  import opened Json

  /** `set(names)`: the names as a set, order and repetition forgotten. */
  function SetOf(names: seq<string>): (s: set<string>)
    ensures forall f :: f in s <==> f in names
  {
    set f | f in names
  }

  /** `set(feature_names) - set(keys)`: the required names a record lacks. It is
      empty exactly when every required name is a key. */
  function Missing(names: seq<string>, keys: set<string>): (m: set<string>)
    ensures forall f :: f in m <==> f in names && f !in keys
    ensures m == {} <==> SetOf(names) <= keys
  {
    SetOf(names) - keys
  }

  /** `[data[f] for f in names]`: one cell per required name, in the order of
      `names`, which is the column order the classifier was trained on. */
  function Row(names: seq<string>, data: map<string, Value>): (row: seq<Value>)
    requires SetOf(names) <= data.Keys
    ensures |row| == |names|
    ensures forall k | 0 <= k < |names| :: row[k] == data[names[k]]
  {
    if names == [] then []
    else
      assert names[0] in SetOf(names);
      [data[names[0]]] + Row(names[1..], data)
  }

}
