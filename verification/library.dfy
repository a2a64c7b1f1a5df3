/** The library predictor `RoninTraderPredictor`: `validate_input`,
    `predict_single` and the DataFrame `predict_batch`. The model and feature
    names its constructor loads are parameters here. */
module Library {

  import opened Wrappers
  import opened Json
  import opened Features
  import opened Scoring

  /** A Python dict as `trader_data.items()` walks it: key/value pairs in
      insertion order. A real dict never repeats a key (`DistinctKeys`). */
  type Record = seq<(string, Value)>

  predicate DistinctKeys(rec: Record)
  {
    forall i, j | 0 <= i < j < |rec| :: rec[i].0 != rec[j].0
  }

  /** `set(trader_data.keys())`. */
  function Keys(rec: Record): set<string>
  {
    set i | 0 <= i < |rec| :: rec[i].0
  }

  /** The record as a lookup table (`trader_data[key]`); a later pair for the
      same key wins, as when a dict is built from pairs. */
  function ToMap(rec: Record): (m: map<string, Value>)
    ensures m.Keys == Keys(rec)
    ensures DistinctKeys(rec) ==> forall i | 0 <= i < |rec| :: m[rec[i].0] == rec[i].1
  {
    if rec == [] then map[]
    else
      var init := rec[..|rec| - 1];
      var last := rec[|rec| - 1];
      assert Keys(rec) == Keys(init) + {last.0};
      ToMap(init)[last.0 := last.1]
  }

  /** The errors `predict.py` raises. `Internal` is a Python exception other
      than the ValueErrors the code raises itself: the TypeError of `value < 0`
      on a value that is not a number, or the numeric library failing. */
  datatype LibError =
    | MissingFeatures(missing: set<string>)
    | NegativeValue(feature: string, value: Value)
    | Internal

  /** The pair at `i` is a required entry that compares as not below zero. */
  predicate EntryOk(names: seq<string>, rec: Record, i: int)
    requires 0 <= i < |rec|
  {
    rec[i].0 in names ==> BelowZero(rec[i].1) == Some(false)
  }

  /** Position `i` is the first pair of `rec` that is required and does not
      compare as non-negative. */
  predicate FirstBadEntry(names: seq<string>, rec: Record, i: int)
  {
    && 0 <= i < |rec|
    && (forall j | 0 <= j < i :: EntryOk(names, rec, j))
    && !EntryOk(names, rec, i)
  }

  /** The error for a failing entry: ValueError when it is negative, the
      comparison's TypeError otherwise. */
  function EntryError(entry: (string, Value)): LibError
  {
    if BelowZero(entry.1) == Some(true) then NegativeValue(entry.0, entry.1) else Internal
  }

  /** `for feature, value in trader_data.items(): if feature in feature_names
      and value < 0: raise ...`: the record's own order, keys outside `names`
      skipped without looking at their values. */
  function ScanNegatives(names: seq<string>, rec: Record): (r: Result<bool, LibError>)
    ensures r.Ok? <==> forall i | 0 <= i < |rec| :: EntryOk(names, rec, i)
    ensures r.Ok? ==> r.value
    ensures r.Err? ==> exists i :: FirstBadEntry(names, rec, i) && r.error == EntryError(rec[i])
  {
    if rec == [] then Ok(true)
    else
      var (feature, value) := rec[0];
      if feature in names && BelowZero(value) != Some(false) then
        assert FirstBadEntry(names, rec, 0);
        if BelowZero(value) == Some(true) then Err(NegativeValue(feature, value)) else Err(Internal)
      else
        var rest := ScanNegatives(names, rec[1..]);
        assert EntryOk(names, rec, 0);
        assert forall i | 1 <= i < |rec| :: EntryOk(names, rec, i) == EntryOk(names, rec[1..], i - 1);
        if rest.Err? then
          var i :| FirstBadEntry(names, rec[1..], i) && rest.error == EntryError(rec[1..][i]);
          assert FirstBadEntry(names, rec, i + 1);
          rest
        else
          rest
  }

  /** `validate_input`: missing features first (as a set), then the first
      negative required value in the record's own order; returns True. */
  function ValidateInput(names: seq<string>, rec: Record): (r: Result<bool, LibError>)
    ensures r.Ok? ==> r.value
    ensures r.Ok? <==>
              && SetOf(names) <= Keys(rec)
              && forall i | 0 <= i < |rec| :: EntryOk(names, rec, i)
    ensures !(SetOf(names) <= Keys(rec)) ==> r == Err(MissingFeatures(Missing(names, Keys(rec))))
    ensures r.Err? && r.error.MissingFeatures? ==> r.error.missing != {} && r.error.missing == Missing(names, Keys(rec))
    ensures r.Err? && !r.error.MissingFeatures? ==>
              && SetOf(names) <= Keys(rec)
              && exists i :: FirstBadEntry(names, rec, i) && r.error == EntryError(rec[i])
  {
    var missing := Missing(names, Keys(rec));
    if missing != {} then Err(MissingFeatures(missing))
    else ScanNegatives(names, rec)
  }

  /** `predict_single`: validate, build the row in `names` order, classify,
      and answer with the same result record as the HTTP service, echoing the
      record itself. */
  function PredictSingle(names: seq<string>, clf: Classifier, rec: Record): (r: Result<Prediction<Record>, LibError>)
    ensures ValidateInput(names, rec).Err? ==> r == Err(ValidateInput(names, rec).error)
    ensures r.Ok? ==>
              && ValidateInput(names, rec) == Ok(true)
              && clf(Row(names, ToMap(rec))).Some?
              && r.value == MakePrediction(clf(Row(names, ToMap(rec))).value, rec)
    ensures ValidateInput(names, rec).Ok? ==> (r.Ok? <==> clf(Row(names, ToMap(rec))).Some?)
    ensures r.Err? && ValidateInput(names, rec).Ok? ==> r == Err(Internal)
  {
    match ValidateInput(names, rec)
    case Err(e) => Err(e)
    case Ok(_) =>
      match clf(Row(names, ToMap(rec)))
      case None => Err(Internal)
      case Some(o) => Ok(MakePrediction(o, rec))
  }

  /** The record with the pair `(x, v)` inserted at position `i`. */
  function InsertPair(rec: Record, i: nat, x: string, v: Value): (r: Record)
    requires i <= |rec|
    ensures |r| == |rec| + 1 && r[i] == (x, v)
    ensures Keys(r) == Keys(rec) + {x}
  {
    var r := rec[..i] + [(x, v)] + rec[i..];
    assert forall j | 0 <= j < |rec| :: rec[j] == (if j < i then r[j] else r[j + 1]);
    assert forall j | 0 <= j < |r| :: j == i || r[j] == (if j < i then rec[j] else rec[j - 1]);
    assert Keys(r) == Keys(rec) + {x} by {
      forall f | f in Keys(r) ensures f in Keys(rec) + {x} {
        var j :| 0 <= j < |r| && r[j].0 == f;
        if j != i {
          assert r[j] == (if j < i then rec[j] else rec[j - 1]);
        }
      }
      forall f | f in Keys(rec) ensures f in Keys(r) {
        var j :| 0 <= j < |rec| && rec[j].0 == f;
        assert rec[j] == (if j < i then r[j] else r[j + 1]);
      }
      assert r[i].0 == x;
    }
    r
  }

  /** The negativity scan skips a pair whose key is not required, whatever
      its value, wherever it sits in the record. */
  lemma {:induction false} ScanSkipsExtraPair(names: seq<string>, rec: Record, i: nat, x: string, v: Value)
    requires i <= |rec| && x !in names
    ensures ScanNegatives(names, InsertPair(rec, i, x, v)) == ScanNegatives(names, rec)
    decreases i
  {
    var ext := InsertPair(rec, i, x, v);
    if i == 0 {
      assert ext[1..] == rec;
    } else {
      assert ext[0] == rec[0];
      assert ext[1..] == InsertPair(rec[1..], i - 1, x, v);
      ScanSkipsExtraPair(names, rec[1..], i - 1, x, v);
    }
  }

  /** `validate_input` ignores extra keys: inserting a pair under a key that
      is not a feature name, even with a negative or non-numeric value, never
      changes its outcome. */
  lemma ExtraPairIgnored(names: seq<string>, rec: Record, i: nat, x: string, v: Value)
    requires i <= |rec| && x !in names
    ensures ValidateInput(names, InsertPair(rec, i, x, v)) == ValidateInput(names, rec)
  {
    assert Missing(names, Keys(rec) + {x}) == Missing(names, Keys(rec));
    ScanSkipsExtraPair(names, rec, i, x, v);
  }

  // ---------------------------------------------------------------------------
  // DataFrame batch

  /** A DataFrame: ordered column labels and one row per trader, each row
      keyed by column label. */
  datatype Frame = Frame(columns: seq<string>, rows: seq<map<string, Value>>)

  /** No column label appears twice. */
  predicate DistinctColumns(columns: seq<string>)
  {
    forall i, j | 0 <= i < j < |columns| :: columns[i] != columns[j]
  }

  predicate WellFormed(df: Frame)
  {
    && DistinctColumns(df.columns)
    && forall k | 0 <= k < |df.rows| :: df.rows[k].Keys == SetOf(df.columns)
  }

  /** Appending the first of several fresh, distinct labels leaves the rest
      fresh and distinct. */
  lemma FreshLabelStep(columns: seq<string>, added: seq<string>)
    requires |added| > 0 && DistinctColumns(added) && SetOf(added) !! SetOf(columns)
    ensures added[0] !in columns
    ensures DistinctColumns(added[1..])
    ensures SetOf(added[1..]) !! SetOf(columns + [added[0]])
    ensures columns + added == (columns + [added[0]]) + added[1..]
  {
    assert added[0] in SetOf(added);
    forall f | f in SetOf(added[1..]) ensures f !in SetOf(columns + [added[0]]) {
      var j :| 0 <= j < |added[1..]| && added[1..][j] == f;
      assert added[j + 1] == f;
      assert f in SetOf(added);
    }
  }

  /** The column labels after assigning `df[name] = ...` for each of `added`
      in turn: an existing label keeps its position (pandas overwrites the
      column in place), a new one is appended. */
  function AppendColumns(columns: seq<string>, added: seq<string>): (r: seq<string>)
    requires DistinctColumns(columns)
    ensures DistinctColumns(r)
    ensures SetOf(r) == SetOf(columns) + SetOf(added)
    ensures |columns| <= |r| && r[..|columns|] == columns
    ensures DistinctColumns(added) && SetOf(added) !! SetOf(columns) ==> r == columns + added
    decreases added
  {
    if added == [] then columns
    else
      var next := if added[0] in columns then columns else columns + [added[0]];
      var r := AppendColumns(next, added[1..]);
      assert next[..|columns|] == columns;
      assert SetOf(added) == {added[0]} + SetOf(added[1..]);
      if DistinctColumns(added) && SetOf(added) !! SetOf(columns) then
        FreshLabelStep(columns, added);
        r
      else
        r
  }

  /** `predictions = model.predict(X)` and `model.predict_proba(X)` taken row by
      row: the answers for every row, or `None` when any row makes the
      library raise. */
  function ClassifyAll(clf: Classifier, xs: seq<seq<Value>>): (r: Option<seq<Output>>)
    ensures r.Some? <==> forall k | 0 <= k < |xs| :: clf(xs[k]).Some?
    ensures r.Some? ==> |r.value| == |xs| && forall k | 0 <= k < |xs| :: r.value[k] == clf(xs[k]).value
  {
    if xs == [] then Some([])
    else
      match clf(xs[0])
      case None => None
      case Some(o) =>
        match ClassifyAll(clf, xs[1..])
        case None => None
        case Some(rest) => Some([o] + rest)
  }

  /** The five columns `predict_batch` assigns, in assignment order. */
  const PredictionColumnOrder: seq<string> :=
    ["prediction", "will_remain_active", "confidence", "probability_good_trader", "probability_bad_trader"]

  const PredictionColumns: set<string> :=
    {"prediction", "will_remain_active", "confidence", "probability_good_trader", "probability_bad_trader"}

  lemma PredictionColumnsInOrder()
    ensures SetOf(PredictionColumnOrder) == PredictionColumns
    ensures DistinctColumns(PredictionColumnOrder)
  {
  }

  /** The five cells one row gains. The `will_remain_active` column holds the
      raw class, not a boolean. */
  function PredictionCells(o: Output): (m: map<string, Value>)
    ensures m.Keys == PredictionColumns
    ensures var p := MakePrediction(o, ());
            && m["prediction"] == Str(p.prediction)
            && m["will_remain_active"] == Int(o.cls) && (m["will_remain_active"].i != 0 <==> p.willRemainActive)
            && m["confidence"] == Float(p.confidence)
            && m["probability_good_trader"] == Float(p.probabilityGood)
            && m["probability_bad_trader"] == Float(p.probabilityBad)
  {
    map[
      "prediction" := Str(Label(o.cls)),
      "will_remain_active" := Int(o.cls),
      "confidence" := Float(Confidence(o)),
      "probability_good_trader" := Float(o.probGood),
      "probability_bad_trader" := Float(o.probBad)]
  }

  /** Every row with its five prediction cells set. */
  function RowsWithCells(rows: seq<map<string, Value>>, outs: seq<Output>): (r: seq<map<string, Value>>)
    requires |outs| == |rows|
    ensures |r| == |rows|
    ensures forall k | 0 <= k < |r| :: r[k].Keys == rows[k].Keys + PredictionColumns
    ensures forall k | 0 <= k < |r| :: r[k] == rows[k] + PredictionCells(outs[k])
  {
    seq(|rows|, k requires 0 <= k < |rows| => rows[k] + PredictionCells(outs[k]))
  }

  /** The labels `after` the five prediction assignments on a frame labelled
      `before`: no label twice, exactly the old labels plus the five, the old
      labels first and in place, and, when none of the five was there
      already, the five appended in assignment order. */
  predicate LabelsAfterAssignment(before: seq<string>, after: seq<string>)
  {
    && DistinctColumns(after)
    && SetOf(after) == SetOf(before) + PredictionColumns
    && |before| <= |after| && after[..|before|] == before
    && (SetOf(before) !! PredictionColumns ==> after == before + PredictionColumnOrder)
  }

  /** The column labels after the five assignments. */
  function OutputColumns(columns: seq<string>): (r: seq<string>)
    requires DistinctColumns(columns)
    ensures LabelsAfterAssignment(columns, r)
  {
    PredictionColumnsInOrder();
    AppendColumns(columns, PredictionColumnOrder)
  }

  /** The five assignments of `predict_batch` on a copy of the input. */
  function AddPredictionColumns(df: Frame, outs: seq<Output>): (r: Frame)
    requires WellFormed(df) && |outs| == |df.rows|
    ensures WellFormed(r)
    ensures |r.rows| == |df.rows|
    ensures LabelsAfterAssignment(df.columns, r.columns)
    ensures forall k | 0 <= k < |r.rows| :: r.rows[k] == df.rows[k] + PredictionCells(outs[k])
  {
    var columns := OutputColumns(df.columns);
    var rows := RowsWithCells(df.rows, outs);
    AnnotatedWellFormed(df, columns, rows);
    Frame(columns, rows)
  }

  /** Rows that each gain the five prediction cells fit the labels after the
      five assignments. */
  lemma AnnotatedWellFormed(df: Frame, columns: seq<string>, rows: seq<map<string, Value>>)
    requires WellFormed(df) && LabelsAfterAssignment(df.columns, columns) && |rows| == |df.rows|
    requires forall k | 0 <= k < |rows| :: rows[k].Keys == df.rows[k].Keys + PredictionColumns
    ensures WellFormed(Frame(columns, rows))
  {
  }

  /** `traders_df[feature_names]`: every row cut down to the required
      columns, in `names` order. */
  function SelectColumns(names: seq<string>, df: Frame): (xs: seq<seq<Value>>)
    requires WellFormed(df) && SetOf(names) <= SetOf(df.columns)
    ensures |xs| == |df.rows|
    ensures forall k | 0 <= k < |df.rows| :: SetOf(names) <= df.rows[k].Keys && xs[k] == Row(names, df.rows[k])
  {
    seq(|df.rows|, k requires 0 <= k < |df.rows| => Row(names, df.rows[k]))
  }

  /** Classify the selected rows `xs` (one per row of `df`) and, when the
      model answers every row, add the five prediction columns to a copy of
      the frame. */
  function Annotate(clf: Classifier, df: Frame, xs: seq<seq<Value>>): (r: Option<Frame>)
    requires WellFormed(df) && |xs| == |df.rows|
    ensures r.Some? <==> forall k | 0 <= k < |df.rows| :: clf(xs[k]).Some?
    ensures r.Some? ==>
              && WellFormed(r.value)
              && |r.value.rows| == |df.rows|
              && LabelsAfterAssignment(df.columns, r.value.columns)
    ensures r.Some? ==>
              forall k | 0 <= k < |df.rows| :: r.value.rows[k] == df.rows[k] + PredictionCells(clf(xs[k]).value)
  {
    match ClassifyAll(clf, xs)
    case None => None
    case Some(outs) =>
      var out := AddPredictionColumns(df, outs);
      CellsFromAnswers(clf, df, xs, outs, out);
      Some(out)
  }

  /** Rows built from the answers `outs` are rows built from the model's
      answer on each selected row. */
  lemma CellsFromAnswers(clf: Classifier, df: Frame, xs: seq<seq<Value>>, outs: seq<Output>, out: Frame)
    requires |xs| == |df.rows| && |outs| == |xs| && |out.rows| == |df.rows|
    requires forall k | 0 <= k < |xs| :: clf(xs[k]).Some? && outs[k] == clf(xs[k]).value
    requires forall k | 0 <= k < |out.rows| :: out.rows[k] == df.rows[k] + PredictionCells(outs[k])
    ensures forall k | 0 <= k < |df.rows| :: out.rows[k] == df.rows[k] + PredictionCells(clf(xs[k]).value)
  {
  }

  /** `predict_batch`: reject a frame lacking a required column, select the
      required columns in `names` order, classify every row, and return a
      copy of the input with the five prediction columns set. */
  function PredictFrame(names: seq<string>, clf: Classifier, df: Frame): (r: Result<Frame, LibError>)
    requires WellFormed(df)
    ensures !(SetOf(names) <= SetOf(df.columns)) <==> r == Err(MissingFeatures(Missing(names, SetOf(df.columns))))
    ensures r.Err? && SetOf(names) <= SetOf(df.columns) ==> r == Err(Internal)
    ensures r.Ok? <==>
              && SetOf(names) <= SetOf(df.columns)
              && forall k | 0 <= k < |df.rows| :: clf(SelectColumns(names, df)[k]).Some?
    ensures r.Ok? ==>
              && WellFormed(r.value)
              && |r.value.rows| == |df.rows|
              && LabelsAfterAssignment(df.columns, r.value.columns)
    ensures r.Ok? ==>
              forall k | 0 <= k < |df.rows| ::
                r.value.rows[k] == df.rows[k] + PredictionCells(clf(SelectColumns(names, df)[k]).value)
  {
    var missing := Missing(names, SetOf(df.columns));
    if missing != {} then Err(MissingFeatures(missing))
    else
      match Annotate(clf, df, SelectColumns(names, df))
      case None => Err(Internal)
      case Some(out) => Ok(out)
  }

  /** A row with the prediction cells merged in: the five cells as mapped,
      every other input cell unchanged. */
  lemma MergedCells(row: map<string, Value>, o: Output)
    ensures var m := row + PredictionCells(o);
            && (forall c | c in row && c !in PredictionColumns :: c in m && m[c] == row[c])
            && m["prediction"] == Str(Label(o.cls))
            && m["will_remain_active"] == Int(o.cls)
            && m["confidence"] == Float(Confidence(o))
            && m["probability_good_trader"] == Float(o.probGood)
            && m["probability_bad_trader"] == Float(o.probBad)
  {
  }

  /** On success every row keeps its input cells (a `wallet` column, say)
      under every label that is not a prediction column, and gains the same
      label/flag/confidence/probability mapping the HTTP service uses. */
  lemma PredictFrameRows(names: seq<string>, clf: Classifier, df: Frame, k: nat)
    requires WellFormed(df) && k < |df.rows|
    ensures PredictFrame(names, clf, df).Ok? ==> SetOf(names) <= df.rows[k].Keys
    ensures PredictFrame(names, clf, df).Ok? ==>
            var out := PredictFrame(names, clf, df).value;
            var o := clf(Row(names, df.rows[k])).value;
            && (forall c | c in df.rows[k] && c !in PredictionColumns :: c in out.rows[k] && out.rows[k][c] == df.rows[k][c])
            && out.rows[k]["prediction"] == Str(Label(o.cls))
            && out.rows[k]["will_remain_active"] == Int(o.cls)
            && out.rows[k]["confidence"] == Float(Confidence(o))
            && out.rows[k]["probability_good_trader"] == Float(o.probGood)
            && out.rows[k]["probability_bad_trader"] == Float(o.probBad)
  {
    if PredictFrame(names, clf, df).Ok? {
      var xs := SelectColumns(names, df);
      assert xs[k] == Row(names, df.rows[k]);
      MergedCells(df.rows[k], clf(xs[k]).value);
    }
  }

}
