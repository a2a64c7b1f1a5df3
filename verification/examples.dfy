/** Worked examples: the model evaluated on the manual harness's inputs, and
    the places where the HTTP service and the library predictor disagree. */
module Examples {

  import opened Wrappers
  import opened Json
  import opened Scoring
  import Features
  import Api
  import Library

  /** The five features the trained artifact reports. */
  const FeatureNames: seq<string> :=
    ["tx_count_365d", "total_volume", "active_weeks", "avg_tx_value", "tx_per_active_week"]

  lemma FeatureSet()
    ensures Features.SetOf(FeatureNames)
            == {"tx_count_365d", "total_volume", "active_weeks", "avg_tx_value", "tx_per_active_week"}
  {
  }

  /** Every feature name is a key of a record listing the five features in
      some order. */
  lemma RecordHasAllFeatures(rec: Library.Record)
    requires |rec| == 5
    requires {rec[0].0, rec[1].0, rec[2].0, rec[3].0, rec[4].0} == Features.SetOf(FeatureNames)
    ensures Features.SetOf(FeatureNames) <= Library.Keys(rec)
  {
    assert rec[0].0 in Library.Keys(rec);
    assert rec[1].0 in Library.Keys(rec);
    assert rec[2].0 in Library.Keys(rec);
    assert rec[3].0 in Library.Keys(rec);
    assert rec[4].0 in Library.Keys(rec);
  }

  /** A classifier that gives the same answer to every row. */
  function Always(o: Output): Classifier
  {
    (row: seq<Value>) => Some(o)
  }

  /** The complete record `{tx_count_365d: c, total_volume: 10.0,
      active_weeks: 5, avg_tx_value: 2.0, tx_per_active_week: 2.0}`. */
  function RecordWithCount(c: Value): map<string, Value>
  {
    map[
      "tx_count_365d" := c,
      "total_volume" := Float(10.0),
      "active_weeks" := Int(5),
      "avg_tx_value" := Float(2.0),
      "tx_per_active_week" := Float(2.0)]
  }

  /** The record has every feature, is non-empty, and holds valid values
      everywhere except possibly at the first feature. */
  lemma RecordWithCountShape(c: Value)
    ensures Truthy(Object(RecordWithCount(c)))
    ensures Features.SetOf(FeatureNames) <= RecordWithCount(c).Keys
    ensures RecordWithCount(c)[FeatureNames[0]] == c
    ensures forall k | 1 <= k < |FeatureNames| :: Api.FieldOk(RecordWithCount(c)[FeatureNames[k]])
  {
    var fields := RecordWithCount(c);
    assert "tx_count_365d" in fields;
    FeatureSet();
  }

  /** Two features given, three missing: a 400 naming exactly the three. */
  lemma IncompleteRecordRejected(clf: Classifier)
    ensures Api.PredictOne(FeatureNames, clf, Object(map["tx_count_365d" := Int(100), "total_volume" := Float(10.0)]))
            == Err(Api.MissingFeatures({"active_weeks", "avg_tx_value", "tx_per_active_week"}, FeatureNames))
  {
    var body := Object(map["tx_count_365d" := Int(100), "total_volume" := Float(10.0)]);
    assert Truthy(body) by { assert "tx_count_365d" in body.fields; }
    assert body.fields.Keys == {"tx_count_365d", "total_volume"};
    FeatureSet();
    assert Features.Missing(FeatureNames, body.fields.Keys) == {"active_weeks", "avg_tx_value", "tx_per_active_week"};
  }

  /** `tx_count_365d = -10` with every other feature valid: a 400 naming that
      feature and value. */
  lemma NegativeCountRejected(clf: Classifier)
    ensures Api.PredictOne(FeatureNames, clf, Object(RecordWithCount(Int(-10))))
            == Err(Api.NegativeValue("tx_count_365d", Int(-10)))
  {
    RecordWithCountShape(Int(-10));
    assert Api.FirstBadField(FeatureNames, RecordWithCount(Int(-10)), 0);
  }

  /** The same record inside a batch is not rejected: the batch path checks
      only for missing features, so the negative count reaches the model. */
  lemma BatchSkipsSignCheck(clf: Classifier)
    requires clf(Features.Row(FeatureNames, RecordWithCount(Int(-10)))).Some?
    ensures Api.PredictBatch(FeatureNames, clf, Object(map["traders" := Array([Object(RecordWithCount(Int(-10)))])])).Ok?
  {
    var trader := Object(RecordWithCount(Int(-10)));
    var body := Object(map["traders" := Array([trader])]);
    assert Truthy(body) by { assert "traders" in body.fields; }
    RecordWithCountShape(Int(-10));
    assert Api.TraderStep(FeatureNames, clf, trader).Ok?;
  }

  /** `isinstance(True, int)` holds, so a boolean feature passes the type
      check of `/predict` and reaches the model. */
  lemma BooleanPassesTypeCheck(o: Output)
    ensures Api.PredictOne(FeatureNames, Always(o), Object(RecordWithCount(Bool(true)))).Ok?
  {
    RecordWithCountShape(Bool(true));
    assert Api.AllFieldsOk(FeatureNames, RecordWithCount(Bool(true)));
  }

  /** A string count is a 400 naming its type over HTTP, but the library only
      meets it in `value < 0`, which raises a TypeError. */
  lemma StringValueDiffers(clf: Classifier)
    ensures Api.PredictOne(FeatureNames, clf, Object(RecordWithCount(Str("10"))))
            == Err(Api.InvalidType("tx_count_365d", "str"))
    ensures Library.ValidateInput(FeatureNames, [
              ("tx_count_365d", Str("10")), ("total_volume", Float(10.0)), ("active_weeks", Int(5)),
              ("avg_tx_value", Float(2.0)), ("tx_per_active_week", Float(2.0))])
            == Err(Library.Internal)
  {
    RecordWithCountShape(Str("10"));
    assert Api.FirstBadField(FeatureNames, RecordWithCount(Str("10")), 0);
    var rec: Library.Record := [
      ("tx_count_365d", Str("10")), ("total_volume", Float(10.0)), ("active_weeks", Int(5)),
      ("avg_tx_value", Float(2.0)), ("tx_per_active_week", Float(2.0))];
    FeatureSet();
    RecordHasAllFeatures(rec);
    assert Library.FirstBadEntry(FeatureNames, rec, 0);
  }

  /** A record whose first feature is `-10` and second is `-1.0`. */
  function TwoNegatives(): map<string, Value>
  {
    RecordWithCount(Int(-10))["total_volume" := Float(-1.0)]
  }

  /** The same values as an ordered record listing `total_volume` first. */
  function TwoNegativesVolumeFirst(): Library.Record
  {
    [("total_volume", Float(-1.0)), ("tx_count_365d", Int(-10)), ("active_weeks", Int(5)),
     ("avg_tx_value", Float(2.0)), ("tx_per_active_week", Float(2.0))]
  }

  lemma ServiceReportsFeatureOrder(clf: Classifier, fields: map<string, Value>)
    requires fields == TwoNegatives()
    ensures Api.PredictOne(FeatureNames, clf, Object(fields)) == Err(Api.NegativeValue("tx_count_365d", Int(-10)))
  {
    assert Truthy(Object(fields)) by { assert "tx_count_365d" in fields; }
    assert Features.Missing(FeatureNames, fields.Keys) == {};
    assert Api.FirstBadField(FeatureNames, fields, 0);
  }

  lemma LibraryReportsRecordOrder(rec: Library.Record)
    requires rec == TwoNegativesVolumeFirst()
    ensures Library.ValidateInput(FeatureNames, rec) == Err(Library.NegativeValue("total_volume", Float(-1.0)))
  {
    FeatureSet();
    RecordHasAllFeatures(rec);
    assert Library.FirstBadEntry(FeatureNames, rec, 0);
  }

  /** Two negative features: `/predict` reports the first in feature order,
      `validate_input` the first in the record's own order. */
  lemma NegativeReportOrderDiffers(clf: Classifier)
    ensures Api.PredictOne(FeatureNames, clf, Object(TwoNegatives()))
            == Err(Api.NegativeValue("tx_count_365d", Int(-10)))
    ensures Library.ValidateInput(FeatureNames, TwoNegativesVolumeFirst())
            == Err(Library.NegativeValue("total_volume", Float(-1.0)))
  {
    ServiceReportsFeatureOrder(clf, TwoNegatives());
    LibraryReportsRecordOrder(TwoNegativesVolumeFirst());
  }

  /** A classifier that calls a trader good exactly when its first feature
      (the yearly transaction count) is 500. */
  function GoodAtFiveHundred(): Classifier
  {
    (row: seq<Value>) =>
      if |row| > 0 && row[0] == Int(500) then Some(Output(1, 0.1, 0.9)) else Some(Output(0, 0.7, 0.3))
  }

  function Trader(count: int, volume: real, weeks: int, avg: real, perWeek: real): Value
  {
    Object(map[
      "tx_count_365d" := Int(count),
      "total_volume" := Float(volume),
      "active_weeks" := Int(weeks),
      "avg_tx_value" := Float(avg),
      "tx_per_active_week" := Float(perWeek)])
  }

  /** The three-trader batch of the manual harness. */
  function HarnessTraders(): seq<Value>
  {
    [Trader(500, 100.0, 45, 0.2, 11.1), Trader(10, 0.5, 2, 0.05, 5.0), Trader(250, 50.0, 30, 0.2, 8.3)]
  }

  /** Every feature is a key of a harness trader. */
  lemma TraderHasAllFeatures(count: int, volume: real, weeks: int, avg: real, perWeek: real)
    ensures Features.SetOf(FeatureNames) <= Trader(count, volume, weeks, avg, perWeek).fields.Keys
  {
    FeatureSet();
    assert "tx_count_365d" in Trader(count, volume, weeks, avg, perWeek).fields;
  }

  /** A complete trader passes the batch step and is predicted to remain
      active exactly when its count is 500. */
  lemma TraderStepAtFiveHundred(count: int, volume: real, weeks: int, avg: real, perWeek: real)
    ensures var step := Api.TraderStep(FeatureNames, GoodAtFiveHundred(), Trader(count, volume, weeks, avg, perWeek));
            step.Ok? && (step.value.willRemainActive <==> count == 500)
  {
    var t := Trader(count, volume, weeks, avg, perWeek);
    TraderHasAllFeatures(count, volume, weeks, avg, perWeek);
    var row := Features.Row(FeatureNames, t.fields);
    assert row[0] == Int(count);
    var o := GoodAtFiveHundred()(row).value;
    assert o.cls == 1 <==> count == 500;
  }

  /** Each harness trader passes the batch step, and only the first is
      predicted to remain active under `GoodAtFiveHundred`. */
  lemma HarnessSteps(clf: Classifier, traders: seq<Value>)
    requires clf == GoodAtFiveHundred() && traders == HarnessTraders()
    ensures |traders| == 3
    ensures Api.TraderStep(FeatureNames, clf, traders[0]).Ok?
    ensures Api.TraderStep(FeatureNames, clf, traders[1]).Ok?
    ensures Api.TraderStep(FeatureNames, clf, traders[2]).Ok?
    ensures Api.TraderStep(FeatureNames, clf, traders[0]).value.willRemainActive
    ensures !Api.TraderStep(FeatureNames, clf, traders[1]).value.willRemainActive
    ensures !Api.TraderStep(FeatureNames, clf, traders[2]).value.willRemainActive
  {
    var t0, t1, t2 := traders[0], traders[1], traders[2];
    assert t0 == Trader(500, 100.0, 45, 0.2, 11.1);
    assert t1 == Trader(10, 0.5, 2, 0.05, 5.0);
    assert t2 == Trader(250, 50.0, 30, 0.2, 8.3);
    TraderStepAtFiveHundred(500, 100.0, 45, 0.2, 11.1);
    TraderStepAtFiveHundred(10, 0.5, 2, 0.05, 5.0);
    TraderStepAtFiveHundred(250, 50.0, 30, 0.2, 8.3);
  }

  lemma OnlyFirstActive(preds: seq<Api.IndexedPrediction>)
    requires |preds| == 3 && preds[0].prediction.willRemainActive
    requires !preds[1].prediction.willRemainActive && !preds[2].prediction.willRemainActive
    ensures Api.ActiveIndices(preds) == {0}
  {
    forall k: nat | k in Api.ActiveIndices(preds) ensures k == 0 {
      assert k < 3 && preds[k].prediction.willRemainActive;
    }
  }

  /** Under the classifier `GoodAtFiveHundred`, the harness batch is
      accepted and only its first trader is predicted to remain active. */
  lemma HarnessBatchAccepted(clf: Classifier, traders: seq<Value>, body: Value)
    requires clf == GoodAtFiveHundred() && traders == HarnessTraders()
    requires body == Object(map["traders" := Array(traders)])
    ensures var r := Api.PredictBatch(FeatureNames, clf, body);
            && r.Ok?
            && |r.value.predictions| == 3
            && r.value.predictions[0].prediction.willRemainActive
            && !r.value.predictions[1].prediction.willRemainActive
            && !r.value.predictions[2].prediction.willRemainActive
  {
    HarnessSteps(clf, traders);
    ThreeStepBatch(FeatureNames, clf, traders, body);
  }

  /** A batch of three traders that all pass the step is accepted, and its
      results carry the three steps' flags in order. */
  lemma ThreeStepBatch(names: seq<string>, clf: Classifier, traders: seq<Value>, body: Value)
    requires body == Object(map["traders" := Array(traders)]) && |traders| == 3
    requires Api.TraderStep(names, clf, traders[0]).Ok?
    requires Api.TraderStep(names, clf, traders[1]).Ok?
    requires Api.TraderStep(names, clf, traders[2]).Ok?
    ensures var r := Api.PredictBatch(names, clf, body);
            && r.Ok?
            && |r.value.predictions| == 3
            && r.value.predictions[0].prediction == Api.TraderStep(names, clf, traders[0]).value
            && r.value.predictions[1].prediction == Api.TraderStep(names, clf, traders[1]).value
            && r.value.predictions[2].prediction == Api.TraderStep(names, clf, traders[2]).value
  {
    assert Truthy(body) by { assert "traders" in body.fields; }
    assert Api.TradersOf(body) == Ok(traders);
    forall k | 0 <= k < |traders|
      ensures Api.TraderStep(names, clf, traders[k]).Ok?
    {
      if k == 0 {} else if k == 1 {} else {}
    }
  }

  /** Under the classifier `GoodAtFiveHundred`, the harness batch is
      summarised as total 3, good 1, bad 2. */
  lemma HarnessBatchSummary(clf: Classifier, body: Value)
    requires clf == GoodAtFiveHundred() && body == Object(map["traders" := Array(HarnessTraders())])
    ensures var r := Api.PredictBatch(FeatureNames, clf, body);
            r.Ok? && r.value.summary == Api.Summary(3, 1, 2)
  {
    HarnessBatchAccepted(clf, HarnessTraders(), body);
    OnlyFirstActive(Api.PredictBatch(FeatureNames, clf, body).value.predictions);
  }

}
