/** The two prediction views of the HTTP service: `/predict` (one record,
    fully validated) and `/predict_batch` (a list of records, checked for
    missing features only). Feature names and the classifier are parameters:
    they are loaded once at start-up and never change afterwards. */
module Api {

  import opened Wrappers
  import opened Json
  import opened Features
  import opened Scoring

  /** The error responses. `Internal` is the 500 reply produced when Python
      raises inside the view; every other error is a 400 reply. */
  datatype ApiError =
    | NoData
    | MissingFeatures(missing: set<string>, required: seq<string>)
    | InvalidType(feature: string, receivedType: string)
    | NegativeValue(feature: string, receivedValue: Value)
    | NoTraders
    | TradersNotAList
    | TradersEmpty
    | TraderMissingFeatures(index: nat, missing: set<string>)
    | Internal

  /** The HTTP status of an error reply. */
  function Status(e: ApiError): (s: int)
    ensures s == 500 <==> e.Internal?
    ensures s == 400 <==> !e.Internal?
  {
    if e.Internal? then 500 else 400
  }

  // ---------------------------------------------------------------------------
  // Single prediction

  /** A required value that passes both per-field checks: a number (bool
      included) that does not compare below zero. */
  predicate FieldOk(v: Value)
  {
    IsNumber(v) && BelowZero(v) == Some(false)
  }

  /** The error for a failing field: the type check comes first, so a value
      that is not a number is never reported as negative. */
  function FieldError(name: string, v: Value): ApiError
    requires !FieldOk(v)
  {
    if !IsNumber(v) then InvalidType(name, TypeName(v)) else NegativeValue(name, v)
  }

  predicate AllFieldsOk(names: seq<string>, data: map<string, Value>)
    requires SetOf(names) <= data.Keys
  {
    forall k | 0 <= k < |names| :: FieldOk(data[names[k]])
  }

  /** Position `k` of `names` is the first whose value fails a field check. */
  predicate FirstBadField(names: seq<string>, data: map<string, Value>, k: int)
    requires SetOf(names) <= data.Keys
  {
    && 0 <= k < |names|
    && (forall j | 0 <= j < k :: FieldOk(data[names[j]]))
    && !FieldOk(data[names[k]])
  }

  /** The per-field loop of `/predict`: walks `names` in order, type check then
      sign check, and stops at the first failure. */
  function CheckFields(names: seq<string>, data: map<string, Value>): (r: Option<ApiError>)
    requires SetOf(names) <= data.Keys
    ensures r.None? <==> AllFieldsOk(names, data)
    ensures r.Some? ==> exists k :: FirstBadField(names, data, k) && r.value == FieldError(names[k], data[names[k]])
  {
    if names == [] then None
    else
      assert names[0] in SetOf(names);
      var v := data[names[0]];
      if !IsNumber(v) then Some(InvalidType(names[0], TypeName(v)))
      else if BelowZero(v) == Some(true) then Some(NegativeValue(names[0], v))
      else
        var rest := CheckFields(names[1..], data);
        if rest.Some? then
          var k :| FirstBadField(names[1..], data, k) && rest.value == FieldError(names[1..][k], data[names[1..][k]]);
          assert FirstBadField(names, data, k + 1);
          rest
        else
          rest
  }

  /** `/predict`: reject an empty body, then a record lacking required
      features, then the first field (in `names` order) that is not a
      non-negative number; otherwise classify the ordered row and answer with
      the result record echoing the whole body. */
  function PredictOne(names: seq<string>, clf: Classifier, body: Value): (r: Result<Prediction<Value>, ApiError>)
    ensures r == Err(NoData) <==> !Truthy(body)
    ensures Truthy(body) && !body.Object? ==> r == Err(Internal)
    ensures Truthy(body) && body.Object? && !(SetOf(names) <= body.fields.Keys) ==>
              r == Err(MissingFeatures(Missing(names, body.fields.Keys), names))
    ensures r.Err? && r.error.MissingFeatures? ==>
              r.error.missing != {} && forall f :: f in r.error.missing <==> f in names && f !in body.fields
    ensures Truthy(body) && body.Object? && SetOf(names) <= body.fields.Keys && !AllFieldsOk(names, body.fields) ==>
              exists k :: FirstBadField(names, body.fields, k) && r == Err(FieldError(names[k], body.fields[names[k]]))
    ensures r.Err? && (r.error.InvalidType? || r.error.NegativeValue?) ==>
              && body.Object? && SetOf(names) <= body.fields.Keys
              && exists k :: FirstBadField(names, body.fields, k) && r.error == FieldError(names[k], body.fields[names[k]])
    ensures r.Ok? ==>
              && body.Object? && SetOf(names) <= body.fields.Keys
              && AllFieldsOk(names, body.fields)
              && clf(Row(names, body.fields)).Some?
              && r.value == MakePrediction(clf(Row(names, body.fields)).value, body)
    ensures Truthy(body) && body.Object? && SetOf(names) <= body.fields.Keys && AllFieldsOk(names, body.fields) ==>
              (r.Ok? <==> clf(Row(names, body.fields)).Some?)
    ensures r == Err(Internal) <==>
              Truthy(body) && (!body.Object? || (SetOf(names) <= body.fields.Keys && AllFieldsOk(names, body.fields)
                                                 && clf(Row(names, body.fields)).None?))
  {
    if !Truthy(body) then Err(NoData)
    else if !body.Object? then Err(Internal)
    else
      var missing := Missing(names, body.fields.Keys);
      if missing != {} then Err(MissingFeatures(missing, names))
      else
        match CheckFields(names, body.fields)
        case Some(e) => Err(e)
        case None =>
          match clf(Row(names, body.fields))
          case None => Err(Internal)
          case Some(o) => Ok(MakePrediction(o, body))
  }

  /** The per-field loop only looks at the values of required names. */
  lemma {:induction false} CheckFieldsReadsOnlyRequired(names: seq<string>, d1: map<string, Value>, d2: map<string, Value>)
    requires SetOf(names) <= d1.Keys && SetOf(names) <= d2.Keys
    requires forall f | f in names :: d1[f] == d2[f]
    ensures CheckFields(names, d1) == CheckFields(names, d2)
  {
    if names != [] {
      assert names[0] in names;
      assert forall f | f in names[1..] :: f in names;
      CheckFieldsReadsOnlyRequired(names[1..], d1, d2);
    }
  }

  /** A key outside the feature names never changes the outcome of
      `/predict` on a non-empty record: the same error, or the same prediction
      echoing the larger record. */
  lemma ExtraKeyNeverRejects(names: seq<string>, clf: Classifier, fields: map<string, Value>, x: string, v: Value)
    requires |fields| > 0 && x !in names
    ensures var before := PredictOne(names, clf, Object(fields));
            var after := PredictOne(names, clf, Object(fields[x := v]));
            && (before.Err? ==> after == before)
            && (before.Ok? ==> after.Ok? && after.value == before.value.(inputFeatures := Object(fields[x := v])))
  {
    var fields' := fields[x := v];
    assert x in fields';
    assert Missing(names, fields'.Keys) == Missing(names, fields.Keys);
    if SetOf(names) <= fields.Keys {
      CheckFieldsReadsOnlyRequired(names, fields, fields');
      assert Row(names, fields') == Row(names, fields);
    }
  }

  // ---------------------------------------------------------------------------
  // Batch prediction

  datatype IndexedPrediction = IndexedPrediction(index: nat, prediction: Prediction<Value>)

  datatype Summary = Summary(total: nat, goodTraders: nat, badTraders: nat)

  datatype BatchReply = BatchReply(predictions: seq<IndexedPrediction>, summary: Summary)

  /** The container checks of `/predict_batch`: a truthy body holding the key
      `traders` (as Python's `in` finds it), whose value is a non-empty list. */
  function TradersOf(body: Value): (r: Result<seq<Value>, ApiError>)
    ensures r.Ok? <==>
              && body.Object? && "traders" in body.fields
              && body.fields["traders"].Array? && |body.fields["traders"].items| > 0
    ensures r.Ok? ==> r.value == body.fields["traders"].items
    ensures r == Err(NoTraders) <==> !Truthy(body) || Contains(body, "traders") == Some(false)
    ensures r == Err(TradersNotAList) <==> body.Object? && "traders" in body.fields && !body.fields["traders"].Array?
    ensures r == Err(TradersEmpty) <==> body.Object? && "traders" in body.fields && body.fields["traders"] == Array([])
    ensures r.Err? ==> r.error in {NoTraders, TradersNotAList, TradersEmpty, Internal}
  {
    if !Truthy(body) then Err(NoTraders)
    else
      match Contains(body, "traders")
      case None => Err(Internal)
      case Some(false) => Err(NoTraders)
      case Some(true) =>
        if !body.Object? then Err(Internal)
        else
          var traders := body.fields["traders"];
          if !traders.Array? then Err(TradersNotAList)
          else if |traders.items| == 0 then Err(TradersEmpty)
          else Ok(traders.items)
  }

  /** Why one trader of a batch stops the whole batch. */
  datatype TraderFault = NotARecord | LacksFeatures(missing: set<string>) | ModelFailed

  /** One iteration of the batch loop: `trader.keys()` (raises unless the trader
      is a dict), the missing-feature check, then the classifier. No type or
      sign check is made on the values. */
  function TraderStep(names: seq<string>, clf: Classifier, trader: Value): (r: Result<Prediction<Value>, TraderFault>)
    ensures r.Ok? <==>
              && trader.Object? && SetOf(names) <= trader.fields.Keys
              && clf(Row(names, trader.fields)).Some?
    ensures r.Ok? ==> r.value == MakePrediction(clf(Row(names, trader.fields)).value, trader)
    ensures r == Err(NotARecord) <==> !trader.Object?
    ensures r.Err? && r.error.LacksFeatures? ==>
              trader.Object? && r.error.missing == Missing(names, trader.fields.Keys) && r.error.missing != {}
    ensures trader.Object? && Missing(names, trader.fields.Keys) != {} ==>
              r == Err(LacksFeatures(Missing(names, trader.fields.Keys)))
    ensures r == Err(ModelFailed) <==>
              trader.Object? && SetOf(names) <= trader.fields.Keys && clf(Row(names, trader.fields)).None?
  {
    if !trader.Object? then Err(NotARecord)
    else
      var missing := Missing(names, trader.fields.Keys);
      if missing != {} then Err(LacksFeatures(missing))
      else
        match clf(Row(names, trader.fields))
        case None => Err(ModelFailed)
        case Some(o) => Ok(MakePrediction(o, trader))
  }

  /** The response for a trader fault at `index`: only missing features get
      a 400 naming the index; the other faults are Python exceptions (500). */
  function FaultAt(index: nat, f: TraderFault): (e: ApiError)
    ensures Status(e) == 400 <==> f.LacksFeatures?
    ensures f.LacksFeatures? ==> e == TraderMissingFeatures(index, f.missing)
    ensures !f.LacksFeatures? ==> e == Internal
  {
    match f
    case LacksFeatures(missing) => TraderMissingFeatures(index, missing)
    case _ => Internal
  }

  /** Position `k` is the first trader (from `start`) whose step fails. */
  predicate FirstFault(names: seq<string>, clf: Classifier, traders: seq<Value>, start: nat, k: int)
  {
    && start <= k < |traders|
    && (forall j | start <= j < k :: TraderStep(names, clf, traders[j]).Ok?)
    && TraderStep(names, clf, traders[k]).Err?
  }

  /** The `for i, trader in enumerate(traders)` loop from position `start`:
      either one indexed result per trader, or the fault of the first trader
      that fails, with no partial results. */
  function ProcessTraders(names: seq<string>, clf: Classifier, traders: seq<Value>, start: nat): (r: Result<seq<IndexedPrediction>, ApiError>)
    requires start <= |traders|
    ensures r.Ok? <==> forall k | start <= k < |traders| :: TraderStep(names, clf, traders[k]).Ok?
    ensures r.Ok? ==>
              && |r.value| == |traders| - start
              && forall j | 0 <= j < |r.value| ::
                   r.value[j] == IndexedPrediction(start + j, TraderStep(names, clf, traders[start + j]).value)
    ensures r.Err? ==>
              exists k :: FirstFault(names, clf, traders, start, k)
                          && r.error == FaultAt(k, TraderStep(names, clf, traders[k]).error)
    decreases |traders| - start
  {
    if start == |traders| then Ok([])
    else
      match TraderStep(names, clf, traders[start])
      case Err(f) =>
        assert FirstFault(names, clf, traders, start, start);
        Err(FaultAt(start, f))
      case Ok(p) =>
        var rest := ProcessTraders(names, clf, traders, start + 1);
        if rest.Err? then
          var k :| FirstFault(names, clf, traders, start + 1, k)
                   && rest.error == FaultAt(k, TraderStep(names, clf, traders[k]).error);
          forall j | start <= j < k
            ensures TraderStep(names, clf, traders[j]).Ok?
          {
            if j == start {} else { assert start + 1 <= j < k; }
          }
          assert FirstFault(names, clf, traders, start, k);
          rest
        else
          var out := [IndexedPrediction(start, p)] + rest.value;
          assert forall j | 1 <= j < |out| :: out[j] == rest.value[j - 1];
          Ok(out)
  }

  /** The positions of results predicted to remain active. */
  function ActiveIndices(preds: seq<IndexedPrediction>): set<nat>
  {
    set k: nat | k < |preds| && preds[k].prediction.willRemainActive
  }

  /** `sum(1 for r in results if r['will_remain_active'])`. */
  function CountActive(preds: seq<IndexedPrediction>): (c: nat)
    ensures c <= |preds|
    ensures c == |ActiveIndices(preds)|
  {
    if preds == [] then 0
    else
      var init := preds[..|preds| - 1];
      var last := |preds| - 1;
      var c := CountActive(init);
      if preds[last].prediction.willRemainActive then
        assert ActiveIndices(preds) == ActiveIndices(init) + {last};
        c + 1
      else
        assert ActiveIndices(preds) == ActiveIndices(init);
        c
  }

  /** `/predict_batch`: the container checks, then the per-trader loop, then
      the good/bad/total summary. The percentage is left out (floating point). */
  function PredictBatch(names: seq<string>, clf: Classifier, body: Value): (r: Result<BatchReply, ApiError>)
    ensures TradersOf(body).Err? ==> r == Err(TradersOf(body).error)
    ensures r.Ok? <==>
              && TradersOf(body).Ok?
              && forall k | 0 <= k < |TradersOf(body).value| :: TraderStep(names, clf, TradersOf(body).value[k]).Ok?
    ensures r.Ok? ==>
              var traders := TradersOf(body).value;
              && |r.value.predictions| == |traders|
              && forall k | 0 <= k < |traders| ::
                   && r.value.predictions[k].index == k
                   && r.value.predictions[k].prediction == TraderStep(names, clf, traders[k]).value
                   && r.value.predictions[k].prediction.inputFeatures == traders[k]
    ensures r.Ok? ==>
              && r.value.summary.total == |r.value.predictions| >= 1
              && r.value.summary.goodTraders + r.value.summary.badTraders == r.value.summary.total
              && r.value.summary.goodTraders == |ActiveIndices(r.value.predictions)|
    ensures TradersOf(body).Ok? && r.Err? ==>
              var traders := TradersOf(body).value;
              exists k :: FirstFault(names, clf, traders, 0, k)
                          && r.error == FaultAt(k, TraderStep(names, clf, traders[k]).error)
  {
    match TradersOf(body)
    case Err(e) => Err(e)
    case Ok(traders) =>
      match ProcessTraders(names, clf, traders, 0)
      case Err(e) => Err(e)
      case Ok(preds) =>
        var good := CountActive(preds);
        Ok(BatchReply(preds, Summary(|preds|, good, |preds| - good)))
  }

  /** A batch in which exactly one trader is predicted to remain active
      is summarised as one good trader and every other trader bad. */
  lemma {:induction false} OneActiveSummary(names: seq<string>, clf: Classifier, body: Value, i: nat)
    ensures var r := PredictBatch(names, clf, body);
            r.Ok? && i < |r.value.predictions|
            && (forall k | 0 <= k < |r.value.predictions| :: r.value.predictions[k].prediction.willRemainActive <==> k == i)
            ==> r.value.summary == Summary(|r.value.predictions|, 1, |r.value.predictions| - 1)
  {
    var r := PredictBatch(names, clf, body);
    if r.Ok? && i < |r.value.predictions|
       && (forall k | 0 <= k < |r.value.predictions| :: r.value.predictions[k].prediction.willRemainActive <==> k == i)
    {
      assert ActiveIndices(r.value.predictions) == {i};
    }
  }

  /** The positions of results labelled "Good Trader". */
  function GoodLabelled(preds: seq<IndexedPrediction>): set<nat>
  {
    set k: nat | k < |preds| && preds[k].prediction.prediction == GoodLabel
  }

  /** With a classifier that only answers classes 0 and 1, the summary's
      good-trader count is also the number of results labelled "Good Trader". */
  lemma {:induction false} BinaryGoodCountsLabels(names: seq<string>, clf: Classifier, body: Value)
    requires IsBinary(clf)
    ensures var r := PredictBatch(names, clf, body);
            r.Ok? ==> r.value.summary.goodTraders == |GoodLabelled(r.value.predictions)|
  {
    var r := PredictBatch(names, clf, body);
    if r.Ok? {
      var traders := TradersOf(body).value;
      var preds := r.value.predictions;
      forall k | 0 <= k < |preds|
        ensures preds[k].prediction.prediction == GoodLabel <==> preds[k].prediction.willRemainActive
      {
        var t := traders[k];
        assert TraderStep(names, clf, t).Ok?;
        var o := clf(Row(names, t.fields)).value;
        assert o.cls in {0, 1};
        LabelAgreesWithFlag(o, t);
      }
      assert GoodLabelled(preds) == ActiveIndices(preds);
    }
  }

  /** With a classifier that only answers classes 0 and 1, `/predict`'s label
      is "Good Trader" exactly when the trader is predicted to remain active. */
  lemma PredictOneLabelAgreesWithFlag(names: seq<string>, clf: Classifier, body: Value)
    requires IsBinary(clf)
    ensures var r := PredictOne(names, clf, body);
            r.Ok? ==> (r.value.prediction == GoodLabel <==> r.value.willRemainActive)
  {
    var r := PredictOne(names, clf, body);
    if r.Ok? {
      LabelAgreesWithFlag(clf(Row(names, body.fields)).value, body);
    }
  }

}
