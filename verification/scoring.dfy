/** The prediction service's response mapping: what the opaque classifier
    returns for one feature row, and the fixed result record built from it.
    Both the HTTP service and the library predictor use this mapping. */
module Scoring {

  import opened Wrappers
  import opened Json

  const GoodLabel: string := "Good Trader"
  const BadLabel: string := "Bad Trader"

  /** What the fitted classifier says about one feature row: the class from
      `predict(row)[0]`, and `predict_proba(row)[0]`, whose entry 0 is the
      probability of class 0 ("bad") and entry 1 that of class 1 ("good").
      Nothing relates the two probabilities: the code never relies on them
      summing to one. */
  datatype Output = Output(cls: int, probBad: real, probGood: real)

  /** The pre-fitted classifier as an opaque deterministic function of the row
      handed to `np.array`; `None` when the numeric library raises (a row it
      cannot convert, a width it was not trained on, ...). */
  type Classifier = seq<Value> -> Option<Output>

  /** A classifier whose every answer is one of the two trained classes. */
  ghost predicate IsBinary(clf: Classifier)
  {
    forall row :: clf(row).Some? ==> clf(row).value.cls in {0, 1}
  }

  /** `'Good Trader' if prediction == 1 else 'Bad Trader'`. */
  function Label(cls: int): (s: string)
    ensures s == GoodLabel <==> cls == 1
    ensures s == BadLabel <==> cls != 1
  {
    if cls == 1 then GoodLabel else BadLabel
  }

  /** `max(probability)` over the two class probabilities. */
  function Confidence(o: Output): (c: real)
    ensures c >= o.probGood && c >= o.probBad
    ensures c == o.probGood || c == o.probBad
  {
    if o.probBad >= o.probGood then o.probBad else o.probGood
  }

  /** The result record. `I` is the shape of the echoed input: a JSON value for
      the HTTP service, an ordered record for the library predictor. */
  datatype Prediction<I> = Prediction(
    prediction: string,
    willRemainActive: bool,
    confidence: real,
    probabilityGood: real,
    probabilityBad: real,
    inputFeatures: I)

  /** Two result records give the same answer, whatever input they echo. */
  predicate SameAnswer<I, J>(p: Prediction<I>, q: Prediction<J>)
  {
    && p.prediction == q.prediction
    && p.willRemainActive == q.willRemainActive
    && p.confidence == q.confidence
    && p.probabilityGood == q.probabilityGood
    && p.probabilityBad == q.probabilityBad
  }

  /** Maps one classifier answer to the result record, echoing the input. */
  function MakePrediction<I>(o: Output, input: I): (p: Prediction<I>)
    ensures p.prediction == GoodLabel <==> o.cls == 1
    ensures p.prediction == BadLabel <==> o.cls != 1
    ensures p.willRemainActive <==> o.cls != 0
    ensures p.confidence >= p.probabilityGood && p.confidence >= p.probabilityBad
    ensures p.confidence == p.probabilityGood || p.confidence == p.probabilityBad
    ensures p.probabilityGood == o.probGood && p.probabilityBad == o.probBad
    ensures p.inputFeatures == input
  {
    Prediction(Label(o.cls), o.cls != 0, Confidence(o), o.probGood, o.probBad, input)
  }

  /** For class 0 or 1 the label and the activity flag agree: "Good Trader"
      exactly when the trader is predicted to remain active. */
  lemma LabelAgreesWithFlag<I>(o: Output, input: I)
    requires o.cls in {0, 1}
    ensures MakePrediction(o, input).prediction == GoodLabel <==> MakePrediction(o, input).willRemainActive
  {
  }

  /** The label tests `== 1` and the flag tests `!= 0`, so for any other class
      they disagree: such an answer is labelled "Bad Trader" yet reported as
      remaining active. */
  lemma LabelAndFlagDivergeOutsideBinary<I>(o: Output, input: I)
    requires o.cls !in {0, 1}
    ensures var p := MakePrediction(o, input);
            p.prediction == BadLabel && p.willRemainActive
  {
  }

}
