/** How the HTTP single prediction and the library's `predict_single` relate
    on the same dict: they accept the same records, report the same missing
    set, and answer with the same prediction. */
module Agreement {

  import opened Wrappers
  import opened Json
  import opened Features
  import opened Scoring
  import Api
  import Library

  /** With every feature present, the service's per-field checks pass exactly
      when the library's negativity scan does: a value that compares as not
      below zero is a number, so the missing type check makes no difference
      on values the scan accepts. */
  lemma {:induction false} FieldChecksAgree(names: seq<string>, rec: Library.Record)
    requires Library.DistinctKeys(rec)
    requires SetOf(names) <= Library.Keys(rec)
    ensures Api.AllFieldsOk(names, Library.ToMap(rec)) <==>
            forall i | 0 <= i < |rec| :: Library.EntryOk(names, rec, i)
  {
    var m := Library.ToMap(rec);
    if Api.AllFieldsOk(names, m) {
      forall i | 0 <= i < |rec| && rec[i].0 in names
        ensures BelowZero(rec[i].1) == Some(false)
      {
        var k :| 0 <= k < |names| && names[k] == rec[i].0;
        assert Api.FieldOk(m[names[k]]);
      }
    }
    if forall i | 0 <= i < |rec| :: Library.EntryOk(names, rec, i) {
      forall k | 0 <= k < |names|
        ensures Api.FieldOk(m[names[k]])
      {
        assert names[k] in Library.Keys(rec);
        var i :| 0 <= i < |rec| && rec[i].0 == names[k];
        assert Library.EntryOk(names, rec, i);
      }
    }
  }

  /** On a non-empty dict, `/predict` succeeds exactly when `predict_single`
      does. Both report the same missing set, and on success they give the
      same label, flag, confidence and probabilities; only the echoed input
      differs in shape. */
  lemma ServiceAgreesWithLibrary(names: seq<string>, clf: Classifier, rec: Library.Record)
    requires Library.DistinctKeys(rec) && |rec| > 0
    ensures var service := Api.PredictOne(names, clf, Object(Library.ToMap(rec)));
            var library := Library.PredictSingle(names, clf, rec);
            && (service.Ok? <==> library.Ok?)
            && (service.Err? && service.error.MissingFeatures? <==> library.Err? && library.error.MissingFeatures?)
            && (service.Err? && service.error.MissingFeatures? ==> service.error.missing == library.error.missing)
            && (service.Ok? ==> SameAnswer(service.value, library.value))
  {
    var m := Library.ToMap(rec);
    assert rec[0].0 in m;
    assert Truthy(Object(m));
    if SetOf(names) <= Library.Keys(rec) {
      FieldChecksAgree(names, rec);
    }
  }

}
