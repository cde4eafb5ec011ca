/** The frontend prediction store: one prediction result per field id, the
    training flag and progress, and the model version counter. Predictions come
    from a fixed table of candidates per field name. */
module Predictions {
  import opened Outcomes

  datatype CandidateSource = History | Ml | Pattern

  /** A suggested value; `confidence` is in hundredths (0.85 is 85). */
  datatype Candidate = Candidate(value: string, confidence: int, source: CandidateSource)

  datatype PredictionResult = PredictionResult(
    fieldId: string,
    candidates: seq<Candidate>,
    isLoading: bool,
    error: Option<string>)

  type Predictions = map<string, PredictionResult>

  /** Field names the table has candidates for. */
  predicate KnownFieldName(fieldName: string)
  {
    fieldName in {"username", "email", "age", "gender"}
  }

  /** Confidences never increase along the list. */
  predicate NonIncreasing(cs: seq<Candidate>)
  {
    forall i, j :: 0 <= i < j < |cs| ==> cs[i].confidence >= cs[j].confidence
  }

  /** The fixed candidates for a field name; every other name has none. */
  function MockCandidates(fieldName: string): (r: seq<Candidate>)
    ensures r != [] <==> KnownFieldName(fieldName)
    ensures NonIncreasing(r)
    ensures |r| <= 3
    ensures forall c :: c in r ==> 0 <= c.confidence <= 100
  {
    match fieldName
    case "username" => [
      Candidate("admin", 90, History),
      Candidate("user001", 80, History),
      Candidate("test_user", 70, Pattern)]
    case "email" => [
      Candidate("admin@example.com", 85, History),
      Candidate("user@company.com", 75, Pattern),
      Candidate("test@gmail.com", 65, Ml)]
    case "age" => [
      Candidate("25", 80, History),
      Candidate("30", 70, Ml),
      Candidate("28", 60, Pattern)]
    case "gender" => [
      Candidate("男", 90, History),
      Candidate("女", 10, History)]
    case _ => []
  }

  /** The entry `setPredictionLoading` writes: the flag as given, the previous
      candidates (or none), and the previous error only when it is a non-empty
      message. */
  function LoadingEntry(preds: Predictions, fieldId: string, loading: bool): (r: PredictionResult)
    ensures r.fieldId == fieldId && r.isLoading == loading
    ensures r.candidates == (if fieldId in preds then preds[fieldId].candidates else [])
    ensures r.error.Some? <==> fieldId in preds && preds[fieldId].error.Some? && preds[fieldId].error.value != ""
    ensures r.error.Some? ==> r.error == preds[fieldId].error
  {
    var candidates := if fieldId in preds then preds[fieldId].candidates else [];
    var error := if fieldId in preds && preds[fieldId].error.Some? && preds[fieldId].error.value != ""
                 then preds[fieldId].error else None;
    PredictionResult(fieldId, candidates, loading, error)
  }

  /** The entry a successful prediction stores. */
  function SuccessEntry(fieldId: string, fieldName: string): (r: PredictionResult)
    ensures r.fieldId == fieldId && r.candidates == MockCandidates(fieldName)
    ensures !r.isLoading && r.error.None?
  {
    PredictionResult(fieldId, MockCandidates(fieldName), false, None)
  }

  /** `isLoading` of the entry, false when there is none. */
  function LoadingOf(preds: Predictions, fieldId: string): (r: bool)
    ensures r <==> fieldId in preds && preds[fieldId].isLoading
  {
    fieldId in preds && preds[fieldId].isLoading
  }

  /** The entry's candidates, none when there is no entry. */
  function CandidatesOf(preds: Predictions, fieldId: string): (r: seq<Candidate>)
    ensures fieldId !in preds ==> r == []
    ensures fieldId in preds ==> r == preds[fieldId].candidates
  {
    if fieldId in preds then preds[fieldId].candidates else []
  }

  /** An entry exists and has at least one candidate. */
  function HasCandidates(preds: Predictions, fieldId: string): (r: bool)
    ensures r <==> CandidatesOf(preds, fieldId) != []
  {
    fieldId in preds && |preds[fieldId].candidates| > 0
  }

  /** The field ids whose entry has candidates. */
  function ActiveKeys(preds: Predictions): (r: set<string>)
    ensures r <= preds.Keys
    ensures forall k :: k in r <==> HasCandidates(preds, k)
  {
    set k | k in preds && |preds[k].candidates| > 0
  }

  /** A subset is no larger than its superset. */
  lemma {:induction false} SubsetCard<T>(a: set<T>, b: set<T>)
    requires a <= b
    ensures |a| <= |b|
    decreases |b|
  {
    if a != {} {
      var x :| x in a;
      SubsetCard(a - {x}, b - {x});
    }
  }

  /** The count of entries with candidates is at most the count of entries. */
  lemma ActiveAtMostTotal(preds: Predictions)
    ensures |ActiveKeys(preds)| <= |preds|
  {
    SubsetCard(ActiveKeys(preds), preds.Keys);
  }

  /** Marking an entry as loading keeps whether it has candidates, for that
      field and every other. */
  lemma LoadingKeepsCandidates(preds: Predictions, fieldId: string, loading: bool, k: string)
    ensures HasCandidates(preds[fieldId := LoadingEntry(preds, fieldId, loading)], k) == HasCandidates(preds, k)
  {
  }

  /** After a successful prediction the field has candidates exactly when its
      name is one the table knows, and it is no longer loading. */
  lemma SuccessOutcome(preds: Predictions, fieldId: string, fieldName: string)
    ensures HasCandidates(preds[fieldId := SuccessEntry(fieldId, fieldName)], fieldId) <==> KnownFieldName(fieldName)
    ensures !LoadingOf(preds[fieldId := SuccessEntry(fieldId, fieldName)], fieldId)
  {
  }

  class PredictionStore {
    var predictions: Predictions
    var isTraining: bool
    var trainingProgress: int
    var modelVersion: int
    var error: Option<string>

    constructor()
      ensures predictions == map[] && !isTraining && trainingProgress == 0 && modelVersion == 0 && error.None?
    {
      predictions := map[];
      isTraining := false;
      trainingProgress := 0;
      modelVersion := 0;
      error := None;
    }

    /** Rewrites the field's entry with the loading flag, keeping its
        candidates and its error; no other entry changes. */
    method SetPredictionLoading(fieldId: string, loading: bool)
      modifies this`predictions
      ensures predictions == old(predictions)[fieldId := LoadingEntry(old(predictions), fieldId, loading)]
    {
      var candidates := if fieldId in predictions then predictions[fieldId].candidates else [];
      var updated := PredictionResult(fieldId, candidates, loading, None);
      if fieldId in predictions && predictions[fieldId].error.Some? && predictions[fieldId].error.value != "" {
        updated := updated.(error := predictions[fieldId].error);
      }
      predictions := predictions[fieldId := updated];
    }

    /** Marks the field as loading, then stores the table's candidates for the
        field name, not loading and without error; no other entry changes. */
    method GetPrediction(userId: string, fieldId: string, fieldName: string)
      modifies this`predictions
      ensures predictions == old(predictions)[fieldId := SuccessEntry(fieldId, fieldName)]
      ensures HasPrediction(fieldId) <==> KnownFieldName(fieldName)
      ensures !IsPredictionLoading(fieldId)
    {
      SetPredictionLoading(fieldId, true);
      var mockCandidates := MockCandidates(fieldName);
      predictions := predictions[fieldId := PredictionResult(fieldId, mockCandidates, false, None)];
      SuccessOutcome(old(predictions), fieldId, fieldName);
    }

    /** Runs the progress loop 0, 10, ..., 100, then counts one more model
        version and stops training. */
    method TrainModel(userId: string)
      modifies this`isTraining, this`trainingProgress, this`modelVersion, this`error
      ensures modelVersion == old(modelVersion) + 1
      ensures !isTraining && trainingProgress == 100 && error.None?
    {
      isTraining := true;
      trainingProgress := 0;
      error := None;
      var i := 0;
      while i <= 100
        invariant 0 <= i <= 110 && i % 10 == 0
        invariant trainingProgress == (if i == 0 then 0 else i - 10)
        invariant isTraining && error.None? && modelVersion == old(modelVersion)
      {
        trainingProgress := i;
        i := i + 10;
      }
      modelVersion := modelVersion + 1;
      isTraining := false;
      trainingProgress := 100;
    }

    /** Drops the field's entry; every other entry is kept. */
    method ClearPrediction(fieldId: string)
      modifies this`predictions
      ensures predictions == old(predictions) - {fieldId}
      ensures !HasPrediction(fieldId) && !IsPredictionLoading(fieldId)
    {
      predictions := predictions - {fieldId};
    }

    method ClearAllPredictions()
      modifies this`predictions
      ensures predictions == map[]
      ensures TotalPredictions() == 0
    {
      predictions := map[];
    }

    function GetPredictionResult(fieldId: string): (r: Option<PredictionResult>)
      reads this
      ensures r.None? <==> fieldId !in predictions
      ensures r.Some? ==> r.value == predictions[fieldId]
    {
      if fieldId in predictions then Some(predictions[fieldId]) else None
    }

    function IsPredictionLoading(fieldId: string): (r: bool)
      reads this
      ensures r <==> fieldId in predictions && predictions[fieldId].isLoading
    {
      LoadingOf(predictions, fieldId)
    }

    function GetPredictionCandidates(fieldId: string): (r: seq<Candidate>)
      reads this
      ensures fieldId !in predictions ==> r == []
      ensures fieldId in predictions ==> r == predictions[fieldId].candidates
    {
      CandidatesOf(predictions, fieldId)
    }

    function HasPrediction(fieldId: string): (r: bool)
      reads this
      ensures r <==> fieldId in predictions && predictions[fieldId].candidates != []
    {
      HasCandidates(predictions, fieldId)
    }

    function TotalPredictions(): (n: nat)
      reads this
      ensures n == |predictions.Keys|
    {
      |predictions|
    }

    /** The number of entries with candidates, never more than the total. */
    function ActivePredictions(): (n: nat)
      reads this
      ensures n == |ActiveKeys(predictions)|
      ensures n <= TotalPredictions()
    {
      ActiveAtMostTotal(predictions);
      |ActiveKeys(predictions)|
    }
  }
}
