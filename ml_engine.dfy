/** The WebAssembly form predictor: a growing list of training records, a
    trained flag, and a prediction that collects a user's stored values for a
    field, sorts them, drops repeats and keeps at most five. Strings compare
    as Rust's `String` does: lexicographically, character by character (UTF-8
    byte order agrees with code-point order). */
module MlEngine {
  import opened Outcomes
  import FormTypes

  datatype FieldValue = FieldValue(fieldId: string, ftype: FormTypes.FieldType, value: string)

  /** One training record: the fields a user entered at some time. */
  datatype FormData = FormData(userId: string, timestamp: string, fields: seq<FieldValue>)

  /** A prediction: candidate values and confidence scores in hundredths. */
  datatype Prediction = Prediction(fieldId: string, candidates: seq<string>, scores: seq<int>)

  datatype Stats = Stats(trainingDataCount: nat, modelTrained: bool)

  datatype MlError = ParseFailed | NoTrainingData | NotTrained

  /** The most candidates a prediction returns. */
  const MaxCandidates: nat := 5

  /** The score every raw match is given (0.8). */
  const MatchScore: int := 80

  // ---------------------------------------------------------------------------
  // string order

  /** Lexicographic order on strings: a prefix comes first. */
  predicate StrLe(a: string, b: string)
    decreases |a|
  {
    a == [] || (b != [] && (a[0] < b[0] || (a[0] == b[0] && StrLe(a[1..], b[1..]))))
  }

  predicate StrLt(a: string, b: string)
  {
    StrLe(a, b) && a != b
  }

  lemma {:induction false} StrLeReflexive(a: string)
    ensures StrLe(a, a)
    decreases |a|
  {
    if a != [] {
      StrLeReflexive(a[1..]);
    }
  }

  lemma {:induction false} StrLeTotal(a: string, b: string)
    ensures StrLe(a, b) || StrLe(b, a)
    decreases |a|
  {
    if a != [] && b != [] && a[0] == b[0] {
      StrLeTotal(a[1..], b[1..]);
    }
  }

  lemma {:induction false} StrLeAntisymmetric(a: string, b: string)
    requires StrLe(a, b) && StrLe(b, a)
    ensures a == b
    decreases |a|
  {
    if a != [] {
      StrLeAntisymmetric(a[1..], b[1..]);
      assert a == [a[0]] + a[1..] && b == [b[0]] + b[1..];
    }
  }

  lemma {:induction false} StrLeTransitive(a: string, b: string, c: string)
    requires StrLe(a, b) && StrLe(b, c)
    ensures StrLe(a, c)
    decreases |a|
  {
    if a != [] && a[0] == b[0] && b[0] == c[0] {
      StrLeTransitive(a[1..], b[1..], c[1..]);
    }
  }

  predicate Sorted(s: seq<string>)
  {
    forall i, j :: 0 <= i < j < |s| ==> StrLe(s[i], s[j])
  }

  /** Ascending with no value twice. */
  predicate StrictlySorted(s: seq<string>)
  {
    forall i, j :: 0 <= i < j < |s| ==> StrLt(s[i], s[j])
  }

  /** A value no greater than the head of a sorted list is no greater than any
      of its elements. */
  lemma BelowSortedHead(x: string, s: seq<string>)
    requires Sorted(s) && s != [] && StrLe(x, s[0])
    ensures forall y :: y in s ==> StrLe(x, y)
  {
    forall y | y in s ensures StrLe(x, y) {
      var k :| 0 <= k < |s| && s[k] == y;
      if k == 0 {
        StrLeReflexive(y);
      }
      StrLeTransitive(x, s[0], y);
    }
  }

  /** In a sorted list whose first two elements differ, the head is strictly
      below every later element. */
  lemma HeadStrictlyBelowRest(s: seq<string>)
    requires Sorted(s) && |s| >= 2 && s[0] != s[1]
    ensures forall y :: y in s[1..] ==> StrLt(s[0], y)
  {
    forall y | y in s[1..] ensures StrLt(s[0], y) {
      var k :| 1 <= k < |s| && s[k] == y;
      if y == s[0] {
        StrLeAntisymmetric(s[0], s[1]);
      }
    }
  }

  /** Inserts `x` before the first element of a sorted list that it is no
      greater than. */
  function InsertString(x: string, s: seq<string>): (r: seq<string>)
    requires Sorted(s)
    ensures |r| == |s| + 1
    ensures forall y :: y in r <==> y == x || y in s
    ensures Sorted(r)
    ensures multiset(r) == multiset(s) + multiset{x}
    decreases |s|
  {
    if s == [] then [x]
    else if StrLe(x, s[0]) then
      BelowSortedHead(x, s);
      [x] + s
    else
      StrLeTotal(x, s[0]);
      var rest := InsertString(x, s[1..]);
      assert s == [s[0]] + s[1..];
      assert forall y :: y in rest ==> StrLe(s[0], y);
      [s[0]] + rest
  }

  /** `Vec::sort`: the same strings, ascending. */
  function SortStrings(s: seq<string>): (r: seq<string>)
    ensures |r| == |s|
    ensures Sorted(r)
    ensures multiset(r) == multiset(s)
    decreases |s|
  {
    if s == [] then []
    else
      assert s == [s[0]] + s[1..];
      InsertString(s[0], SortStrings(s[1..]))
  }

  /** `Vec::dedup`: drops every element equal to the one before it. On a sorted
      list the result holds each value once, ascending. */
  function Dedup(s: seq<string>): (r: seq<string>)
    ensures forall x :: x in r <==> x in s
    ensures |r| <= |s|
    ensures Sorted(s) ==> StrictlySorted(r)
    decreases |s|
  {
    if |s| <= 1 then s
    else if s[0] == s[1] then
      assert forall x :: x in s <==> x in s[1..] by { assert s == [s[0]] + s[1..]; }
      Dedup(s[1..])
    else
      var rest := Dedup(s[1..]);
      assert s == [s[0]] + s[1..];
      if Sorted(s) then
        HeadStrictlyBelowRest(s);
        [s[0]] + rest
      else
        [s[0]] + rest
  }

  // ---------------------------------------------------------------------------
  // matches

  /** The non-empty values one record holds for the field, in field order. */
  function FieldMatches(fields: seq<FieldValue>, fieldId: string): (r: seq<string>)
    ensures |r| <= |fields|
    ensures forall v :: v in r <==> v != "" && exists f :: f in fields && f.fieldId == fieldId && f.value == v
    decreases |fields|
  {
    if fields == [] then []
    else
      var init, last := fields[..|fields| - 1], fields[|fields| - 1];
      assert fields == init + [last];
      var rest := FieldMatches(init, fieldId);
      if last.fieldId == fieldId && last.value != "" then rest + [last.value] else rest
  }

  /** `v` is a non-empty value some record of the user holds for the field. */
  predicate Stored(data: seq<FormData>, userId: string, fieldId: string, v: string)
  {
    exists d :: d in data && d.userId == userId && v in FieldMatches(d.fields, fieldId)
  }

  /** Every raw match, record by record, in the order the loops visit them. */
  function Matches(data: seq<FormData>, userId: string, fieldId: string): (r: seq<string>)
    ensures forall v :: v in r <==> Stored(data, userId, fieldId, v)
    decreases |data|
  {
    if data == [] then []
    else
      var init, last := data[..|data| - 1], data[|data| - 1];
      assert data == init + [last];
      var rest := Matches(init, userId, fieldId);
      if last.userId == userId then rest + FieldMatches(last.fields, fieldId) else rest
  }

  /** The distinct matched values, ascending. */
  function DistinctMatches(data: seq<FormData>, userId: string, fieldId: string): (r: seq<string>)
    ensures StrictlySorted(r)
    ensures forall v :: v in r <==> Stored(data, userId, fieldId, v)
    ensures |r| <= |Matches(data, userId, fieldId)|
  {
    var sorted := SortStrings(Matches(data, userId, fieldId));
    assert forall v :: v in sorted <==> v in multiset(sorted);
    Dedup(sorted)
  }

  /** `n` copies of the match score. */
  function Scores(n: nat): (r: seq<int>)
    ensures |r| == n && forall s :: s in r ==> s == MatchScore
  {
    seq(n, _ => MatchScore)
  }

  /** Of a strictly ascending list, the first `k` elements are below every
      later one. */
  lemma PrefixBelowRest(d: seq<string>, k: nat, v: string)
    requires StrictlySorted(d) && k <= |d| && v in d && v !in d[..k]
    ensures forall c :: c in d[..k] ==> StrLt(c, v)
  {
    var m :| 0 <= m < |d| && d[m] == v;
    assert m >= k;
    forall c | c in d[..k] ensures StrLt(c, v) {
      var i :| 0 <= i < k && d[..k][i] == c;
    }
  }

  /** What a trained predictor returns. The candidates are the smallest
      distinct stored values (all of them when there are at most five),
      ascending. The scores are one per RAW match, cut to five only when the
      candidates are: they are not de-duplicated with the candidates. */
  function PredictOutput(data: seq<FormData>, userId: string, fieldId: string): (p: Prediction)
    ensures p.fieldId == fieldId
    ensures StrictlySorted(p.candidates) && |p.candidates| <= MaxCandidates
    ensures |p.candidates| == if |DistinctMatches(data, userId, fieldId)| > MaxCandidates
                              then MaxCandidates else |DistinctMatches(data, userId, fieldId)|
    ensures p.candidates == DistinctMatches(data, userId, fieldId)[..|p.candidates|]
    ensures forall v :: v in p.candidates ==> Stored(data, userId, fieldId, v)
    ensures |DistinctMatches(data, userId, fieldId)| <= MaxCandidates ==>
              forall v :: Stored(data, userId, fieldId, v) ==> v in p.candidates
    ensures forall v :: Stored(data, userId, fieldId, v) && v !in p.candidates ==>
              forall c :: c in p.candidates ==> StrLt(c, v)
    ensures |p.scores| == if |DistinctMatches(data, userId, fieldId)| > MaxCandidates
                          then MaxCandidates else |Matches(data, userId, fieldId)|
    ensures forall s :: s in p.scores ==> s == MatchScore
  {
    var d := DistinctMatches(data, userId, fieldId);
    var m := Matches(data, userId, fieldId);
    if |d| > MaxCandidates then
      assert forall v :: v in d[..MaxCandidates] ==> v in d;
      assert forall v :: Stored(data, userId, fieldId, v) && v !in d[..MaxCandidates] ==>
               forall c :: c in d[..MaxCandidates] ==> StrLt(c, v) by {
        forall v | Stored(data, userId, fieldId, v) && v !in d[..MaxCandidates] {
          PrefixBelowRest(d, MaxCandidates, v);
        }
      }
      Prediction(fieldId, d[..MaxCandidates], Scores(MaxCandidates))
    else
      Prediction(fieldId, d, Scores(|m|))
  }

  /** A record holding the value "a" twice for field "f". */
  function RepeatedValueRecord(): FormData
  {
    FormData("u", "t", [FieldValue("f", FormTypes.Text, "a"), FieldValue("f", FormTypes.Text, "a")])
  }

  lemma RepeatedValueMatches()
    ensures Matches([RepeatedValueRecord()], "u", "f") == ["a", "a"]
  {
    var fields := RepeatedValueRecord().fields;
    assert fields[..1] == [fields[0]] && fields[..1][..0] == [];
    assert FieldMatches(fields[..1], "f") == ["a"];
    assert FieldMatches(fields, "f") == ["a", "a"];
    assert [RepeatedValueRecord()][..0] == [];
  }

  lemma RepeatedValueDistinct()
    ensures Dedup(SortStrings(["a", "a"])) == ["a"]
  {
    StrLeReflexive("a");
    var one, two := ["a"], ["a", "a"];
    assert one[1..] == [] && two[1..] == one;
    assert SortStrings(one) == one;
    assert SortStrings(two) == InsertString("a", one) == two;
    assert Dedup(two) == Dedup(one) == one;
  }

  /** One record holding the same value twice gives one candidate but two
      scores: the two lists of a prediction can differ in length. */
  lemma ScoresOutnumberCandidates()
    ensures var p := PredictOutput([RepeatedValueRecord()], "u", "f");
            p.candidates == ["a"] && p.scores == [MatchScore, MatchScore]
  {
    RepeatedValueMatches();
    RepeatedValueDistinct();
    assert Scores(2) == [MatchScore, MatchScore];
  }

  class FormPredictor {
    var trainingData: seq<FormData>
    var modelTrained: bool

    /** A model is only ever trained on some data: records are never removed. */
    predicate Valid()
      reads this
    {
      modelTrained ==> trainingData != []
    }

    constructor()
      ensures trainingData == [] && !modelTrained
      ensures Valid()
    {
      trainingData := [];
      modelTrained := false;
    }

    /** Stores one parsed record; a record that failed to parse (`None`)
        fails with ParseFailed and stores nothing. */
    method AddTrainingData(parsed: Option<FormData>) returns (r: Outcome<MlError>)
      modifies this`trainingData
      requires Valid()
      ensures parsed.None? ==> r == Fail(ParseFailed) && trainingData == old(trainingData)
      ensures parsed.Some? ==> r == Pass && trainingData == old(trainingData) + [parsed.value]
      ensures Valid()
    {
      match parsed
      case Some(formData) =>
        trainingData := trainingData + [formData];
        r := Pass;
      case None =>
        r := Fail(ParseFailed);
    }

    /** Marks the model trained, or fails with NoTrainingData, changing
        nothing, while there is no record. */
    method TrainModel() returns (r: Outcome<MlError>)
      modifies this`modelTrained
      requires Valid()
      ensures trainingData == [] ==> r == Fail(NoTrainingData) && modelTrained == old(modelTrained)
      ensures trainingData != [] ==> r == Pass && modelTrained
      ensures Valid()
    {
      if |trainingData| == 0 {
        return Fail(NoTrainingData);
      }
      modelTrained := true;
      r := Pass;
    }

    /** Collects the user's non-empty values for the field, record by record,
        with one score each, then sorts, drops repeats and keeps five. Fails
        with NotTrained before training. */
    method Predict(userId: string, fieldId: string) returns (r: Result<Prediction, MlError>)
      ensures !modelTrained ==> r == Err(NotTrained)
      ensures modelTrained ==> r == Ok(PredictOutput(trainingData, userId, fieldId))
    {
      if !modelTrained {
        return Err(NotTrained);
      }
      var candidates: seq<string> := [];
      var scores: seq<int> := [];
      var i := 0;
      while i < |trainingData|
        invariant 0 <= i <= |trainingData|
        invariant candidates == Matches(trainingData[..i], userId, fieldId)
        invariant scores == Scores(|candidates|)
      {
        var data := trainingData[i];
        assert trainingData[..i + 1] == trainingData[..i] + [data];
        if data.userId == userId {
          var j := 0;
          while j < |data.fields|
            invariant 0 <= j <= |data.fields|
            invariant candidates == Matches(trainingData[..i], userId, fieldId) + FieldMatches(data.fields[..j], fieldId)
            invariant scores == Scores(|candidates|)
          {
            var field := data.fields[j];
            assert data.fields[..j + 1] == data.fields[..j] + [field];
            if field.fieldId == fieldId && field.value != "" {
              candidates := candidates + [field.value];
              scores := scores + [MatchScore];
            }
            j := j + 1;
          }
          assert data.fields[..j] == data.fields;
        }
        i := i + 1;
      }
      assert trainingData[..i] == trainingData;
      var raw := |candidates|;
      candidates := SortStrings(candidates);
      candidates := Dedup(candidates);
      if |candidates| > MaxCandidates {
        candidates := candidates[..MaxCandidates];
        assert Scores(raw)[..MaxCandidates] == Scores(MaxCandidates);
        scores := scores[..MaxCandidates];
      }
      r := Ok(Prediction(fieldId, candidates, scores));
    }

    /** The number of stored records and the trained flag. */
    function GetStats(): (s: Stats)
      reads this
      ensures s.trainingDataCount == |trainingData| && s.modelTrained == modelTrained
      ensures s.modelTrained && Valid() ==> s.trainingDataCount > 0
    {
      Stats(|trainingData|, modelTrained)
    }
  }
}
