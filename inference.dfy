/** The ML service's prediction endpoint (ml/inference.py, `POST /predict`):
    it checks the content type, ranks the class scores, and shapes the three
    best classes into result records. Image decoding and the model are not
    modelled. Their outcomes are inputs: whether the bytes decode as an image,
    and the score vector the model produced. */
module Inference {
  import opened Support

  const FoodClasses: seq<string> :=
    ["pizza", "burger", "sushi", "tacos", "pasta",
     "salad", "steak", "ramen", "curry", "sandwich"]

  /** How many of the best-scoring classes are reported. */
  const TopCount: nat := 3

  const NotAnImage := "File must be an image"
  const PredictionFailedPrefix := "Prediction failed: "
  /** `str()` of the IndexError that indexing a Python list past its end raises. */
  const ListIndexError := "list index out of range"

  datatype Prediction = Prediction(food: string, confidence: real, description: string)

  datatype PredictResponse = PredictResponse(predictions: seq<Prediction>, topPrediction: Option<Prediction>)

  /** Whether the uploaded bytes open as an image; otherwise the decoder's
      error message. */
  datatype ImageDecode = Decoded | Undecodable(message: string)

  /** The multipart `image` part, reduced to its content type: None when
      the part carries no Content-Type header. */
  datatype ImagePart = ImagePart(contentType: Option<string>)

  predicate IsImage(contentType: string) {
    StartsWith(contentType, "image/")
  }

  /** The upload passes the content-type check and is processed. */
  predicate Accepted(image: Option<ImagePart>) {
    image.Some? && image.value.contentType.Some? && IsImage(image.value.contentType.value)
  }

  function Min(a: nat, b: nat): nat {
    if a <= b then a else b
  }

  predicate Distinct(s: seq<nat>) {
    forall i, j :: 0 <= i < j < |s| ==> s[i] != s[j]
  }

  /** Every candidate is a valid position in the score vector. */
  predicate InRange(scores: seq<real>, cands: seq<nat>) {
    forall c :: c in cands ==> c < |scores|
  }

  /** The positions `0, 1, ..., n - 1`, in order. */
  function Range(n: nat): (r: seq<nat>)
    ensures |r| == n
    ensures forall i :: 0 <= i < n ==> r[i] == i
    ensures forall c: nat :: c in r <==> c < n
  {
    if n == 0 then []
    else
      var r := Range(n - 1) + [n - 1];
      assert forall c: nat :: c < n ==> r[c] == c;
      r
  }

  /** A candidate with the highest score. */
  function ArgMax(scores: seq<real>, cands: seq<nat>): (m: nat)
    requires |cands| > 0 && InRange(scores, cands)
    ensures m in cands
    ensures forall c :: c in cands ==> scores[c] <= scores[m]
  {
    if |cands| == 1 then cands[0]
    else
      assert cands[0] in cands;
      assert forall c :: c in cands[1..] ==> c in cands;
      var m := ArgMax(scores, cands[1..]);
      if scores[cands[0]] >= scores[m] then cands[0] else m
  }

  /** The candidates other than `x`, in their order. */
  function Remove(cands: seq<nat>, x: nat): (r: seq<nat>)
    ensures forall c :: c in r <==> c in cands && c != x
    ensures x !in cands ==> r == cands
    ensures Distinct(cands) ==> Distinct(r)
    ensures Distinct(cands) && x in cands ==> |r| == |cands| - 1
  {
    if cands == [] then []
    else
      var rest := Remove(cands[1..], x);
      assert Distinct(cands) ==> Distinct(cands[1..]) && cands[0] !in cands[1..] by {
        if Distinct(cands) {
          forall j | 0 <= j < |cands| - 1 ensures cands[1..][j] != cands[0] {
            assert cands[1..][j] == cands[j + 1];
          }
        }
      }
      if cands[0] == x then rest else [cands[0]] + rest
  }

  /** Putting a new position in front keeps the positions distinct. */
  lemma ConsDistinct(m: nat, rest: seq<nat>)
    requires m !in rest && Distinct(rest)
    ensures Distinct([m] + rest)
  {
    var s := [m] + rest;
    forall i, j | 0 <= i < j < |s| ensures s[i] != s[j] {
      assert s[j] == rest[j - 1];
      if i > 0 {
        assert s[i] == rest[i - 1];
      }
    }
  }

  /** The scores of the selected positions never increase along `top`. */
  predicate NonIncreasing(scores: seq<real>, top: seq<nat>) {
    forall i, j :: 0 <= i < j < |top| ==>
      top[i] < |scores| && top[j] < |scores| && scores[top[i]] >= scores[top[j]]
  }

  /** No position of `cands` outside `top` scores above a position in `top`. */
  predicate Dominates(scores: seq<real>, top: seq<nat>, cands: seq<nat>) {
    forall t, c :: t in top && c in cands && c !in top ==>
      t < |scores| && c < |scores| && scores[t] >= scores[c]
  }

  /** One selection step keeps the order: the arg-max of the candidates
      scores at least as high as anything selected after it. */
  lemma StepNonIncreasing(scores: seq<real>, cands: seq<nat>, m: nat, rest: seq<nat>)
    requires m < |scores| && NonIncreasing(scores, rest)
    requires forall c :: c in cands ==> c < |scores| && scores[c] <= scores[m]
    requires forall c :: c in rest ==> c in cands
    ensures NonIncreasing(scores, [m] + rest)
  {
    var top := [m] + rest;
    forall i, j | 0 <= i < j < |top|
      ensures top[i] < |scores| && top[j] < |scores| && scores[top[i]] >= scores[top[j]]
    {
      assert top[j] == rest[j - 1] && rest[j - 1] in rest;
      if i > 0 {
        assert top[i] == rest[i - 1];
      }
    }
  }

  /** One selection step keeps the dominance: the arg-max beats every
      candidate, and the later picks beat every remaining candidate. */
  lemma StepDominates(scores: seq<real>, cands: seq<nat>, m: nat, others: seq<nat>, rest: seq<nat>)
    requires m < |scores| && Dominates(scores, rest, others)
    requires forall c :: c in cands ==> c < |scores| && scores[c] <= scores[m]
    requires forall c :: c in others <==> c in cands && c != m
    ensures Dominates(scores, [m] + rest, cands)
  {
    var top := [m] + rest;
    forall t, c | t in top && c in cands && c !in top
      ensures t < |scores| && c < |scores| && scores[t] >= scores[c]
    {
      if t != m {
        assert t in rest && c in others;
      }
    }
  }

  /** The `k` best-scoring candidates, best first: what
      `np.argsort(scores)[-k:][::-1]` selects. Equal scores may come in any
      order there; this definition takes the earliest candidate first, and
      only the properties stated here are claimed of the source: the
      selection comes best first, and no candidate left out scores above a
      selected one. */
  function SelectTop(scores: seq<real>, cands: seq<nat>, k: nat): (top: seq<nat>)
    requires InRange(scores, cands) && Distinct(cands)
    ensures |top| == Min(k, |cands|)
    ensures Distinct(top)
    ensures forall t :: t in top ==> t in cands
    ensures forall i :: 0 <= i < |top| ==> top[i] < |scores|
    ensures NonIncreasing(scores, top)
    ensures Dominates(scores, top, cands)
    decreases k
  {
    if k == 0 || cands == [] then []
    else
      var m := ArgMax(scores, cands);
      var others := Remove(cands, m);
      var rest := SelectTop(scores, others, k - 1);
      ConsDistinct(m, rest);
      StepNonIncreasing(scores, cands, m, rest);
      StepDominates(scores, cands, m, others, rest);
      [m] + rest
  }

  /** `np.argsort(predictions)[-3:][::-1]`: the indices of the three highest
      scores (all of them when there are fewer), in non-increasing order of
      score. */
  function TopIndices(scores: seq<real>): (top: seq<nat>)
    ensures |top| == Min(TopCount, |scores|)
    ensures Distinct(top)
    ensures forall t :: t in top ==> t < |scores|
    ensures forall i :: 0 <= i < |top| ==> top[i] < |scores|
    ensures NonIncreasing(scores, top)
    ensures forall t, c :: t in top && 0 <= c < |scores| && c !in top ==> scores[t] >= scores[c]
  {
    var all := Range(|scores|);
    SelectTop(scores, all, TopCount)
  }

  /** The record reported for class index `idx`. */
  function PredictionFor(scores: seq<real>, idx: nat): (p: Prediction)
    requires idx < |scores| && idx < |FoodClasses|
  {
    Prediction(FoodClasses[idx], scores[idx], "This appears to be " + FoodClasses[idx])
  }

  /** `preds` holds one record per selected index, in the same order. */
  predicate Reports(scores: seq<real>, indices: seq<nat>, preds: seq<Prediction>) {
    |preds| == |indices| &&
    forall i :: 0 <= i < |indices| ==>
      indices[i] < |scores| && indices[i] < |FoodClasses| && preds[i] == PredictionFor(scores, indices[i])
  }

  /** The `for` loop that appends one record per selected index. Indexing
      `FOOD_CLASSES` past its end raises an IndexError, which ends the loop. */
  method BuildResults(scores: seq<real>, indices: seq<nat>) returns (r: Result<seq<Prediction>, string>)
    requires forall i :: 0 <= i < |indices| ==> indices[i] < |scores|
    ensures r.Ok? <==> forall i :: 0 <= i < |indices| ==> indices[i] < |FoodClasses|
    ensures r.Err? ==> r.error == ListIndexError
    ensures r.Ok? ==> Reports(scores, indices, r.value)
  {
    var results: seq<Prediction> := [];
    for n := 0 to |indices|
      invariant |results| == n
      invariant forall i :: 0 <= i < n ==> indices[i] < |FoodClasses|
      invariant forall i :: 0 <= i < n ==> results[i] == PredictionFor(scores, indices[i])
    {
      var idx := indices[n];
      if idx >= |FoodClasses| {
        return Err(ListIndexError);
      }
      results := results + [Prediction(FoodClasses[idx], scores[idx], "This appears to be " + FoodClasses[idx])];
    }
    r := Ok(results);
  }

  /** `predict_food`. Without an `image` part FastAPI refuses the request
      with a 422, and a part without a content type makes `startswith` fail
      before the `try`, which the framework turns into a bare 500. A
      non-image content type is refused with a 400 before any processing;
      every failure afterwards becomes a 500 "Prediction failed: ...";
      otherwise the top three classes are reported, best first, and
      `top_prediction` is the first of them or None when there are none. */
  method PredictFood(image: Option<ImagePart>, decode: ImageDecode, scores: seq<real>)
    returns (r: Result<PredictResponse, HttpError>)
    ensures image.None? ==> r.Err? && r.error.status == MissingFieldStatus
    ensures image.Some? && image.value.contentType.None? ==> r == Err(InternalServerError)
    ensures image.Some? && image.value.contentType.Some? && !IsImage(image.value.contentType.value) ==>
              r == Err(HttpError(400, NotAnImage))
    ensures Accepted(image) && decode.Undecodable? ==>
              r == Err(HttpError(500, PredictionFailedPrefix + decode.message))
    ensures Accepted(image) && decode.Decoded? ==>
              (r.Ok? <==> forall i :: 0 <= i < |TopIndices(scores)| ==> TopIndices(scores)[i] < |FoodClasses|)
    ensures Accepted(image) && decode.Decoded? && r.Err? ==>
              r == Err(HttpError(500, PredictionFailedPrefix + ListIndexError))
    ensures r.Ok? ==> Accepted(image) && Reports(scores, TopIndices(scores), r.value.predictions)
    ensures r.Ok? ==> r.value.topPrediction ==
                        if r.value.predictions == [] then None else Some(r.value.predictions[0])
    ensures Accepted(image) && decode.Decoded? && |scores| == |FoodClasses| ==>
              r.Ok? && |r.value.predictions| == 3 && r.value.topPrediction.Some?
  {
    if image.None? {
      return Err(HttpError(MissingFieldStatus, "Field required: image"));
    }
    if image.value.contentType.None? {
      return Err(InternalServerError);
    }
    if !IsImage(image.value.contentType.value) {
      return Err(HttpError(400, NotAnImage));
    }
    if decode.Undecodable? {
      return Err(HttpError(500, PredictionFailedPrefix + decode.message));
    }
    var top := TopIndices(scores);
    var built := BuildResults(scores, top);
    match built
    case Err(message) =>
      r := Err(HttpError(500, PredictionFailedPrefix + message));
    case Ok(results) =>
      r := Ok(PredictResponse(results, if results != [] then Some(results[0]) else None));
  }

  /** The reported records for the selected indices come best first, hold
      three of them (fewer only with fewer scores), and none of them scores
      below a class that was not selected. */
  lemma {:induction false} ReportedRanking(scores: seq<real>, preds: seq<Prediction>)
    requires Reports(scores, TopIndices(scores), preds)
    ensures |preds| == Min(TopCount, |scores|)
    ensures forall i, j :: 0 <= i < j < |preds| ==> preds[i].confidence >= preds[j].confidence
    ensures forall i, c :: 0 <= i < |preds| && 0 <= c < |scores| && c !in TopIndices(scores) ==>
              preds[i].confidence >= scores[c]
  {
    var top := TopIndices(scores);
    forall i, c | 0 <= i < |preds| && 0 <= c < |scores| && c !in top
      ensures preds[i].confidence >= scores[c]
    {
      assert top[i] in top;
    }
  }
}
