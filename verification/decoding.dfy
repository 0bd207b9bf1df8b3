/** Turning a model's score vector into a label and a confidence
    (ContentView.swift, inside `runGAEModel`). Scores are modelled as reals:
    totally ordered, without NaN. */
module Decoding {
  import opened Outcomes

  /** A decoded prediction: the class label (`name`) and the score it was chosen with. */
  datatype Classification = Classification(name: string, confidence: real)

  /** Score counts the three models must produce. */
  const GenderClasses: nat := 2
  const AgeClasses: nat := 3
  const ExpressionClasses: nat := 7

  /** Class labels, by output position. The expression order is FER2013's. */
  const GenderLabels: seq<string> := ["Male", "Female"]
  const AgeLabels: seq<string> := ["Child", "Adult", "Elderly"]
  const ExpressionLabels: seq<string> := ["Angry", "Disgust", "Fear", "Happy", "Neutral", "Sad", "Surprise"]

  /** `s[i]` is at least as large as every score. */
  predicate IsMaximal(s: seq<real>, i: int) {
    0 <= i < |s| && forall j :: 0 <= j < |s| ==> s[j] <= s[i]
  }

  /** The argmax with ties to the lowest index: `k` is the smallest index whose
      score is at least every other score. */
  predicate IsArgMax(s: seq<real>, k: int) {
    IsMaximal(s, k) && forall i :: 0 <= i < k ==> !IsMaximal(s, i)
  }

  /** `best` is the first position of a largest score among `s[..n]`. */
  predicate FirstMaxOfPrefix(s: seq<real>, n: int, best: int) {
    0 <= best < n <= |s| &&
    (forall j :: 0 <= j < n ==> s[j] <= s[best]) &&
    (forall j :: 0 <= j < best ==> s[j] < s[best])
  }

  /** Swift's `Sequence.max(by:)` loop with `areInIncreasingOrder` being `<`
      on the scores: the current candidate `best` is replaced by the element at
      `i` only when the candidate's score is strictly smaller. */
  function ScanMax(s: seq<real>, best: nat, i: nat): (k: nat)
    requires best < i <= |s|
    ensures best <= k < |s|
    ensures s[best] <= s[k]
    ensures forall j :: i <= j < |s| ==> s[j] <= s[k]
    ensures FirstMaxOfPrefix(s, i, best) ==> FirstMaxOfPrefix(s, |s|, k)
    decreases |s| - i
  {
    if i == |s| then best
    else if s[best] < s[i] then ScanMax(s, i, i + 1)
    else ScanMax(s, best, i + 1)
  }

  /** A score vector has at most one argmax. */
  lemma ArgMaxUnique(s: seq<real>, k: int)
    requires IsArgMax(s, k)
    ensures forall j :: IsArgMax(s, j) <==> j == k
  {
  }

  /** `scores.enumerated().max(by: { $0.element < $1.element })?.offset`:
      `nil` exactly for an empty vector, otherwise the argmax. A vector has at
      most one argmax, so the offset is `k` exactly when `k` is the smallest
      index of a largest score. */
  function MaxOffset(s: seq<real>): (r: Option<nat>)
    ensures r.None? <==> |s| == 0
    ensures r.Some? ==> r.value < |s|
    ensures forall k :: IsArgMax(s, k) <==> r == Some(k)
  {
    if |s| == 0 then None
    else
      var k := ScanMax(s, 0, 1);
      assert forall i :: 0 <= i < k ==> s[i] < s[k] && !IsMaximal(s, i);
      ArgMaxUnique(s, k);
      Some(k)
  }

  /** `Swift.max(x, y)`: `y` when `y >= x`, otherwise `x`. */
  function SwiftMax(x: real, y: real): (m: real)
    ensures x <= m && y <= m
    ensures m == x || m == y
  {
    if y >= x then y else x
  }

  /** Gender rule: "Female" only when the female score is strictly greater, so
      a tie is "Male"; the confidence is the larger of the two scores. */
  function DecodeGender(scores: seq<real>): (c: Classification)
    requires |scores| == GenderClasses
    ensures c.name == "Female" <==> scores[1] > scores[0]
    ensures c.name == "Male" <==> scores[1] <= scores[0]
    ensures c.confidence >= scores[0] && c.confidence >= scores[1]
    ensures c.confidence == scores[0] || c.confidence == scores[1]
  {
    var maleScore := scores[0];
    var femaleScore := scores[1];
    var isFemale := femaleScore > maleScore;
    Classification(if isFemale then GenderLabels[1] else GenderLabels[0], SwiftMax(maleScore, femaleScore))
  }

  /** The `switch ageIndex` label table, including its `default` branch. */
  function AgeLabel(index: int): (name: string)
    ensures 0 <= index < |AgeLabels| ==> name == AgeLabels[index]
    ensures !(0 <= index < |AgeLabels|) ==> name == "Unknown"
  {
    match index
    case 0 => "Child"
    case 1 => "Adult"
    case 2 => "Elderly"
    case _ => "Unknown"
  }

  /** Age rule: the label of the argmax (ties to the lowest index) and its
      score. The `?? 1` fallback and the "Unknown" label are never used once
      the vector has three scores. */
  function DecodeAge(scores: seq<real>): (c: Classification)
    requires |scores| == AgeClasses
    ensures forall k :: 0 <= k < |AgeLabels| ==> (c.name == AgeLabels[k] <==> IsArgMax(scores, k))
    ensures c.name != "Unknown"
    ensures forall j :: 0 <= j < |scores| ==> scores[j] <= c.confidence
    ensures exists k :: IsArgMax(scores, k) && c.confidence == scores[k]
  {
    var ageIndex := MaxOffset(scores).GetOr(1);
    Classification(AgeLabel(ageIndex), scores[ageIndex])
  }

  /** Expression rule: the FER2013 label of the argmax (ties to the lowest
      index) and its score; the label-table lookup is always in bounds. */
  function DecodeExpression(scores: seq<real>): (c: Classification)
    requires |scores| == ExpressionClasses
    ensures forall k :: 0 <= k < |ExpressionLabels| ==> (c.name == ExpressionLabels[k] <==> IsArgMax(scores, k))
    ensures forall j :: 0 <= j < |scores| ==> scores[j] <= c.confidence
    ensures exists k :: IsArgMax(scores, k) && c.confidence == scores[k]
  {
    var exprIndex := MaxOffset(scores).GetOr(3);
    Classification(ExpressionLabels[exprIndex], scores[exprIndex])
  }

  /** Worked cases: a female score above the male one; an exact gender tie,
      which is "Male"; an age tie between the first two classes, which goes to
      the first; and an expression vector whose largest score is fourth. */
  lemma DecodingExamples()
    ensures DecodeGender([0.3, 0.7]) == Classification("Female", 0.7)
    ensures DecodeGender([0.6, 0.4]) == Classification("Male", 0.6)
    ensures DecodeGender([0.5, 0.5]).name == "Male"
    ensures DecodeAge([0.1, 0.8, 0.1]) == Classification("Adult", 0.8)
    ensures DecodeAge([0.5, 0.5, 0.0]) == Classification("Child", 0.5)
    ensures DecodeExpression([0.1, 0.0, 0.1, 0.6, 0.1, 0.1, 0.0]).name == "Happy"
  {
    assert IsArgMax([0.1, 0.8, 0.1], 1);
    assert IsArgMax([0.5, 0.5, 0.0], 0);
    assert IsArgMax([0.1, 0.0, 0.1, 0.6, 0.1, 0.1, 0.0], 3);
  }
}
