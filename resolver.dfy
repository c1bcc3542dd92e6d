/** Interpretation of the model's score vector: the index of the highest
    score (numpy's `argmax`), its score as the confidence, and the label the
    class table gives that index (lambda/app.py, lines 119-122). */
module LabelResolver {
  import opened Wrappers
  import opened Labels

  /** `k` is where the first highest score of `s` stands: no score exceeds
      it and every score before it is strictly lower. */
  ghost predicate IsFirstMax(s: seq<real>, k: int) {
    && 0 <= k < |s|
    && (forall j :: 0 <= j < |s| ==> s[j] <= s[k])
    && (forall j :: 0 <= j < k ==> s[j] < s[k])
  }

  /** numpy's `argmax` on a non-empty vector: a left-to-right scan that
      moves on only to a strictly greater score. */
  function ArgMax(s: seq<real>): (k: nat)
    requires |s| > 0
    ensures IsFirstMax(s, k)
  {
    if |s| == 1 then 0
    else
      var best := ArgMax(s[..|s| - 1]);
      if s[|s| - 1] > s[best] then |s| - 1 else best
  }

  /** A vector has only one first maximum, so `ArgMax` is the only index
      satisfying `IsFirstMax`. */
  lemma FirstMaxUnique(s: seq<real>, i: int, j: int)
    requires IsFirstMax(s, i) && IsFirstMax(s, j)
    ensures i == j
  {
    assert s[i] == s[j];
  }

  /** The prediction taken from one score vector. */
  datatype Resolution = Resolution(classIndex: nat, cardName: string, confidence: real)

  /** What stops the lookup: `argmax` of an empty vector (numpy raises a
      ValueError) or an index past the end of the class table (Python
      raises an IndexError). */
  datatype ResolveError = EmptyScores | ClassOutOfRange(classIndex: nat)

  /** `class_index = argmax(predictions)`, `confidence = predictions[class_index]`,
      `label = label_map[class_index]`, in that order. The vector's length is
      not compared with the table's: any vector whose first maximum lies in
      the first 53 places is labelled. */
  function Resolve(scores: seq<real>): (r: Result<Resolution, ResolveError>)
    ensures r == Err(EmptyScores) <==> |scores| == 0
    ensures r.Ok? ==>
      && IsFirstMax(scores, r.value.classIndex)
      && r.value.classIndex < |LabelMap|
      && r.value.cardName == LabelMap[r.value.classIndex]
      && r.value.confidence == scores[r.value.classIndex]
    ensures r.Err? && r.error.ClassOutOfRange? ==>
      IsFirstMax(scores, r.error.classIndex) && r.error.classIndex >= |LabelMap|
  {
    if |scores| == 0 then Err(EmptyScores)
    else
      var k := ArgMax(scores);
      var confidence := scores[k];
      if k < |LabelMap| then Ok(Resolution(k, LabelMap[k], confidence))
      else Err(ClassOutOfRange(k))
  }

  /** The lookup succeeds exactly when the vector is non-empty and its first
      maximum is one of the table's 53 places; the confidence is then the
      highest score. */
  lemma ResolveSucceedsIff(scores: seq<real>)
    ensures Resolve(scores).Ok? <==>
      exists k :: 0 <= k < |LabelMap| && IsFirstMax(scores, k)
    ensures Resolve(scores).Ok? ==>
      forall j :: 0 <= j < |scores| ==> scores[j] <= Resolve(scores).value.confidence
  {
    if k :| 0 <= k < |LabelMap| && IsFirstMax(scores, k) {
      FirstMaxUnique(scores, k, ArgMax(scores));
    }
  }

  /** A vector with one score per label always resolves. */
  lemma FullVectorResolves(scores: seq<real>)
    requires |scores| == |LabelMap|
    ensures Resolve(scores).Ok?
  {
  }

  /** The table's length is never checked against the vector's: a vector
      shorter than the table is still given a label, the table's entry at
      the vector's first maximum. */
  lemma ShortVectorResolves(scores: seq<real>)
    requires 0 < |scores| <= |LabelMap|
    ensures Resolve(scores)
         == Ok(Resolution(ArgMax(scores), LabelMap[ArgMax(scores)], scores[ArgMax(scores)]))
  {
  }

  /** A worked example: 0.91 at index 2 and 0.01 elsewhere
      resolves to the ace of hearts with confidence 0.91. */
  lemma AceOfHeartsExample()
    ensures Resolve(seq(53, i => if i == 2 then 0.91 else 0.01))
         == Ok(Resolution(2, "ace of hearts", 0.91))
  {
    var scores: seq<real> := seq(53, i => if i == 2 then 0.91 else 0.01);
    assert IsFirstMax(scores, 2);
    FirstMaxUnique(scores, ArgMax(scores), 2);
    LabelMapFacts();
  }
}
