/** The classifier's output and how the client picks the class it acts on.

    On every frame the pose classifier yields one (class name, probability)
    pair per trained class. The client keeps the FIRST class whose probability
    is strictly the highest; when no probability exceeds 0 (an empty list
    included) it keeps the empty class name with probability 0.
 */
module PoseClassifier {

  /** One entry of the classifier's output list. */
  datatype Prediction = Prediction(className: string, probability: real)

  /** `k` is an index whose probability is strictly above every earlier one. */
  ghost predicate FirstMaxAt(p: seq<Prediction>, k: int)
  {
    0 <= k < |p| &&
    forall j :: 0 <= j < k ==> p[j].probability < p[k].probability
  }

  /** (cls, prob) is what the selection loop ends with on `p`: prob bounds every
      probability from above and is never negative; a positive prob belongs to
      the first class that reaches it, a zero prob comes with the empty name. */
  ghost predicate IsTopClass(p: seq<Prediction>, cls: string, prob: real)
  {
    0.0 <= prob &&
    (forall i :: 0 <= i < |p| ==> p[i].probability <= prob) &&
    if prob == 0.0 then cls == ""
    else exists k :: FirstMaxAt(p, k) && p[k].className == cls && p[k].probability == prob
  }

  /** The selection loop of `predict`: start from ('', 0) and take a class
      only when its probability is strictly higher than the best so far. */
  method SelectTopClass(prediction: seq<Prediction>) returns (predictedClass: string, highestProb: real)
    ensures IsTopClass(prediction, predictedClass, highestProb)
  {
    highestProb := 0.0;
    predictedClass := "";
    ghost var k := 0;
    for i := 0 to |prediction|
      invariant 0.0 <= highestProb
      invariant forall j :: 0 <= j < i ==> prediction[j].probability <= highestProb
      invariant highestProb == 0.0 ==> predictedClass == ""
      invariant highestProb != 0.0 ==>
        k < i && FirstMaxAt(prediction, k) &&
        prediction[k].className == predictedClass && prediction[k].probability == highestProb
    {
      var name := prediction[i].className;
      var prob := prediction[i].probability;
      if prob > highestProb {
        highestProb := prob;
        predictedClass := name;
        k := i;
      }
    }
  }

  /** The selection is fully determined by the classifier's output: two
      results that both satisfy IsTopClass are the same result. */
  lemma TopClassUnique(p: seq<Prediction>, c1: string, m1: real, c2: string, m2: real)
    requires IsTopClass(p, c1, m1) && IsTopClass(p, c2, m2)
    ensures c1 == c2 && m1 == m2
  {
  }

  /** Ties go to the earlier class: the first of the entries sharing the top
      positive probability is selected, and no later tied entry is a first maximum. */
  lemma TiesGoToEarlierClass(p: seq<Prediction>, cls: string, prob: real, a: int, b: int)
    requires IsTopClass(p, cls, prob)
    requires 0 <= a < b < |p|
    requires p[a].probability == p[b].probability > 0.0
    requires forall j :: 0 <= j < |p| ==> p[j].probability <= p[a].probability
    requires forall j :: 0 <= j < a ==> p[j].probability < p[a].probability
    ensures cls == p[a].className && prob == p[a].probability
    ensures !FirstMaxAt(p, b)
  {
    assert FirstMaxAt(p, a);
    assert IsTopClass(p, p[a].className, p[a].probability);
    TopClassUnique(p, cls, prob, p[a].className, p[a].probability);
  }
}
