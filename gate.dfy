/** The confidence gate: one confirmed label per crop, in crop order. */
module Gate {
  import opened Types

  /** The list `final_labels` after the gate has seen `crops`; `choices[i]` is
      what the selectbox of crop i holds (it is shown only when the score is low). */
  function Resolved(crops: seq<Region>, classify: Region -> Prediction, choices: seq<string>): (labels: seq<string>)
    requires |choices| == |crops|
    ensures |labels| == |crops|
  {
    if crops == [] then []
    else
      var n := |crops| - 1;
      var p := classify(crops[n]);
      Resolved(crops[..n], classify, choices[..n]) + [if p.score < Threshold then choices[n] else p.guess]
  }

  /** Crop i keeps the model's guess when its score reaches the threshold and
      takes the user's choice when it does not. */
  lemma {:induction false} ResolvedAt(crops: seq<Region>, classify: Region -> Prediction, choices: seq<string>, i: int)
    requires |choices| == |crops|
    requires 0 <= i < |crops|
    ensures classify(crops[i]).score < Threshold ==> Resolved(crops, classify, choices)[i] == choices[i]
    ensures Threshold <= classify(crops[i]).score ==> Resolved(crops, classify, choices)[i] == classify(crops[i]).guess
  {
    var n := |crops| - 1;
    if i < n {
      ResolvedAt(crops[..n], classify, choices[..n], i);
    }
  }

  /** Every confirmed label is a food of the list, when the classifier only
      answers with candidate labels and the selectbox only offers them. */
  lemma {:induction false} ResolvedInFoodList(crops: seq<Region>, classify: Region -> Prediction, choices: seq<string>, foodList: seq<string>)
    requires |choices| == |crops|
    requires forall i :: 0 <= i < |crops| && classify(crops[i]).score < Threshold ==> choices[i] in foodList
    requires forall i :: 0 <= i < |crops| && Threshold <= classify(crops[i]).score ==> classify(crops[i]).guess in foodList
    ensures forall l :: l in Resolved(crops, classify, choices) ==> l in foodList
  {
    var labels := Resolved(crops, classify, choices);
    forall l | l in labels
      ensures l in foodList
    {
      var i :| 0 <= i < |labels| && labels[i] == l;
      ResolvedAt(crops, classify, choices, i);
    }
  }

  /** The gate loop of the script. */
  method ResolveLabels(crops: seq<Region>, classify: Region -> Prediction, choices: seq<string>) returns (finalLabels: seq<string>)
    requires |choices| == |crops|
    ensures finalLabels == Resolved(crops, classify, choices)
  {
    finalLabels := [];
    for i := 0 to |crops|
      invariant finalLabels == Resolved(crops[..i], classify, choices[..i])
    {
      var p := classify(crops[i]);
      var choice;
      if p.score < Threshold {
        choice := choices[i];
      } else {
        choice := p.guess;
      }
      finalLabels := finalLabels + [choice];
      assert crops[..i + 1][..i] == crops[..i];
      assert choices[..i + 1][..i] == choices[..i];
    }
    assert crops[..|crops|] == crops;
    assert choices[..|choices|] == choices;
  }
}
