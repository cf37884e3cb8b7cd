/** One run of the script over an uploaded image: crops, confirmed labels,
    quantities and total, with the detector, the classifier and the widgets
    replaced by their answers. */
module Session {
  import opened Types
  import opened Crops
  import opened Gate
  import opened Quantities
  import opened Calories
  import opened Feedback

  /** What one run computes: `final_labels`, `quantities` and `total` (or the
      error the calorie lookup raised). */
  datatype Analysis = Analysis(finalLabels: seq<string>, quantities: Dict, total: Result<real, LookupError>)

  /** The run, given the detector's boxes `xy`, the classifier's top answer per
      crop, the selectbox value and the grams widget value of each crop. */
  function Analyse(table: seq<Row>, xy: seq<Box>, classify: Region -> Prediction, choices: seq<string>, grams: seq<int>): (a: Analysis)
    requires |choices| == |xy| && |grams| == |xy|
    ensures |a.finalLabels| == |xy|
    ensures Valid(a.quantities)
    ensures forall k :: k in a.quantities.grams <==> k in a.finalLabels
    ensures a.total.Ok? <==> forall l :: l in a.finalLabels ==> OneRow(table, l)
  {
    var labels := Resolved(Regions(xy), classify, choices);
    var q := QuantitiesOf(labels, grams);
    QuantitiesKeys(labels, grams);
    TotalOkIffOneRow(table, q.order, q.grams);
    assert (forall i :: 0 <= i < |q.order| ==> OneRow(table, q.order[i])) <==>
           (forall l :: l in labels ==> OneRow(table, l)) by {
      assert forall l :: l in labels <==> l in q.order;
    }
    Analysis(labels, q, Total(table, q.order, q.grams))
  }

  /** The script from detection to the total, step by step. */
  method RunScript(table: seq<Row>, xy: seq<Box>, classify: Region -> Prediction, choices: seq<string>, grams: seq<int>)
    returns (a: Analysis)
    requires |choices| == |xy| && |grams| == |xy|
    ensures a == Analyse(table, xy, classify, choices, grams)
  {
    var crops := CropAll(xy);
    var finalLabels := ResolveLabels(crops, classify, choices);
    var quantities := CollectQuantities(finalLabels, grams);
    var total := ComputeTotal(table, quantities);
    a := Analysis(finalLabels, quantities, total);
  }

  /** No detection: no labels, an empty dict and a total of zero. */
  lemma EmptyDetection(table: seq<Row>, classify: Region -> Prediction)
    ensures Analyse(table, [], classify, [], []) == Analysis([], Dict([], map[]), Ok(0.0))
  {
  }

  /** When the table names each food once, the classifier only answers with
      foods of the table and the selectbox only offers them, the run never
      fails its lookup, keeps one label per crop, and stores grams in [1, 2000]. */
  lemma {:induction false} AnalysisSucceeds(table: seq<Row>, xy: seq<Box>, classify: Region -> Prediction, choices: seq<string>, grams: seq<int>)
    requires |choices| == |xy| && |grams| == |xy|
    requires UniqueNames(table)
    requires forall r :: classify(r).guess in FoodList(table)
    requires forall i :: 0 <= i < |xy| && classify(Regions(xy)[i]).score < Threshold ==> choices[i] in FoodList(table)
    requires forall i :: 0 <= i < |grams| ==> InRange(grams[i])
    ensures |Analyse(table, xy, classify, choices, grams).finalLabels| == |xy|
    ensures forall k :: k in Analyse(table, xy, classify, choices, grams).quantities.grams ==>
      InRange(Analyse(table, xy, classify, choices, grams).quantities.grams[k])
    ensures Analyse(table, xy, classify, choices, grams).total.Ok?
  {
    var crops := Regions(xy);
    var labels := Resolved(crops, classify, choices);
    var q := QuantitiesOf(labels, grams);
    ResolvedInFoodList(crops, classify, choices, FoodList(table));
    QuantitiesKeys(labels, grams);
    QuantitiesInRange(labels, grams);
    TotalOkIff(table, q.order, q.grams);
    forall i | 0 <= i < |q.order|
      ensures Lookup(table, q.order[i]).Ok?
    {
      assert q.order[i] in q.grams;
      LookupFoodList(table, q.order[i]);
    }
  }

  /** The alternative policy: every crop priced with its own grams, duplicates included. */
  function PerCropTotal(table: seq<Row>, labels: seq<string>, grams: seq<int>): Result<real, LookupError>
    requires |grams| == |labels|
  {
    if labels == [] then Ok(0.0)
    else
      var n := |labels| - 1;
      match PerCropTotal(table, labels[..n], grams[..n])
      case Err(e) => Err(e)
      case Ok(t) =>
        match Lookup(table, labels[n])
        case Err(e) => Err(e)
        case Ok(k) => Ok(t + Kcal(grams[n], k))
  }

  /** Walking keys whose grams are the crops' own grams gives the per-crop total. */
  lemma {:induction false} TotalMatchesPerCrop(table: seq<Row>, labels: seq<string>, m: map<string, int>, grams: seq<int>)
    requires |grams| == |labels|
    requires forall i :: 0 <= i < |labels| ==> labels[i] in m && m[labels[i]] == grams[i]
    ensures Total(table, labels, m) == PerCropTotal(table, labels, grams)
  {
    if labels != [] {
      var n := |labels| - 1;
      TotalMatchesPerCrop(table, labels[..n], m, grams[..n]);
    }
  }

  /** When no two crops share a label, keying by label loses nothing: the total
      equals pricing every crop with its own grams. */
  lemma DistinctLabelsPriceEveryCrop(table: seq<Row>, labels: seq<string>, grams: seq<int>)
    requires |grams| == |labels|
    requires Distinct(labels)
    ensures Total(table, QuantitiesOf(labels, grams).order, QuantitiesOf(labels, grams).grams) == PerCropTotal(table, labels, grams)
  {
    var q := QuantitiesOf(labels, grams);
    QuantitiesOfDistinct(labels, grams);
    TotalMatchesPerCrop(table, labels, q.grams, grams);
  }

  const Table: seq<Row> := [Row("æble", 52.0), Row("banan", 89.0)]

  const OneBox: seq<Box> := [Box(0.0, 0.0, 120.5, 80.5)]
  const SureApple: Region -> Prediction := (r: Region) => Prediction("æble", 0.95)
  const UnsureApple: Region -> Prediction := (r: Region) => Prediction("æble", 0.4)

  lemma OneBoxLabels()
    ensures Resolved(Regions(OneBox), SureApple, ["banan"]) == ["æble"]
    ensures Resolved(Regions(OneBox), UnsureApple, ["banan"]) == ["banan"]
  {
  }

  lemma OneAppleQuantities()
    ensures QuantitiesOf(["æble"], [150]) == Dict(["æble"], map["æble" := 150])
  {
  }

  lemma OneAppleTotal()
    ensures Total(Table, ["æble"], map["æble" := 150]) == Ok(78.0)
  {
  }

  lemma OneBananaQuantities()
    ensures QuantitiesOf(["banan"], [200]) == Dict(["banan"], map["banan" := 200])
  {
  }

  lemma OneBananaTotal()
    ensures Total(Table, ["banan"], map["banan" := 200]) == Ok(178.0)
  {
  }

  /** One apple at 95 % confidence, 150 g: 78 kcal; the selectbox value is ignored. */
  lemma ScenarioConfidentApple()
    ensures var a := Analyse(Table, OneBox, SureApple, ["banan"], [150]);
      a.finalLabels == ["æble"] && a.total == Ok(78.0)
  {
    OneBoxLabels();
    OneAppleQuantities();
    OneAppleTotal();
  }

  /** An apple guess at 40 % is replaced by the user's banana, 200 g: 178 kcal. */
  lemma ScenarioManualBanana()
    ensures var a := Analyse(Table, OneBox, UnsureApple, ["banan"], [200]);
      a.finalLabels == ["banan"] && a.total == Ok(178.0)
  {
    OneBoxLabels();
    OneBananaQuantities();
    OneBananaTotal();
  }

  const TwoBoxes: seq<Box> := [Box(0.0, 0.0, 50.0, 50.0), Box(60.0, 0.0, 110.0, 50.0)]
  const TwoApples: Region -> Prediction := (r: Region) => Prediction("æble", if r.x1 == 0 then 0.9 else 0.92)

  lemma TwoApplesLabels()
    ensures Resolved(Regions(TwoBoxes), TwoApples, ["banan", "banan"]) == ["æble", "æble"]
  {
  }

  lemma TwoApplesQuantities()
    ensures QuantitiesOf(["æble", "æble"], [100, 150]) == Dict(["æble"], map["æble" := 150])
  {
  }

  lemma TwoApplesPerCrop()
    ensures PerCropTotal(Table, ["æble", "æble"], [100, 150]) == Ok(130.0)
  {
  }

  lemma TwoApplesLine()
    ensures var line := FeedbackLine(["æble", "æble"], "78.0", "");
      Split(line[..|line| - 1]) == ["æble", "æble", "Total", "78.0", ""]
  {
    assert NoComma("æble") && NoComma("78.0");
  }

  /** Two apples of 100 g and 150 g: the dict keeps one key with the last grams,
      so the total is 78 kcal where pricing each crop would give 130 kcal; the
      log line still lists both labels. */
  lemma ScenarioTwoApples()
    ensures var a := Analyse(Table, TwoBoxes, TwoApples, ["banan", "banan"], [100, 150]);
      && a.finalLabels == ["æble", "æble"]
      && a.quantities == Dict(["æble"], map["æble" := 150])
      && a.total == Ok(78.0)
      && PerCropTotal(Table, a.finalLabels, [100, 150]) == Ok(130.0)
      && var line := FeedbackLine(a.finalLabels, "78.0", "");
         Split(line[..|line| - 1]) == ["æble", "æble", "Total", "78.0", ""]
  {
    TwoApplesLabels();
    TwoApplesQuantities();
    OneAppleTotal();
    TwoApplesPerCrop();
    TwoApplesLine();
  }
}
