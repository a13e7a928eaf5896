/** The detector-based analysis: tally the detected boxes, estimate a weight from a learned per-item
    weight or fixed per-material constants, and choose between that estimate and the k-NN
    prediction. The detector's output, the database sums and the k-NN result are inputs. */
module Analysis {
  import opened Common

  /** One detected box: its class id and its confidence. */
  datatype Box = Box(classId: int, conf: real)

  /** The boxes of all results, in order. */
  function Flatten(results: seq<seq<Box>>): (boxes: seq<Box>)
  {
    if results == [] then [] else Flatten(results[..|results| - 1]) + results[|results| - 1]
  }

  /** The class name of every box. */
  function NamesOf(names: int -> string, boxes: seq<Box>): (r: seq<string>)
    ensures |r| == |boxes|
    ensures forall k :: 0 <= k < |boxes| ==> r[k] == names(boxes[k].classId)
  {
    seq(|boxes|, k requires 0 <= k < |boxes| => names(boxes[k].classId))
  }

  /** The sum of the confidences. */
  function ConfSum(boxes: seq<Box>): real
  {
    if boxes == [] then 0.0 else ConfSum(boxes[..|boxes| - 1]) + boxes[|boxes| - 1].conf
  }

  /** Confidences within [0, 1] sum to at most the number of boxes. */
  lemma {:induction false} ConfSumBounds(boxes: seq<Box>)
    requires forall k :: 0 <= k < |boxes| ==> 0.0 <= boxes[k].conf <= 1.0
    ensures 0.0 <= ConfSum(boxes) <= |boxes| as real
  {
    if boxes != [] {
      ConfSumBounds(boxes[..|boxes| - 1]);
    }
  }

  /** The sums over earlier scans of this material with a recorded actual weight (SQL `SUM` gives
      no value over no rows). */
  datatype DbSums = DbSums(actualSum: Option<real>, objectSum: Option<int>)

  /** The learned weight of one item: only when the actual-weight sum is non-zero and the
      object-count sum is positive. */
  function PerItemWeight(db: Option<DbSums>): (w: Option<real>)
    ensures w.Some? <==> db.Some? && db.value.actualSum.Some? && db.value.actualSum.value != 0.0
                         && db.value.objectSum.Some? && db.value.objectSum.value > 0
    ensures w.Some? ==> w.value * db.value.objectSum.value as real == db.value.actualSum.value
    ensures w.Some? ==> w.value != 0.0
  {
    if db.Some? && db.value.actualSum.Some? && db.value.actualSum.value != 0.0
       && db.value.objectSum.Some? && db.value.objectSum.value != 0 && db.value.objectSum.value > 0
    then Some(db.value.actualSum.value / db.value.objectSum.value as real)
    else None
  }

  /** The fixed weight of one object when nothing has been learned. */
  function HeuristicPerObject(material: string): (w: real)
    ensures w > 0.0
    ensures material == "PET" ==> w == 0.05
    ensures material == "Cup" ==> w == 0.02
    ensures material == "Aluminum" ==> w == 0.015
    ensures material != "PET" && material != "Cup" && material != "Aluminum" ==> w == 0.1
  {
    if material == "PET" then 0.05
    else if material == "Cup" then 0.02
    else if material == "Aluminum" then 0.015
    else 0.1
  }

  /** The estimate from the detections: count times the learned or the fixed per-object weight, and
      0 when nothing is detected. */
  function WeightEstimate(count: nat, material: string, db: Option<DbSums>): (w: real)
    ensures count == 0 ==> w == 0.0
    ensures count > 0 && PerItemWeight(db).Some? ==> w == count as real * PerItemWeight(db).value
    ensures count > 0 && PerItemWeight(db).None? ==> w == count as real * HeuristicPerObject(material) && w > 0.0
  {
    if count > 0 then
      var learned := PerItemWeight(db);
      if learned.Some? && learned.value != 0.0 then count as real * learned.value
      else count as real * HeuristicPerObject(material)
    else 0.0
  }

  /** The learned estimate spreads the recorded actual weight evenly over the recorded items. */
  lemma LearnedEstimateScales(count: nat, material: string, db: Option<DbSums>)
    requires count > 0 && PerItemWeight(db).Some?
    ensures WeightEstimate(count, material, db) * db.value.objectSum.value as real ==
      count as real * db.value.actualSum.value
  {
    var w := PerItemWeight(db).value;
    assert WeightEstimate(count, material, db) == count as real * w;
    assert count as real * w * db.value.objectSum.value as real == count as real * (w * db.value.objectSum.value as real);
  }

  /** The final weight and how it was obtained: the k-NN value when there is an embedding and k-NN
      gave one; with an embedding but no k-NN value, a positive estimate or else 0; without an
      embedding, the estimate. */
  function FinalChoice(hasEmbedding: bool, knn: (Option<real>, string), estimate: real): (r: (real, string))
    ensures hasEmbedding && knn.0.Some? ==> r == (knn.0.value, knn.1)
    ensures hasEmbedding && knn.0.None? && estimate > 0.0 ==> r == (estimate, "Heuristic (Fallback)")
    ensures hasEmbedding && knn.0.None? && estimate <= 0.0 ==> r == (0.0, "Heuristic")
    ensures !hasEmbedding ==> r == (estimate, "Heuristic")
  {
    if hasEmbedding then
      if knn.0.Some? then (knn.0.value, knn.1)
      else if estimate > 0.0 then (estimate, "Heuristic (Fallback)")
      else (0.0, "Heuristic")
    else (estimate, "Heuristic")
  }

  /** The final weight is never negative unless the k-NN value or a learned estimate is. */
  lemma FinalWeightNonNegative(hasEmbedding: bool, knn: (Option<real>, string), count: nat,
                               material: string, db: Option<DbSums>)
    requires PerItemWeight(db).None? || PerItemWeight(db).value > 0.0
    requires knn.0.None? || knn.0.value >= 0.0
    ensures FinalChoice(hasEmbedding, knn, WeightEstimate(count, material, db)).0 >= 0.0
  {
  }

  /** The analysis result; the detector failing to load gives a reduced record. */
  datatype Analysis =
    | ModelError(weight: real, confidence: real, category: string, material: string, detectedObjects: seq<string>)
    | Analysed(weight: real, confidence: real, category: string, material: string,
               detectedObjects: seq<string>, objectCount: nat, embedding: Option<seq<real>>,
               predictionMethod: string)

  /** A list is truthy when it exists and is not empty. */
  predicate HasEmbedding(embedding: Option<seq<real>>)
  {
    embedding.Some? && embedding.value != []
  }

  /** The names of two runs of boxes are the names of the first run, then those of the second. */
  lemma NamesOfAppend(names: int -> string, a: seq<Box>, b: seq<Box>)
    ensures NamesOf(names, a + b) == NamesOf(names, a) + NamesOf(names, b)
  {
    var l, r := NamesOf(names, a + b), NamesOf(names, a) + NamesOf(names, b);
    forall k | 0 <= k < |l| ensures l[k] == r[k] {
      if k < |a| {
        assert (a + b)[k] == a[k];
      } else {
        assert (a + b)[k] == b[k - |a|];
      }
    }
  }

  /** The confidences of two runs of boxes sum to the sum of their sums. */
  lemma {:induction false} ConfSumAppend(a: seq<Box>, b: seq<Box>)
    ensures ConfSum(a + b) == ConfSum(a) + ConfSum(b)
  {
    if b != [] {
      var c := b[..|b| - 1];
      assert (a + b)[..|a + b| - 1] == a + c;
      ConfSumAppend(a, c);
    } else {
      assert a + b == a;
    }
  }

  /** The inner loop over the boxes of one result: append each box's class name, add its
      confidence and count it. */
  method TallyBoxes(boxes: seq<Box>, names: int -> string, detected: seq<string>, confidenceSum: real, count: nat)
    returns (detected': seq<string>, confidenceSum': real, count': nat)
    ensures detected' == detected + NamesOf(names, boxes)
    ensures confidenceSum' == confidenceSum + ConfSum(boxes)
    ensures count' == count + |boxes|
  {
    detected', confidenceSum', count' := detected, confidenceSum, count;
    var j := 0;
    while j < |boxes|
      invariant 0 <= j <= |boxes|
      invariant detected' == detected + NamesOf(names, boxes[..j])
      invariant confidenceSum' == confidenceSum + ConfSum(boxes[..j])
      invariant count' == count + j
    {
      var box := boxes[j];
      assert boxes[..j + 1][..j] == boxes[..j];
      NamesOfAppend(names, boxes[..j], [box]);
      assert boxes[..j + 1] == boxes[..j] + [box];
      detected' := detected' + [names(box.classId)];
      confidenceSum' := confidenceSum' + box.conf;
      count' := count' + 1;
      j := j + 1;
    }
    assert boxes[..j] == boxes;
  }

  /** The nested loop over results and boxes: the class names in order, the confidence sum and the
      number of boxes. */
  method TallyDetections(results: seq<seq<Box>>, names: int -> string)
    returns (detected: seq<string>, confidenceSum: real, count: nat)
    ensures detected == NamesOf(names, Flatten(results))
    ensures confidenceSum == ConfSum(Flatten(results))
    ensures count == |Flatten(results)|
  {
    detected, confidenceSum, count := [], 0.0, 0;
    var i := 0;
    while i < |results|
      invariant 0 <= i <= |results|
      invariant detected == NamesOf(names, Flatten(results[..i]))
      invariant confidenceSum == ConfSum(Flatten(results[..i]))
      invariant count == |Flatten(results[..i])|
    {
      assert results[..i + 1][..i] == results[..i];
      NamesOfAppend(names, Flatten(results[..i]), results[i]);
      ConfSumAppend(Flatten(results[..i]), results[i]);
      detected, confidenceSum, count := TallyBoxes(results[i], names, detected, confidenceSum, count);
      i := i + 1;
    }
    assert results[..i] == results;
  }

  /** The average confidence and the estimate from the detection count: both 0 without detections;
      otherwise the mean confidence and count times the learned or the fixed per-object weight.
      This is the source's branch written as statements; `WeightEstimate` is the same estimate as one
      expression, which the lemmas about the analysis use. */
  method EstimateFromDetections(count: nat, confidenceSum: real, material: string, db: Option<DbSums>)
    returns (avgConfidence: real, weightEstimate: real)
    ensures avgConfidence == (if count == 0 then 0.0 else confidenceSum / count as real)
    ensures weightEstimate == WeightEstimate(count, material, db)
  {
    if count > 0 {
      avgConfidence := confidenceSum / count as real;
      var perItem := PerItemWeight(db);
      if perItem.Some? && perItem.value != 0.0 {
        weightEstimate := count as real * perItem.value;
      } else {
        weightEstimate := count as real * HeuristicPerObject(material);
      }
    } else {
      avgConfidence := 0.0;
      weightEstimate := 0.0;
    }
  }

  /** The choice between the k-NN prediction and the estimate, written as the source's nested
      branches; `FinalChoice` is its specification, which the lemmas about the analysis use. */
  method ChoosePrediction(hasEmbedding: bool, knn: (Option<real>, string), weightEstimate: real)
    returns (predictedWeight: real, predictionMethod: string)
    ensures (predictedWeight, predictionMethod) == FinalChoice(hasEmbedding, knn, weightEstimate)
  {
    predictedWeight := 0.0;
    predictionMethod := "Heuristic";
    if hasEmbedding {
      if knn.0.Some? {
        predictedWeight := knn.0.value;
        predictionMethod := knn.1;
      } else if weightEstimate > 0.0 {
        predictedWeight := weightEstimate;
        predictionMethod := "Heuristic (Fallback)";
      }
    } else {
      predictedWeight := weightEstimate;
    }
  }

  /** `analyze_image`: `detector` is None when the detector failed to load, else its results;
      `uniform` is the draw of `random.uniform(0.1, 2.5)` used then; `knn` is the k-NN result
      for this material. Weights and confidences are exact (the source rounds them). */
  method AnalyzeImage(detector: Option<seq<seq<Box>>>, names: int -> string, uniform: real,
                      userMaterial: Option<string>, db: Option<DbSums>,
                      embedding: Option<seq<real>>, knn: (Option<real>, string))
    returns (r: Analysis)
    requires 0.1 <= uniform <= 2.5
    ensures detector.None? ==> r == ModelError(uniform, 0.85, "Unknown", "Unknown", ["Model Error"])
    ensures detector.Some? ==> r.Analysed?
    ensures detector.Some? ==>
      var boxes := Flatten(detector.value);
      var material := if userMaterial.Some? && userMaterial.value != "" then userMaterial.value else "Mixed";
      && r.objectCount == |boxes|
      && r.material == material
      && r.category == (if userMaterial.Some? && userMaterial.value != "" then userMaterial.value else "Mixed Waste")
      && r.detectedObjects == (if boxes == [] then ["No objects detected"] else NamesOf(names, boxes))
      && r.confidence == (if boxes == [] then 0.0 else ConfSum(boxes) / |boxes| as real * 100.0)
      && (r.weight, r.predictionMethod) ==
           FinalChoice(HasEmbedding(embedding), knn, WeightEstimate(|boxes|, material, db))
      && r.embedding == embedding
  {
    if detector.None? {
      return ModelError(uniform, 0.85, "Unknown", "Unknown", ["Model Error"]);
    }
    var detected, confidenceSum, count := TallyDetections(detector.value, names);

    var category := "Mixed Waste";
    var material := "Mixed";
    if userMaterial.Some? && userMaterial.value != "" {
      material := userMaterial.value;
      category := userMaterial.value;
    }
    var avgConfidence, weightEstimate := EstimateFromDetections(count, confidenceSum, material, db);
    var predictedWeight, predictionMethod := ChoosePrediction(HasEmbedding(embedding), knn, weightEstimate);
    r := Analysed(predictedWeight, avgConfidence * 100.0, category, material,
                  if detected != [] then detected else ["No objects detected"], count, embedding,
                  predictionMethod);
  }

  /** With every detector confidence in [0, 1] the reported confidence is a percentage. */
  lemma ConfidenceIsPercentage(boxes: seq<Box>)
    requires forall k :: 0 <= k < |boxes| ==> 0.0 <= boxes[k].conf <= 1.0
    ensures 0.0 <= (if boxes == [] then 0.0 else ConfSum(boxes) / |boxes| as real * 100.0) <= 100.0
  {
    ConfSumBounds(boxes);
    if boxes != [] {
      var n := |boxes| as real;
      assert ConfSum(boxes) / n <= 1.0;
    }
  }
}
