/** The bookkeeping around the neural-network weight predictor: the material-to-id table the network
    is fed with, the training history appended on every successful correction, the statistics drawn
    from that history, and the material defaulting of the analysis entry point. The network itself
    is a parameter. */
module WeightModel {
  import opened Common

  /** The six categories and the ids the network embeds them with. */
  const MaterialIds: map<string, nat> := map[
    "Mixed Waste" := 0, "Plastic" := 1, "Paper" := 2, "Glass" := 3, "Metal" := 4, "Organic" := 5]

  /** `material_to_id.get(material, 0)`: the category's id, 0 (the id of Mixed Waste) for any other
      name, including differently cased spellings. */
  function MaterialId(material: string): (id: nat)
    ensures id < 6
    ensures material !in MaterialIds ==> id == MaterialIds["Mixed Waste"]
    ensures material in MaterialIds ==> id == MaterialIds[material]
  {
    if material in MaterialIds then MaterialIds[material] else 0
  }

  /** The six categories get six different ids, 0 to 5. */
  lemma MaterialIdsDistinct()
    ensures MaterialIds.Values == {0, 1, 2, 3, 4, 5}
    ensures forall a, b :: a in MaterialIds && b in MaterialIds && MaterialId(a) == MaterialId(b) ==> a == b
  {
    assert MaterialIds["Mixed Waste"] == 0 && MaterialIds["Plastic"] == 1 && MaterialIds["Paper"] == 2;
    assert MaterialIds["Glass"] == 3 && MaterialIds["Metal"] == 4 && MaterialIds["Organic"] == 5;
  }

  /** `predict`: the network's output for the image and the material id, or 0.1 kg when the image
      cannot be read (or the network fails). */
  function PredictWeight(imageLoads: bool, material: string, network: nat -> real): (w: real)
    ensures !imageLoads ==> w == 0.1
    ensures imageLoads ==> w == network(MaterialId(material))
  {
    if imageLoads then network(MaterialId(material)) else 0.1
  }

  /** A name outside the six categories is predicted exactly as Mixed Waste is. */
  lemma UnknownMaterialPredictsAsMixed(imageLoads: bool, material: string, network: nat -> real)
    requires material !in MaterialIds
    ensures PredictWeight(imageLoads, material, network) == PredictWeight(imageLoads, "Mixed Waste", network)
  {
  }

  /** One logged correction. */
  datatype HistoryEntry = HistoryEntry(timestamp: string, material: string, actualWeight: real,
                                       finalLoss: real, steps: int, lr: real)

  /** How many logged corrections name the material. */
  function Count(history: seq<HistoryEntry>, material: string): (n: nat)
    ensures n <= |history|
    ensures n > 0 <==> exists k :: 0 <= k < |history| && history[k].material == material
  {
    if history == [] then 0
    else
      var p := history[..|history| - 1];
      assert forall k :: 0 <= k < |p| ==> p[k] == history[k];
      Count(p, material) + (if history[|history| - 1].material == material then 1 else 0)
  }

  /** The per-material counts as the statistics loop builds them, entry by entry: a key exactly for
      each material that occurs, holding the number of its entries. */
  function Tally(history: seq<HistoryEntry>): (t: map<string, nat>)
    ensures forall m :: m in t <==> Count(history, m) > 0
    ensures forall m :: m in t ==> t[m] == Count(history, m)
  {
    if history == [] then map[]
    else
      Bump(Tally(history[..|history| - 1]), history[|history| - 1].material)
  }

  /** One more entry of material m: its count goes up by one, starting from 0. */
  function Bump(t: map<string, nat>, m: string): (r: map<string, nat>)
    ensures r.Keys == t.Keys + {m}
    ensures r[m] == (if m in t then t[m] else 0) + 1
    ensures forall k :: k in t && k != m ==> r[k] == t[k]
  {
    t[m := (if m in t then t[m] else 0) + 1]
  }

  /** The loop body's two steps, creating the key at 0 and then adding one, are one bump. */
  lemma BumpInTwoSteps(t: map<string, nat>, m: string)
    ensures var u := if m in t then t else t[m := 0]; u[m := u[m] + 1] == Bump(t, m)
  {
  }

  /** One more entry bumps its material's count. */
  lemma TallyStep(history: seq<HistoryEntry>, i: nat)
    requires i < |history|
    ensures Tally(history[..i + 1]) == Bump(Tally(history[..i]), history[i].material)
  {
    assert history[..i + 1][..i] == history[..i];
  }

  /** Some key of a non-empty map. */
  ghost function Pick(m: map<string, nat>): (k: string)
    requires m != map[]
    ensures k in m
  {
    assert exists k :: k in m by {
      var k :| k in m.Keys;
    }
    var k :| k in m; k
  }

  /** The sum of the values of a map. */
  ghost function MapSum(m: map<string, nat>): nat
    decreases |m.Keys|
  {
    if m == map[] then 0
    else
      var k := Pick(m);
      assert |(m - {k}).Keys| < |m.Keys| by {
        assert (m - {k}).Keys == m.Keys - {k};
      }
      m[k] + MapSum(m - {k})
  }

  /** The sum can be taken out at any key. */
  lemma {:induction false} MapSumRemove(m: map<string, nat>, k: string)
    requires k in m
    ensures MapSum(m) == m[k] + MapSum(m - {k})
    decreases |m.Keys|
  {
    var j := Pick(m);
    if j != k {
      assert (m - {j}).Keys == m.Keys - {j};
      assert (m - {k}).Keys == m.Keys - {k};
      MapSumRemove(m - {j}, k);
      MapSumRemove(m - {k}, j);
      assert m - {j} - {k} == m - {k} - {j};
    }
  }

  /** Counting one more entry adds one to the sum. */
  lemma MapSumBump(t: map<string, nat>, m: string)
    ensures MapSum(Bump(t, m)) == MapSum(t) + 1
  {
    var u := Bump(t, m);
    MapSumRemove(u, m);
    assert u - {m} == t - {m};
    if m in t {
      MapSumRemove(t, m);
    } else {
      assert t - {m} == t;
    }
  }

  /** The per-material counts add up to the number of logged corrections. */
  lemma {:induction false} TallySumsToTotal(history: seq<HistoryEntry>)
    ensures MapSum(Tally(history)) == |history|
  {
    if history != [] {
      var p := history[..|history| - 1];
      TallySumsToTotal(p);
      MapSumBump(Tally(p), history[|history| - 1].material);
    }
  }

  /** `get_stats`: the number of updates, the updates per material and the time of the last one. */
  datatype TrainingStats = TrainingStats(totalUpdates: nat, materials: map<string, nat>, lastUpdate: Option<string>)

  class WeightPredictor {
    var history: seq<HistoryEntry>

    /** A history read from disk, or none. */
    constructor (loaded: seq<HistoryEntry>)
      ensures history == loaded
    {
      history := loaded;
    }

    /** `update_with_correction`: run `steps` training steps (the network's loss at each step is
        `lossAt`), then log one entry with the last loss and return it. With no steps there is no
        last loss, the error is caught and nothing is logged; an unreadable image does the same. */
    method UpdateWithCorrection(imageLoads: bool, material: string, actualWeight: real, lr: real,
                                steps: int, lossAt: nat -> real, now: string)
      returns (finalLoss: Option<real>)
      modifies this
      ensures !imageLoads || steps <= 0 ==> finalLoss == None && history == old(history)
      ensures imageLoads && steps > 0 ==>
        && finalLoss == Some(lossAt(steps - 1))
        && history == old(history) + [HistoryEntry(now, material, actualWeight, lossAt(steps - 1), steps, lr)]
    {
      if !imageLoads {
        return None;
      }
      var losses: seq<real> := [];
      var step := 0;
      while step < steps
        invariant 0 <= step && (step == 0 || step <= steps)
        invariant |losses| == step
        invariant forall k :: 0 <= k < step ==> losses[k] == lossAt(k)
      {
        losses := losses + [lossAt(step)];
        step := step + 1;
      }
      if losses == [] {
        return None;
      }
      assert step == steps;
      var last := losses[|losses| - 1];
      assert last == lossAt(steps - 1);
      history := history + [HistoryEntry(now, material, actualWeight, last, steps, lr)];
      finalLoss := Some(last);
    }

    /** `get_stats`: zero and no materials for an empty history; otherwise the tally of the loop
        over the history and the timestamp of its last entry. */
    method GetStats() returns (st: TrainingStats)
      ensures st.totalUpdates == |history|
      ensures st.materials == Tally(history)
      ensures history == [] ==> st.materials == map[] && st.lastUpdate == None
      ensures history != [] ==> st.lastUpdate == Some(history[|history| - 1].timestamp)
    {
      if |history| == 0 {
        return TrainingStats(0, map[], None);
      }
      var materials: map<string, nat> := map[];
      var i := 0;
      while i < |history|
        invariant 0 <= i <= |history|
        invariant materials == Tally(history[..i])
      {
        TallyStep(history, i);
        BumpInTwoSteps(materials, history[i].material);
        var mat := history[i].material;
        if mat !in materials {
          materials := materials[mat := 0];
        }
        materials := materials[mat := materials[mat] + 1];
        i := i + 1;
      }
      assert history[..i] == history;
      st := TrainingStats(|history|, materials, Some(history[|history| - 1].timestamp));
    }
  }

  /** Every material in the statistics is counted as often as it occurs, and the counts add up to the
      number of updates. */
  lemma StatsCountEveryMaterial(history: seq<HistoryEntry>)
    ensures forall m :: m in Tally(history) <==> Count(history, m) > 0
    ensures forall m :: m in Tally(history) ==> Tally(history)[m] == Count(history, m)
    ensures MapSum(Tally(history)) == |history|
  {
    TallySumsToTotal(history);
  }

  /** The result of the network-backed `analyze_image`. */
  datatype NetworkAnalysis = NetworkAnalysis(weight: real, confidence: real, category: string,
                                             material: string, detectedObjects: seq<string>,
                                             objectCount: nat, embedding: Option<seq<real>>,
                                             predictionMethod: string)

  /** `analyze_image`: the material defaults to Mixed Waste when none (or an empty one) is given and
      is reported as both category and material; the weight is the predictor's. */
  function AnalyzeWithNetwork(userMaterial: Option<string>, imageLoads: bool, network: nat -> real,
                              embedding: Option<seq<real>>): (r: NetworkAnalysis)
    ensures r.category == r.material
    ensures userMaterial.Some? && userMaterial.value != "" ==> r.material == userMaterial.value
    ensures userMaterial.None? || userMaterial.value == "" ==> r.material == "Mixed Waste"
    ensures r.weight == PredictWeight(imageLoads, r.material, network)
    ensures r.confidence == 85.0 && r.objectCount == 1 && r.detectedObjects == []
  {
    var material := if userMaterial.Some? && userMaterial.value != "" then userMaterial.value else "Mixed Waste";
    NetworkAnalysis(PredictWeight(imageLoads, material, network), 85.0, material, material, [], 1,
                    embedding, "Neural Network")
  }
}
