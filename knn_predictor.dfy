/** The few-shot weight predictor: gather the earlier scans of the material that carry both an
    embedding and a recorded weight, keep those whose embedding has the query's length, and hand
    them to a distance-weighted k-NN regressor with k chosen from their number. The regressor and
    the JSON decoding of stored embeddings are parameters. */
module Predictor {
  import opened Common

  /** A stored scan as far as the predictor reads it. */
  datatype StoredScan = StoredScan(material: string, actualWeight: Option<real>, embedding: Option<string>)

  /** A usable training sample: an embedding and its recorded weight. */
  datatype Sample = Sample(embedding: seq<real>, weight: real)

  /** The query: scans of the material with a recorded weight and a stored embedding, in order. */
  function Query(scans: seq<StoredScan>, material: string): (r: seq<StoredScan>)
    ensures |r| <= |scans|
    ensures forall sc :: sc in r <==>
      sc in scans && sc.material == material && sc.actualWeight.Some? && sc.embedding.Some?
  {
    if scans == [] then []
    else
      var sc := scans[|scans| - 1];
      Query(scans[..|scans| - 1], material)
        + (if sc.material == material && sc.actualWeight.Some? && sc.embedding.Some? then [sc] else [])
  }

  /** The sample a query row yields: its embedding decodes and has the query's length. */
  predicate Usable(row: StoredScan, dim: nat, decode: string -> Option<seq<real>>)
  {
    row.embedding.Some? && row.actualWeight.Some?
    && decode(row.embedding.value).Some? && |decode(row.embedding.value).value| == dim
  }

  /** The samples of the parse loop, in order; rows that fail to decode or differ in length are skipped. */
  function Samples(rows: seq<StoredScan>, dim: nat, decode: string -> Option<seq<real>>): (r: seq<Sample>)
    ensures |r| <= |rows|
    ensures forall k :: 0 <= k < |r| ==> |r[k].embedding| == dim
    ensures forall row :: row in rows && Usable(row, dim, decode) ==>
      Sample(decode(row.embedding.value).value, row.actualWeight.value) in r
    ensures forall x :: x in r ==>
      (exists row :: row in rows && Usable(row, dim, decode)
                     && x == Sample(decode(row.embedding.value).value, row.actualWeight.value))
  {
    if rows == [] then []
    else
      var row := rows[|rows| - 1];
      var p := rows[..|rows| - 1];
      assert forall x :: x in rows <==> x in p || x == row;
      Samples(p, dim, decode)
        + (if Usable(row, dim, decode) then [Sample(decode(row.embedding.value).value, row.actualWeight.value)] else [])
  }

  /** The number of neighbours: up to 3 for fewer than five samples, 5 from five samples on. */
  function ChooseK(n: nat): (k: nat)
    requires n >= 1
    ensures 1 <= k <= n && k <= 5
    ensures n < 5 ==> k <= 3 && (k == n || k == 3)
    ensures n >= 5 ==> k == 5
  {
    if n < 5 then (if n < 3 then n else 3) else (if n < 5 then n else 5)
  }

  /** The method label, "k-NN (k=<k>)". */
  function KnnLabel(k: nat): (s: string)
    ensures |s| >= 10 && s[..8] == "k-NN (k=" && s[|s| - 1] == ')'
  {
    "k-NN (k=" + NatToString(k) + ")"
  }

  /** The number in the label reads back as k. */
  lemma KnnLabelReadsBack(k: nat)
    ensures AllDigits(KnnLabel(k)[8..|KnnLabel(k)| - 1])
    ensures DigitsValue(KnnLabel(k)[8..|KnnLabel(k)| - 1]) == k
  {
    assert KnnLabel(k)[8..|KnnLabel(k)| - 1] == NatToString(k);
    NatToStringRoundTrip(k);
  }

  /** A falsy list: missing or empty. */
  predicate Missing(embedding: Option<seq<real>>)
  {
    embedding.None? || embedding.value == []
  }

  /** The parse loop over the query rows: keep the rows whose embedding decodes to the query's
      length, in order. */
  method ParseSamples(rows: seq<StoredScan>, dim: nat, decode: string -> Option<seq<real>>)
    returns (samples: seq<Sample>)
    ensures samples == Samples(rows, dim, decode)
  {
    samples := [];
    var i := 0;
    while i < |rows|
      invariant 0 <= i <= |rows|
      invariant samples == Samples(rows[..i], dim, decode)
    {
      var row := rows[i];
      assert rows[..i + 1][..i] == rows[..i];
      var parsed := if row.embedding.Some? then decode(row.embedding.value) else None;
      if parsed.Some? && |parsed.value| == dim && row.actualWeight.Some? {
        samples := samples + [Sample(parsed.value, row.actualWeight.value)];
      }
      i := i + 1;
    }
    assert rows[..i] == rows;
  }

  /** `predict_weight`: missing input, no usable sample, or the regressor's value over the usable
      samples with the chosen k. `regress(samples, k, query)` stands for fitting the regressor
      on the samples and predicting at the query. */
  method PredictWeight(current: Option<seq<real>>, material: Option<string>, scans: seq<StoredScan>,
                       decode: string -> Option<seq<real>>, regress: (seq<Sample>, nat, seq<real>) -> real)
    returns (weight: Option<real>, methodLabel: string)
    ensures Missing(current) || material.None? || material.value == "" ==> weight == None && methodLabel == "Missing Data"
    ensures !(Missing(current) || material.None? || material.value == "") ==>
      var samples := Samples(Query(scans, material.value), |current.value|, decode);
      && (samples == [] ==> weight == None && methodLabel == "Cold Start")
      && (samples != [] ==> weight == Some(regress(samples, ChooseK(|samples|), current.value))
                            && methodLabel == KnnLabel(ChooseK(|samples|)))
  {
    if Missing(current) || material.None? || material.value == "" {
      return None, "Missing Data";
    }
    var query := current.value;
    var rows := Query(scans, material.value);
    var samples := ParseSamples(rows, |query|, decode);
    var n := |samples|;
    if n < 1 {
      return None, "Cold Start";
    }
    var k;
    if n < 5 {
      k := if n < 3 then n else 3;
    } else {
      k := if n < 5 then n else 5;
    }
    weight := Some(regress(samples, k, query));
    methodLabel := KnnLabel(k);
  }
}
