/** The browser-side sample store: a newest-first list of confirmed samples kept in local storage,
    comma-tolerant weight parsing, the accuracy stamped on each sample when it is saved, deletion by
    id, and the dashboard statistics computed over the whole list. */
module Storage {
  import opened Common
  import opened JsValues

  // ---------------------------------------------------------------------------
  // Records
  // ---------------------------------------------------------------------------

  /** What a caller hands to `saveScan`. The fields a caller may leave out are optional; an `id`
      or `timestamp` it does supply replaces the generated one. */
  datatype ScanData = ScanData(
    id: Option<int>,
    timestamp: Option<int>,
    category: string,
    aiWeight: JsValue,
    weight: JsValue)

  /** A stored sample. `weight` is the confirmed actual weight and `aiWeight` the estimate shown to
      the user, both as they were handed over (a number or text). `accuracy` is None for records
      written before accuracies were stamped. Timestamps are instants in milliseconds. */
  datatype Scan = Scan(
    id: int,
    timestamp: int,
    category: string,
    aiWeight: JsValue,
    weight: JsValue,
    accuracy: Option<real>)

  // ---------------------------------------------------------------------------
  // Comma-tolerant weight parsing
  // ---------------------------------------------------------------------------

  /** Position of the first c in s, or |s| when there is none. */
  function IndexOf(s: string, c: char): (i: nat)
    ensures i <= |s|
    ensures forall k :: 0 <= k < i ==> s[k] != c
    ensures i < |s| ==> s[i] == c
  {
    if s == [] then 0 else if s[0] == c then 0 else 1 + IndexOf(s[1..], c)
  }

  /** `String.prototype.replace` with a one-character pattern: only the first occurrence changes. */
  function ReplaceFirst(s: string, from: char, to: char): (r: string)
    ensures |r| == |s|
    ensures forall k :: 0 <= k < |s| ==> r[k] == (if k == IndexOf(s, from) then to else s[k])
  {
    if s == [] then []
    else if s[0] == from then [to] + s[1..]
    else [s[0]] + ReplaceFirst(s[1..], from, to)
  }

  /** Replacing the first `from` in text that has none before a given position. */
  lemma {:induction false} ReplaceFirstAt(pre: string, from: char, to: char, post: string)
    requires from !in pre
    ensures ReplaceFirst(pre + [from] + post, from, to) == pre + [to] + post
  {
    if pre != [] {
      assert (pre + [from] + post)[1..] == pre[1..] + [from] + post;
      ReplaceFirstAt(pre[1..], from, to, post);
    }
  }

  /** Text without the searched character is left as it is. */
  lemma {:induction false} NoCommaUnchanged(s: string)
    requires ',' !in s
    ensures ReplaceFirst(s, ',', '.') == s
  {
    if s != [] {
      NoCommaUnchanged(s[1..]);
    }
  }

  /** `safelyParseFloat`: a falsy value reads as 0; otherwise the value's text, with its first
      decimal comma turned into a point, is read by `parseFloat`, and a NaN (or zero) result reads
      as 0. A number's own text reads back to that number; `true` reads as text "true". */
  function SafelyParseFloat(v: JsValue): (w: real)
    ensures !Truthy(v) ==> w == 0.0
    ensures v.Num? && v.n.Finite? ==> w == v.n.value
    ensures v.Bool? ==> w == 0.0
  {
    if !Truthy(v) then 0.0
    else match v
      case Num(n) => OrZero(n)
      case Str(s) => OrZero(ParseFloatString(ReplaceFirst(s, ',', '.')))
      case _ => 0.0
  }

  /** Text whose comma-replaced form parses to v reads as v, or as 0 when v is 0. */
  lemma SafelyParseText(s: string, t: string, v: real)
    requires s != [] && ReplaceFirst(s, ',', '.') == t && ParseFloatString(t) == Finite(v)
    ensures SafelyParseFloat(Str(s)) == v
  {
  }

  /** In text that starts with digits, the first comma is the one after them. */
  lemma FirstCommaReplaced(whole: string, tail: string)
    requires AllDigits(whole)
    ensures ReplaceFirst(whole + "," + tail, ',', '.') == whole + "." + tail
  {
    assert ',' !in whole by {
      assert forall k :: 0 <= k < |whole| ==> IsDigit(whole[k]);
    }
    ReplaceFirstAt(whole, ',', '.', tail);
  }

  /** A decimal comma is read as a decimal point: "w,f" reads as w.f. */
  lemma CommaDecimalParses(whole: string, fraction: string)
    requires |whole| > 0 && AllDigits(whole) && AllDigits(fraction)
    ensures SafelyParseFloat(Str(whole + "," + fraction)) == Decimal(DigitsValue(whole), DigitsValue(fraction), |fraction|)
  {
    FirstCommaReplaced(whole, fraction);
    DecimalParses(whole, fraction, []);
    assert whole + "." + fraction + [] == whole + "." + fraction;
    SafelyParseText(whole + "," + fraction, whole + "." + fraction, Decimal(DigitsValue(whole), DigitsValue(fraction), |fraction|));
  }

  /** Only the first comma is replaced: in "w,f,r" the second comma ends the number, so it reads as
      w.f whatever r is. */
  lemma SecondCommaEndsNumber(whole: string, fraction: string, rest: string)
    requires |whole| > 0 && AllDigits(whole) && AllDigits(fraction)
    ensures SafelyParseFloat(Str(whole + "," + fraction + "," + rest))
         == Decimal(DigitsValue(whole), DigitsValue(fraction), |fraction|)
  {
    var tail := fraction + ("," + rest);
    var v := Decimal(DigitsValue(whole), DigitsValue(fraction), |fraction|);
    var s := whole + "," + fraction + "," + rest;
    var t := whole + "." + fraction + ("," + rest);
    assert s == whole + "," + tail;
    FirstCommaReplaced(whole, tail);
    assert whole + "." + tail == t;
    DecimalParses(whole, fraction, "," + rest);
    SafelyParseText(s, t, v);
  }

  lemma CommaExampleValue()
    ensures Decimal(DigitsValue("0"), DigitsValue("020"), |"020"|) == 0.02
  {
    assert "0"[..0] == [];
    assert "020"[..2] == "02" && "02"[..1] == "0";
    assert DigitsValue("020") == 20;
    assert Shift(20.0, 3) == 0.02;
  }

  /** The weight "0,020" as typed with a decimal comma reads as 0.02. */
  lemma CommaExample(whole: string, fraction: string)
    requires whole == "0" && fraction == "020"
    ensures SafelyParseFloat(Str(whole + "," + fraction)) == 0.02
  {
    CommaExampleValue();
    CommaDecimalParses(whole, fraction);
  }

  /** Text that does not start like a number (white space, sign, point, comma or digit) reads as 0. */
  lemma UnparseableReadsZero(s: string)
    requires s != [] && !IsJsSpace(s[0]) && !IsDigit(s[0]) && s[0] !in "+-.,"
    ensures SafelyParseFloat(Str(s)) == 0.0
  {
    var r := ReplaceFirst(s, ',', '.');
    assert r[0] == s[0];
    NonNumericParsesToNaN(r);
  }

  // ---------------------------------------------------------------------------
  // Accuracy stamped at write time
  // ---------------------------------------------------------------------------

  /** `Number.prototype.toFixed(1)` read back by `parseFloat`, on exact non-negative reals: the
      nearest tenth, halves rounded up. */
  function RoundTenths(x: real): (r: real)
    requires x >= 0.0
    ensures r >= 0.0
    ensures x - 0.05 < r <= x + 0.05
  {
    (x * 10.0 + 0.5).Floor as real / 10.0
  }

  /** Rounding to tenths keeps a value within [0, 100] and leaves whole numbers unchanged. */
  lemma RoundTenthsOfWhole(n: nat)
    ensures RoundTenths(n as real) == n as real
  {
    assert (n as real * 10.0 + 0.5).Floor == 10 * n;
  }

  lemma RoundTenthsAtMost100(x: real)
    requires 0.0 <= x <= 100.0
    ensures RoundTenths(x) <= 100.0
  {
    assert (x * 10.0 + 0.5).Floor <= 1000;
  }

  /** The accuracy stamped on a sample with estimate `ai` and actual weight `actual`: for a positive
      actual weight, 100 minus the relative error in percent, floored at 0; 100 when both are 0;
      0 otherwise; rounded to one decimal. */
  function Accuracy(ai: real, actual: real): (r: real)
    ensures 0.0 <= r <= 100.0
    ensures actual > 0.0 && ai == actual ==> r == 100.0
    ensures actual == 0.0 && ai == 0.0 ==> r == 100.0
    ensures actual < 0.0 || (actual == 0.0 && ai != 0.0) ==> r == 0.0
    ensures actual > 0.0 && Abs(ai - actual) >= actual ==> r == 0.0
    ensures actual > 0.0 ==> Abs(r - Max(0.0, (1.0 - Abs(ai - actual) / actual) * 100.0)) <= 0.05
  {
    if actual > 0.0 then
      var errorMargin := Abs(ai - actual) / actual;
      var raw := Max(0.0, (1.0 - errorMargin) * 100.0);
      assert errorMargin >= 0.0;
      assert raw <= 100.0;
      RoundTenthsAtMost100(raw);
      if ai == actual then RoundTenthsOfWhole(100); RoundTenths(raw)
      else if Abs(ai - actual) >= actual then
        assert errorMargin >= 1.0 by {
          assert Abs(ai - actual) / actual >= actual / actual;
        }
        RoundTenthsOfWhole(0); RoundTenths(raw)
      else RoundTenths(raw)
    else if ai == 0.0 && actual == 0.0 then 100.0
    else 0.0
  }

  /** The accuracy of a record as `saveScan` stamps it, from its two weights: within [0, 100], and
      100 when the estimate equals a non-negative actual weight. */
  function StampedAccuracy(data: ScanData): (r: real)
    ensures 0.0 <= r <= 100.0
    ensures SafelyParseFloat(data.aiWeight) == SafelyParseFloat(data.weight) && SafelyParseFloat(data.weight) >= 0.0
      ==> r == 100.0
  {
    Accuracy(SafelyParseFloat(data.aiWeight), SafelyParseFloat(data.weight))
  }

  /** Every stored accuracy lies within [0, 100]. */
  predicate AccuraciesBounded(scans: seq<Scan>)
  {
    forall k :: 0 <= k < |scans| ==> scans[k].accuracy.None? || 0.0 <= scans[k].accuracy.value <= 100.0
  }

  // ---------------------------------------------------------------------------
  // Deletion
  // ---------------------------------------------------------------------------

  /** The scans whose id is not in `ids`, in their original order. */
  function WithoutIds(scans: seq<Scan>, ids: seq<int>): (r: seq<Scan>)
    ensures |r| <= |scans|
    ensures forall sc :: sc in r <==> sc in scans && sc.id !in ids
  {
    if scans == [] then []
    else (if scans[0].id in ids then [] else [scans[0]]) + WithoutIds(scans[1..], ids)
  }

  /** One step of the filter: the first scan is kept exactly when its id is not listed. */
  lemma WithoutIdsCons(x: Scan, s: seq<Scan>, ids: seq<int>)
    ensures WithoutIds([x] + s, ids) == (if x.id in ids then [] else [x]) + WithoutIds(s, ids)
  {
    assert ([x] + s)[0] == x && ([x] + s)[1..] == s;
  }

  /** Deleting from a concatenation deletes from each part: survivors keep their relative order. */
  lemma {:induction false} WithoutIdsAppend(a: seq<Scan>, b: seq<Scan>, ids: seq<int>)
    ensures WithoutIds(a + b, ids) == WithoutIds(a, ids) + WithoutIds(b, ids)
  {
    if a != [] {
      var x := a[0];
      assert a == [x] + a[1..];
      assert a + b == [x] + (a[1..] + b);
      WithoutIdsCons(x, a[1..] + b, ids);
      WithoutIdsCons(x, a[1..], ids);
      WithoutIdsAppend(a[1..], b, ids);
      var h: seq<Scan> := if x.id in ids then [] else [x];
      assert WithoutIds(a + b, ids) == h + (WithoutIds(a[1..], ids) + WithoutIds(b, ids));
      assert WithoutIds(a, ids) == h + WithoutIds(a[1..], ids);
      assert h + (WithoutIds(a[1..], ids) + WithoutIds(b, ids)) == (h + WithoutIds(a[1..], ids)) + WithoutIds(b, ids);
    } else {
      assert a + b == b;
    }
  }

  /** Nothing is removed when no scan carries one of the ids. */
  lemma {:induction false} WithoutAbsentIds(scans: seq<Scan>, ids: seq<int>)
    requires forall k :: 0 <= k < |scans| ==> scans[k].id !in ids
    ensures WithoutIds(scans, ids) == scans
  {
    if scans != [] {
      WithoutAbsentIds(scans[1..], ids);
    }
  }

  /** A bulk delete is the same as deleting the two halves of its id list one after the other. */
  lemma {:induction false} WithoutIdsSequential(scans: seq<Scan>, a: seq<int>, b: seq<int>)
    ensures WithoutIds(WithoutIds(scans, a), b) == WithoutIds(scans, a + b)
  {
    if scans != [] {
      var x := scans[0];
      var rest := scans[1..];
      assert scans == [x] + rest;
      WithoutIdsSequential(rest, a, b);
      WithoutIdsCons(x, rest, a);
      WithoutIdsCons(x, rest, a + b);
      assert x.id in a + b <==> x.id in a || x.id in b;
      if x.id !in a {
        WithoutIdsCons(x, WithoutIds(rest, a), b);
        assert WithoutIds(scans, a) == [x] + WithoutIds(rest, a);
      } else {
        assert WithoutIds(scans, a) == WithoutIds(rest, a);
      }
    }
  }

  /** Deleting keeps the accuracy bound of the survivors. */
  lemma WithoutIdsBounded(scans: seq<Scan>, ids: seq<int>)
    requires AccuraciesBounded(scans)
    ensures AccuraciesBounded(WithoutIds(scans, ids))
  {
    var r := WithoutIds(scans, ids);
    forall k | 0 <= k < |r|
      ensures r[k].accuracy.None? || 0.0 <= r[k].accuracy.value <= 100.0
    {
      assert r[k] in scans;
    }
  }

  // ---------------------------------------------------------------------------
  // Statistics
  // ---------------------------------------------------------------------------

  /** The stored weights as the statistics read them, one per scan. */
  function Weights(scans: seq<Scan>): (ws: seq<real>)
    ensures |ws| == |scans|
    ensures forall k :: 0 <= k < |scans| ==> ws[k] == SafelyParseFloat(scans[k].weight)
  {
    var ws := seq(|scans|, k requires 0 <= k < |scans| => SafelyParseFloat(scans[k].weight));
    assert forall k :: 0 <= k < |scans| ==> ws[k] == SafelyParseFloat(scans[k].weight);
    ws
  }

  /** Histogram bin of a weight: up to 1 kg, up to 5 kg, up to 10 kg, above 10 kg. */
  function Bin(w: real): (b: nat)
    ensures b < 4
    ensures b == 0 <==> w <= 1.0
    ensures b == 1 <==> 1.0 < w <= 5.0
    ensures b == 2 <==> 5.0 < w <= 10.0
    ensures b == 3 <==> 10.0 < w
  {
    if w <= 1.0 then 0 else if w <= 5.0 then 1 else if w <= 10.0 then 2 else 3
  }

  /** How many weights fall in bin b. */
  function CountBin(ws: seq<real>, b: nat): (c: nat)
    ensures c <= |ws|
  {
    if ws == [] then 0 else CountBin(ws[..|ws| - 1], b) + (if Bin(ws[|ws| - 1]) == b then 1 else 0)
  }

  /** Counts of the four bins, in bin order; every weight is counted once. */
  function Histogram(ws: seq<real>): (h: seq<nat>)
    ensures |h| == 4
    ensures forall b :: 0 <= b < 4 ==> h[b] == CountBin(ws, b)
    ensures h[0] + h[1] + h[2] + h[3] == |ws|
  {
    HistogramPartition(ws);
    [CountBin(ws, 0), CountBin(ws, 1), CountBin(ws, 2), CountBin(ws, 3)]
  }

  /** Every weight lands in exactly one bin, so the four counts add up to the number of weights. */
  lemma {:induction false} HistogramPartition(ws: seq<real>)
    ensures CountBin(ws, 0) + CountBin(ws, 1) + CountBin(ws, 2) + CountBin(ws, 3) == |ws|
  {
    if ws != [] {
      HistogramPartition(ws[..|ws| - 1]);
    }
  }

  /** One point of the cumulative training-progress series. */
  datatype ProgressPoint = ProgressPoint(index: nat, timestamp: int, samples: nat)

  /** The series runs oldest first, the reverse of storage order, numbering samples from 1. */
  function Progress(scans: seq<Scan>): (p: seq<ProgressPoint>)
    ensures |p| == |scans|
    ensures forall k :: 0 <= k < |p| ==> p[k].index == k + 1 && p[k].samples == k + 1
    ensures forall k :: 0 <= k < |p| ==> p[k].timestamp == scans[|scans| - 1 - k].timestamp
  {
    seq(|scans|, k requires 0 <= k < |scans| => ProgressPoint(k + 1, scans[|scans| - 1 - k].timestamp, k + 1))
  }

  /** The stamped accuracies, in storage order; records without one are skipped. */
  function Stamped(scans: seq<Scan>): (a: seq<real>)
    ensures |a| <= |scans|
  {
    if scans == [] then []
    else Stamped(scans[..|scans| - 1]) + (if scans[|scans| - 1].accuracy.Some? then [scans[|scans| - 1].accuracy.value] else [])
  }

  /** Mean of the stamped accuracies; None ("N/A") exactly when no record has one. */
  function MeanAccuracy(scans: seq<Scan>): (m: Option<real>)
    ensures m.None? <==> forall k :: 0 <= k < |scans| ==> scans[k].accuracy.None?
    ensures m.Some? ==> |Stamped(scans)| > 0 && m.value == Mean(Stamped(scans))
  {
    var a := Stamped(scans);
    StampedEmpty(scans);
    if |a| > 0 then Some(Sum(a) / |a| as real) else None
  }

  /** When every record's accuracy is within [0, 100], so is every stamped accuracy. */
  lemma {:induction false} StampedBounded(scans: seq<Scan>)
    requires AccuraciesBounded(scans)
    ensures forall j :: 0 <= j < |Stamped(scans)| ==> 0.0 <= Stamped(scans)[j] <= 100.0
  {
    if scans != [] {
      var p := scans[..|scans| - 1];
      assert forall k :: 0 <= k < |p| ==> p[k] == scans[k];
      StampedBounded(p);
    }
  }

  /** Stamped(scans) is empty exactly when no record carries an accuracy. */
  lemma {:induction false} StampedEmpty(scans: seq<Scan>)
    ensures Stamped(scans) == [] <==> forall k :: 0 <= k < |scans| ==> scans[k].accuracy.None?
  {
    if scans != [] {
      var p := scans[..|scans| - 1];
      StampedEmpty(p);
      assert forall k :: 0 <= k < |p| ==> p[k] == scans[k];
    }
  }

  /** The mean accuracy lies within [0, 100] whenever every stored accuracy does. */
  lemma MeanAccuracyBounded(scans: seq<Scan>)
    requires AccuraciesBounded(scans)
    ensures MeanAccuracy(scans).Some? ==> 0.0 <= MeanAccuracy(scans).value <= 100.0
  {
    var a := Stamped(scans);
    if |a| > 0 {
      StampedBounded(scans);
      MeanBounds(a, 0.0, 100.0);
    }
  }

  /** The dashboard statistics. The source renders the reals as fixed-decimal text; None stands for
      the "N/A" shown on an empty store. */
  datatype Stats = Stats(
    totalItems: nat,
    totalWeight: real,
    averageWeight: Option<real>,
    minWeight: Option<real>,
    maxWeight: Option<real>,
    weightDistribution: seq<nat>,
    trainingProgress: seq<ProgressPoint>,
    accuracy: Option<real>)

  /** The statistics of a list of samples, as `getStats` computes them. An empty list has no
      average, minimum or maximum ("N/A"); a non-empty one has all three, and the average times the
      count is the total. */
  function StatsOf(scans: seq<Scan>): (st: Stats)
    ensures st.totalItems == |scans|
    ensures scans == [] <==> st.averageWeight.None?
    ensures scans == [] <==> st.minWeight.None?
    ensures scans == [] <==> st.maxWeight.None?
    ensures scans != [] ==> st.averageWeight == Some(st.totalWeight / |scans| as real)
    ensures st.totalWeight == Sum(Weights(scans))
    ensures scans != [] ==> st.averageWeight == Some(Mean(Weights(scans)))
  {
    var ws := Weights(scans);
    var n := |scans|;
    Stats(n, Sum(ws),
          if n > 0 then Some(Sum(ws) / n as real) else None,
          if n > 0 then Some(MinOf(ws)) else None,
          if n > 0 then Some(MaxFromZero(ws)) else None,
          Histogram(ws), Progress(scans), MeanAccuracy(scans))
  }

  /** The minimum is one of the weights and no weight is below it; the maximum is at least every
      weight and at least 0, because it starts from 0. */
  lemma StatsExtremes(scans: seq<Scan>)
    requires scans != []
    ensures StatsOf(scans).minWeight.value in Weights(scans)
    ensures forall k :: 0 <= k < |scans| ==> StatsOf(scans).minWeight.value <= SafelyParseFloat(scans[k].weight)
    ensures StatsOf(scans).maxWeight.value >= 0.0
    ensures StatsOf(scans).maxWeight.value == 0.0 || StatsOf(scans).maxWeight.value in Weights(scans)
    ensures forall k :: 0 <= k < |scans| ==> SafelyParseFloat(scans[k].weight) <= StatsOf(scans).maxWeight.value
  {
    var ws := Weights(scans);
    assert StatsOf(scans).minWeight == Some(MinOf(ws));
    assert StatsOf(scans).maxWeight == Some(MaxFromZero(ws));
  }

  /** The histogram has four bins whose counts add up to the number of samples, and the progress
      series has one point per sample. */
  lemma StatsHistogram(scans: seq<Scan>)
    ensures |StatsOf(scans).weightDistribution| == 4
    ensures StatsOf(scans).weightDistribution[0] + StatsOf(scans).weightDistribution[1]
          + StatsOf(scans).weightDistribution[2] + StatsOf(scans).weightDistribution[3] == |scans|
    ensures |StatsOf(scans).trainingProgress| == |scans|
  {
    HistogramPartition(Weights(scans));
  }

  // ---------------------------------------------------------------------------
  // The store
  // ---------------------------------------------------------------------------

  /** The samples held in local storage, newest first. */
  class ScanStore {
    var scans: seq<Scan>

    /** Every accuracy the store holds was stamped by `SaveScan`, so it lies within [0, 100]. */
    predicate Valid()
      reads this
    {
      AccuraciesBounded(scans)
    }

    /** An empty store. */
    constructor()
      ensures scans == [] && Valid()
    {
      scans := [];
    }

    /** `getScans`: the stored list. */
    method GetScans() returns (r: seq<Scan>)
      ensures r == scans
    {
      r := scans;
    }

    /** `saveScan`: stamp the record with the clock readings (`now` for the id, `nowTime` for the
        timestamp) unless it carries its own, stamp its accuracy, and put it in front. */
    method SaveScan(data: ScanData, now: int, nowTime: int) returns (newScan: Scan)
      requires Valid()
      modifies this
      ensures Valid()
      ensures newScan.id == data.id.GetOr(now)
      ensures newScan.timestamp == data.timestamp.GetOr(nowTime)
      ensures newScan.category == data.category
      ensures newScan.aiWeight == data.aiWeight && newScan.weight == data.weight
      ensures newScan.accuracy == Some(StampedAccuracy(data))
      ensures scans == [newScan] + old(scans)
    {
      var ai := SafelyParseFloat(data.aiWeight);
      var actual := SafelyParseFloat(data.weight);
      newScan := Scan(data.id.GetOr(now), data.timestamp.GetOr(nowTime), data.category,
                      data.aiWeight, data.weight, Some(Accuracy(ai, actual)));
      scans := [newScan] + scans;
    }

    /** `deleteScan`: drop every scan with this id. */
    method DeleteScan(id: int) returns (r: seq<Scan>)
      requires Valid()
      modifies this
      ensures Valid()
      ensures scans == WithoutIds(old(scans), [id]) && r == scans
    {
      WithoutIdsBounded(scans, [id]);
      scans := WithoutIds(scans, [id]);
      r := scans;
    }

    /** `deleteScans`: drop every scan whose id is listed. */
    method DeleteScans(ids: seq<int>) returns (r: seq<Scan>)
      requires Valid()
      modifies this
      ensures Valid()
      ensures scans == WithoutIds(old(scans), ids) && r == scans
    {
      WithoutIdsBounded(scans, ids);
      scans := WithoutIds(scans, ids);
      r := scans;
    }

    /** `getStats`. */
    method GetStats() returns (st: Stats)
      requires Valid()
      ensures st == StatsOf(scans)
      ensures st.accuracy.Some? ==> 0.0 <= st.accuracy.value <= 100.0
    {
      MeanAccuracyBounded(scans);
      var ws := Weights(scans);
      var n := |scans|;
      var totalWeight, minWeight, maxWeight := WeightTotals(ws);
      var distribution := CountBins(ws);
      var validScans, totalAccuracy := AccuracyTotals(scans);
      st := Stats(n, totalWeight,
                  if n > 0 then Some(totalWeight / n as real) else None,
                  if n > 0 then Some(minWeight) else None,
                  if n > 0 then Some(maxWeight) else None,
                  distribution, Progress(scans),
                  if validScans > 0 then Some(totalAccuracy / validScans as real) else None);
    }
  }

  /** The first pass of `getStats`: the running total, the running minimum started at the first
      weight, and the running maximum started at 0. */
  method WeightTotals(ws: seq<real>) returns (totalWeight: real, minWeight: real, maxWeight: real)
    ensures totalWeight == Sum(ws)
    ensures ws != [] ==> minWeight == MinOf(ws)
    ensures maxWeight == MaxFromZero(ws)
  {
    var n := |ws|;
    totalWeight := 0.0;
    minWeight := if n > 0 then ws[0] else 0.0;
    maxWeight := 0.0;
    var i := 0;
    while i < n
      invariant 0 <= i <= n
      invariant totalWeight == Sum(ws[..i])
      invariant maxWeight == MaxFromZero(ws[..i])
      invariant i > 0 ==> minWeight == MinOf(ws[..i])
      invariant n > 0 && i == 0 ==> minWeight == ws[0]
    {
      var w := ws[i];
      WeightTotalsStep(ws, i);
      totalWeight := totalWeight + w;
      if w < minWeight {
        minWeight := w;
      }
      if w > maxWeight {
        maxWeight := w;
      }
      i := i + 1;
    }
    assert ws[..n] == ws;
  }

  /** One more weight extends the total, the running minimum and the running maximum. */
  lemma WeightTotalsStep(ws: seq<real>, i: nat)
    requires i < |ws|
    ensures Sum(ws[..i + 1]) == Sum(ws[..i]) + ws[i]
    ensures MaxFromZero(ws[..i + 1]) == Max(MaxFromZero(ws[..i]), ws[i])
    ensures i > 0 ==> MinOf(ws[..i + 1]) == Min(MinOf(ws[..i]), ws[i])
  {
    assert ws[..i + 1] == ws[..i] + [ws[i]];
    SumAppend(ws[..i], ws[i]);
  }

  /** The second pass of `getStats`: bump the count of each weight's bin. */
  method CountBins(ws: seq<real>) returns (distribution: seq<nat>)
    ensures distribution == Histogram(ws)
  {
    var counts := new nat[4](_ => 0);
    var i := 0;
    while i < |ws|
      invariant 0 <= i <= |ws|
      invariant forall b :: 0 <= b < 4 ==> counts[b] == CountBin(ws[..i], b)
    {
      var w := ws[i];
      assert ws[..i + 1] == ws[..i] + [w];
      assert (ws[..i] + [w])[..i] == ws[..i];
      if w <= 1.0 {
        counts[0] := counts[0] + 1;
      } else if w <= 5.0 {
        counts[1] := counts[1] + 1;
      } else if w <= 10.0 {
        counts[2] := counts[2] + 1;
      } else {
        counts[3] := counts[3] + 1;
      }
      i := i + 1;
    }
    assert ws[..i] == ws;
    distribution := [counts[0], counts[1], counts[2], counts[3]];
  }

  /** The accuracy pass of `getStats`: how many records carry an accuracy, and their total. */
  method AccuracyTotals(scans: seq<Scan>) returns (validScans: nat, totalAccuracy: real)
    ensures validScans == |Stamped(scans)|
    ensures totalAccuracy == Sum(Stamped(scans))
  {
    validScans := 0;
    totalAccuracy := 0.0;
    var i := 0;
    while i < |scans|
      invariant 0 <= i <= |scans|
      invariant validScans == |Stamped(scans[..i])|
      invariant totalAccuracy == Sum(Stamped(scans[..i]))
    {
      assert scans[..i + 1][..i] == scans[..i];
      if scans[i].accuracy.Some? {
        assert Stamped(scans[..i + 1]) == Stamped(scans[..i]) + [scans[i].accuracy.value];
        SumAppend(Stamped(scans[..i]), scans[i].accuracy.value);
        validScans := validScans + 1;
        totalAccuracy := totalAccuracy + scans[i].accuracy.value;
      } else {
        assert Stamped(scans[..i + 1]) == Stamped(scans[..i]) + [];
        assert Stamped(scans[..i + 1]) == Stamped(scans[..i]);
      }
      i := i + 1;
    }
    assert scans[..i] == scans;
  }

  /** Saving a record with a fresh id and then deleting that id gives back the list as it was. */
  lemma SaveThenDelete(scans: seq<Scan>, newScan: Scan)
    requires forall k :: 0 <= k < |scans| ==> scans[k].id != newScan.id
    ensures WithoutIds([newScan] + scans, [newScan.id]) == scans
  {
    assert ([newScan] + scans)[1..] == scans;
    WithoutAbsentIds(scans, [newScan.id]);
  }
}
