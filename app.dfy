/** The dashboard's own logic: the offline fallback estimator used when the analysis backend cannot
    be reached (category statistics, an image-derived seed, a 0.05 kg floor, a cold-start band),
    the record composed when the user confirms a weight, the selection toggles of the history
    table, the accuracy chart series and the average-weight tile. */
module App {
  import opened Common
  import opened JsValues
  import opened Storage

  /** The categories offered in the waste-type picker; the first is the initial choice. */
  const WasteCategories: seq<string> := ["Mixed Waste", "Plastic", "Paper", "Glass", "Metal", "Organic"]

  /** The result shown on the result card: from the backend (which supplies its database id) or from
      the fallback estimator (which supplies none). */
  datatype Estimate = Estimate(id: Option<int>, weight: JsValue, confidence: real, category: string, material: string)

  // ---------------------------------------------------------------------------
  // Fixed-point rendering of an estimate
  // ---------------------------------------------------------------------------

  /** `toFixed(2)` rounding of a non-negative value to hundredths: the nearest integer number of
      hundredths, halves rounded up. */
  function Cents(x: real): (c: nat)
    requires x >= 0.0
    ensures x * 100.0 - 0.5 < c as real <= x * 100.0 + 0.5
  {
    (x * 100.0 + 0.5).Floor
  }

  /** The text of c hundredths with two decimals. */
  function CentsText(c: nat): (s: string)
    ensures |s| >= 4 && s[0] != ',' && IsDigit(s[0])
  {
    NatToString(c / 100) + "." + [DigitChar((c % 100) / 10), DigitChar(c % 10)]
  }

  /** `Number.prototype.toFixed(2)` (values below 10^21): NaN prints as "NaN", a negative value as
      "-" followed by the text of its magnitude. */
  function ToFixed2(n: Number): (r: string)
    ensures n.NaN? ==> r == "NaN"
    ensures n.Finite? && n.value >= 0.0 ==> ParseFloatString(r) == Finite(Cents(n.value) as real / 100.0)
  {
    match n
    case NaN => "NaN"
    case Finite(x) =>
      if x < 0.0 then "-" + CentsText(Cents(-x))
      else
        CentsTextParses(Cents(x));
        CentsText(Cents(x))
  }

  /** Two decimal digits read back as the number of hundredths they write. */
  lemma TwoDigitsValue(c: nat)
    ensures DigitsValue([DigitChar((c % 100) / 10), DigitChar(c % 10)]) == c % 100
  {
    var a := (c % 100) / 10;
    var b := c % 10;
    var t := [DigitChar(a), DigitChar(b)];
    assert t[..1] == [DigitChar(a)];
    assert t[..1][..0] == [];
    assert DigitsValue(t[..1]) == a;
    assert DigitsValue(t) == a * 10 + b;
    var m := c % 100;
    assert c == 100 * (c / 100) + m;
    assert m == 10 * a + m % 10;
    assert c == 10 * (10 * (c / 100) + a) + m % 10;
    assert b == m % 10;
  }

  /** c / 100 and c % 100 hundredths make c hundredths. */
  lemma CentsDecimal(c: nat)
    ensures Decimal(c / 100, c % 100, 2) == c as real / 100.0
  {
    var q, r := c / 100, c % 100;
    assert Shift(r as real, 1) == r as real / 10.0;
    assert Shift(r as real, 2) == r as real / 100.0;
    assert c == 100 * q + r;
    assert (c as real) / 100.0 == q as real + r as real / 100.0;
  }

  /** The fixed-point text of c hundredths is digits, a point and two digits. */
  lemma CentsTextShape(c: nat)
    ensures CentsText(c) == NatToString(c / 100) + "." + [DigitChar((c % 100) / 10), DigitChar(c % 10)] + []
    ensures ',' !in CentsText(c)
  {
    var s := CentsText(c);
    var whole := NatToString(c / 100);
    forall k | 0 <= k < |s| ensures s[k] != ',' {
      if k < |whole| {
        assert s[k] == whole[k] && IsDigit(whole[k]);
      }
    }
  }

  /** The fixed-point text of c hundredths parses back to c / 100. */
  lemma CentsTextParses(c: nat)
    ensures ParseFloatString(CentsText(c)) == Finite(c as real / 100.0)
  {
    var whole := NatToString(c / 100);
    var fraction := [DigitChar((c % 100) / 10), DigitChar(c % 10)];
    CentsTextShape(c);
    DecimalParses(whole, fraction, []);
    NatToStringRoundTrip(c / 100);
    TwoDigitsValue(c);
    CentsDecimal(c);
  }

  /** The fixed-point text of c hundredths, read by the store's parser, is c / 100. */
  lemma CentsTextReadsBack(c: nat)
    ensures SafelyParseFloat(Str(CentsText(c))) == c as real / 100.0
  {
    var s := CentsText(c);
    CentsTextParses(c);
    CentsTextShape(c);
    NoCommaUnchanged(s);
    SafelyParseText(s, s, c as real / 100.0);
  }

  /** An estimate rendered by `toFixed(2)` and stored reads back, through the store's parser, as the
      value rounded to hundredths. */
  lemma FixedEstimateReadsBack(x: real)
    requires x >= 0.0
    ensures SafelyParseFloat(Str(ToFixed2(Finite(x)))) == Cents(x) as real / 100.0
  {
    assert ToFixed2(Finite(x)) == CentsText(Cents(x));
    CentsTextReadsBack(Cents(x));
  }

  // ---------------------------------------------------------------------------
  // Category statistics
  // ---------------------------------------------------------------------------

  /** The stored samples whose category is exactly `wasteType`, in storage order. */
  function CategorySamples(history: seq<Scan>, wasteType: string): (r: seq<Scan>)
    ensures |r| <= |history|
    ensures forall sc :: sc in r <==> sc in history && sc.category == wasteType
  {
    if history == [] then []
    else CategorySamples(history[..|history| - 1], wasteType)
         + (if history[|history| - 1].category == wasteType then [history[|history| - 1]] else [])
  }

  /** The samples' weights as plain `parseFloat` reads them (no comma handling, NaN kept). */
  function CategoryWeights(samples: seq<Scan>): (ws: seq<Number>)
    ensures |ws| == |samples|
    ensures forall k :: 0 <= k < |samples| ==> ws[k] == ParseFloat(samples[k].weight)
  {
    seq(|samples|, k requires 0 <= k < |samples| => ParseFloat(samples[k].weight))
  }

  /** `Math.pow(x - avg, 2)` on finite numbers. */
  function SquareDev(x: real, avg: real): (r: real)
    ensures r >= 0.0
  {
    (x - avg) * (x - avg)
  }

  /** The squared deviations of the values from `avg`. */
  function SquareDevs(xs: seq<real>, avg: real): (ds: seq<real>)
    ensures |ds| == |xs|
    ensures forall k :: 0 <= k < |xs| ==> ds[k] == SquareDev(xs[k], avg)
  {
    seq(|xs|, k requires 0 <= k < |xs| => SquareDev(xs[k], avg))
  }

  /** Population variance of a non-empty list of values: the mean squared deviation from the mean. */
  function PopVariance(xs: seq<real>): (v: real)
    requires |xs| > 0
    ensures v >= 0.0
  {
    SumNonNegative(SquareDevs(xs, Mean(xs)));
    Sum(SquareDevs(xs, Mean(xs))) / |xs| as real
  }

  /** n copies of c sum to n * c. */
  lemma {:induction false} SumConstant(xs: seq<real>, c: real)
    requires forall k :: 0 <= k < |xs| ==> xs[k] == c
    ensures Sum(xs) == |xs| as real * c
  {
    if xs != [] {
      SumConstant(xs[..|xs| - 1], c);
    }
  }

  /** Samples that all weigh the same have that weight as mean and no variance. */
  lemma ConstantSamples(xs: seq<real>, c: real)
    requires |xs| > 0
    requires forall k :: 0 <= k < |xs| ==> xs[k] == c
    ensures Mean(xs) == c && PopVariance(xs) == 0.0
  {
    ConstantMean(xs, c);
    ConstantDeviations(xs, c);
  }

  /** n copies of c have mean c. */
  lemma ConstantMean(xs: seq<real>, c: real)
    requires |xs| > 0
    requires forall k :: 0 <= k < |xs| ==> xs[k] == c
    ensures Mean(xs) == c
  {
    SumConstant(xs, c);
    Cancel(|xs| as real, c);
  }

  /** Deviations from the common value are all 0, so they sum to 0. */
  lemma ConstantDeviations(xs: seq<real>, c: real)
    requires forall k :: 0 <= k < |xs| ==> xs[k] == c
    ensures Sum(SquareDevs(xs, c)) == 0.0
  {
    var ds := SquareDevs(xs, c);
    forall k | 0 <= k < |ds| ensures ds[k] == 0.0 {
      assert ds[k] == SquareDev(c, c);
    }
    SumConstant(ds, 0.0);
  }

  /** Multiplying by a positive n and dividing by it again gives c back. */
  lemma Cancel(n: real, c: real)
    requires n > 0.0
    ensures n * c / n == c
  {
  }

  /** `Math.pow(w - avg, 2)`: NaN when the weight or the mean is NaN. */
  function SquareDiff(w: Number, avg: Number): (d: Number)
    ensures d.Finite? <==> w.Finite? && avg.Finite?
    ensures d.Finite? ==> d.value == SquareDev(w.value, avg.value)
  {
    if w.Finite? && avg.Finite? then Finite(SquareDev(w.value, avg.value)) else NaN
  }

  /** `weights.map(w => Math.pow(w - avg, 2))`. */
  function SquareDiffs(ws: seq<Number>, avg: Number): (ds: seq<Number>)
    ensures |ds| == |ws|
    ensures forall k :: 0 <= k < |ws| ==> ds[k] == SquareDiff(ws[k], avg)
  {
    seq(|ws|, k requires 0 <= k < |ws| => SquareDiff(ws[k], avg))
  }

  /** For finite weights, the NaN-carrying total of the squared differences from a finite mean is
      the sum of the squared deviations of their values. */
  lemma SquareDiffsSum(ws: seq<Number>, avg: real)
    requires AllFinite(ws)
    ensures NumSum(SquareDiffs(ws, Finite(avg))) == Finite(Sum(SquareDevs(Values(ws), avg)))
  {
    var ds := SquareDiffs(ws, Finite(avg));
    var xs := Values(ws);
    var ys := Values(ds);
    forall k | 0 <= k < |ws|
      ensures ys[k] == SquareDev(xs[k], avg)
    {
      assert ws[k] == Finite(xs[k]);
      assert ds[k] == Finite(SquareDev(xs[k], avg));
    }
    assert ys == SquareDevs(xs, avg);
  }

  /** The category's mean weight and population variance, computed as the fallback does: the
      total over the count, then the total of squared differences over the count. Both are NaN
      when any stored weight does not parse, and otherwise the mean and population variance of the
      weights. */
  function CategoryMoments(ws: seq<Number>): (m: (Number, Number))
    requires |ws| > 0
    ensures m.0.Finite? <==> AllFinite(ws)
    ensures m.1.Finite? <==> AllFinite(ws)
    ensures AllFinite(ws) ==> m == (Finite(Mean(Values(ws))), Finite(PopVariance(Values(ws))))
    ensures m.1.Finite? ==> m.1.value >= 0.0
  {
    var avg := DivideBy(NumSum(ws), |ws|);
    var avgSquareDiff := DivideBy(NumSum(SquareDiffs(ws, avg)), |ws|);
    if AllFinite(ws) then
      SquareDiffsSum(ws, avg.value);
      (avg, avgSquareDiff)
    else
      assert !AllFinite(SquareDiffs(ws, avg));
      (avg, avgSquareDiff)
  }

  // ---------------------------------------------------------------------------
  // The image seed
  // ---------------------------------------------------------------------------

  /** The last 50 characters, or the whole string when it is shorter (`slice(-50)`). */
  function Last50(image: string): (t: string)
    ensures |t| == Min(|image| as real, 50.0) as int
    ensures t == image[|image| - |t|..]
  {
    if |image| >= 50 then image[|image| - 50..] else image
  }

  /** The text hashed for an image: its length in decimal followed by its last 50 characters. */
  function Fingerprint(image: string): string
  {
    NatToString(|image|) + Last50(image)
  }

  /** One step of the hash: `((seed << 5) - seed) + code | 0`. The shift wraps to 32 bits, the
      subtraction and addition are exact, and `| 0` wraps the result. Character codes are the
      characters' code points (data URLs are ASCII, so these are their UTF-16 code units). */
  function HashStep(seed: int, c: char): (r: int)
    ensures IsInt32(r)
  {
    ToInt32(ToInt32(seed * 32) - seed + c as int)
  }

  /** The step is the polynomial hash step `31 * seed + code` taken modulo 2^32. */
  lemma HashStepIsTimes31(seed: int, c: char)
    ensures HashStep(seed, c) == ToInt32(31 * seed + c as int)
  {
    var shifted := ToInt32(seed * 32);
    var k := (seed * 32 - shifted) / TwoTo32;
    assert seed * 32 - shifted == k * TwoTo32;
    ToInt32Congruent(31 * seed + c as int, shifted - seed + c as int, k);
  }

  /** The polynomial string hash `sum of code(s[i]) * 31^(n-1-i)` over the integers. */
  function Poly31(s: string): int
  {
    if s == [] then 0 else 31 * Poly31(s[..|s| - 1]) + s[|s| - 1] as int
  }

  /** The hash of a string, folded front to back from 0: the polynomial hash with factor 31,
      wrapped to 32 bits. */
  function HashOf(s: string): (h: int)
    ensures IsInt32(h)
    ensures h == ToInt32(Poly31(s))
  {
    if s == [] then 0
    else
      var p := s[..|s| - 1];
      var c := s[|s| - 1];
      var h := HashOf(p);
      HashStepIsTimes31(h, c);
      var k := (Poly31(p) - h) / TwoTo32;
      assert 31 * Poly31(p) + c as int - (31 * h + c as int) == (31 * k) * TwoTo32;
      ToInt32Congruent(31 * Poly31(p) + c as int, 31 * h + c as int, 31 * k);
      HashStep(h, c)
  }

  /** The seed: the hash of the fingerprint when the image is a string, 0 otherwise. */
  function SeedOf(image: Option<string>): (seed: int)
    ensures IsInt32(seed)
    ensures image.None? ==> seed == 0
  {
    match image
    case None => 0
    case Some(s) => HashOf(Fingerprint(s))
  }

  /** The seed loop of the fallback estimator. */
  method ImageSeed(image: Option<string>) returns (seed: int)
    ensures seed == SeedOf(image)
    ensures IsInt32(seed)
  {
    seed := 0;
    if image.Some? {
      var magic := Fingerprint(image.value);
      for i := 0 to |magic|
        invariant seed == HashOf(magic[..i])
      {
        assert magic[..i + 1][..i] == magic[..i];
        seed := HashStep(seed, magic[i]);
      }
      assert magic[..|magic|] == magic;
    }
  }

  /** Two images of the same length that end in the same 50 characters get the same seed. */
  lemma SameTailSameSeed(a: string, b: string)
    requires |a| == |b|
    requires forall k :: 0 <= k < |a| && |a| - 50 <= k ==> a[k] == b[k]
    ensures SeedOf(Some(a)) == SeedOf(Some(b))
  {
    assert Last50(a) == Last50(b);
  }

  // ---------------------------------------------------------------------------
  // The fallback estimate
  // ---------------------------------------------------------------------------

  /** The learning-branch weight before rendering: the mean plus z standard deviations, floored at
      0.05 kg. `Math.max` with a NaN argument is NaN. */
  function LearningWeight(avg: Number, z: real, stdDev: Number): (w: Number)
    ensures w.Finite? <==> avg.Finite? && stdDev.Finite?
    ensures w.Finite? ==> w.value >= 0.05
    ensures w.Finite? && w.value > 0.05 ==> w.value == avg.value + z * stdDev.value
    ensures avg.Finite? && stdDev.Finite? && avg.value + z * stdDev.value >= 0.05 ==>
      w == Finite(avg.value + z * stdDev.value)
    ensures avg.Finite? && stdDev.Finite? && avg.value + z * stdDev.value < 0.05 ==> w == Finite(0.05)
    ensures avg.Finite? && stdDev == Finite(0.0) ==> w == Finite(Max(0.05, avg.value))
  {
    if avg.Finite? && stdDev.Finite? then Finite(Max(0.05, avg.value + z * stdDev.value)) else NaN
  }

  /** The first Box–Muller input: a zero draw is replaced by 0.001 before its logarithm (`u1 || 0.001`). */
  function GuardU1(u1: real): (u: real)
    ensures u1 == 0.0 ==> u == 0.001
    ensures u1 != 0.0 ==> u == u1
  {
    if u1 == 0.0 then 0.001 else u1
  }

  /** The cold-start draw `r * 0.7 + 1.1`, for r in [0, 1). */
  function ColdStartWeight(r: real): (w: real)
    requires 0.0 <= r < 1.0
    ensures 1.1 <= w < 1.8
  {
    r * 0.7 + 1.1
  }

  /** The simulated confidence `floor(r * 10 + 88)`, for r in [0, 1). */
  function SimulatedConfidence(r: real): (c: int)
    requires 0.0 <= r < 1.0
    ensures 88 <= c <= 97
  {
    (r * 10.0 + 88.0).Floor
  }

  /** The z-score drawn for a seed: `seededRandom` stands for the sine-based generator and
      `gaussian(u1, u2)` for `sqrt(-2 ln u1) * cos(2 pi u2)`; u1 is guarded against 0. */
  function ZScore(seed: int, seededRandom: int -> real, gaussian: (real, real) -> real): real
  {
    gaussian(GuardU1(seededRandom(seed)), seededRandom(seed + 1))
  }

  /** The rendered weight of the learning branch reads back as at least 0.05 kg. */
  lemma LearningWeightFloor(avg: Number, z: real, stdDev: Number)
    requires avg.Finite? && stdDev.Finite?
    ensures SafelyParseFloat(Str(ToFixed2(LearningWeight(avg, z, stdDev)))) >= 0.05
  {
    var x := LearningWeight(avg, z, stdDev).value;
    FixedEstimateReadsBack(x);
    assert Cents(x) >= 5;
  }

  /** The rendered cold-start weight reads back within [1.10, 1.80]: rounding can reach the upper end. */
  lemma ColdStartRendered(r: real)
    requires 0.0 <= r < 1.0
    ensures 1.1 <= SafelyParseFloat(Str(ToFixed2(Finite(ColdStartWeight(r))))) <= 1.8
  {
    var x := ColdStartWeight(r);
    FixedEstimateReadsBack(x);
    assert 110 <= Cents(x) <= 180;
  }

  /** The weight text the fallback estimator shows: with samples of the category, their mean plus
      the seed's z-score times `sqrt` of their variance, floored at 0.05 kg; without, the cold-start
      draw; rendered with two decimals. Read back through the store's parser it is within
      [1.10, 1.80] with no history, at least 0.05 kg when the category's weights all parse, and the
      text "NaN" when one does not. */
  function FallbackWeight(samples: seq<Scan>, seed: int, seededRandom: int -> real,
                          gaussian: (real, real) -> real, sqrt: real -> real, random1: real): (r: string)
    requires 0.0 <= random1 < 1.0
    ensures samples == [] ==> 1.1 <= SafelyParseFloat(Str(r)) <= 1.8
    ensures samples != [] && AllFinite(CategoryWeights(samples)) ==> SafelyParseFloat(Str(r)) >= 0.05
    ensures samples != [] && !AllFinite(CategoryWeights(samples)) ==> r == "NaN"
  {
    if samples == [] then
      ColdStartRendered(random1);
      ToFixed2(Finite(ColdStartWeight(random1)))
    else LearnedWeightText(samples, seed, seededRandom, gaussian, sqrt)
  }

  /** The weight text of the learning branch, as one expression; `LearnedEstimate` below computes it
      step by step as the source does. When every weight of the category parses it is
      `max(0.05, mean + z * sqrt(variance)).toFixed(2)` and reads back as at least 0.05 kg;
      otherwise it is "NaN". */
  function LearnedWeightText(samples: seq<Scan>, seed: int, seededRandom: int -> real,
                             gaussian: (real, real) -> real, sqrt: real -> real): (r: string)
    requires samples != []
    ensures AllFinite(CategoryWeights(samples)) ==>
      var xs := Values(CategoryWeights(samples));
      r == ToFixed2(LearningWeight(Finite(Mean(xs)), ZScore(seed, seededRandom, gaussian), Finite(sqrt(PopVariance(xs)))))
    ensures AllFinite(CategoryWeights(samples)) ==> SafelyParseFloat(Str(r)) >= 0.05
    ensures !AllFinite(CategoryWeights(samples)) ==> r == "NaN"
  {
    var moments := CategoryMoments(CategoryWeights(samples));
    var stdDev := if moments.1.Finite? then Finite(sqrt(moments.1.value)) else NaN;
    var z := ZScore(seed, seededRandom, gaussian);
    if moments.0.Finite? then
      LearningWeightFloor(moments.0, z, stdDev);
      ToFixed2(LearningWeight(moments.0, z, stdDev))
    else ToFixed2(LearningWeight(moments.0, z, stdDev))
  }

  /** The z-score of the learning branch: the seed loop over the image, the two seeded draws and
      the Box-Muller transform, with `u1 || 0.001` guarding the logarithm. */
  method DrawZ(seedImage: Option<string>, seededRandom: int -> real, gaussian: (real, real) -> real)
    returns (z: real)
    ensures z == ZScore(SeedOf(seedImage), seededRandom, gaussian)
  {
    var imageSeed := ImageSeed(seedImage);
    var u1 := seededRandom(imageSeed);
    var u2 := seededRandom(imageSeed + 1);
    z := gaussian(GuardU1(u1), u2);
  }

  /** The learning branch of the fallback estimator, in the source's statement order: the seed from
      the image, the z-score from the seed, the category's moments, rendered with two decimals.
      Its specification is `LearnedWeightText`. */
  method LearnedEstimate(samples: seq<Scan>, seedImage: Option<string>, seededRandom: int -> real,
                         gaussian: (real, real) -> real, sqrt: real -> real)
    returns (text: string)
    requires samples != []
    ensures text == LearnedWeightText(samples, SeedOf(seedImage), seededRandom, gaussian, sqrt)
  {
    var weights := CategoryWeights(samples);
    var total := NumSum(weights);
    var avg := DivideBy(total, |weights|);
    var squareDiffs := SquareDiffs(weights, avg);
    var avgSquareDiff := DivideBy(NumSum(squareDiffs), |weights|);
    var stdDev := if avgSquareDiff.Finite? then Finite(sqrt(avgSquareDiff.value)) else NaN;
    var z := DrawZ(seedImage, seededRandom, gaussian);
    assert avg == CategoryMoments(weights).0;
    assert avgSquareDiff == CategoryMoments(weights).1;
    text := ToFixed2(LearningWeight(avg, z, stdDev));
  }

  /** The fallback estimator (the timer callback of `handleImageSelected`). `seedImage` is the image
      the seed is computed from; `seededRandom` and `gaussian` produce the z-score (see `ZScore`),
      `sqrt` stands for `Math.sqrt`; `random1` and `random2` are the two `Math.random()` draws of the
      cold-start weight and the confidence. */
  method FallbackEstimate(history: seq<Scan>, wasteType: string, seedImage: Option<string>,
                          seededRandom: int -> real, gaussian: (real, real) -> real, sqrt: real -> real,
                          random1: real, random2: real)
    returns (est: Estimate)
    requires 0.0 <= random1 < 1.0 && 0.0 <= random2 < 1.0
    ensures est.id.None?
    ensures est.category == wasteType && est.material == wasteType
    ensures 88.0 <= est.confidence <= 97.0
    ensures est.weight == Str(FallbackWeight(CategorySamples(history, wasteType), SeedOf(seedImage),
                                             seededRandom, gaussian, sqrt, random1))
  {
    var categorySamples := CategorySamples(history, wasteType);
    var estimatedWeight: string;
    if |categorySamples| > 0 {
      estimatedWeight := LearnedEstimate(categorySamples, seedImage, seededRandom, gaussian, sqrt);
    } else {
      estimatedWeight := ToFixed2(Finite(ColdStartWeight(random1)));
    }
    est := Estimate(None, Str(estimatedWeight), SimulatedConfidence(random2) as real, wasteType, wasteType);
  }

  /** `handleImageSelected` as written. `backend` is the backend's answer, None when the request
      failed. The seed is taken from `capturedImage`, the `image` state the handler closed over when
      it was rendered, not from the photo `imgData` it was handed. */
  method HandleImageSelected(imgData: string, capturedImage: Option<string>, wasteType: string,
                             backend: Option<Estimate>, history: seq<Scan>,
                             seededRandom: int -> real, gaussian: (real, real) -> real, sqrt: real -> real, random1: real, random2: real)
    returns (result: Estimate)
    requires 0.0 <= random1 < 1.0 && 0.0 <= random2 < 1.0
    ensures result.category == wasteType && result.material == wasteType
    ensures backend.Some? ==> result == backend.value.(category := wasteType, material := wasteType)
    ensures backend.None? ==> 88.0 <= result.confidence <= 97.0
    ensures backend.None? ==> result.weight == Str(FallbackWeight(CategorySamples(history, wasteType),
                                                   SeedOf(capturedImage), seededRandom, gaussian, sqrt, random1))
  {
    if backend.Some? {
      result := backend.value.(category := wasteType, material := wasteType);
    } else {
      result := FallbackEstimate(history, wasteType, capturedImage, seededRandom, gaussian, sqrt, random1, random2);
    }
  }

  /** `handleImageSelected` with the seed taken from the photo it is handed. */
  method HandleImageSelectedCorrected(imgData: string, wasteType: string,
                                      backend: Option<Estimate>, history: seq<Scan>,
                                      seededRandom: int -> real, gaussian: (real, real) -> real, sqrt: real -> real, random1: real, random2: real)
    returns (result: Estimate)
    requires 0.0 <= random1 < 1.0 && 0.0 <= random2 < 1.0
    ensures result.category == wasteType && result.material == wasteType
    ensures backend.Some? ==> result == backend.value.(category := wasteType, material := wasteType)
    ensures backend.None? ==> 88.0 <= result.confidence <= 97.0
    ensures backend.None? ==> result.weight == Str(FallbackWeight(CategorySamples(history, wasteType),
                                                   SeedOf(Some(imgData)), seededRandom, gaussian, sqrt, random1))
  {
    result := HandleImageSelected(imgData, Some(imgData), wasteType, backend, history, seededRandom, gaussian, sqrt, random1, random2);
  }

  /** The uploader, and with it the handler, is rendered only while the image state is falsy. */
  predicate UploaderShown(image: Option<string>)
  {
    image.None? || image == Some("")
  }

  /** The handler only ever closes over a falsy image, so the seed it computes is one constant (0
      for the null image, the hash of "0" for the empty string) whatever photo is handed to it:
      every photo of a category gets the same estimate. */
  lemma StaleImageSeed(captured: Option<string>)
    requires UploaderShown(captured)
    ensures SeedOf(captured) == 0 || SeedOf(captured) == 48
  {
    if captured == Some("") {
      assert NatToString(0) == "0";
      assert Fingerprint("") == "0";
      assert "0"[..0] == [];
      HashStepIsTimes31(0, '0');
      ToInt32OfInt32(48);
    }
  }

  /** The seed the photo "a" gets. */
  lemma SeedOfA()
    ensures SeedOf(Some("a")) == 1616
  {
    assert NatToString(1) == "1";
    var f := Fingerprint("a");
    assert f == "1a";
    assert f[..1] == "1" && f[..1][..0] == [];
    HashStepIsTimes31(0, '1');
    ToInt32OfInt32(49);
    assert HashOf(f[..1]) == 49;
    HashStepIsTimes31(49, 'a');
    ToInt32OfInt32(1616);
    assert HashOf(f) == HashStep(HashOf(f[..1]), f[1]);
  }

  /** The seed the photo "b" gets. */
  lemma SeedOfB()
    ensures SeedOf(Some("b")) == 1617
  {
    assert NatToString(1) == "1";
    var f := Fingerprint("b");
    assert f == "1b";
    assert f[..1] == "1" && f[..1][..0] == [];
    HashStepIsTimes31(0, '1');
    ToInt32OfInt32(49);
    assert HashOf(f[..1]) == 49;
    HashStepIsTimes31(49, 'b');
    ToInt32OfInt32(1617);
    assert HashOf(f) == HashStep(HashOf(f[..1]), f[1]);
  }

  /** With the seed taken from the photo, different photos can get different seeds: "a" and "b" do,
      while the handler as written seeds both from the null image it closed over. */
  lemma CorrectedSeedVaries()
    ensures SeedOf(Some("a")) != SeedOf(Some("b"))
  {
    SeedOfA();
    SeedOfB();
  }

  // ---------------------------------------------------------------------------
  // Saving a confirmed weight
  // ---------------------------------------------------------------------------

  /** `handleUserSave`: nothing happens unless an image and a result are present (an empty image
      string counts as absent); otherwise the result's fields are saved with the estimate as
      `ai_weight`, the entered value as `weight`, and the confirmed category, or the selected one
      when none was confirmed. */
  method HandleUserSave(store: ScanStore, image: Option<string>, result: Option<Estimate>,
                        actualWeight: JsValue, confirmedCategory: string, wasteType: string,
                        now: int, nowTime: int)
    returns (saved: Option<Scan>)
    requires store.Valid()
    modifies store
    ensures store.Valid()
    ensures image.None? || image == Some("") || result.None? ==> saved.None? && store.scans == old(store.scans)
    ensures saved.Some? <==> image.Some? && image != Some("") && result.Some?
    ensures saved.Some? ==>
      && saved.value.aiWeight == result.value.weight
      && saved.value.weight == actualWeight
      && saved.value.category == (if confirmedCategory != "" then confirmedCategory else wasteType)
      && saved.value.id == result.value.id.GetOr(now)
      && saved.value.accuracy == Some(Accuracy(SafelyParseFloat(result.value.weight), SafelyParseFloat(actualWeight)))
      && saved.value.timestamp == nowTime
      && store.scans == [saved.value] + old(store.scans)
  {
    if image.None? || image == Some("") || result.None? {
      return None;
    }
    var r := result.value;
    var record := ScanData(r.id, None, if confirmedCategory != "" then confirmedCategory else wasteType, r.weight, actualWeight);
    var sc := store.SaveScan(record, now, nowTime);
    saved := Some(sc);
  }

  /** Confirming a fallback estimate unchanged stamps a full accuracy of 100. */
  lemma AcceptedEstimateScoresFull(x: real)
    requires x >= 0.05
    ensures Accuracy(SafelyParseFloat(Str(ToFixed2(Finite(x)))), SafelyParseFloat(Str(ToFixed2(Finite(x))))) == 100.0
  {
    FixedEstimateReadsBack(x);
    assert Cents(x) >= 5;
  }

  // ---------------------------------------------------------------------------
  // Selection, chart and tile
  // ---------------------------------------------------------------------------

  /** The ids of the scans, in order. */
  function Ids(scans: seq<Scan>): (ids: seq<int>)
    ensures |ids| == |scans|
    ensures forall k :: 0 <= k < |scans| ==> ids[k] == scans[k].id
  {
    seq(|scans|, k requires 0 <= k < |scans| => scans[k].id)
  }

  /** `toggleSelectAll`: clear when as many ids are selected as there are scans, else select them all. */
  function ToggleSelectAll(selected: seq<int>, recent: seq<Scan>): (r: seq<int>)
    ensures |selected| == |recent| ==> r == []
    ensures |selected| != |recent| ==> r == Ids(recent)
  {
    if |selected| == |recent| then [] else Ids(recent)
  }

  /** With scans present, two presses of select-all starting from everything selected clear the
      selection and then select every scan again. */
  lemma SelectAllTwiceRestores(recent: seq<Scan>)
    requires recent != []
    ensures ToggleSelectAll(Ids(recent), recent) == []
    ensures ToggleSelectAll(ToggleSelectAll(Ids(recent), recent), recent) == Ids(recent)
  {
  }

  /** `toggleSelectOne`: remove the id when it is selected, append it otherwise. */
  function ToggleSelectOne(selected: seq<int>, id: int): (r: seq<int>)
    ensures id in r <==> id !in selected
    ensures forall x :: x != id ==> (x in r <==> x in selected)
  {
    if id in selected then Remove(selected, id) else selected + [id]
  }

  /** Ticking an unselected row and unticking it gives back exactly the previous selection. */
  lemma ToggleOneTwice(selected: seq<int>, id: int)
    requires id !in selected
    ensures ToggleSelectOne(ToggleSelectOne(selected, id), id) == selected
  {
    RemoveAppend(selected, [id], id);
    RemoveAbsent(selected, id);
    assert Remove([id], id) == [];
  }

  /** One point of the accuracy chart. */
  datatype ChartPoint = ChartPoint(sample: nat, accuracy: real, id: int)

  /** `chartData`: the scans oldest first, numbered from 1, with a missing (or zero) accuracy
      plotted as 0. */
  function ChartData(recent: seq<Scan>): (c: seq<ChartPoint>)
    ensures |c| == |recent|
    ensures forall k :: 0 <= k < |c| ==> c[k].sample == k + 1 && c[k].id == recent[|recent| - 1 - k].id
    ensures forall k :: 0 <= k < |c| ==> c[k].accuracy == recent[|recent| - 1 - k].accuracy.GetOr(0.0)
  {
    seq(|recent|, k requires 0 <= k < |recent| =>
      ChartPoint(k + 1, recent[|recent| - 1 - k].accuracy.GetOr(0.0), recent[|recent| - 1 - k].id))
  }

  /** For a store whose accuracies are percentages, every plotted accuracy lies in [0, 100]. */
  lemma ChartAccuracyBounded(recent: seq<Scan>)
    requires AccuraciesBounded(recent)
    ensures forall k :: 0 <= k < |ChartData(recent)| ==> 0.0 <= ChartData(recent)[k].accuracy <= 100.0
  {
  }

  /** The average-weight tile: total over count, "0.00" for an empty store. */
  function AvgWeight(st: Stats): (w: real)
    ensures st.totalItems == 0 ==> w == 0.0
    ensures st.totalItems > 0 ==> w * st.totalItems as real == st.totalWeight
  {
    if st.totalItems > 0 then st.totalWeight / st.totalItems as real else 0.0
  }

  /** The tile shows the statistics' average weight, and 0 when there are no samples. */
  lemma AvgWeightIsAverage(scans: seq<Scan>)
    ensures scans == [] ==> AvgWeight(StatsOf(scans)) == 0.0
    ensures scans != [] ==> AvgWeight(StatsOf(scans)) == StatsOf(scans).averageWeight.value
    ensures scans != [] ==> AvgWeight(StatsOf(scans)) == Mean(Weights(scans))
  {
  }
}
