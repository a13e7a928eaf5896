/** The lightweight backend estimator: a two-level table of running-average weights per material and
    object type, updated in place from user corrections, and the estimator that reads it. */
module MaterialDb {
  import opened Common

  /** One (material, object type) cell. A table read from disk may lack `min` and `max`. */
  datatype Entry = Entry(avg: real, count: nat, std: real, min: Option<real>, max: Option<real>)

  /** material -> object type -> cell. */
  type Table = map<string, map<string, Entry>>

  /** The material every unknown name falls back to. */
  const MixedWaste: string := "Mixed Waste"

  function Seeded(avg: real, std: real, min: real, max: real): Entry
  {
    Entry(avg, 0, std, Some(min), Some(max))
  }

  /** The table used when none is on disk (weights in kg, no samples yet). */
  function DefaultTable(): (t: Table)
    ensures MixedWaste in t
    ensures forall m :: m in t ==> "default" in t[m] && t[m]["default"].count == 0
  {
    map[
      "Plastic" := map[
        "bottle" := Seeded(0.020, 0.005, 0.010, 0.035),
        "bag" := Seeded(0.005, 0.002, 0.002, 0.010),
        "container" := Seeded(0.050, 0.015, 0.030, 0.100),
        "cup" := Seeded(0.010, 0.003, 0.005, 0.020),
        "default" := Seeded(0.025, 0.010, 0.010, 0.050)],
      "Glass" := map[
        "bottle" := Seeded(0.300, 0.100, 0.150, 0.500),
        "jar" := Seeded(0.200, 0.050, 0.100, 0.350),
        "default" := Seeded(0.250, 0.100, 0.100, 0.500)],
      "Metal" := map[
        "can" := Seeded(0.015, 0.003, 0.010, 0.025),
        "tin" := Seeded(0.100, 0.030, 0.050, 0.200),
        "default" := Seeded(0.050, 0.020, 0.010, 0.150)],
      "Paper" := map[
        "sheet" := Seeded(0.005, 0.001, 0.003, 0.010),
        "cardboard" := Seeded(0.050, 0.020, 0.020, 0.100),
        "default" := Seeded(0.020, 0.010, 0.005, 0.050)],
      "Organic" := map["default" := Seeded(0.100, 0.050, 0.020, 0.300)],
      MixedWaste := map["default" := Seeded(0.050, 0.030, 0.010, 0.200)]
    ]
  }

  // ---------------------------------------------------------------------------
  // Material names: str.strip().title()
  // ---------------------------------------------------------------------------

  /** The characters `str.strip()` removes (the ASCII and Latin-1 ones). */
  predicate IsSpace(c: char)
  {
    c == ' ' || '\t' <= c <= '\r' || '\U{1C}' <= c <= '\U{1F}' || c == '\U{85}' || c == '\U{A0}'
  }

  function StripStart(s: string): (r: string)
    ensures |r| <= |s| && r == s[|s| - |r|..]
    ensures forall i :: 0 <= i < |s| - |r| ==> IsSpace(s[i])
    ensures r == [] || !IsSpace(r[0])
  {
    if s != [] && IsSpace(s[0]) then
      var r := StripStart(s[1..]);
      assert s[|s| - |r|..] == s[1..][|s| - 1 - |r|..];
      assert forall i :: 1 <= i < |s| - |r| ==> s[i] == s[1..][i - 1];
      r
    else s
  }

  function StripEnd(s: string): (r: string)
    ensures |r| <= |s| && r == s[..|r|]
    ensures forall i :: |r| <= i < |s| ==> IsSpace(s[i])
    ensures r == [] || !IsSpace(r[|r| - 1])
  {
    if s != [] && IsSpace(s[|s| - 1]) then StripEnd(s[..|s| - 1]) else s
  }

  /** `str.strip()`: the string without leading and trailing white space. */
  function Strip(s: string): (r: string)
    ensures r == [] || (!IsSpace(r[0]) && !IsSpace(r[|r| - 1]))
  {
    StripEnd(StripStart(s))
  }

  predicate IsUpper(c: char) { 'A' <= c <= 'Z' }

  predicate IsLower(c: char) { 'a' <= c <= 'z' }

  predicate IsCased(c: char) { IsUpper(c) || IsLower(c) }

  function ToUpper(c: char): char { if IsLower(c) then (c as int - 32) as char else c }

  function ToLower(c: char): char { if IsUpper(c) then (c as int + 32) as char else c }

  /** A cased character that does not follow a cased character starts a word. */
  predicate StartsWord(s: string, i: int)
    requires 0 <= i < |s|
  {
    IsCased(s[i]) && (i == 0 || !IsCased(s[i - 1]))
  }

  /** `str.title()` on ASCII letters: the first letter of every run of letters upper case, the
      others lower case, everything else as it was. */
  function Title(s: string): (r: string)
    ensures |r| == |s|
    ensures forall i {:trigger r[i]} :: 0 <= i < |s| ==> IsCased(r[i]) == IsCased(s[i]) && ToLower(r[i]) == ToLower(s[i])
    ensures forall i {:trigger r[i]} :: 0 <= i < |s| ==> !IsCased(s[i]) ==> r[i] == s[i]
    ensures forall i {:trigger r[i]} :: 0 <= i < |s| ==> StartsWord(s, i) ==> IsUpper(r[i])
    ensures forall i {:trigger r[i]} :: 0 <= i < |s| ==> IsCased(s[i]) && !StartsWord(s, i) ==> IsLower(r[i])
  {
    seq(|s|, i requires 0 <= i < |s| =>
      if StartsWord(s, i) then ToUpper(s[i]) else ToLower(s[i]))
  }

  /** Title-casing twice is title-casing once. */
  lemma TitleIdempotent(s: string)
    ensures Title(Title(s)) == Title(s)
  {
    var t := Title(s);
    forall i | 0 <= i < |s| ensures Title(t)[i] == t[i] {
      assert StartsWord(t, i) == StartsWord(s, i);
    }
  }

  /** The material name as the table is searched for it. */
  function Normalize(material: string): (r: string)
    ensures |r| <= |material|
  {
    Title(Strip(material))
  }

  /** Stripping text that neither starts nor ends with white space changes nothing. */
  lemma StripUnpadded(n: string)
    requires n == [] || (!IsSpace(n[0]) && !IsSpace(n[|n| - 1]))
    ensures Strip(n) == n
  {
    assert StripStart(n) == n;
    assert StripEnd(n) == n;
  }

  /** Title-casing leaves white space where it was, so an unpadded name stays unpadded. */
  lemma TitleUnpadded(t: string)
    requires t == [] || (!IsSpace(t[0]) && !IsSpace(t[|t| - 1]))
    ensures var n := Title(t); n == [] || (!IsSpace(n[0]) && !IsSpace(n[|n| - 1]))
  {
    var n := Title(t);
    if n != [] {
      assert IsCased(n[0]) == IsCased(t[0]) && (!IsCased(t[0]) ==> n[0] == t[0]);
      assert IsCased(n[|n| - 1]) == IsCased(t[|t| - 1]) && (!IsCased(t[|t| - 1]) ==> n[|n| - 1] == t[|t| - 1]);
    }
  }

  /** Normalising a normalised name changes nothing. */
  lemma NormalizeIdempotent(material: string)
    ensures Normalize(Normalize(material)) == Normalize(material)
  {
    var t := Strip(material);
    TitleUnpadded(t);
    StripUnpadded(Title(t));
    TitleIdempotent(t);
  }

  /** Title-casing a mis-cased table name gives the table's own spelling. */
  lemma TitleExample(s: string)
    requires s == "mixed WASTE"
    ensures Title(s) == MixedWaste
  {
    var r := Title(s);
    assert StartsWord(s, 0) && StartsWord(s, 6);
    assert forall i :: 1 <= i < |s| && i != 6 ==> !StartsWord(s, i);
    forall i | 0 <= i < |s| ensures r[i] == MixedWaste[i] {
      assert r[i] == if StartsWord(s, i) then ToUpper(s[i]) else ToLower(s[i]);
    }
  }

  /** A lower-case name with stray blanks finds the table's own spelling. */
  lemma NormalizeExample()
    ensures Normalize(" mixed WASTE\n") == MixedWaste
  {
    var s := " mixed WASTE\n";
    assert StripStart(s[1..]) == s[1..];
    assert StripStart(s) == s[1..];
    assert StripEnd(s[1..][..11]) == s[1..][..11];
    assert StripEnd(s[1..]) == s[1..][..11];
    assert s[1..][..11] == "mixed WASTE";
    TitleExample(s[1..][..11]);
  }

  /** The material a weight lookup or an update uses: the normalised name when the table has it,
      otherwise 'Mixed Waste'. */
  function Resolve(t: Table, material: string): (m: string)
    ensures m in t || m == MixedWaste
    ensures m == Normalize(material) || (Normalize(material) !in t && m == MixedWaste)
  {
    if Normalize(material) in t then Normalize(material) else MixedWaste
  }

  // ---------------------------------------------------------------------------
  // Lookups
  // ---------------------------------------------------------------------------

  /** The object type whose cell a lookup or an update uses: the requested one when present, else
      'default' when present, else the requested one (which is then absent). */
  function TargetType(data: map<string, Entry>, objectType: string): (k: string)
    ensures k in data <==> objectType in data || "default" in data
    ensures k == objectType || (objectType !in data && k == "default")
  {
    if objectType in data then objectType else if "default" in data then "default" else objectType
  }

  /** `get_weight`: the average of the cell used, or 0.050 kg when the material has neither the
      object type nor a 'default' cell. */
  function WeightOf(t: Table, material: string, objectType: string): (w: real)
    requires MixedWaste in t
    ensures var data := t[Resolve(t, material)];
      w == if TargetType(data, objectType) in data then data[TargetType(data, objectType)].avg else 0.050
  {
    var data := t[Resolve(t, material)];
    if objectType in data then data[objectType].avg
    else if "default" in data then data["default"].avg
    else 0.050
  }

  /** `get_confidence`: 50 + 5 per sample, capped at 95; 50 when the normalised name is not in the
      table (no 'Mixed Waste' fallback here) or the material has no usable cell. */
  function ConfidenceOf(t: Table, material: string, objectType: string): (c: real)
    ensures 50.0 <= c <= 95.0
    ensures Normalize(material) !in t ==> c == 50.0
    ensures Normalize(material) in t && TargetType(t[Normalize(material)], objectType) in t[Normalize(material)] ==>
      c == Min(50.0 + 5.0 * t[Normalize(material)][TargetType(t[Normalize(material)], objectType)].count as real, 95.0)
  {
    var m := Normalize(material);
    if m !in t then 50.0
    else
      var data := t[m];
      if objectType in data then Min(50.0 + data[objectType].count as real * 5.0, 95.0)
      else if "default" in data then Min(50.0 + data["default"].count as real * 5.0, 95.0)
      else 50.0
  }

  // ---------------------------------------------------------------------------
  // Updates
  // ---------------------------------------------------------------------------

  /** Dividing by a positive count and multiplying back gives the dividend. */
  lemma QuotientTimes(s: real, n: nat)
    requires n > 0
    ensures (s / n as real) * n as real == s
  {
  }

  /** The mean of n samples averaging avg and one more sample w. */
  function RunningAvg(avg: real, n: nat, w: real): real
  {
    (avg * n as real + w) / (n + 1) as real
  }

  /** The new mean weighs the old one by its count and the new sample by one. */
  lemma RunningAvgProduct(avg: real, n: nat, w: real)
    ensures RunningAvg(avg, n, w) * (n + 1) as real == avg * n as real + w
  {
  }

  /** One more sample w in a cell: running mean, count + 1, min and max widened, std kept. */
  function Bump(e: Entry, w: real): (r: Entry)
    ensures r.count == e.count + 1 && r.std == e.std
    ensures r.avg == RunningAvg(e.avg, e.count, w)
  {
    Entry(RunningAvg(e.avg, e.count, w), e.count + 1, e.std,
          Some(Min(e.min.GetOr(w), w)), Some(Max(e.max.GetOr(w), w)))
  }

  /** The new min and max enclose the sample and the old min and max. */
  lemma BumpRange(e: Entry, w: real)
    ensures var r := Bump(e, w);
      && r.min.Some? && r.min.value <= w && (e.min.Some? ==> r.min.value <= e.min.value)
      && r.max.Some? && r.max.value >= w && (e.max.Some? ==> r.max.value >= e.max.value)
  {
  }

  /** The cell created for an object type a material lacks. */
  function Fresh(w: real): Entry
  {
    Entry(w, 1, 0.0, Some(w), Some(w))
  }

  /** The table after `update(material, objectType, w)`. */
  function Updated(t: Table, material: string, objectType: string, w: real): (r: Table)
    requires MixedWaste in t
    ensures r.Keys == t.Keys
  {
    var m := Resolve(t, material);
    var data := t[m];
    var k := TargetType(data, objectType);
    t[m := data[k := if k in data then Bump(data[k], w) else Fresh(w)]]
  }

  /** An update changes one cell of one material: every other material and every other cell of that
      material is as it was, and no cell disappears. */
  lemma UpdateIsLocal(t: Table, material: string, objectType: string, w: real)
    requires MixedWaste in t
    ensures var r := Updated(t, material, objectType, w);
      var m := Resolve(t, material);
      && (forall other :: other in t && other != m ==> r[other] == t[other])
      && t[m].Keys <= r[m].Keys
      && r[m].Keys <= t[m].Keys + {objectType}
      && (forall k :: k in t[m] && k != TargetType(t[m], objectType) ==> r[m][k] == t[m][k])
  {
  }

  /** After an update, the weight looked up for the same name and object type is the running mean
      that includes w (or w itself for a created cell). */
  lemma {:induction false} WeightAfterUpdate(t: Table, material: string, objectType: string, w: real)
    requires MixedWaste in t
    ensures var data := t[Resolve(t, material)];
      var k := TargetType(data, objectType);
      WeightOf(Updated(t, material, objectType, w), material, objectType) ==
        if k in data then RunningAvg(data[k].avg, data[k].count, w) else w
  {
    var r := Updated(t, material, objectType, w);
    var m := Resolve(t, material);
    assert Resolve(r, material) == m;
    var data := t[m];
    var k := TargetType(data, objectType);
    assert TargetType(r[m], objectType) == k;
  }

  /** After an update of a known material the confidence read for it grows by 5, up to 95. */
  lemma ConfidenceAfterUpdate(t: Table, material: string, objectType: string, w: real)
    requires MixedWaste in t
    requires Normalize(material) in t
    requires TargetType(t[Normalize(material)], objectType) in t[Normalize(material)]
    ensures ConfidenceOf(Updated(t, material, objectType, w), material, objectType) ==
      Min(ConfidenceOf(t, material, objectType) + 5.0, 95.0)
  {
    var m := Normalize(material);
    var r := Updated(t, material, objectType, w);
    assert TargetType(r[m], objectType) == TargetType(t[m], objectType);
  }

  /** A sequence of samples fed into one cell. */
  function Replay(e: Entry, ws: seq<real>): (r: Entry)
    ensures r.count == e.count + |ws|
  {
    if ws == [] then e else Bump(Replay(e, ws[..|ws| - 1]), ws[|ws| - 1])
  }

  /** The average of a cell with n samples averaging avg after the samples ws. */
  function ReplayAvg(avg: real, n: nat, ws: seq<real>): real
  {
    if ws == [] then avg else RunningAvg(ReplayAvg(avg, n, ws[..|ws| - 1]), n + |ws| - 1, ws[|ws| - 1])
  }

  /** Replaying samples into a cell moves its average as ReplayAvg says. */
  lemma {:induction false} ReplayAvgOfCell(e: Entry, ws: seq<real>)
    ensures Replay(e, ws).avg == ReplayAvg(e.avg, e.count, ws)
  {
    if ws != [] {
      ReplayAvgOfCell(e, ws[..|ws| - 1]);
    }
  }

  /** The running average always weighs the old average by the old count and every new sample by one. */
  lemma {:induction false} ReplayIsRunningMean(avg: real, n: nat, ws: seq<real>)
    ensures ReplayAvg(avg, n, ws) * (n + |ws|) as real == avg * n as real + Sum(ws)
  {
    if ws != [] {
      var p := ws[..|ws| - 1];
      ReplayIsRunningMean(avg, n, p);
      RunningAvgProduct(ReplayAvg(avg, n, p), n + |p|, ws[|ws| - 1]);
    }
  }

  /** Starting from a cell with no samples, the average after the corrections is their mean. */
  lemma CorrectionsFromZeroGiveMean(e: Entry, ws: seq<real>)
    requires e.count == 0 && |ws| > 0
    ensures Replay(e, ws).avg == Mean(ws)
  {
    ReplayAvgOfCell(e, ws);
    MeanFromEmpty(e.avg, ws);
  }

  /** From no samples, the running average is the mean of the samples. */
  lemma MeanFromEmpty(avg: real, ws: seq<real>)
    requires |ws| > 0
    ensures ReplayAvg(avg, 0, ws) == Mean(ws)
  {
    var a := ReplayAvg(avg, 0, ws);
    ReplayFromEmpty(avg, ws);
    assert a * |ws| as real == Sum(ws);
    DivideBack(a, Sum(ws), |ws|);
  }

  /** From no samples, the running average times the number of samples is their sum. */
  lemma {:induction false} ReplayFromEmpty(avg: real, ws: seq<real>)
    ensures ReplayAvg(avg, 0, ws) * |ws| as real == Sum(ws)
  {
    if ws != [] {
      var p := ws[..|ws| - 1];
      ReplayFromEmpty(avg, p);
      RunningAvgProduct(ReplayAvg(avg, 0, p), |p|, ws[|ws| - 1]);
    }
  }

  /** a * n == s with n > 0 means a == s / n. */
  lemma DivideBack(a: real, s: real, n: nat)
    requires n > 0 && a * n as real == s
    ensures a == s / n as real
  {
  }

  /** After corrections the cell's min and max enclose every correction. */
  lemma {:induction false} ReplayRange(e: Entry, ws: seq<real>)
    requires |ws| > 0
    ensures Replay(e, ws).min.Some? && Replay(e, ws).max.Some?
    ensures forall i :: 0 <= i < |ws| ==> Replay(e, ws).min.value <= ws[i] <= Replay(e, ws).max.value
  {
    if |ws| > 1 {
      var p := ws[..|ws| - 1];
      ReplayRange(e, p);
      BumpRange(Replay(e, p), ws[|ws| - 1]);
      assert forall i :: 0 <= i < |p| ==> p[i] == ws[i];
    }
  }

  /** The table after the corrections ws, one `update(material, objectType, w)` each, in order. */
  function UpdatedAll(t: Table, material: string, objectType: string, ws: seq<real>): (r: Table)
    requires MixedWaste in t
    ensures r.Keys == t.Keys
  {
    if ws == [] then t
    else Updated(UpdatedAll(t, material, objectType, ws[..|ws| - 1]), material, objectType, ws[|ws| - 1])
  }

  /** When the cell a name and object type resolve to exists, repeated corrections through them all
      land in that one cell, which then holds the replay of the corrections; the material's object
      types stay as they were. */
  lemma {:induction false} UpdatedAllReplays(t: Table, material: string, objectType: string, ws: seq<real>)
    requires MixedWaste in t
    requires TargetType(t[Resolve(t, material)], objectType) in t[Resolve(t, material)]
    ensures var r := UpdatedAll(t, material, objectType, ws);
      var m := Resolve(t, material);
      var k := TargetType(t[m], objectType);
      && Resolve(r, material) == m
      && r[m].Keys == t[m].Keys
      && TargetType(r[m], objectType) == k
      && r[m][k] == Replay(t[m][k], ws)
  {
    var m := Resolve(t, material);
    var k := TargetType(t[m], objectType);
    if ws != [] {
      var p := ws[..|ws| - 1];
      UpdatedAllReplays(t, material, objectType, p);
      var q := UpdatedAll(t, material, objectType, p);
      assert Resolve(q, material) == m;
      assert TargetType(q[m], objectType) == k;
      var r := Updated(q, material, objectType, ws[|ws| - 1]);
      assert r == UpdatedAll(t, material, objectType, ws);
      assert r[m] == q[m][k := Bump(q[m][k], ws[|ws| - 1])];
    }
  }

  /** After the corrections ws the weight looked up for the same name and object type is the
      average of the cell they all went to, replayed through ws. */
  lemma WeightAfterCorrections(t: Table, material: string, objectType: string, ws: seq<real>)
    requires MixedWaste in t
    requires TargetType(t[Resolve(t, material)], objectType) in t[Resolve(t, material)]
    ensures var m := Resolve(t, material);
      WeightOf(UpdatedAll(t, material, objectType, ws), material, objectType) ==
        Replay(t[m][TargetType(t[m], objectType)], ws).avg
  {
    UpdatedAllReplays(t, material, objectType, ws);
  }

  /** Starting from the default table, corrections of a material's 'default' weight make the weight
      read back the mean of the corrections, whatever the material name. */
  lemma DefaultTableLearnsMean(material: string, ws: seq<real>)
    requires |ws| > 0
    ensures WeightOf(UpdatedAll(DefaultTable(), material, "default", ws), material, "default") == Mean(ws)
  {
    var t := DefaultTable();
    var m := Resolve(t, material);
    assert TargetType(t[m], "default") == "default";
    WeightAfterCorrections(t, material, "default", ws);
    CorrectionsFromZeroGiveMean(t[m]["default"], ws);
  }

  /** Starting from the default table, n corrections of a known material's 'default' weight raise
      its confidence to 50 + 5n, capped at 95. */
  lemma DefaultTableConfidenceGrows(material: string, ws: seq<real>)
    requires Normalize(material) in DefaultTable()
    ensures ConfidenceOf(UpdatedAll(DefaultTable(), material, "default", ws), material, "default") ==
      Min(50.0 + 5.0 * |ws| as real, 95.0)
  {
    var t := DefaultTable();
    var m := Resolve(t, material);
    assert TargetType(t[m], "default") == "default";
    UpdatedAllReplays(t, material, "default", ws);
  }

  /** The statistics row of one cell (rendered rounded to three decimals; a missing min or max reads 0). */
  datatype CellStats = CellStats(avgWeight: real, samples: nat, min: real, max: real)

  function CellStatsOf(e: Entry): CellStats
  {
    CellStats(e.avg, e.count, e.min.GetOr(0.0), e.max.GetOr(0.0))
  }

  // ---------------------------------------------------------------------------
  // The table as a stateful object
  // ---------------------------------------------------------------------------

  class MaterialWeightDB {
    var weights: Table

    /** The fallback material is present, so lookups and updates never miss. */
    ghost predicate Valid()
      reads this
    {
      MixedWaste in weights
    }

    /** A table read from disk, or the defaults. */
    constructor (loaded: Option<Table>)
      requires loaded.Some? ==> MixedWaste in loaded.value
      ensures Valid()
      ensures weights == if loaded.Some? then loaded.value else DefaultTable()
    {
      weights := if loaded.Some? then loaded.value else DefaultTable();
    }

    function GetWeight(material: string, objectType: string): (w: real)
      reads this
      requires Valid()
      ensures w == WeightOf(weights, material, objectType)
    {
      WeightOf(weights, material, objectType)
    }

    function GetConfidence(material: string, objectType: string): (c: real)
      reads this
      ensures c == ConfidenceOf(weights, material, objectType)
      ensures 50.0 <= c <= 95.0
    {
      ConfidenceOf(weights, material, objectType)
    }

    /** `update`: fold one sample into the cell for the resolved material and object type, creating
        the cell when the material has neither that type nor 'default'. */
    method Update(material: string, objectType: string, newWeight: real)
      requires Valid()
      modifies this
      ensures Valid()
      ensures weights == Updated(old(weights), material, objectType, newWeight)
    {
      var m := Resolve(weights, material);
      var data := weights[m];
      var key := objectType;
      if key !in data {
        if "default" in data {
          key := "default";
        } else {
          weights := weights[m := data[key := Fresh(newWeight)]];
          return;
        }
      }
      var entry := data[key];
      var oldAvg := entry.avg;
      var oldCount := entry.count;
      var newAvg := RunningAvg(oldAvg, oldCount, newWeight);
      entry := entry.(avg := newAvg, count := oldCount + 1);
      entry := entry.(min := Some(Min(entry.min.GetOr(newWeight), newWeight)));
      entry := entry.(max := Some(Max(entry.max.GetOr(newWeight), newWeight)));
      assert key == TargetType(data, objectType);
      assert entry == Bump(data[key], newWeight);
      weights := weights[m := data[key := entry]];
    }

    /** `get_stats`: one row per cell of every material. */
    method GetStats() returns (stats: map<string, map<string, CellStats>>)
      ensures stats.Keys == weights.Keys
      ensures forall m :: m in weights ==> stats[m].Keys == weights[m].Keys
      ensures forall m, k :: m in weights && k in weights[m] ==> stats[m][k] == CellStatsOf(weights[m][k])
    {
      stats := map[];
      var rest := weights.Keys;
      while rest != {}
        invariant rest <= weights.Keys
        invariant stats.Keys == weights.Keys - rest
        invariant forall m :: m in stats ==> stats[m] == map k | k in weights[m] :: CellStatsOf(weights[m][k])
        decreases rest
      {
        var m :| m in rest;
        var data := weights[m];
        stats := stats[m := map k | k in data :: CellStatsOf(data[k])];
        rest := rest - {m};
      }
    }
  }

  // ---------------------------------------------------------------------------
  // The estimator on top of the table
  // ---------------------------------------------------------------------------

  /** `SimpleObjectEstimator.estimate_count`: one object, whether or not the image opens. */
  function EstimateCount(imagePath: string): (n: nat)
    ensures n >= 1
  {
    1
  }

  datatype Prediction = Prediction(weight: real, confidence: real, objectCount: nat,
                                   detectedObjects: seq<string>, objectType: string,
                                   unitWeight: real, methodName: string)

  datatype Correction = Correction(unitWeight: real, objectCount: nat, objectType: string)

  class WeightEstimatorV2Lite {
    const db: MaterialWeightDB

    constructor (loaded: Option<Table>)
      requires loaded.Some? ==> MixedWaste in loaded.value
      ensures fresh(db) && db.Valid()
      ensures db.weights == if loaded.Some? then loaded.value else DefaultTable()
    {
      db := new MaterialWeightDB(loaded);
    }

    /** `predict`: the 'default' weight of the material times the object count, with the
        material's confidence; the image only feeds the object count. */
    function Predict(imagePath: string, material: string): (p: Prediction)
      reads this, db
      requires db.Valid()
      ensures p.objectCount >= 1
      ensures p.unitWeight == WeightOf(db.weights, material, "default")
      ensures p.weight == p.unitWeight * p.objectCount as real
      ensures p.confidence == ConfidenceOf(db.weights, material, "default")
      ensures 50.0 <= p.confidence <= 95.0
      ensures p.detectedObjects == [] && p.objectType == "default"
      ensures p.methodName == "Material Database (Lite)"
    {
      var count := EstimateCount(imagePath);
      var unit := db.GetWeight(material, "default");
      Prediction(unit * count as real, db.GetConfidence(material, "default"), count, [], "default",
                 unit, "Material Database (Lite)")
    }

    /** Two photos of the same material get the same prediction. */
    lemma PredictIgnoresImage(a: string, b: string, material: string)
      requires db.Valid()
      ensures Predict(a, material) == Predict(b, material)
    {
      var count := EstimateCount(a);
      assert EstimateCount(b) == count;
      var unit := db.GetWeight(material, "default");
      assert Predict(a, material).weight == unit * count as real == Predict(b, material).weight;
    }

    /** `update_from_correction`: the corrected weight divided by at least one object is folded
        into the material's 'default' cell. */
    method UpdateFromCorrection(imagePath: string, material: string, actualWeight: real) returns (c: Correction)
      requires db.Valid()
      modifies db
      ensures db.Valid()
      ensures c.objectCount >= 1 && c.unitWeight * c.objectCount as real == actualWeight
      ensures db.weights == Updated(old(db.weights), material, "default", c.unitWeight)
    {
      // `max(count, 1)` is the count itself, which is never below 1
      var objectCount := EstimateCount(imagePath);
      var unit := actualWeight / objectCount as real;
      QuotientTimes(actualWeight, objectCount);
      db.Update(material, "default", unit);
      c := Correction(unit, objectCount, "default");
    }
  }
}
