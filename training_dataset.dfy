/** The training-dataset table: a weight-range filter whose bounds are the raw text of two inputs,
    four sort orders, the average, minimum and maximum of the filtered rows, and a set of ticked
    row ids with select-all, single toggling and the choice of ids to export. */
module TrainingDataset {
  import opened Common
  import opened JsValues
  import opened Storage

  // ---------------------------------------------------------------------------
  // Filter
  // ---------------------------------------------------------------------------

  /** The weight of a row as the table reads it: plain `parseFloat`. */
  function RowWeight(sc: Scan): Number
  {
    ParseFloat(sc.weight)
  }

  /** A row stays unless a non-empty lower bound exceeds its weight or a non-empty upper bound is
      below it. Comparisons involving NaN are false, so a row whose weight or bound does not parse
      is never excluded by that bound. */
  predicate PassesFilter(sc: Scan, minWeight: string, maxWeight: string)
    ensures RowWeight(sc).NaN? ==> PassesFilter(sc, minWeight, maxWeight)
    ensures ParseFloatString(minWeight).NaN? && ParseFloatString(maxWeight).NaN? ==> PassesFilter(sc, minWeight, maxWeight)
  {
    && !(minWeight != "" && Less(RowWeight(sc), ParseFloatString(minWeight)))
    && !(maxWeight != "" && Less(ParseFloatString(maxWeight), RowWeight(sc)))
  }

  /** `filteredData`: the rows that pass, in order. */
  function FilteredData(scans: seq<Scan>, minWeight: string, maxWeight: string): (r: seq<Scan>)
    ensures |r| <= |scans|
    ensures forall sc :: sc in r <==> sc in scans && PassesFilter(sc, minWeight, maxWeight)
  {
    if scans == [] then []
    else FilteredData(scans[..|scans| - 1], minWeight, maxWeight)
         + (if PassesFilter(scans[|scans| - 1], minWeight, maxWeight) then [scans[|scans| - 1]] else [])
  }

  /** For a row whose weight parses and bounds that are empty or parse: the row passes exactly when
      it is at least the lower bound and at most the upper bound. */
  lemma PassesFilterNumeric(sc: Scan, minWeight: string, maxWeight: string)
    requires RowWeight(sc).Finite?
    requires minWeight == "" || ParseFloatString(minWeight).Finite?
    requires maxWeight == "" || ParseFloatString(maxWeight).Finite?
    ensures PassesFilter(sc, minWeight, maxWeight) <==>
      && (minWeight == "" || RowWeight(sc).value >= ParseFloatString(minWeight).value)
      && (maxWeight == "" || RowWeight(sc).value <= ParseFloatString(maxWeight).value)
  {
  }

  /** Empty bounds keep every row. */
  lemma {:induction false} NoBoundsKeepAll(scans: seq<Scan>)
    ensures FilteredData(scans, "", "") == scans
  {
    if scans != [] {
      NoBoundsKeepAll(scans[..|scans| - 1]);
      assert PassesFilter(scans[|scans| - 1], "", "");
      assert scans[..|scans| - 1] + [scans[|scans| - 1]] == scans;
    }
  }

  // ---------------------------------------------------------------------------
  // Sort
  // ---------------------------------------------------------------------------

  /** The orders of the sort picker; any other value of the picker state is `Unrecognised`. */
  datatype SortOrder = DateDesc | DateAsc | WeightDesc | WeightAsc | Unrecognised

  /** The sort key under an order: the comparator returns a negative number for (a, b) exactly when
      a's key is below b's. Descending orders negate; an unreadable weight and the unrecognised
      order give NaN, which is below nothing (the comparator then returns NaN or 0, meaning equal). */
  function Key(order: SortOrder, sc: Scan): Number
  {
    match order
    case DateDesc => Finite(-(sc.timestamp as real))
    case DateAsc => Finite(sc.timestamp as real)
    case WeightDesc => if RowWeight(sc).Finite? then Finite(-RowWeight(sc).value) else NaN
    case WeightAsc => RowWeight(sc)
    case Unrecognised => NaN
  }

  /** The comparator says a goes before b. */
  predicate Before(order: SortOrder, a: Scan, b: Scan)
  {
    Less(Key(order, a), Key(order, b))
  }

  /** The comparator's sign for the four named orders. */
  lemma BeforeMeans(order: SortOrder, a: Scan, b: Scan)
    ensures order == DateDesc ==> (Before(order, a, b) <==> a.timestamp > b.timestamp)
    ensures order == DateAsc ==> (Before(order, a, b) <==> a.timestamp < b.timestamp)
    ensures order == WeightDesc ==> (Before(order, a, b) <==>
      RowWeight(a).Finite? && RowWeight(b).Finite? && RowWeight(a).value > RowWeight(b).value)
    ensures order == WeightAsc ==> (Before(order, a, b) <==>
      RowWeight(a).Finite? && RowWeight(b).Finite? && RowWeight(a).value < RowWeight(b).value)
    ensures order == Unrecognised ==> !Before(order, a, b)
  {
  }

  /** Put x into a sorted list after every element it does not go before (so ties keep their order). */
  function Insert(order: SortOrder, s: seq<Scan>, x: Scan): (r: seq<Scan>)
    ensures |r| == |s| + 1
  {
    if s == [] then [x]
    else
      var p, last := s[..|s| - 1], s[|s| - 1];
      if Before(order, x, last) then Insert(order, p, x) + [last] else s + [x]
  }

  /** Inserting adds exactly the one row. */
  lemma {:induction false} InsertPermutes(order: SortOrder, s: seq<Scan>, x: Scan)
    ensures multiset(Insert(order, s, x)) == multiset(s) + multiset{x}
  {
    if s != [] {
      var p, last := s[..|s| - 1], s[|s| - 1];
      assert s == p + [last];
      if Before(order, x, last) {
        InsertPermutes(order, p, x);
      }
    }
  }

  /** `sortedData`: a stable sort of the filtered rows under the comparator. */
  function SortedData(order: SortOrder, s: seq<Scan>): (r: seq<Scan>)
    ensures |r| == |s|
    ensures multiset(r) == multiset(s)
  {
    if s == [] then []
    else
      var p, last := s[..|s| - 1], s[|s| - 1];
      assert s == p + [last];
      InsertPermutes(order, SortedData(order, p), last);
      Insert(order, SortedData(order, p), last)
  }

  /** Every key under the order is a number (always for dates, when every weight parses for weights). */
  predicate KeysFinite(order: SortOrder, s: seq<Scan>)
  {
    forall k :: 0 <= k < |s| ==> Key(order, s[k]).Finite?
  }

  /** Keys never decrease along the list. */
  predicate SortedBy(order: SortOrder, s: seq<Scan>)
    requires KeysFinite(order, s)
  {
    forall i, j :: 0 <= i < j < |s| ==> Key(order, s[i]).value <= Key(order, s[j]).value
  }

  /** Appending an element whose key is at least every other key keeps a list sorted. */
  lemma SortedAppend(order: SortOrder, q: seq<Scan>, y: Scan)
    requires KeysFinite(order, q) && Key(order, y).Finite? && SortedBy(order, q)
    requires forall k :: 0 <= k < |q| ==> Key(order, q[k]).value <= Key(order, y).value
    ensures KeysFinite(order, q + [y])
    ensures SortedBy(order, q + [y])
  {
    var r := q + [y];
    forall i, j | 0 <= i < j < |r| ensures Key(order, r[i]).value <= Key(order, r[j]).value {
      if j < |q| {
        assert r[i] == q[i] && r[j] == q[j];
      } else {
        assert r[i] == q[i] && r[j] == y;
      }
    }
  }

  /** In a sorted list every key is at most the last one. */
  lemma SortedLast(order: SortOrder, s: seq<Scan>)
    requires |s| > 0 && KeysFinite(order, s) && SortedBy(order, s)
    ensures forall k :: 0 <= k < |s| ==> Key(order, s[k]).value <= Key(order, s[|s| - 1]).value
  {
    forall k | 0 <= k < |s| - 1 ensures Key(order, s[k]).value <= Key(order, s[|s| - 1]).value {
      assert k < |s| - 1;
    }
  }

  /** A row that does not go before the last row of a sorted list is appended, and the list stays
      sorted. */
  lemma InsertAfterLast(order: SortOrder, s: seq<Scan>, x: Scan)
    requires s != [] && KeysFinite(order, s) && Key(order, x).Finite? && SortedBy(order, s)
    requires !Before(order, x, s[|s| - 1])
    ensures Insert(order, s, x) == s + [x]
    ensures KeysFinite(order, s + [x]) && SortedBy(order, s + [x])
  {
    SortedLast(order, s);
    SortedAppend(order, s, x);
  }

  /** Inserting a row whose key is at most b into rows whose keys are all at most b gives rows whose
      keys are all at most b. */
  lemma {:induction false} InsertBounded(order: SortOrder, s: seq<Scan>, x: Scan, b: real)
    requires KeysFinite(order, s) && Key(order, x).Finite?
    requires forall k :: 0 <= k < |s| ==> Key(order, s[k]).value <= b
    requires Key(order, x).value <= b
    ensures KeysFinite(order, Insert(order, s, x))
    ensures forall k :: 0 <= k < |Insert(order, s, x)| ==> Key(order, Insert(order, s, x)[k]).value <= b
  {
    if s != [] {
      var p, last := s[..|s| - 1], s[|s| - 1];
      if Before(order, x, last) {
        assert forall k :: 0 <= k < |p| ==> p[k] == s[k];
        InsertBounded(order, p, x, b);
        var r := Insert(order, p, x) + [last];
        assert Insert(order, s, x) == r;
        assert forall k :: 0 <= k < |r| - 1 ==> r[k] == Insert(order, p, x)[k];
      } else {
        assert Insert(order, s, x) == s + [x];
      }
    }
  }

  /** Inserting into a sorted list keeps it sorted. */
  lemma {:induction false} InsertSorted(order: SortOrder, s: seq<Scan>, x: Scan)
    requires KeysFinite(order, s) && Key(order, x).Finite? && SortedBy(order, s)
    ensures KeysFinite(order, Insert(order, s, x))
    ensures SortedBy(order, Insert(order, s, x))
  {
    if s != [] {
      var p, last := s[..|s| - 1], s[|s| - 1];
      if Before(order, x, last) {
        assert forall k :: 0 <= k < |p| ==> p[k] == s[k];
        SortedLast(order, s);
        InsertSorted(order, p, x);
        InsertBounded(order, p, x, Key(order, last).value);
        SortedAppend(order, Insert(order, p, x), last);
        assert Insert(order, s, x) == Insert(order, p, x) + [last];
      } else {
        InsertAfterLast(order, s, x);
      }
    }
  }

  /** The sorted rows are ordered by the key whenever every key is a number; under an unrecognised
      order they are the rows as they were. */
  lemma {:induction false} SortedDataOrdered(order: SortOrder, s: seq<Scan>)
    requires KeysFinite(order, s)
    ensures KeysFinite(order, SortedData(order, s))
    ensures SortedBy(order, SortedData(order, s))
  {
    if s != [] {
      var p := s[..|s| - 1];
      assert KeysFinite(order, p);
      SortedDataOrdered(order, p);
      InsertSorted(order, SortedData(order, p), s[|s| - 1]);
    }
  }

  /** Sorting a non-empty list inserts its last row into the sorted rest. */
  lemma SortedDataStep(order: SortOrder, s: seq<Scan>)
    requires s != []
    ensures SortedData(order, s) == Insert(order, SortedData(order, s[..|s| - 1]), s[|s| - 1])
  {
  }

  /** Under an unrecognised order a row goes before nothing, so it is inserted at the end. */
  lemma InsertAtEnd(s: seq<Scan>, x: Scan)
    ensures Insert(Unrecognised, s, x) == s + [x]
  {
  }

  /** Under an unrecognised order the last row stays last when the rows before it do not move. */
  lemma UnrecognisedStep(s: seq<Scan>)
    requires s != [] && SortedData(Unrecognised, s[..|s| - 1]) == s[..|s| - 1]
    ensures SortedData(Unrecognised, s) == s
  {
    var p, last := s[..|s| - 1], s[|s| - 1];
    SortedDataStep(Unrecognised, s);
    InsertAtEnd(p, last);
    assert p + [last] == s;
  }

  /** Under an unrecognised order nothing moves. */
  lemma {:induction false} UnrecognisedKeepsOrder(s: seq<Scan>)
    ensures SortedData(Unrecognised, s) == s
  {
    if s != [] {
      UnrecognisedKeepsOrder(s[..|s| - 1]);
      UnrecognisedStep(s);
    }
  }

  // ---------------------------------------------------------------------------
  // Footer statistics
  // ---------------------------------------------------------------------------

  /** The running minimum `if (w < min) min = w` started at the first weight. */
  function RunMin(ws: seq<Number>): (r: Number)
    requires |ws| > 0
    ensures ws[0].NaN? ==> r.NaN?
    ensures ws[0].Finite? ==> r.Finite?
  {
    if |ws| == 1 then ws[0]
    else
      var m := RunMin(ws[..|ws| - 1]);
      if Less(ws[|ws| - 1], m) then ws[|ws| - 1] else m
  }

  /** The running maximum `if (w > max) max = w` started at 0. */
  function RunMax(ws: seq<Number>): (r: Number)
    ensures r.Finite? && r.value >= 0.0
  {
    if ws == [] then Finite(0.0)
    else
      var m := RunMax(ws[..|ws| - 1]);
      if Less(m, ws[|ws| - 1]) then ws[|ws| - 1] else m
  }

  /** When the first weight does not parse the minimum stays NaN; otherwise it is one of the
      weights and no parsed weight is below it. */
  lemma {:induction false} RunMinProperties(ws: seq<Number>)
    requires |ws| > 0
    ensures ws[0].Finite? ==> RunMin(ws) in ws
    ensures ws[0].Finite? ==> forall k :: 0 <= k < |ws| && ws[k].Finite? ==> RunMin(ws).value <= ws[k].value
  {
    if |ws| > 1 {
      var p := ws[..|ws| - 1];
      RunMinProperties(p);
      assert p[0] == ws[0];
      assert forall k :: 0 <= k < |p| ==> p[k] == ws[k];
    }
  }

  /** The maximum is either 0 or one of the weights, and at least every parsed weight. */
  lemma {:induction false} RunMaxProperties(ws: seq<Number>)
    ensures RunMax(ws) == Finite(0.0) || RunMax(ws) in ws
    ensures forall k :: 0 <= k < |ws| && ws[k].Finite? ==> ws[k].value <= RunMax(ws).value
  {
    if ws != [] {
      var p := ws[..|ws| - 1];
      RunMaxProperties(p);
      assert forall k :: 0 <= k < |p| ==> p[k] == ws[k];
    }
  }

  /** One more weight updates the total, the running minimum and the running maximum as the loop
      body does. */
  lemma FooterStep(ws: seq<Number>, i: nat)
    requires i < |ws|
    ensures NumSum(ws[..i + 1]) == Plus(NumSum(ws[..i]), ws[i])
    ensures RunMax(ws[..i + 1]) == if Less(RunMax(ws[..i]), ws[i]) then ws[i] else RunMax(ws[..i])
    ensures i > 0 ==> RunMin(ws[..i + 1]) == if Less(ws[i], RunMin(ws[..i])) then ws[i] else RunMin(ws[..i])
  {
    assert ws[..i + 1][..i] == ws[..i];
  }

  /** The weights of the rows as the footer reads them. */
  function RowWeights(rows: seq<Scan>): (ws: seq<Number>)
    ensures |ws| == |rows|
    ensures forall k :: 0 <= k < |rows| ==> ws[k] == RowWeight(rows[k])
  {
    seq(|rows|, k requires 0 <= k < |rows| => RowWeight(rows[k]))
  }

  /** The footer figures (the source renders them with two decimals). */
  datatype FooterStats = FooterStats(avg: Number, min: Number, max: Number)

  /** `stats`: zeros for an empty view, else the average, running minimum and running maximum. */
  method FooterStatsOf(rows: seq<Scan>) returns (st: FooterStats)
    ensures rows == [] ==> st == FooterStats(Finite(0.0), Finite(0.0), Finite(0.0))
    ensures rows != [] ==> st == FooterStats(DivideBy(NumSum(RowWeights(rows)), |rows|),
                                            RunMin(RowWeights(rows)), RunMax(RowWeights(rows)))
    ensures rows != [] && AllFinite(RowWeights(rows)) ==> st.avg == Finite(Mean(Values(RowWeights(rows))))
    ensures rows != [] && !AllFinite(RowWeights(rows)) ==> st.avg.NaN?
  {
    if |rows| == 0 {
      return FooterStats(Finite(0.0), Finite(0.0), Finite(0.0));
    }
    var ws := RowWeights(rows);
    var total := Finite(0.0);
    var min := RowWeight(rows[0]);
    var max := Finite(0.0);
    var i := 0;
    while i < |rows|
      invariant 0 <= i <= |rows|
      invariant total == NumSum(ws[..i])
      invariant max == RunMax(ws[..i])
      invariant i > 0 ==> min == RunMin(ws[..i])
      invariant i == 0 ==> min == ws[0]
    {
      var w := RowWeight(rows[i]);
      FooterStep(ws, i);
      total := Plus(total, w);
      if Less(w, min) {
        min := w;
      }
      if Less(max, w) {
        max := w;
      }
      i := i + 1;
    }
    assert ws[..i] == ws;
    if AllFinite(ws) {
      NumMean(ws);
    }
    st := FooterStats(DivideBy(total, |rows|), min, max);
  }

  // ---------------------------------------------------------------------------
  // Selection
  // ---------------------------------------------------------------------------

  /** `new Set(ids)`: the ids in order of first occurrence. */
  function Dedup(ids: seq<int>): (r: seq<int>)
    ensures NoDups(r)
    ensures forall x :: x in r <==> x in ids
  {
    if ids == [] then []
    else
      var p := Dedup(ids[..|ids| - 1]);
      assert forall x :: x in ids <==> x in ids[..|ids| - 1] || x == ids[|ids| - 1];
      if ids[|ids| - 1] in p then p else p + [ids[|ids| - 1]]
  }

  /** `handleSelectAll`: clear when as many ids are ticked as rows are shown, else tick every shown row.
      The ticked ids are a set, so their count is the length of a duplicate-free sequence. */
  function HandleSelectAll(selected: seq<int>, filtered: seq<Scan>): (r: seq<int>)
    requires NoDups(selected)
    ensures |selected| == |filtered| ==> r == []
    ensures |selected| != |filtered| ==> forall x :: x in r <==> exists k :: 0 <= k < |filtered| && filtered[k].id == x
    ensures NoDups(r)
  {
    if |selected| == |filtered| then [] else
      var ids := seq(|filtered|, k requires 0 <= k < |filtered| => filtered[k].id);
      assert forall k :: 0 <= k < |filtered| ==> ids[k] == filtered[k].id;
      Dedup(ids)
  }

  /** `toggleSelection`: untick a ticked id, tick an unticked one (ticked ids keep their order, a new
      one goes last). */
  function ToggleSelection(selected: seq<int>, id: int): (r: seq<int>)
    requires NoDups(selected)
    ensures NoDups(r)
    ensures id in r <==> id !in selected
    ensures forall x :: x != id ==> (x in r <==> x in selected)
  {
    if id in selected then RemoveNoDups(selected, id); Remove(selected, id)
    else selected + [id]
  }

  /** Toggling the same id twice gives back the same set of ticked ids. */
  lemma ToggleSelectionTwice(selected: seq<int>, id: int)
    requires NoDups(selected)
    ensures forall x :: x in ToggleSelection(ToggleSelection(selected, id), id) <==> x in selected
  {
  }

  /** `handleExportSelection`: the ticked ids when any are ticked, else every shown row's id. */
  function ExportIds(selected: seq<int>, filtered: seq<Scan>): (r: seq<int>)
    ensures selected != [] ==> r == selected
    ensures selected == [] ==> |r| == |filtered| && forall k :: 0 <= k < |filtered| ==> r[k] == filtered[k].id
  {
    if |selected| > 0 then selected else seq(|filtered|, k requires 0 <= k < |filtered| => filtered[k].id)
  }
}
