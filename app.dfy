/**
 * The dashboard's own logic: the search query it stores, the order in which
 * it lays out the live market snapshots, and the history requests it issues
 * when a stock or a timeframe is chosen.
 */
module App {
  import opened Wrappers
  import StockChartModal

  // ---------------------------------------------------------------------------
  // Data model
  // ---------------------------------------------------------------------------

  /** One symbol of the live feed; the card's other display fields pass through untouched. */
  datatype Snapshot = Snapshot(symbol: string, strengthPercent: real)

  // ---------------------------------------------------------------------------
  // The search query
  // ---------------------------------------------------------------------------

  function UpperChar(c: char): char
  {
    if 'a' <= c <= 'z' then (c as int - 32) as char else c
  }

  /** `toUpperCase` on ASCII letters. */
  function ToUpper(s: string): (r: string)
    ensures |r| == |s|
    ensures forall i :: 0 <= i < |s| ==> r[i] == UpperChar(s[i])
  {
    if s == [] then [] else [UpperChar(s[0])] + ToUpper(s[1..])
  }

  /** What the search box stores: the typed text with every lower-case letter raised and nothing else changed. */
  function SearchQuery(typed: string): (q: string)
    ensures |q| == |typed|
    ensures forall i :: 0 <= i < |q| ==> !('a' <= q[i] <= 'z')
    ensures forall i :: 0 <= i < |q| && !('a' <= typed[i] <= 'z') ==> q[i] == typed[i]
    ensures forall i :: 0 <= i < |q| && 'a' <= typed[i] <= 'z' ==> q[i] as int == typed[i] as int - 32
  {
    ToUpper(typed)
  }

  /** A stored query holds no lower-case letter, and normalising it again changes nothing. */
  lemma SearchQueryNormalised(typed: string)
    ensures forall i :: 0 <= i < |SearchQuery(typed)| ==> !('a' <= SearchQuery(typed)[i] <= 'z')
    ensures SearchQuery(SearchQuery(typed)) == SearchQuery(typed)
  {
  }

  // ---------------------------------------------------------------------------
  // Substring test
  // ---------------------------------------------------------------------------

  /** `s.includes(q)`: the empty query is in every string, and a longer query in none. */
  function Includes(s: string, q: string): (r: bool)
    ensures q == [] ==> r
    ensures r ==> |q| <= |s|
  {
    q <= s || (s != [] && Includes(s[1..], q))
  }

  /** `q` occurs in `s` starting at offset `k`. */
  ghost predicate OccursAt(s: string, q: string, k: nat)
  {
    k + |q| <= |s| && s[k..k + |q|] == q
  }

  /** A slice of the tail is the slice of the whole string one place further on. */
  lemma TailSlice(s: string, k: nat, n: nat)
    requires k + 1 + n <= |s|
    ensures s[1..][k..k + n] == s[k + 1..k + 1 + n]
  {
  }

  /** A successful `Includes` has an offset at which the query occurs. */
  lemma {:induction false} IncludesWitness(s: string, q: string) returns (k: nat)
    requires Includes(s, q)
    ensures OccursAt(s, q, k)
    decreases |s|
  {
    if q <= s {
      k := 0;
    } else {
      var k' := IncludesWitness(s[1..], q);
      TailSlice(s, k', |q|);
      k := k' + 1;
    }
  }

  /** An occurrence at any offset makes `Includes` hold. */
  lemma {:induction false} OccursIncludes(s: string, q: string, k: nat)
    requires OccursAt(s, q, k)
    ensures Includes(s, q)
    decreases k
  {
    if k > 0 {
      TailSlice(s, k - 1, |q|);
      OccursIncludes(s[1..], q, k - 1);
    } else {
      assert s[..|q|] == q;
    }
  }

  /** `Includes` holds exactly when `q` occurs in `s` at some offset. */
  lemma IncludesIff(s: string, q: string)
    ensures Includes(s, q) <==> exists k: nat :: OccursAt(s, q, k)
  {
    if Includes(s, q) {
      var k := IncludesWitness(s, q);
    }
    if exists k: nat :: OccursAt(s, q, k) {
      var k: nat :| OccursAt(s, q, k);
      OccursIncludes(s, q, k);
    }
  }

  /**
   * Only the query is upper-cased: a symbol written without capitals never
   * matches a query that contains a letter.
   */
  lemma LowerCaseSymbolNeverMatches(symbol: string, typed: string, j: nat)
    requires forall i :: 0 <= i < |symbol| ==> !('A' <= symbol[i] <= 'Z')
    requires j < |typed| && ('a' <= typed[j] <= 'z' || 'A' <= typed[j] <= 'Z')
    ensures !Includes(symbol, SearchQuery(typed))
  {
    var q := SearchQuery(typed);
    assert 'A' <= q[j] <= 'Z';
    IncludesIff(symbol, q);
    forall k: nat | k + |q| <= |symbol| ensures !OccursAt(symbol, q, k) {
      assert symbol[k..k + |q|][j] == symbol[k + j];
    }
  }

  // ---------------------------------------------------------------------------
  // The comparator
  // ---------------------------------------------------------------------------

  /**
   * The sort callback: with a non-empty query, a matching symbol goes before
   * a non-matching one; otherwise the stronger snapshot goes first.
   */
  function Compare(query: string, a: Snapshot, b: Snapshot): (r: real)
    ensures query != [] && Includes(a.symbol, query) && !Includes(b.symbol, query) ==> r < 0.0
    ensures query != [] && !Includes(a.symbol, query) && Includes(b.symbol, query) ==> r > 0.0
    ensures query == [] || Includes(a.symbol, query) == Includes(b.symbol, query) ==>
      (r < 0.0 <==> a.strengthPercent > b.strengthPercent) && (r == 0.0 <==> a.strengthPercent == b.strengthPercent)
  {
    var aMatch := Includes(a.symbol, query);
    var bMatch := Includes(b.symbol, query);
    if query != [] && aMatch && !bMatch then -1.0
    else if query != [] && !aMatch && bMatch then 1.0
    else b.strengthPercent - a.strengthPercent
  }

  /** `a` may stand before `b`. */
  predicate Precedes(query: string, a: Snapshot, b: Snapshot)
  {
    Compare(query, a, b) <= 0.0
  }

  /** Swapping the arguments negates the result. */
  lemma CompareAntisymmetric(query: string, a: Snapshot, b: Snapshot)
    ensures Compare(query, a, b) == -Compare(query, b, a)
  {
  }

  /** Both "may precede" and "strictly precedes" are transitive: the callback is a strict weak order. */
  lemma CompareTransitive(query: string, a: Snapshot, b: Snapshot, c: Snapshot)
    ensures Precedes(query, a, b) && Precedes(query, b, c) ==> Precedes(query, a, c)
    ensures Compare(query, a, b) < 0.0 && Compare(query, b, c) < 0.0 ==> Compare(query, a, c) < 0.0
    ensures Compare(query, a, b) == 0.0 && Compare(query, b, c) == 0.0 ==> Compare(query, a, c) == 0.0
  {
  }

  // ---------------------------------------------------------------------------
  // Sorting the copy
  // ---------------------------------------------------------------------------

  ghost predicate Sorted(query: string, r: seq<Snapshot>)
  {
    forall i, j :: 0 <= i < j < |r| ==> Precedes(query, r[i], r[j])
  }

  /** Inserts `x` after every entry it does not strictly precede (keeps the sort stable). */
  function Insert(query: string, x: Snapshot, s: seq<Snapshot>): (r: seq<Snapshot>)
    requires Sorted(query, s)
    ensures Sorted(query, r)
    ensures multiset(r) == multiset(s) + multiset{x}
  {
    if s == [] then [x]
    else if Compare(query, x, s[0]) < 0.0 then
      forall j | 0 <= j < |s| ensures Precedes(query, x, s[j]) {
        CompareTransitive(query, x, s[0], s[j]);
      }
      [x] + s
    else
      var rest := Insert(query, x, s[1..]);
      CompareAntisymmetric(query, x, s[0]);
      forall j | 0 <= j < |rest| ensures Precedes(query, s[0], rest[j]) {
        assert rest[j] in multiset(rest);
      }
      assert s == [s[0]] + s[1..];
      [s[0]] + rest
  }

  /** `[...marketData].sort(callback)`, as a stable insertion sort. */
  function SortSnapshots(query: string, s: seq<Snapshot>): (r: seq<Snapshot>)
    ensures Sorted(query, r)
    ensures multiset(r) == multiset(s)
  {
    if s == [] then []
    else
      assert s == s[..|s| - 1] + [s[|s| - 1]];
      Insert(query, s[|s| - 1], SortSnapshots(query, s[..|s| - 1]))
  }

  /**
   * The ranked list: a permutation of the snapshots in which, for a non-empty
   * query, every match comes before every non-match, and within the matches,
   * within the non-matches, or everywhere when the query is empty, strength
   * never increases.
   */
  function Rank(query: string, snapshots: seq<Snapshot>): (r: seq<Snapshot>)
    ensures multiset(r) == multiset(snapshots)
    ensures forall i, j :: 0 <= i < j < |r| && query != [] && Includes(r[j].symbol, query) ==>
      Includes(r[i].symbol, query)
    ensures forall i, j :: 0 <= i < j < |r| && (query == [] || Includes(r[i].symbol, query) == Includes(r[j].symbol, query)) ==>
      r[i].strengthPercent >= r[j].strengthPercent
  {
    var r := SortSnapshots(query, snapshots);
    assert forall i, j :: 0 <= i < j < |r| ==> Precedes(query, r[i], r[j]);
    r
  }

  /** Of the example's symbols, "A" and "AB" contain the query "A" and "B" does not. */
  lemma ExampleMatches()
    ensures Includes("A", "A") && Includes("AB", "A") && !Includes("B", "A")
  {
    assert !Includes("B", "A") by {
      assert "B"[0] != "A"[0];
      assert !Includes("", "A");
    }
  }

  /** The first two snapshots of the example are already in order. */
  lemma ExampleFirstTwo()
    ensures SortSnapshots("A", [Snapshot("A", 5.0), Snapshot("B", 9.0)]) == [Snapshot("A", 5.0), Snapshot("B", 9.0)]
  {
    var q, a, b := "A", Snapshot("A", 5.0), Snapshot("B", 9.0);
    ExampleMatches();
    assert SortSnapshots(q, [a]) == [a] by {
      assert [a][..0] == [];
    }
    assert Compare(q, b, a) == 1.0;
    assert Insert(q, b, [a]) == [a, b];
    assert [a, b][..1] == [a];
  }

  /** The worked example: {A,5}, {B,9}, {AB,3} under the query "A" rank as A, AB, B. */
  lemma RankExample()
    ensures Rank("A", [Snapshot("A", 5.0), Snapshot("B", 9.0), Snapshot("AB", 3.0)])
         == [Snapshot("A", 5.0), Snapshot("AB", 3.0), Snapshot("B", 9.0)]
  {
    var q, a, b, ab := "A", Snapshot("A", 5.0), Snapshot("B", 9.0), Snapshot("AB", 3.0);
    ExampleMatches();
    ExampleFirstTwo();
    assert Compare(q, ab, a) == 2.0 && Compare(q, ab, b) == -1.0;
    assert Insert(q, ab, [b]) == [ab, b];
    assert Insert(q, ab, [a, b]) == [a, ab, b] by {
      assert [a, b][1..] == [b];
    }
    assert [a, b, ab][..2] == [a, b];
  }

  // ---------------------------------------------------------------------------
  // The market board
  // ---------------------------------------------------------------------------

  /** The grid of cards, or the "Connecting to live feed..." placeholder. */
  datatype Board = Connecting | Cards(stocks: seq<Snapshot>)

  /** Null or empty market data shows the placeholder; otherwise the ranked cards. */
  function MarketBoard(marketData: Option<seq<Snapshot>>, searchQuery: string): (b: Board)
    ensures b.Connecting? <==> marketData == None || marketData == Some([])
    ensures b.Cards? ==> |b.stocks| > 0 && multiset(b.stocks) == multiset(marketData.value)
    ensures b.Cards? ==> b.stocks == Rank(searchQuery, marketData.value)
  {
    if marketData.Some? && |marketData.value| > 0 then Cards(Rank(searchQuery, marketData.value))
    else Connecting
  }

  // ---------------------------------------------------------------------------
  // History requests
  // ---------------------------------------------------------------------------

  const DefaultDays: nat := 30

  /** The `stock-history` request's parameters. */
  datatype HistoryRequest = HistoryRequest(symbol: string, interval: StockChartModal.Interval, days: nat)

  /** `fetchStockHistory`'s parameters after JavaScript's defaults fill the missing ones. */
  function FetchStockHistory(symbol: string, interval: Option<StockChartModal.Interval>, days: Option<nat>): (r: HistoryRequest)
    ensures r.symbol == symbol
    ensures interval.Some? ==> r.interval == interval.value
    ensures days.Some? ==> r.days == days.value
    ensures interval.None? ==> r.interval == StockChartModal.OneDay
    ensures days.None? ==> r.days == DefaultDays
  {
    HistoryRequest(symbol, interval.GetOr(StockChartModal.OneDay), days.GetOr(DefaultDays))
  }

  /** Clicking a stock card passes `'ONE_DAY', 30` explicitly. */
  function StockClick(symbol: string): (r: HistoryRequest)
    ensures r == HistoryRequest(symbol, StockChartModal.OneDay, DefaultDays)
  {
    FetchStockHistory(symbol, Some(StockChartModal.OneDay), Some(30))
  }

  /**
   * A request with no interval and no days is for 30 days of daily bars, and
   * clicking a card asks for exactly that.
   */
  lemma HistoryDefaults(symbol: string)
    ensures FetchStockHistory(symbol, None, None) == HistoryRequest(symbol, StockChartModal.OneDay, 30)
    ensures StockClick(symbol) == FetchStockHistory(symbol, None, None)
  {
  }

  /** The modal's timeframe callback: only the interval is forwarded, whatever days the modal reports. */
  function OnTimeframeChange(selected: string, change: StockChartModal.TimeframeChange): (r: HistoryRequest)
    ensures r.symbol == selected && r.interval == change.interval
    ensures r.days == DefaultDays
  {
    FetchStockHistory(selected, Some(change.interval), None)
  }

  /**
   * Whatever preset is clicked, the request keeps its interval but asks for
   * the default 30 days; only the 1M preset gets the look-back it names.
   */
  lemma TimeframeDaysDropped(selected: string, tf: StockChartModal.Timeframe)
    requires tf in StockChartModal.Timeframes
    ensures OnTimeframeChange(selected, StockChartModal.IntervalClick(tf)).interval == tf.interval
    ensures OnTimeframeChange(selected, StockChartModal.IntervalClick(tf)).days == DefaultDays
    ensures OnTimeframeChange(selected, StockChartModal.IntervalClick(tf)).days == tf.days <==> tf.name == "1M"
  {
  }
}
