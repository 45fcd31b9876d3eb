/** The signal generator shared by the demo view and the predictor screen:
    a Fisher-Yates shuffle of the cell indices 0..24, the labelling of the
    25-cell grid from a prefix of the shuffled indices, and the confidence
    score. Math.random() is replaced by integer draws chosen by the caller. */
module Signal {

  /** One grid cell (GridItemType). */
  datatype Cell = Empty | Star | Mine

  /** Number of cells of the 5x5 grid (totalCells). */
  const TotalCells: nat := 25

  /** Number of cells revealed as stars by the demo and by the 1-trap signal. */
  const RevealedStars: nat := 5

  /** Array.from({ length: n }, (_, i) => i) */
  function Range(n: nat): (r: seq<int>)
    ensures |r| == n
    ensures forall i :: 0 <= i < n ==> r[i] == i
  {
    seq(n, i => i)
  }

  ghost predicate Distinct(s: seq<int>)
  {
    forall p, q :: 0 <= p < q < |s| ==> s[p] != s[q]
  }

  ghost predicate AllBelow(s: seq<int>, n: nat)
  {
    forall p :: 0 <= p < |s| ==> 0 <= s[p] < n
  }

  /** The random source of one shuffle of n indices: draws[i] is the index j
      that Math.floor(Math.random() * (i + 1)) yields when the loop is at i,
      so it lies in [0, i]. draws[0] is never read (the loop stops at i = 1). */
  ghost predicate ValidDraws(draws: seq<nat>, n: nat)
  {
    |draws| == n && forall i :: 0 <= i < n ==> draws[i] <= i
  }

  /** [s[i], s[j]] = [s[j], s[i]] */
  function SwapAt(s: seq<int>, i: nat, j: nat): seq<int>
    requires i < |s| && j < |s|
  {
    s[i := s[j]][j := s[i]]
  }

  /** The remaining iterations of the shuffle loop, from position i down to 1. */
  function ShuffleDown(s: seq<int>, draws: seq<nat>, i: int): (r: seq<int>)
    requires i < |s| && ValidDraws(draws, |s|)
    ensures |r| == |s|
    decreases i
  {
    if i <= 0 then s else ShuffleDown(SwapAt(s, i, draws[i]), draws, i - 1)
  }

  /** The whole loop: for (i = s.length - 1; i > 0; i--) swap s[i] with s[draws[i]]. */
  function FisherYates(s: seq<int>, draws: seq<nat>): (r: seq<int>)
    requires ValidDraws(draws, |s|)
    ensures |r| == |s|
  {
    ShuffleDown(s, draws, |s| - 1)
  }

  lemma SwapPreserves(s: seq<int>, i: nat, j: nat, n: nat)
    requires i < |s| && j < |s|
    ensures |SwapAt(s, i, j)| == |s|
    ensures multiset(SwapAt(s, i, j)) == multiset(s)
    ensures Distinct(s) ==> Distinct(SwapAt(s, i, j))
    ensures AllBelow(s, n) ==> AllBelow(SwapAt(s, i, j), n)
  {
  }

  /** Every step of the loop only swaps two entries, so the shuffle is a
      permutation and keeps distinctness and the value range. */
  lemma {:induction false} ShuffleDownPreserves(s: seq<int>, draws: seq<nat>, i: int, n: nat)
    requires i < |s| && ValidDraws(draws, |s|)
    ensures |ShuffleDown(s, draws, i)| == |s|
    ensures multiset(ShuffleDown(s, draws, i)) == multiset(s)
    ensures Distinct(s) ==> Distinct(ShuffleDown(s, draws, i))
    ensures AllBelow(s, n) ==> AllBelow(ShuffleDown(s, draws, i), n)
    decreases i
  {
    if i > 0 {
      SwapPreserves(s, i, draws[i], n);
      ShuffleDownPreserves(SwapAt(s, i, draws[i]), draws, i - 1, n);
    }
  }

  /** The shuffled index list is a permutation of 0..n-1: it has the same
      multiset as Range(n), no repeated entry and every entry in [0, n). */
  lemma FisherYatesPermutesRange(n: nat, draws: seq<nat>)
    requires ValidDraws(draws, n)
    ensures |FisherYates(Range(n), draws)| == n
    ensures multiset(FisherYates(Range(n), draws)) == multiset(Range(n))
    ensures Distinct(FisherYates(Range(n), draws))
    ensures AllBelow(FisherYates(Range(n), draws), n)
  {
    ShuffleDownPreserves(Range(n), draws, n - 1, n);
  }

  /** The shuffle loop of handleGetSignal, run in place on allIndices. */
  method ShuffleIndices(n: nat, draws: seq<nat>) returns (indices: seq<int>)
    requires ValidDraws(draws, n)
    ensures indices == FisherYates(Range(n), draws)
    ensures |indices| == n && multiset(indices) == multiset(Range(n))
    ensures Distinct(indices) && AllBelow(indices, n)
  {
    var allIndices := new int[n](i => i);
    assert allIndices[..] == Range(n);
    var i: int := n - 1;
    while i > 0
      invariant -1 <= i < n
      invariant ShuffleDown(allIndices[..], draws, i) == FisherYates(Range(n), draws)
      decreases i
    {
      var j := draws[i];
      ghost var before := allIndices[..];
      allIndices[i], allIndices[j] := allIndices[j], allIndices[i];
      assert allIndices[..] == SwapAt(before, i, j);
      i := i - 1;
    }
    indices := allIndices[..];
    FisherYatesPermutesRange(n, draws);
  }

  /** grid.map((_, index) => selected.includes(index) ? hit : miss) over n cells. */
  function Label(n: nat, selected: seq<int>, hit: Cell, miss: Cell): seq<Cell>
  {
    seq(n, index => if index in selected then hit else miss)
  }

  /** The number of cells of g labelled c. */
  function Count(g: seq<Cell>, c: Cell): (k: nat)
    ensures k <= |g|
  {
    if g == [] then 0 else Count(g[..|g| - 1], c) + (if g[|g| - 1] == c then 1 else 0)
  }

  /** The entries of sel that lie in [0, m). */
  ghost function SelectedBelow(sel: seq<int>, m: int): set<int>
  {
    set x | x in sel && 0 <= x < m
  }

  lemma {:induction false} CountLabelPrefix(n: nat, sel: seq<int>, hit: Cell, miss: Cell, m: nat)
    requires hit != miss && m <= n
    ensures Count(Label(n, sel, hit, miss)[..m], hit) == |SelectedBelow(sel, m)|
    ensures Count(Label(n, sel, hit, miss)[..m], miss) == m - |SelectedBelow(sel, m)|
  {
    var g := Label(n, sel, hit, miss);
    if m == 0 {
      assert SelectedBelow(sel, 0) == {};
    } else {
      CountLabelPrefix(n, sel, hit, miss, m - 1);
      assert g[..m][..m - 1] == g[..m - 1];
      if m - 1 in sel {
        assert SelectedBelow(sel, m) == SelectedBelow(sel, m - 1) + {m - 1};
      } else {
        assert SelectedBelow(sel, m) == SelectedBelow(sel, m - 1);
      }
    }
  }

  /** A list of distinct values has as many elements as its set. */
  lemma {:induction false} DistinctCard(s: seq<int>)
    requires Distinct(s)
    ensures |set x | x in s| == |s|
  {
    if s != [] {
      var init := s[..|s| - 1];
      DistinctCard(init);
      assert (set x | x in s) == (set x | x in init) + {s[|s| - 1]};
      assert s[|s| - 1] !in init;
    }
  }

  /** Labelling n cells from k distinct indices in [0, n) gives exactly k hits
      and n - k misses. */
  lemma LabelCounts(n: nat, sel: seq<int>, hit: Cell, miss: Cell)
    requires hit != miss && Distinct(sel) && AllBelow(sel, n)
    ensures |Label(n, sel, hit, miss)| == n
    ensures Count(Label(n, sel, hit, miss), hit) == |sel|
    ensures Count(Label(n, sel, hit, miss), miss) == n - |sel|
  {
    var g := Label(n, sel, hit, miss);
    CountLabelPrefix(n, sel, hit, miss, n);
    assert g[..n] == g;
    assert SelectedBelow(sel, n) == set x | x in sel;
    DistinctCard(sel);
  }

  lemma {:induction false} CountAbsent(g: seq<Cell>, c: Cell)
    requires forall p :: 0 <= p < |g| ==> g[p] != c
    ensures Count(g, c) == 0
  {
    if g != [] {
      CountAbsent(g[..|g| - 1], c);
    }
  }

  lemma {:induction false} CountUniform(g: seq<Cell>, c: Cell)
    requires forall p :: 0 <= p < |g| ==> g[p] == c
    ensures Count(g, c) == |g|
  {
    if g != [] {
      CountUniform(g[..|g| - 1], c);
    }
  }

  /** The k indices that a shuffle of the 25 cells puts first: allIndices.slice(0, k). */
  function ShuffledPrefix(k: nat, draws: seq<nat>): seq<int>
    requires k <= TotalCells && ValidDraws(draws, TotalCells)
  {
    FisherYates(Range(TotalCells), draws)[..k]
  }

  lemma ShuffledPrefixIndices(k: nat, draws: seq<nat>)
    requires k <= TotalCells && ValidDraws(draws, TotalCells)
    ensures |ShuffledPrefix(k, draws)| == k
    ensures Distinct(ShuffledPrefix(k, draws)) && AllBelow(ShuffledPrefix(k, draws), TotalCells)
  {
    FisherYatesPermutesRange(TotalCells, draws);
  }

  /** The 5 selected indices are distinct cell positions of the grid. */
  lemma StarIndicesDistinct(draws: seq<nat>)
    requires ValidDraws(draws, TotalCells)
    ensures |ShuffledPrefix(RevealedStars, draws)| == 5
    ensures forall p, q :: 0 <= p < q < 5 ==> ShuffledPrefix(RevealedStars, draws)[p] != ShuffledPrefix(RevealedStars, draws)[q]
    ensures forall p :: 0 <= p < 5 ==> 0 <= ShuffledPrefix(RevealedStars, draws)[p] < 25
  {
    ShuffledPrefixIndices(RevealedStars, draws);
  }

  /** The demo grid and the 1-trap predictor grid: the first 5 shuffled
      indices are stars, every other cell is empty. */
  function StarGrid(draws: seq<nat>): seq<Cell>
    requires ValidDraws(draws, TotalCells)
  {
    Label(TotalCells, ShuffledPrefix(RevealedStars, draws), Star, Empty)
  }

  /** The 3- and 5-trap predictor grid: the first k shuffled indices are
      mines, every other cell is a star. */
  function MineGrid(k: nat, draws: seq<nat>): seq<Cell>
    requires k <= TotalCells && ValidDraws(draws, TotalCells)
  {
    Label(TotalCells, ShuffledPrefix(k, draws), Mine, Star)
  }

  /** The grid generated for a trap selection, as the two branches of
      handleGetSignal choose it. */
  function PredictorGrid(traps: nat, draws: seq<nat>): seq<Cell>
    requires traps <= TotalCells && ValidDraws(draws, TotalCells)
  {
    if traps == 1 then StarGrid(draws) else MineGrid(traps, draws)
  }

  /** A star signal: 25 cells, 5 stars, 20 empty, no mine. */
  ghost predicate IsStarSignal(g: seq<Cell>)
  {
    |g| == TotalCells && Count(g, Star) == RevealedStars && Count(g, Empty) == TotalCells - RevealedStars
    && Count(g, Mine) == 0
  }

  /** A mine signal with k traps: 25 cells, k mines, 25 - k stars, no empty cell. */
  ghost predicate IsMineSignal(g: seq<Cell>, k: nat)
  {
    |g| == TotalCells && k <= TotalCells && Count(g, Mine) == k && Count(g, Star) == TotalCells - k
    && Count(g, Empty) == 0
  }

  lemma StarGridCounts(draws: seq<nat>)
    requires ValidDraws(draws, TotalCells)
    ensures IsStarSignal(StarGrid(draws))
  {
    var g := StarGrid(draws);
    ShuffledPrefixIndices(RevealedStars, draws);
    LabelCounts(TotalCells, ShuffledPrefix(RevealedStars, draws), Star, Empty);
    CountAbsent(g, Mine);
  }

  lemma MineGridCounts(k: nat, draws: seq<nat>)
    requires k <= TotalCells && ValidDraws(draws, TotalCells)
    ensures IsMineSignal(MineGrid(k, draws), k)
  {
    var g := MineGrid(k, draws);
    ShuffledPrefixIndices(k, draws);
    LabelCounts(TotalCells, ShuffledPrefix(k, draws), Mine, Star);
    CountAbsent(g, Empty);
  }

  /** Whatever the draws: one trap yields 5 stars and 20 empty cells, three or
      five traps yield exactly that many mines and stars everywhere else. */
  lemma PredictorGridCounts(traps: nat, draws: seq<nat>)
    requires traps in {1, 3, 5} && ValidDraws(draws, TotalCells)
    ensures traps == 1 ==> IsStarSignal(PredictorGrid(traps, draws))
    ensures traps != 1 ==> IsMineSignal(PredictorGrid(traps, draws), traps)
  {
    if traps == 1 {
      StarGridCounts(draws);
    } else {
      MineGridCounts(traps, draws);
    }
  }

  /** The grid shown before any signal and after a refresh: Array(25).fill('empty'). */
  function EmptyGrid(): (g: seq<Cell>)
    ensures |g| == TotalCells
  {
    seq(TotalCells, _ => Empty)
  }

  lemma EmptyGridCounts()
    ensures Count(EmptyGrid(), Empty) == TotalCells
    ensures Count(EmptyGrid(), Star) == 0 && Count(EmptyGrid(), Mine) == 0
  {
    CountUniform(EmptyGrid(), Empty);
    CountAbsent(EmptyGrid(), Star);
    CountAbsent(EmptyGrid(), Mine);
  }

  /** Math.floor(Math.random() * (99 - 70 + 1)) + 70, with the random part
      given as an offset in [0, 29]. */
  function Confidence(offset: nat): (c: int)
    requires offset < 99 - 70 + 1
    ensures 70 <= c <= 99
  {
    offset + 70
  }

  /** Every confidence in [70, 99] is produced by some draw. */
  lemma ConfidenceCoversRange(c: int)
    requires 70 <= c <= 99
    ensures exists offset: nat :: offset < 30 && Confidence(offset) == c
  {
    var offset: nat := c - 70;
    assert Confidence(offset) == c;
  }
}
