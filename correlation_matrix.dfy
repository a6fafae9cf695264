/**
 * The correlation matrix tab: every ordered pair of the first five listed
 * coins, row by row, with the correlation of their seven-day sparklines.
 */
module CorrelationMatrix {
  import opened Wrappers
  import opened Ascii
  import opened Market
  import opened Statistics

  /** How many coins of the market list enter the matrix. */
  const MatrixSize: nat := 5

  /** One cell: the row and column index, both symbols upper-cased, and the coefficient. */
  datatype CorrelationCell = CorrelationCell(x: nat, y: nat, coin1: string, coin2: string, value: real)

  /** `coin.sparkline_in_7d?.price || []`. */
  function SparklineOrEmpty(coin: Coin): seq<real>
  {
    match coin.sparkline
    case None => []
    case Some(prices) => prices
  }

  /** `marketData.slice(0, 5)`. */
  function FirstCoins(market: seq<Coin>): seq<Coin>
  {
    market[..Min(MatrixSize, |market|)]
  }

  /** The cell for row i and column j. */
  function Cell(coins: seq<Coin>, i: nat, j: nat, sqrt: real -> real): CorrelationCell
    requires IsSqrt(sqrt) && i < |coins| && j < |coins|
  {
    CorrelationCell(i, j, Upper(coins[i].symbol), Upper(coins[j].symbol),
      Correlation(SparklineOrEmpty(coins[i]), SparklineOrEmpty(coins[j]), sqrt))
  }

  /** The cells of the coins as a function of row and column; outside the coins it is never used. */
  function CellOf(coins: seq<Coin>, sqrt: real -> real): (nat, nat) -> CorrelationCell
    requires IsSqrt(sqrt)
  {
    (i: nat, j: nat) => if i < |coins| && j < |coins| then Cell(coins, i, j, sqrt) else CorrelationCell(i, j, "", "", 0.0)
  }

  /** The first j cells of row i. */
  function RowPrefix(i: nat, j: nat, cell: (nat, nat) -> CorrelationCell): seq<CorrelationCell>
  {
    if j == 0 then [] else RowPrefix(i, j - 1, cell) + [cell(i, j - 1)]
  }

  /** The first i full rows of n cells each. */
  function Rows(n: nat, i: nat, cell: (nat, nat) -> CorrelationCell): seq<CorrelationCell>
  {
    if i == 0 then [] else Rows(n, i - 1, cell) + RowPrefix(i - 1, n, cell)
  }

  /** The value of `correlationData`: nothing without a market list. */
  function Matrix(marketData: Option<seq<Coin>>, sqrt: real -> real): seq<CorrelationCell>
    requires IsSqrt(sqrt)
  {
    match marketData
    case None => []
    case Some(market) =>
      var coins := FirstCoins(market);
      Rows(|coins|, |coins|, CellOf(coins, sqrt))
  }

  /** The inner `forEach`: push the cells of row i, one per coin. */
  method PushRow(coins: seq<Coin>, i: nat, sqrt: real -> real, before: seq<CorrelationCell>)
    returns (correlations: seq<CorrelationCell>)
    requires IsSqrt(sqrt) && i < |coins|
    ensures correlations == before + RowPrefix(i, |coins|, CellOf(coins, sqrt))
  {
    ghost var cell := CellOf(coins, sqrt);
    correlations := before;
    for j := 0 to |coins|
      invariant correlations == before + RowPrefix(i, j, cell)
    {
      var coin1, coin2 := coins[i], coins[j];
      var value := CalculateCorrelation(SparklineOrEmpty(coin1), SparklineOrEmpty(coin2), sqrt);
      assert cell(i, j) == CorrelationCell(i, j, Upper(coin1.symbol), Upper(coin2.symbol), value);
      correlations := correlations + [CorrelationCell(i, j, Upper(coin1.symbol), Upper(coin2.symbol), value)];
    }
  }

  /**
   * `correlationData`: for each coin i, push its row. The `isNaN` guard never
   * rejects a real number, so every pair is pushed.
   */
  method CorrelationData(marketData: Option<seq<Coin>>, sqrt: real -> real) returns (correlations: seq<CorrelationCell>)
    requires IsSqrt(sqrt)
    ensures correlations == Matrix(marketData, sqrt)
  {
    if marketData.None? {
      return [];
    }
    var coins := FirstCoins(marketData.value);
    correlations := [];
    for i := 0 to |coins|
      invariant correlations == Rows(|coins|, i, CellOf(coins, sqrt))
    {
      correlations := PushRow(coins, i, sqrt, correlations);
    }
  }

  // ---------------------------------------------------------------------------
  // Shape of the matrix
  // ---------------------------------------------------------------------------

  /** a * n by repeated addition, which keeps the index arithmetic linear. */
  function Times(a: nat, n: nat): nat
  {
    if a == 0 then 0 else Times(a - 1, n) + n
  }

  lemma {:induction false} TimesIsProduct(a: nat, n: nat)
    ensures Times(a, n) == a * n
  {
    if a > 0 {
      TimesIsProduct(a - 1, n);
      assert (a - 1) * n + n == a * n;
    }
  }

  lemma {:induction false} RowPrefixAt(i: nat, j: nat, cell: (nat, nat) -> CorrelationCell, q: nat)
    requires q < j
    ensures |RowPrefix(i, j, cell)| == j
    ensures RowPrefix(i, j, cell)[q] == cell(i, q)
  {
    if q < j - 1 {
      RowPrefixAt(i, j - 1, cell, q);
    } else if j > 1 {
      RowPrefixAt(i, j - 1, cell, 0);
    }
  }

  lemma {:induction false} RowPrefixLength(i: nat, j: nat, cell: (nat, nat) -> CorrelationCell)
    ensures |RowPrefix(i, j, cell)| == j
  {
    if j > 0 {
      RowPrefixLength(i, j - 1, cell);
    }
  }

  lemma {:induction false} RowsLength(n: nat, i: nat, cell: (nat, nat) -> CorrelationCell)
    ensures |Rows(n, i, cell)| == Times(i, n)
  {
    if i > 0 {
      RowsLength(n, i - 1, cell);
      RowPrefixLength(i - 1, n, cell);
    }
  }

  lemma {:induction false} RowsAt(n: nat, i: nat, cell: (nat, nat) -> CorrelationCell, p: nat, q: nat)
    requires p < i && q < n
    ensures Times(p, n) + q < |Rows(n, i, cell)|
    ensures Rows(n, i, cell)[Times(p, n) + q] == cell(p, q)
  {
    var before, row := Rows(n, i - 1, cell), RowPrefix(i - 1, n, cell);
    assert Rows(n, i, cell) == before + row;
    RowsLength(n, i - 1, cell);
    RowPrefixAt(i - 1, n, cell, q);
    if p < i - 1 {
      RowsAt(n, i - 1, cell, p, q);
      assert (before + row)[Times(p, n) + q] == before[Times(p, n) + q];
    } else {
      assert Times(p, n) + q == |before| + q;
      assert (before + row)[|before| + q] == row[q];
    }
  }

  /** With k = min(5, number of coins), the matrix has k * k cells. */
  lemma MatrixLength(market: seq<Coin>, sqrt: real -> real)
    requires IsSqrt(sqrt)
    ensures var k := Min(MatrixSize, |market|);
      |Matrix(Some(market), sqrt)| == k * k
  {
    var coins := FirstCoins(market);
    RowsLength(|coins|, |coins|, CellOf(coins, sqrt));
    TimesIsProduct(|coins|, |coins|);
  }

  /**
   * Cells come row-major: the cell at p * k + q is the pair (p, q), with the
   * two upper-cased symbols and the correlation of the two sparklines, a
   * missing sparkline counting as empty.
   */
  lemma MatrixAt(market: seq<Coin>, sqrt: real -> real, p: nat, q: nat)
    requires IsSqrt(sqrt)
    requires p < Min(MatrixSize, |market|) && q < Min(MatrixSize, |market|)
    ensures var k := Min(MatrixSize, |market|);
      0 <= p * k + q < |Matrix(Some(market), sqrt)| &&
      Matrix(Some(market), sqrt)[p * k + q] == CorrelationCell(p, q,
        Upper(market[p].symbol), Upper(market[q].symbol),
        Correlation(SparklineOrEmpty(market[p]), SparklineOrEmpty(market[q]), sqrt))
  {
    var coins := FirstCoins(market);
    var k := |coins|;
    assert k == Min(MatrixSize, |market|);
    var cell := CellOf(coins, sqrt);
    var m := Matrix(Some(market), sqrt);
    assert m == Rows(k, k, cell);
    RowsAt(k, k, cell, p, q);
    TimesIsProduct(p, k);
    assert m[p * k + q] == cell(p, q);
    assert coins[p] == market[p] && coins[q] == market[q];
    assert cell(p, q) == Cell(coins, p, q, sqrt);
  }

  /** No market list, no cells. */
  lemma MatrixWithoutMarket(sqrt: real -> real)
    requires IsSqrt(sqrt)
    ensures Matrix(None, sqrt) == []
  {
  }

  // ---------------------------------------------------------------------------
  // Values of the matrix
  // ---------------------------------------------------------------------------

  /** The cells (p, q) and (q, p) hold the same value. */
  lemma MatrixSymmetric(market: seq<Coin>, sqrt: real -> real, cells: seq<CorrelationCell>, p: nat, q: nat)
    requires IsSqrt(sqrt) && cells == Matrix(Some(market), sqrt)
    requires p < Min(MatrixSize, |market|) && q < Min(MatrixSize, |market|)
    ensures var k := Min(MatrixSize, |market|);
      0 <= p * k + q < |cells| && 0 <= q * k + p < |cells| &&
      cells[p * k + q].value == cells[q * k + p].value
  {
    MatrixAt(market, sqrt, p, q);
    MatrixAt(market, sqrt, q, p);
    CorrelationSymmetric(SparklineOrEmpty(market[p]), SparklineOrEmpty(market[q]), sqrt);
  }

  /** Every value lies in [-1, 1], the range the colour scale is drawn for. */
  lemma MatrixBounded(market: seq<Coin>, sqrt: real -> real, cells: seq<CorrelationCell>, p: nat, q: nat)
    requires IsSqrt(sqrt) && cells == Matrix(Some(market), sqrt)
    requires p < Min(MatrixSize, |market|) && q < Min(MatrixSize, |market|)
    ensures var k := Min(MatrixSize, |market|);
      0 <= p * k + q < |cells| &&
      -1.0 <= cells[p * k + q].value <= 1.0
  {
    MatrixAt(market, sqrt, p, q);
    CorrelationBounded(SparklineOrEmpty(market[p]), SparklineOrEmpty(market[q]), sqrt);
  }

  /** A coin without a sparkline is not left out: its row and column hold 0. */
  lemma MissingSparklineGivesZero(market: seq<Coin>, sqrt: real -> real, cells: seq<CorrelationCell>, p: nat, q: nat)
    requires IsSqrt(sqrt) && cells == Matrix(Some(market), sqrt)
    requires p < Min(MatrixSize, |market|) && q < Min(MatrixSize, |market|)
    requires market[p].sparkline.None?
    ensures var k := Min(MatrixSize, |market|);
      0 <= p * k + q < |cells| && 0 <= q * k + p < |cells| &&
      cells[p * k + q].value == 0.0 &&
      cells[q * k + p].value == 0.0
  {
    MatrixAt(market, sqrt, p, q);
    MatrixAt(market, sqrt, q, p);
    CorrelationShortSeries(SparklineOrEmpty(market[p]), SparklineOrEmpty(market[q]), sqrt);
    CorrelationShortSeries(SparklineOrEmpty(market[q]), SparklineOrEmpty(market[p]), sqrt);
  }

  /** A coin whose sparkline is not constant has 1 on the diagonal. */
  lemma DiagonalIsOne(market: seq<Coin>, sqrt: real -> real, cells: seq<CorrelationCell>, p: nat, a: nat, b: nat)
    requires IsSqrt(sqrt) && cells == Matrix(Some(market), sqrt)
    requires p < Min(MatrixSize, |market|)
    requires market[p].sparkline.Some?
    requires a < |market[p].sparkline.value| && b < |market[p].sparkline.value|
    requires market[p].sparkline.value[a] != market[p].sparkline.value[b]
    ensures var k := Min(MatrixSize, |market|);
      0 <= p * k + p < |cells| &&
      cells[p * k + p].value == 1.0
  {
    MatrixAt(market, sqrt, p, p);
    SelfCorrelationIsOne(market[p].sparkline.value, sqrt, a, b);
  }
}
