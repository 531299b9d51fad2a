/**
 * The seasonal demand forecaster: from a table of past sales it tells a
 * farmer whether demand for a product in the current month is above, below
 * or close to that product's usual demand, together with the average price
 * and the average quantity sold.
 */
module DemandForecaster {
  import opened Wrappers
  import opened Text

  /**
   * One row of the historical sales table. month is the calendar month of
   * the row's date, or None when the date is missing (a not-a-time value,
   * whose month matches no month).
   */
  datatype Sample = Sample(productName: string, month: Option<int>, pricePerKg: real, quantitySold: int)

  /** The table loaded at start-up: whether it has a date column at all, and its rows. */
  datatype History = History(hasDateColumn: bool, rows: seq<Sample>)

  datatype Trend =
    | NoHistoricalData
    | NewProduct
    | HighDemand
    | LowDemand
    | StableDemand
    | StableNoSeasonalData

  /** The label the application shows for each outcome. */
  function Label(t: Trend): string
  {
    match t
    case NoHistoricalData => "No Historical Data"
    case NewProduct => "New Product"
    case HighDemand => "High Demand (Seasonal Peak) \U{1F4C8}"
    case LowDemand => "Low Demand (Off-Season) \U{1F4C9}"
    case StableDemand => "Stable Demand \U{2696}\U{FE0F}"
    case StableNoSeasonalData => "Stable (No seasonal data)"
  }

  /** The forecaster's answer: a trend, an average price and an average quantity. */
  datatype Forecast = Forecast(trend: Trend, avgPrice: real, avgQty: int)

  /** A row is about the named product when the names agree ignoring case. */
  predicate Matches(s: Sample, name: string)
  {
    EqualIgnoringCase(s.productName, name)
  }

  /** The rows about the named product, in table order. */
  function ProductRows(rows: seq<Sample>, name: string): (r: seq<Sample>)
    ensures |r| <= |rows|
    ensures forall s :: s in r <==> s in rows && Matches(s, name)
  {
    if rows == [] then []
    else
      (if Matches(rows[0], name) then [rows[0]] else []) + ProductRows(rows[1..], name)
  }

  /** The rows whose date falls in the given calendar month, in table order. */
  function RowsInMonth(rows: seq<Sample>, month: int): (r: seq<Sample>)
    ensures |r| <= |rows|
    ensures forall s :: s in r <==> s in rows && s.month == Some(month)
  {
    if rows == [] then []
    else
      (if rows[0].month == Some(month) then [rows[0]] else []) + RowsInMonth(rows[1..], month)
  }

  /**
   * The product's rows keep every matching row as often as the table has it,
   * so the means below divide by the full number of matching sales.
   */
  lemma {:induction false} ProductRowsKeepDuplicates(rows: seq<Sample>, name: string, s: Sample)
    ensures multiset(ProductRows(rows, name))[s] == if Matches(s, name) then multiset(rows)[s] else 0
  {
    if rows != [] {
      assert rows == [rows[0]] + rows[1..];
      ProductRowsKeepDuplicates(rows[1..], name, s);
    }
  }

  /** The rows in a month keep every row of that month as often as the input has it. */
  lemma {:induction false} RowsInMonthKeepDuplicates(rows: seq<Sample>, month: int, s: Sample)
    ensures multiset(RowsInMonth(rows, month))[s] == if s.month == Some(month) then multiset(rows)[s] else 0
  {
    if rows != [] {
      assert rows == [rows[0]] + rows[1..];
      RowsInMonthKeepDuplicates(rows[1..], month, s);
    }
  }

  /**
   * The seasonal subset: the product's rows in the current month, or none
   * at all when the table has no date column.
   */
  function SeasonalRows(h: History, name: string, currentMonth: int): seq<Sample>
  {
    if h.hasDateColumn then RowsInMonth(ProductRows(h.rows, name), currentMonth) else []
  }

  function QuantitySum(rows: seq<Sample>): int
  {
    if rows == [] then 0 else rows[0].quantitySold + QuantitySum(rows[1..])
  }

  function PriceSum(rows: seq<Sample>): real
  {
    if rows == [] then 0.0 else rows[0].pricePerKg + PriceSum(rows[1..])
  }

  /** The arithmetic mean of count numbers adding up to sum. */
  function Mean(sum: int, count: nat): real
    requires count > 0
  {
    sum as real / count as real
  }

  function MeanQuantity(rows: seq<Sample>): real
    requires rows != []
  {
    Mean(QuantitySum(rows), |rows|)
  }

  function MeanPrice(rows: seq<Sample>): real
    requires rows != []
  {
    PriceSum(rows) / |rows| as real
  }

  /** q is x with its fractional part dropped, rounding toward zero. */
  predicate IsTruncation(q: int, x: real)
  {
    && (x >= 0.0 ==> q as real <= x < q as real + 1.0)
    && (x < 0.0 ==> q as real - 1.0 < x <= q as real)
  }

  /**
   * Converting the mean to an integer: it truncates toward zero, also for a
   * negative total, where Dafny's own division would round down.
   */
  function TruncatedMean(sum: int, count: nat): (q: int)
    requires count > 0
    ensures IsTruncation(q, Mean(sum, count))
  {
    if sum >= 0 then
      DivisionIsTruncation(sum, count);
      sum / count
    else
      DivisionIsTruncation(-sum, count);
      MeanNegated(sum, count);
      -((-sum) / count)
  }

  /** For a non-negative total, Dafny's division is the truncated mean. */
  lemma DivisionIsTruncation(sum: nat, count: nat)
    requires count > 0
    ensures (sum / count) as real <= Mean(sum, count) < (sum / count) as real + 1.0
  {
    var q, r := sum / count, sum % count;
    assert sum == q * count + r;
    var n := count as real;
    assert sum as real == q as real * n + r as real;
    assert Mean(sum, count) == q as real + r as real / n;
    assert 0.0 <= r as real / n < 1.0;
  }

  /** Negating the total negates the mean. */
  lemma MeanNegated(sum: int, count: nat)
    requires count > 0
    ensures Mean(sum, count) == -Mean(-sum, count)
  {
  }

  /**
   * Comparing two means against a multiple p/10 of each other, by cross
   * multiplication with the positive counts.
   */
  lemma CompareMeans(a: int, b: nat, c: int, d: nat, p: int)
    requires b > 0 && d > 0
    ensures Mean(a, b) > Mean(c, d) * (p as real / 10.0) <==> 10 * a * d > p * c * b
    ensures Mean(a, b) < Mean(c, d) * (p as real / 10.0) <==> 10 * a * d < p * c * b
  {
  }

  /**
   * Classifying the seasonal mean quantity against the overall mean: high
   * above 1.1 times the overall mean, otherwise low below 0.9 times it,
   * otherwise stable. Computed exactly on integers.
   */
  function Classify(seasonalSum: int, seasonalCount: nat, overallSum: int, overallCount: nat): (t: Trend)
    requires seasonalCount > 0 && overallCount > 0
    ensures var s, o := Mean(seasonalSum, seasonalCount), Mean(overallSum, overallCount);
      && (t == HighDemand <==> s > o * 1.1)
      && (t == LowDemand <==> !(s > o * 1.1) && s < o * 0.9)
      && (t == StableDemand <==> !(s > o * 1.1) && !(s < o * 0.9))
  {
    CompareMeans(seasonalSum, seasonalCount, overallSum, overallCount, 11);
    CompareMeans(seasonalSum, seasonalCount, overallSum, overallCount, 9);
    if 10 * seasonalSum * overallCount > 11 * overallSum * seasonalCount then HighDemand
    else if 10 * seasonalSum * overallCount < 9 * overallSum * seasonalCount then LowDemand
    else StableDemand
  }

  /** The product has no rows exactly when no row's name matches. */
  lemma NoRowsIffNoMatch(rows: seq<Sample>, name: string)
    ensures ProductRows(rows, name) == [] <==> forall i :: 0 <= i < |rows| ==> !Matches(rows[i], name)
  {
  }

  /** The forecast for the named product, in the given current month. */
  function Analyze(h: History, name: string, currentMonth: int): (f: Forecast)
    ensures h.rows == [] ==> f == Forecast(NoHistoricalData, 0.0, 0)
    ensures h.rows != [] ==>
      (f.trend == NewProduct <==> forall i :: 0 <= i < |h.rows| ==> !Matches(h.rows[i], name))
    ensures f.trend == NewProduct ==> f.avgPrice == 0.0 && f.avgQty == 0
  {
    if h.rows == [] then Forecast(NoHistoricalData, 0.0, 0)
    else
      var productRows := ProductRows(h.rows, name);
      NoRowsIffNoMatch(h.rows, name);
      if productRows == [] then Forecast(NewProduct, 0.0, 0)
      else
        var seasonal := SeasonalRows(h, name, currentMonth);
        if seasonal != [] then
          Forecast(
            Classify(QuantitySum(seasonal), |seasonal|, QuantitySum(productRows), |productRows|),
            MeanPrice(seasonal),
            TruncatedMean(QuantitySum(seasonal), |seasonal|))
        else
          Forecast(StableNoSeasonalData, MeanPrice(productRows),
                   TruncatedMean(QuantitySum(productRows), |productRows|))
  }

  /**
   * With current-month rows for the product, the trend compares their mean
   * quantity with the product's overall mean quantity, and the averages are
   * those of the current-month rows.
   */
  lemma AnalyzeInSeason(h: History, name: string, currentMonth: int)
    requires SeasonalRows(h, name, currentMonth) != []
    ensures var f, seasonal, all := Analyze(h, name, currentMonth),
                                    SeasonalRows(h, name, currentMonth), ProductRows(h.rows, name);
      && all != []
      && (f.trend == HighDemand <==> MeanQuantity(seasonal) > MeanQuantity(all) * 1.1)
      && (f.trend == LowDemand <==>
            !(MeanQuantity(seasonal) > MeanQuantity(all) * 1.1) && MeanQuantity(seasonal) < MeanQuantity(all) * 0.9)
      && (f.trend == StableDemand <==>
            !(MeanQuantity(seasonal) > MeanQuantity(all) * 1.1) && !(MeanQuantity(seasonal) < MeanQuantity(all) * 0.9))
      && f.avgPrice == MeanPrice(seasonal)
      && IsTruncation(f.avgQty, MeanQuantity(seasonal))
  {
  }

  /**
   * The forecast is "no seasonal data" exactly when the product has rows but
   * none in the current month (or the table has no dates); its averages are
   * then over all of the product's rows.
   */
  lemma AnalyzeOutOfSeason(h: History, name: string, currentMonth: int)
    ensures var f, all := Analyze(h, name, currentMonth), ProductRows(h.rows, name);
      && (f.trend == StableNoSeasonalData <==>
            all != [] && (!h.hasDateColumn || forall i :: 0 <= i < |all| ==> all[i].month != Some(currentMonth)))
      && (f.trend == StableNoSeasonalData ==>
            f.avgPrice == MeanPrice(all) && IsTruncation(f.avgQty, MeanQuantity(all)))
  {
  }

  /** Two tomato sales: 150 kg in March at 20.0 and 50 kg in May at 24.0. */
  function TomatoSales(): seq<Sample>
  {
    [Sample("Tomato", Some(3), 20.0, 150), Sample("tomato", Some(5), 24.0, 50)]
  }

  /** "Tomato", "tomato" and "TOMATO" agree ignoring case. */
  lemma TomatoNames()
    ensures Lower("Tomato") == Lower("TOMATO") == Lower("tomato") == "tomato"
  {
  }

  /** Both tomato rows match "TOMATO" ignoring case. */
  lemma TomatoRows()
    ensures ProductRows(TomatoSales(), "TOMATO") == TomatoSales()
  {
    var rows := TomatoSales();
    TomatoNames();
    assert Matches(rows[0], "TOMATO") && Matches(rows[1], "TOMATO");
    assert rows[1..] == [rows[1]] && [rows[1]][1..] == [];
  }

  /** Only the March row is in the March subset. */
  lemma TomatoSeason()
    ensures RowsInMonth(TomatoSales(), 3) == TomatoSales()[..1]
  {
    var rows := TomatoSales();
    assert rows[1..] == [rows[1]] && [rows[1]][1..] == [];
    assert RowsInMonth([rows[1]], 3) == [];
  }

  /** The March mean is 150 kg at 20.0, the overall mean 100 kg. */
  lemma TomatoMeans()
    ensures MeanQuantity(TomatoSales()[..1]) == 150.0 && MeanPrice(TomatoSales()[..1]) == 20.0
    ensures MeanQuantity(TomatoSales()) == 100.0
  {
    var rows := TomatoSales();
    assert rows[..1][1..] == [] && rows[1..][1..] == [];
    assert QuantitySum(rows[..1]) == 150 && PriceSum(rows[..1]) == 20.0;
    assert QuantitySum(rows) == 200;
  }

  /**
   * A worked case: two tomato sales, 150 kg in March and 50 kg in May, make an
   * overall mean of 100 kg; in March the mean is 150 kg, above 1.1 times the
   * overall mean, whatever the case of the name asked for.
   */
  lemma TomatoInMarch()
    ensures var f := Analyze(History(true, TomatoSales()), "TOMATO", 3);
      && f == Forecast(HighDemand, 20.0, 150)
      && Label(f.trend) == "High Demand (Seasonal Peak) \U{1F4C8}"
  {
    TomatoSeason();
    TomatoRows();
    assert SeasonalRows(History(true, TomatoSales()), "TOMATO", 3) == TomatoSales()[..1];
    TomatoMeans();
    AnalyzeInSeason(History(true, TomatoSales()), "TOMATO", 3);
  }

  /** Mean quantities are truncated toward zero: 149.9 becomes 149 and -149.9 becomes -149. */
  lemma MeanQuantityTruncated()
    ensures TruncatedMean(1499, 10) == 149
    ensures TruncatedMean(-1499, 10) == -149
  {
  }
}
