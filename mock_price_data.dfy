/**
 * The price analytics of `lib/mock-price-data.ts`: a generated price history,
 * the seven-day trend, min/max/average statistics, the "good deal" percentile
 * and a seven-day linear projection. Prices are whole amounts; quotients are
 * computed exactly and rounded half up as `Math.round` does, and a division
 * by zero gives the infinities and NaN of floating point.
 */
module PriceData {
  import opened Wrappers
  import opened JsText
  import opened Seqs

  datatype PricePoint = PricePoint(date: string, price: int, priceLabel: string)

  /** `${price} PLN`. */
  function Label(price: int): string {
    IntToString(price) + " PLN"
  }

  /** `${price} PLN (prognoza)`. */
  function ForecastLabel(price: int): string {
    IntToString(price) + " PLN (prognoza)"
  }

  function Prices(h: seq<PricePoint>): (r: seq<int>)
    ensures |r| == |h| && forall i :: 0 <= i < |h| ==> r[i] == h[i].price
  {
    if h == [] then [] else [h[0].price] + Prices(h[1..])
  }

  // ---------------------------------------------------------------- rounding

  /** `Math.round(a / b)` for `b > 0`: the nearest integer, halves rounded up. */
  function RoundDiv(a: int, b: int): (r: int)
    requires b > 0
    ensures b * (2 * r - 1) <= 2 * a < b * (2 * r + 1)
  {
    var q := (2 * a + b) / (2 * b);
    assert 2 * b * q <= 2 * a + b < 2 * b * q + 2 * b;
    q
  }

  /** Multiplying by a positive number keeps a strict order, both ways. */
  lemma MulStrict(b: int, x: int, y: int)
    requires b > 0
    ensures x < y <==> b * x < b * y
  {
    assert b * y - b * x == b * (y - x);
  }

  /** Rounding keeps a quotient inside any integer bounds it lies between. */
  lemma RoundDivBetween(a: int, b: int, lo: int, hi: int)
    requires b > 0 && b * lo <= a <= b * hi
    ensures lo <= RoundDiv(a, b) <= hi
  {
    var r := RoundDiv(a, b);
    assert b * (2 * lo) == 2 * (b * lo) && b * (2 * hi) == 2 * (b * hi);
    assert b * (2 * lo) < b * (2 * r + 1);
    assert b * (2 * r - 1) <= b * (2 * hi);
    MulStrict(b, 2 * lo, 2 * r + 1);
    MulStrict(b, 2 * hi, 2 * r - 1);
  }

  /** An exact multiple rounds to itself. */
  lemma RoundDivExact(x: int, b: int)
    requires b > 0
    ensures RoundDiv(b * x, b) == x
  {
    RoundDivBetween(b * x, b, x, x);
  }

  /** A floating-point ratio times 100, rounded: finite, infinite or NaN. */
  datatype Percent = Finite(value: int) | PlusInfinity | MinusInfinity | NotANumber

  /** `Math.round((num / den) * 100)`. */
  function Ratio(num: int, den: int): (p: Percent)
    ensures den != 0 ==> p.Finite?
    ensures den > 0 ==> p == Finite(RoundDiv(100 * num, den))
    ensures den == 0 ==> (p.PlusInfinity? <==> num > 0) && (p.MinusInfinity? <==> num < 0)
                         && (p.NotANumber? <==> num == 0)
  {
    if den > 0 then Finite(RoundDiv(100 * num, den))
    else if den < 0 then Finite(RoundDiv(-100 * num, -den))
    else if num > 0 then PlusInfinity
    else if num < 0 then MinusInfinity
    else NotANumber
  }

  predicate Above(p: Percent, k: int) {
    p.PlusInfinity? || (p.Finite? && p.value > k)
  }

  predicate Below(p: Percent, k: int) {
    p.MinusInfinity? || (p.Finite? && p.value < k)
  }

  predicate AtMost(p: Percent, k: int) {
    p.MinusInfinity? || (p.Finite? && p.value <= k)
  }

  // ---------------------------------------------------------------- trend

  datatype Trend = Up | Down | Stable

  datatype PriceTrend = PriceTrend(trend: Trend, changePercent: Percent, changeAmount: int, recommendation: string)

  /**
   * `getPriceTrend`: the change over the last seven points (from the seventh
   * last to the last), as an amount and a rounded percentage; up above 5%,
   * down below -5%. Fewer than seven points are "stable" with no change.
   */
  function GetPriceTrend(history: seq<PricePoint>): (r: PriceTrend)
    ensures |history| < 7 ==> r == PriceTrend(Stable, Finite(0), 0, "Za mało danych")
    ensures |history| >= 7 ==>
              r.changeAmount == history[|history| - 1].price - history[|history| - 7].price
              && r.changePercent == Ratio(r.changeAmount, history[|history| - 7].price)
    ensures r.trend == Up <==> |history| >= 7 && Above(r.changePercent, 5)
    ensures r.trend == Down <==> |history| >= 7 && Below(r.changePercent, -5)
    ensures |history| >= 7 ==>
              r.recommendation == (if r.trend == Up then "Ceny rosną - rozważ rezerwację teraz"
                                   else if r.trend == Down then "Ceny spadają - możesz poczekać"
                                   else "Ceny stabilne")
  {
    if |history| < 7 then PriceTrend(Stable, Finite(0), 0, "Za mało danych")
    else
      var last7 := history[|history| - 7..];
      var oldPrice := last7[0].price;
      var newPrice := last7[|last7| - 1].price;
      var changeAmount := newPrice - oldPrice;
      var changePercent := Ratio(changeAmount, oldPrice);
      if Above(changePercent, 5) then PriceTrend(Up, changePercent, changeAmount, "Ceny rosną - rozważ rezerwację teraz")
      else if Below(changePercent, -5) then PriceTrend(Down, changePercent, changeAmount, "Ceny spadają - możesz poczekać")
      else PriceTrend(Stable, changePercent, changeAmount, "Ceny stabilne")
  }

  /**
   * With a positive starting price the thresholds are exact: up when the rise
   * is at least 5.5%, down when the fall is more than 5.5%.
   */
  lemma TrendThresholds(history: seq<PricePoint>)
    requires |history| >= 7 && history[|history| - 7].price > 0
    ensures var start := history[|history| - 7].price;
            var change := history[|history| - 1].price - start;
            (GetPriceTrend(history).trend == Up <==> 200 * change >= 11 * start)
            && (GetPriceTrend(history).trend == Down <==> 200 * change < -11 * start)
  {
    var start := history[|history| - 7].price;
    var change := history[|history| - 1].price - start;
    var r := RoundDiv(100 * change, start);
    MulStrict(start, 11, 2 * r + 1);
    MulStrict(start, 2 * r - 1, 11);
    MulStrict(start, 2 * r - 1, -11);
    MulStrict(start, -11, 2 * r + 1);
  }

  // ---------------------------------------------------------------- stats

  function Sum(s: seq<int>): int {
    if s == [] then 0 else s[0] + Sum(s[1..])
  }

  function Min(s: seq<int>): (m: int)
    requires s != []
    ensures m in s && forall i :: 0 <= i < |s| ==> m <= s[i]
  {
    if |s| == 1 then s[0]
    else
      var rest := Min(s[1..]);
      assert forall i :: 1 <= i < |s| ==> s[i] == s[1..][i - 1];
      if s[0] <= rest then s[0] else rest
  }

  function Max(s: seq<int>): (m: int)
    requires s != []
    ensures m in s && forall i :: 0 <= i < |s| ==> s[i] <= m
  {
    if |s| == 1 then s[0]
    else
      var rest := Max(s[1..]);
      assert forall i :: 1 <= i < |s| ==> s[i] == s[1..][i - 1];
      if s[0] >= rest then s[0] else rest
  }

  lemma {:induction false} SumBounds(s: seq<int>, lo: int, hi: int)
    requires forall i :: 0 <= i < |s| ==> lo <= s[i] <= hi
    ensures |s| * lo <= Sum(s) <= |s| * hi
  {
    if s != [] {
      assert forall i :: 0 <= i < |s[1..]| ==> s[1..][i] == s[i + 1];
      SumBounds(s[1..], lo, hi);
    }
  }

  datatype PriceStats = PriceStats(min: int, max: int, avg: int, current: int)

  /**
   * `getPriceStats`: lowest, highest, rounded average and latest price.
   * `None` for an empty history, whose statistics are infinities, NaN and
   * `undefined`.
   */
  function GetPriceStats(history: seq<PricePoint>): (r: Option<PriceStats>)
    ensures r.None? <==> history == []
    ensures r.Some? ==>
              r.value.min in Prices(history) && r.value.max in Prices(history)
              && (forall i :: 0 <= i < |history| ==> r.value.min <= history[i].price <= r.value.max)
              && r.value.min <= r.value.avg <= r.value.max
              && r.value.avg == RoundDiv(Sum(Prices(history)), |history|)
              && r.value.current == history[|history| - 1].price
  {
    if history == [] then None
    else
      var prices := Prices(history);
      var lo := Min(prices);
      var hi := Max(prices);
      SumBounds(prices, lo, hi);
      RoundDivBetween(Sum(prices), |prices|, lo, hi);
      Some(PriceStats(lo, hi, RoundDiv(Sum(prices), |prices|), prices[|prices| - 1]))
  }

  // ---------------------------------------------------------------- good deal

  /** `sorted.findIndex(p => p >= price)`: the first such index, or -1. */
  function FirstAtLeast(s: seq<int>, price: int): (k: int)
    ensures -1 <= k < |s|
    ensures k == -1 <==> forall i :: 0 <= i < |s| ==> s[i] < price
    ensures k >= 0 ==> s[k] >= price && forall i :: 0 <= i < k ==> s[i] < price
  {
    if s == [] then -1
    else if s[0] >= price then 0
    else
      var k := FirstAtLeast(s[1..], price);
      if k == -1 then -1 else k + 1
  }

  /** The number of prices strictly below `price`. */
  function CountBelow(s: seq<int>, price: int): (n: nat)
    ensures n <= |s|
  {
    if s == [] then 0 else (if s[0] < price then 1 else 0) + CountBelow(s[1..], price)
  }

  lemma {:induction false} CountBelowAppend(a: seq<int>, b: seq<int>, price: int)
    ensures CountBelow(a + b, price) == CountBelow(a, price) + CountBelow(b, price)
  {
    if a != [] {
      assert (a + b)[1..] == a[1..] + b;
      CountBelowAppend(a[1..], b, price);
    } else {
      assert a + b == b;
    }
  }

  /** Reordering prices does not change how many lie below a price. */
  lemma {:induction false} CountBelowPermutation(a: seq<int>, b: seq<int>, price: int)
    requires multiset(a) == multiset(b)
    ensures CountBelow(a, price) == CountBelow(b, price)
    decreases |a|
  {
    if a == [] {
      assert |b| == |multiset(b)| == 0;
    } else {
      var x := a[0];
      assert x in multiset(b);
      var i :| 0 <= i < |b| && b[i] == x;
      var rest := b[..i] + b[i + 1..];
      assert b == b[..i] + [x] + b[i + 1..];
      assert a == [x] + a[1..];
      assert multiset(b) == multiset(b[..i] + [x] + b[i + 1..]) == multiset(b[..i]) + multiset{x} + multiset(b[i + 1..]);
      assert multiset(rest) == multiset(b[..i]) + multiset(b[i + 1..]);
      assert multiset(a) == multiset{x} + multiset(a[1..]);
      forall y ensures multiset(rest)[y] == multiset(a[1..])[y] {
        assert multiset(a)[y] == multiset(b)[y];
      }
      assert multiset(rest) == multiset(a[1..]);
      CountBelowPermutation(a[1..], rest, price);
      CountBelowAppend(b[..i], [x] + b[i + 1..], price);
      CountBelowAppend([x], b[i + 1..], price);
      CountBelowAppend(b[..i], b[i + 1..], price);
      assert b[..i] + ([x] + b[i + 1..]) == b;
    }
  }

  lemma {:induction false} CountBelowOfPrefix(s: seq<int>, price: int, k: nat)
    requires k <= |s|
    requires forall i :: 0 <= i < k ==> s[i] < price
    requires forall i :: k <= i < |s| ==> s[i] >= price
    ensures CountBelow(s, price) == k
  {
    if s != [] {
      assert forall i :: 0 <= i < |s[1..]| ==> s[1..][i] == s[i + 1];
      if k > 0 {
        CountBelowOfPrefix(s[1..], price, k - 1);
      } else {
        CountBelowOfPrefix(s[1..], price, 0);
      }
    }
  }

  function Identity(x: int): int { x }

  /** The prices in ascending order, as `[...prices].sort((a, b) => a - b)` gives them. */
  function Sorted(prices: seq<int>): (r: seq<int>)
    ensures multiset(r) == multiset(prices) && SortedBy(r, Identity)
  {
    SortSorted(prices, Identity);
    SortByKey(prices, Identity)
  }

  datatype Verdict = GreatPrice | GoodPrice | AveragePrice | HighPrice

  datatype Deal = Deal(isGoodDeal: bool, percentile: Percent, verdict: Verdict)

  /**
   * `isGoodDeal`: the percentile is the position of the first history price
   * not below `currentPrice` in ascending order (-1 when there is none), over
   * the number of prices, times 100, rounded. At most 25 is a good deal.
   */
  function IsGoodDeal(currentPrice: int, history: seq<PricePoint>): (r: Deal)
    ensures r.percentile == Ratio(FirstAtLeast(Sorted(Prices(history)), currentPrice), |history|)
    ensures r.isGoodDeal <==> AtMost(r.percentile, 25)
    ensures r.verdict == GreatPrice <==> r.isGoodDeal
    ensures r.verdict == GoodPrice <==> !AtMost(r.percentile, 25) && AtMost(r.percentile, 50)
    ensures r.verdict == AveragePrice <==> !AtMost(r.percentile, 50) && AtMost(r.percentile, 75)
    ensures r.verdict == HighPrice <==> !AtMost(r.percentile, 75)
  {
    var sorted := Sorted(Prices(history));
    var position := FirstAtLeast(sorted, currentPrice);
    var percentile := Ratio(position, |sorted|);
    if AtMost(percentile, 25) then Deal(true, percentile, GreatPrice)
    else if AtMost(percentile, 50) then Deal(false, percentile, GoodPrice)
    else if AtMost(percentile, 75) then Deal(false, percentile, AveragePrice)
    else Deal(false, percentile, HighPrice)
  }

  /**
   * When some history price is not below `currentPrice`, the percentile is the
   * share of history prices strictly below it, whatever their order.
   */
  lemma PercentileCountsCheaper(currentPrice: int, history: seq<PricePoint>)
    requires exists i :: 0 <= i < |history| && history[i].price >= currentPrice
    ensures IsGoodDeal(currentPrice, history).percentile
         == Finite(RoundDiv(100 * CountBelow(Prices(history), currentPrice), |history|))
  {
    var prices := Prices(history);
    var sorted := Sorted(prices);
    var i :| 0 <= i < |history| && history[i].price >= currentPrice;
    assert prices[i] in multiset(sorted);
    var k := FirstAtLeast(sorted, currentPrice);
    assert k >= 0;
    forall j | k <= j < |sorted| ensures sorted[j] >= currentPrice {
      assert Identity(sorted[k]) <= Identity(sorted[j]);
    }
    CountBelowOfPrefix(sorted, currentPrice, k);
    CountBelowPermutation(sorted, prices, currentPrice);
  }

  /** A price above the whole (non-empty) history still counts as a good deal. */
  lemma AboveAllIsGoodDeal(currentPrice: int, history: seq<PricePoint>)
    requires history != [] && forall i :: 0 <= i < |history| ==> history[i].price < currentPrice
    ensures IsGoodDeal(currentPrice, history).isGoodDeal
    ensures IsGoodDeal(currentPrice, history).percentile.value <= 0
  {
    var prices := Prices(history);
    var sorted := Sorted(prices);
    forall j | 0 <= j < |sorted| ensures sorted[j] < currentPrice {
      assert sorted[j] in multiset(prices);
    }
    assert FirstAtLeast(sorted, currentPrice) == -1;
    RoundDivBetween(-100, |history|, -100, 0);
  }

  /** A price no higher than every history price is a good deal at percentile 0. */
  lemma CheapestIsGoodDeal(currentPrice: int, history: seq<PricePoint>)
    requires history != [] && forall i :: 0 <= i < |history| ==> currentPrice <= history[i].price
    ensures IsGoodDeal(currentPrice, history) == Deal(true, Finite(0), GreatPrice)
  {
    var sorted := Sorted(Prices(history));
    assert sorted[0] in multiset(Prices(history));
    assert FirstAtLeast(sorted, currentPrice) == 0;
    RoundDivExact(0, |history|);
  }

  // ---------------------------------------------------------------- history

  /**
   * `generatePriceHistory`: one point per day, oldest first; `priceOn(i)` is the
   * rounded noisy price `i` days ago and `dateOf(i)` that day's date. The last
   * point is then overwritten with `currentPrice`. `None` when `days` is not
   * positive, where overwriting the last point throws.
   */
  method GeneratePriceHistory(currentPrice: int, days: int, priceOn: int -> int, dateOf: int -> string)
    returns (r: Option<seq<PricePoint>>)
    ensures r.None? <==> days <= 0
    ensures r.Some? ==>
              |r.value| == days
              && (forall k :: 0 <= k < days ==> r.value[k].date == dateOf(days - 1 - k))
              && (forall k :: 0 <= k < days - 1 ==>
                    r.value[k].price == priceOn(days - 1 - k) && r.value[k].priceLabel == Label(priceOn(days - 1 - k)))
              && r.value[days - 1].price == currentPrice && r.value[days - 1].priceLabel == Label(currentPrice)
    ensures r.Some? ==> GetPriceStats(r.value).Some? && GetPriceStats(r.value).value.current == currentPrice
  {
    var data: seq<PricePoint> := [];
    var i := days - 1;
    while i >= 0
      invariant days <= 0 ==> i == days - 1
      invariant days > 0 ==> -1 <= i <= days - 1
      invariant |data| == days - 1 - i
      invariant forall k :: 0 <= k < |data| ==>
                  data[k] == PricePoint(dateOf(days - 1 - k), priceOn(days - 1 - k), Label(priceOn(days - 1 - k)))
    {
      var price := priceOn(i);
      data := data + [PricePoint(dateOf(i), price, Label(price))];
      i := i - 1;
    }
    if data == [] {
      return None;
    }
    var last := data[|data| - 1];
    data := data[|data| - 1 := last.(price := currentPrice, priceLabel := Label(currentPrice))];
    r := Some(data);
  }

  // ---------------------------------------------------------------- prediction

  /** Σ i · prices[i]. */
  function WeightedSum(s: seq<int>, from: int): int {
    if s == [] then 0 else from * s[0] + WeightedSum(s[1..], from + 1)
  }

  /**
   * The least-squares line through the seven points `(i, prices[i])`, at
   * `x = 6 + ahead`, rounded. With Σi = 21 and Σi² = 91 the slope is
   * `(7·Σi·p − 21·Σp) / 196` and the value `(28·Σp + slope·196·(3 + ahead)) / 196`.
   */
  function Projected(last7: seq<int>, ahead: int): int
    requires |last7| == 7
  {
    var s := 7 * WeightedSum(last7, 0) - 21 * Sum(last7);
    RoundDiv(28 * Sum(last7) + s * (3 + ahead), 196)
  }

  lemma Sum7(s: seq<int>)
    requires |s| == 7
    ensures Sum(s) == s[0] + s[1] + s[2] + s[3] + s[4] + s[5] + s[6]
  {
    assert s[6..][1..] == s[7..] && s[6..][0] == s[6];
    assert Sum(s[6..]) == s[6] + Sum(s[7..]);
    assert s[5..][1..] == s[6..] && s[5..][0] == s[5];
    assert Sum(s[5..]) == s[5] + Sum(s[6..]);
    assert s[4..][1..] == s[5..] && s[4..][0] == s[4];
    assert Sum(s[4..]) == s[4] + Sum(s[5..]);
    assert s[3..][1..] == s[4..] && s[3..][0] == s[3];
    assert Sum(s[3..]) == s[3] + Sum(s[4..]);
    assert s[2..][1..] == s[3..] && s[2..][0] == s[2];
    assert Sum(s[2..]) == s[2] + Sum(s[3..]);
    assert s[1..][1..] == s[2..] && s[1..][0] == s[1];
    assert Sum(s[1..]) == s[1] + Sum(s[2..]);
    assert s[0..][1..] == s[1..] && s[0..][0] == s[0];
    assert Sum(s[0..]) == s[0] + Sum(s[1..]);
    assert s[0..] == s;
  }

  lemma WeightedSum7(s: seq<int>)
    requires |s| == 7
    ensures WeightedSum(s, 0) == s[1] + 2 * s[2] + 3 * s[3] + 4 * s[4] + 5 * s[5] + 6 * s[6]
  {
    assert s[6..][1..] == s[7..] && s[6..][0] == s[6];
    assert WeightedSum(s[6..], 6) == 6 * s[6] + WeightedSum(s[7..], 7);
    assert s[5..][1..] == s[6..] && s[5..][0] == s[5];
    assert WeightedSum(s[5..], 5) == 5 * s[5] + WeightedSum(s[6..], 6);
    assert s[4..][1..] == s[5..] && s[4..][0] == s[4];
    assert WeightedSum(s[4..], 4) == 4 * s[4] + WeightedSum(s[5..], 5);
    assert s[3..][1..] == s[4..] && s[3..][0] == s[3];
    assert WeightedSum(s[3..], 3) == 3 * s[3] + WeightedSum(s[4..], 4);
    assert s[2..][1..] == s[3..] && s[2..][0] == s[2];
    assert WeightedSum(s[2..], 2) == 2 * s[2] + WeightedSum(s[3..], 3);
    assert s[1..][1..] == s[2..] && s[1..][0] == s[1];
    assert WeightedSum(s[1..], 1) == 1 * s[1] + WeightedSum(s[2..], 2);
    assert s[0..][1..] == s[1..] && s[0..][0] == s[0];
    assert WeightedSum(s[0..], 0) == 0 * s[0] + WeightedSum(s[1..], 1);
    assert s[0..] == s;
  }

  /** A linear week `a + b·i` is projected along the same line. */
  lemma LinearWeekContinues(last7: seq<int>, a: int, b: int, ahead: int)
    requires |last7| == 7 && forall i :: 0 <= i < 7 ==> last7[i] == a + b * i
    ensures Projected(last7, ahead) == a + b * (6 + ahead)
  {
    Sum7(last7);
    WeightedSum7(last7);
    assert Sum(last7) == 7 * a + 21 * b;
    assert WeightedSum(last7, 0) == 21 * a + 91 * b;
    assert 28 * Sum(last7) + 196 * b * (3 + ahead) == 196 * (a + b * (6 + ahead));
    RoundDivExact(a + b * (6 + ahead), 196);
  }

  /**
   * `predictPrices`: nothing for fewer than seven points; otherwise one point
   * for each of the next seven days, projected from the last seven prices;
   * `dateAhead(i)` is the date `i` days ahead.
   */
  method PredictPrices(history: seq<PricePoint>, dateAhead: int -> string) returns (r: seq<PricePoint>)
    ensures |history| < 7 ==> r == []
    ensures |history| >= 7 ==>
              |r| == 7
              && forall i :: 0 <= i < 7 ==>
                   r[i].date == dateAhead(i + 1)
                   && r[i].price == Projected(Prices(history[|history| - 7..]), i + 1)
                   && r[i].priceLabel == ForecastLabel(r[i].price)
  {
    if |history| < 7 {
      return [];
    }
    var prices := Prices(history[|history| - 7..]);
    var predictions: seq<PricePoint> := [];
    var i := 1;
    while i <= 7
      invariant 1 <= i <= 8 && |predictions| == i - 1
      invariant forall k :: 0 <= k < |predictions| ==>
                  predictions[k] == PricePoint(dateAhead(k + 1), Projected(prices, k + 1),
                                               ForecastLabel(Projected(prices, k + 1)))
    {
      var predicted := Projected(prices, i);
      predictions := predictions + [PricePoint(dateAhead(i), predicted, ForecastLabel(predicted))];
      i := i + 1;
    }
    r := predictions;
  }
}
