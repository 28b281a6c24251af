/** The three-factor liquidity score for special-case bonds
    (`getLiquidityCategorySpecialCaseBond` in main_liquidity.py).

    The date arithmetic, the average rating score and the position quantity
    are computed by code outside this model; they arrive as numbers: the
    maturity as the day difference `CALC_MATURITY - date`, the rating as the
    value `getAverageRatingScore` returned, the quantity as `getQuantity`'s. */
module LiquidityScore {
  import opened Cells

  /** Liquidity buckets, most liquid first. */
  datatype Category = L0 | L1 | L2 | L3

  /** Position in the bucket order: 0 is the most liquid. */
  function Rank(c: Category): (n: nat)
    ensures n <= 3
  {
    match c
    case L0 => 0
    case L1 => 1
    case L2 => 2
    case L3 => 3
  }

  /** The label the report writes for a bucket. */
  function Label(c: Category): string
  {
    match c
    case L0 => "L0"
    case L1 => "L1"
    case L2 => "L2"
    case L3 => "L3"
  }

  lemma LabelsDistinct(a: Category, b: Category)
    ensures Label(a) == Label(b) <==> a == b
  {
  }

  /** Score from the whole years to maturity, `days // 365`. The second
      ensures states the same thresholds in days, without division: a
      maturity already past counts as under one year. */
  function MaturityScore(daysToMaturity: int): (s: int)
    ensures 1 <= s <= 4
    ensures s == (if daysToMaturity < 365 then 4
                  else if daysToMaturity < 3 * 365 then 3
                  else if daysToMaturity < 5 * 365 then 2
                  else 1)
  {
    var years := daysToMaturity / 365;
    if years < 1 then 4 else if years < 3 then 3 else if years < 5 then 2 else 1
  }

  /** Score from the average credit rating score. */
  function RatingScore(averageRating: real): (s: int)
    ensures 1 <= s <= 4
    ensures s == 4 <==> averageRating >= 15.0
    ensures s >= 3 <==> averageRating >= 12.0
    ensures s >= 2 <==> averageRating >= 6.0
  {
    if averageRating >= 15.0 then 4
    else if averageRating >= 12.0 then 3
    else if averageRating >= 6.0 then 2
    else 1
  }

  /** Score from the share of the issue held, in percent. */
  function PercentageScore(percentage: real): (s: int)
    ensures 1 <= s <= 4
    ensures s == 4 <==> percentage < 5.0
    ensures s >= 3 <==> percentage < 10.0
    ensures s >= 2 <==> percentage < 20.0
  {
    if percentage < 5.0 then 4
    else if percentage < 10.0 then 3
    else if percentage < 20.0 then 2
    else 1
  }

  /** `quantity / AMT_OUTSTANDING * 100` scored; a zero amount outstanding
      raises ZeroDivisionError. */
  function ConcentrationScore(quantity: real, amountOutstanding: real): (r: Result<int>)
    ensures r.Ok? <==> amountOutstanding != 0.0
    ensures r.Ok? ==> 1 <= r.value <= 4
    ensures r.Ok? ==> r.value == PercentageScore(quantity / amountOutstanding * 100.0)
  {
    if amountOutstanding == 0.0 then Err("ZeroDivisionError: AMT_OUTSTANDING")
    else Ok(PercentageScore(quantity / amountOutstanding * 100.0))
  }

  /** Bucket for a total score. */
  function LiquidityRating(total: int): (c: Category)
    ensures c == L0 <==> total >= 12
    ensures Rank(c) <= 1 <==> total >= 9
    ensures Rank(c) <= 2 <==> total >= 6
  {
    if total >= 12 then L0
    else if total >= 9 then L1
    else if total >= 6 then L2
    else L3
  }

  /** The sum of the three sub-scores. */
  function TotalScore(daysToMaturity: int, averageRating: real, quantity: real, amountOutstanding: real): (r: Result<int>)
    ensures r.Ok? <==> amountOutstanding != 0.0
    ensures r.Ok? ==> 3 <= r.value <= 12
    ensures r.Ok? ==> r.value == MaturityScore(daysToMaturity) + RatingScore(averageRating)
                                 + PercentageScore(quantity / amountOutstanding * 100.0)
  {
    var concentration :- ConcentrationScore(quantity, amountOutstanding);
    Ok(MaturityScore(daysToMaturity) + RatingScore(averageRating) + concentration)
  }

  /** `getLiquidityCategorySpecialCaseBond`: L0 exactly when all three
      sub-scores are at their best. */
  function SpecialCaseBondCategory(daysToMaturity: int, averageRating: real,
                                   quantity: real, amountOutstanding: real): (r: Result<Category>)
    ensures r.Ok? <==> amountOutstanding != 0.0
    ensures r.Ok? ==> (r.value == L0 <==>
                         daysToMaturity < 365 && averageRating >= 15.0
                         && quantity / amountOutstanding * 100.0 < 5.0)
    ensures r.Ok? ==> (Rank(r.value) <= 1 <==>
                         MaturityScore(daysToMaturity) + RatingScore(averageRating)
                         + PercentageScore(quantity / amountOutstanding * 100.0) >= 9)
    ensures r.Ok? ==> (r.value == L3 <==>
                         MaturityScore(daysToMaturity) + RatingScore(averageRating)
                         + PercentageScore(quantity / amountOutstanding * 100.0) < 6)
  {
    var total :- TotalScore(daysToMaturity, averageRating, quantity, amountOutstanding);
    Ok(LiquidityRating(total))
  }

  /** `p['AMT_OUTSTANDING']` used as a divisor: a missing column raises
      KeyError and a text value (such as '#N/A') raises TypeError. */
  function AmountOutstanding(p: Record): (r: Result<real>)
    ensures r.Ok? <==> S("AMT_OUTSTANDING") in p && p[S("AMT_OUTSTANDING")].N?
    ensures r.Ok? ==> p[S("AMT_OUTSTANDING")] == N(r.value)
  {
    var c :- Lookup(p, "AMT_OUTSTANDING");
    AsNumber(c)
  }

  /** The bucket of a position record: the amount outstanding is read from
      the record, the other three inputs arrive as numbers. */
  function SpecialCaseBondCategoryOf(daysToMaturity: int, averageRating: real,
                                     quantity: real, p: Record): (r: Result<Category>)
    ensures r.Ok? <==> S("AMT_OUTSTANDING") in p && p[S("AMT_OUTSTANDING")].N?
                       && p[S("AMT_OUTSTANDING")].num != 0.0
    ensures r.Ok? ==> r == SpecialCaseBondCategory(daysToMaturity, averageRating, quantity,
                                                   p[S("AMT_OUTSTANDING")].num)
  {
    var amount :- AmountOutstanding(p);
    SpecialCaseBondCategory(daysToMaturity, averageRating, quantity, amount)
  }

  lemma LiquidityRatingMonotone(a: int, b: int)
    requires a <= b
    ensures Rank(LiquidityRating(b)) <= Rank(LiquidityRating(a))
  {
  }

  /** A later maturity never gives a more liquid bucket. */
  lemma MaturityMonotone(d1: int, d2: int, averageRating: real, quantity: real, amountOutstanding: real)
    requires d1 <= d2 && amountOutstanding != 0.0
    ensures Rank(SpecialCaseBondCategory(d1, averageRating, quantity, amountOutstanding).value)
            <= Rank(SpecialCaseBondCategory(d2, averageRating, quantity, amountOutstanding).value)
  {
    LiquidityRatingMonotone(TotalScore(d2, averageRating, quantity, amountOutstanding).value,
                            TotalScore(d1, averageRating, quantity, amountOutstanding).value);
  }

  /** A lower average rating score never gives a more liquid bucket. */
  lemma RatingMonotone(days: int, r1: real, r2: real, quantity: real, amountOutstanding: real)
    requires r2 <= r1 && amountOutstanding != 0.0
    ensures Rank(SpecialCaseBondCategory(days, r1, quantity, amountOutstanding).value)
            <= Rank(SpecialCaseBondCategory(days, r2, quantity, amountOutstanding).value)
  {
    LiquidityRatingMonotone(TotalScore(days, r2, quantity, amountOutstanding).value,
                            TotalScore(days, r1, quantity, amountOutstanding).value);
  }

  /** Holding more of the same issue never gives a more liquid bucket. */
  lemma ConcentrationMonotone(days: int, averageRating: real, q1: real, q2: real, amountOutstanding: real)
    requires q1 <= q2 && amountOutstanding > 0.0
    ensures Rank(SpecialCaseBondCategory(days, averageRating, q1, amountOutstanding).value)
            <= Rank(SpecialCaseBondCategory(days, averageRating, q2, amountOutstanding).value)
  {
    assert q1 / amountOutstanding <= q2 / amountOutstanding;
    LiquidityRatingMonotone(TotalScore(days, averageRating, q2, amountOutstanding).value,
                            TotalScore(days, averageRating, q1, amountOutstanding).value);
  }
}
