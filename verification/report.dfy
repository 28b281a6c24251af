/** The report helpers of main_backup.py: when credit ratings apply, market
    values converted with the FX table and summed over a selection, the
    country by asset-type allocation grid, the four-bucket liquidity
    distribution, and the (id, id type) list.

    The accessors `getMarketValue` and `getBookCurrency`, the selection
    filters `byCountryFilter` and `byAssetTypeFilterTuple`, `getIdnType`
    and the security-kind tests are imported from code this model does not
    include; they are parameters here. */
module Report {
  import opened Cells
  import opened Seqs

  // ---------------------------------------------------------------------
  // Ratings

  const NoRatingTier2: seq<string> := ["Cash Equivalents", "Credit Derivatives", "Asset-Backed"]

  /** `ratingsApplicable`: a fixed-income asset type with a second tier that
      is not cash equivalents, credit derivatives or asset-backed. */
  predicate RatingsApplicable(assetType: seq<string>)
  {
    |assetType| > 1 && assetType[0] == "Fixed Income" && assetType[1] !in NoRatingTier2
  }

  /** Only the first two tiers decide: refining an asset type with further
      tiers never changes whether ratings apply, and a one-tier asset type
      never needs one. */
  lemma RatingsApplicableTiers(assetType: seq<string>, finer: seq<string>)
    ensures |assetType| >= 2 ==> (RatingsApplicable(assetType + finer) <==> RatingsApplicable(assetType))
    ensures |assetType| <= 1 ==> (RatingsApplicable(assetType) <==> false)
    ensures RatingsApplicable(assetType) ==>
              assetType[1] != "Cash Equivalents" && assetType[1] != "Asset-Backed" && assetType[1] != "Credit Derivatives"
  {
    if |assetType| >= 2 {
      assert (assetType + finer)[..2] == assetType[..2];
      assert (assetType + finer)[0] == assetType[0] && (assetType + finer)[1] == assetType[1];
    }
  }

  // ---------------------------------------------------------------------
  // Market value in the reporting currency

  /** How a position's market value and book currency are read. */
  datatype Accessors = Accessors(marketValue: Record -> real, bookCurrency: Record -> Cell)

  /** `FX[getBookCurrency(p)]` used as a divisor: a missing currency raises
      KeyError, a rate that is not a number raises TypeError, and a zero
      rate raises ZeroDivisionError. */
  predicate Convertible(fx: map<Cell, Cell>, acc: Accessors, p: Record)
  {
    acc.bookCurrency(p) in fx && fx[acc.bookCurrency(p)].N? && fx[acc.bookCurrency(p)].num != 0.0
  }

  /** `marketValueWithFX`: the market value divided by the rate of the book
      currency. */
  function MarketValueWithFx(fx: map<Cell, Cell>, acc: Accessors, p: Record): (r: Result<real>)
    ensures r.Ok? <==> Convertible(fx, acc, p)
    ensures r.Ok? ==> r.value * fx[acc.bookCurrency(p)].num == acc.marketValue(p)
  {
    var c := acc.bookCurrency(p);
    if c !in fx then Err("KeyError: currency")
    else
      var rate :- AsNumber(fx[c]);
      if rate == 0.0 then Err("ZeroDivisionError")
      else Ok(acc.marketValue(p) / rate)
  }

  /** A position booked in a currency whose rate is 1.0 (the reporting
      currency itself, unless the FX sheet lists it) keeps its value. */
  lemma MarketValueAtPar(fx: map<Cell, Cell>, acc: Accessors, p: Record)
    requires acc.bookCurrency(p) in fx && fx[acc.bookCurrency(p)] == N(1.0)
    ensures MarketValueWithFx(fx, acc, p) == Ok(acc.marketValue(p))
  {
  }

  /** The converted value of a convertible position, and 0 otherwise: the
      summand of every total below. */
  function Converted(fx: map<Cell, Cell>, acc: Accessors): Record -> real
  {
    p => if Convertible(fx, acc, p) then acc.marketValue(p) / fx[acc.bookCurrency(p)].num else 0.0
  }

  predicate AllConvertible(fx: map<Cell, Cell>, acc: Accessors, ps: seq<Record>)
  {
    forall i :: 0 <= i < |ps| ==> Convertible(fx, acc, ps[i])
  }

  /** `sumMarketValueInCurrency` with the FX table of the date: raises when
      any position cannot be converted, otherwise sums the converted values
      (an empty selection sums to 0). */
  function SumMarketValue(fx: map<Cell, Cell>, acc: Accessors, ps: seq<Record>): (r: Result<real>)
    ensures r.Ok? <==> AllConvertible(fx, acc, ps)
    ensures r.Ok? ==> r.value == SumBy(Converted(fx, acc), ps)
  {
    if ps == [] then Ok(0.0)
    else
      var v :- MarketValueWithFx(fx, acc, ps[0]);
      var rest :- SumMarketValue(fx, acc, ps[1..]);
      assert ps == [ps[0]] + ps[1..];
      SumByCons(Converted(fx, acc), ps[0], ps[1..]);
      Ok(v + rest)
  }

  /** The total of two selections put together is the sum of their totals. */
  lemma SumMarketValueAppend(fx: map<Cell, Cell>, acc: Accessors, a: seq<Record>, b: seq<Record>)
    requires AllConvertible(fx, acc, a) && AllConvertible(fx, acc, b)
    ensures SumMarketValue(fx, acc, a + b).Ok?
    ensures SumMarketValue(fx, acc, a + b).value == SumMarketValue(fx, acc, a).value + SumMarketValue(fx, acc, b).value
  {
    assert AllConvertible(fx, acc, a + b) by {
      forall i | 0 <= i < |a + b| ensures Convertible(fx, acc, (a + b)[i]) {
        if i < |a| { assert (a + b)[i] == a[i]; } else { assert (a + b)[i] == b[i - |a|]; }
      }
    }
    SumByAppend(Converted(fx, acc), a, b);
  }

  /** The selection filters: `byCountryFilter(blpData, countryGroup)` and
      `byAssetTypeFilterTuple(blpData, assetTypeStrings)` as predicates on
      one position. */
  datatype Selectors = Selectors(inCountry: string -> Record -> bool, ofAssetType: seq<string> -> Record -> bool)

  function Both(sel: Selectors, countryGroup: string, assetType: seq<string>): Record -> bool
  {
    p => sel.inCountry(countryGroup)(p) && sel.ofAssetType(assetType)(p)
  }

  /** `getTotalMarketValueFromCountrynAssetType`: the total of the positions
      in the country group and of the asset type. */
  function TotalFromCountryAndAssetType(fx: map<Cell, Cell>, acc: Accessors, sel: Selectors, ps: seq<Record>,
                                        countryGroup: string, assetType: seq<string>): (r: Result<real>)
    ensures r == SumMarketValue(fx, acc, Filter(Both(sel, countryGroup, assetType), ps))
  {
    var inCountry := Filter(sel.inCountry(countryGroup), ps);
    FilterFilter(sel.inCountry(countryGroup), sel.ofAssetType(assetType), Both(sel, countryGroup, assetType), ps);
    SumMarketValue(fx, acc, Filter(sel.ofAssetType(assetType), inCountry))
  }

  /** `getTotalMarketValueFromAssetType`: the total of the positions of the
      asset type, wherever they are. */
  function TotalFromAssetType(fx: map<Cell, Cell>, acc: Accessors, sel: Selectors, ps: seq<Record>,
                              assetType: seq<string>): (r: Result<real>)
    ensures r.Ok? <==> AllConvertible(fx, acc, Filter(sel.ofAssetType(assetType), ps))
    ensures r.Ok? ==> r.value == SumBy(Converted(fx, acc), Filter(sel.ofAssetType(assetType), ps))
  {
    SumMarketValue(fx, acc, Filter(sel.ofAssetType(assetType), ps))
  }

  function OutsideCountry(sel: Selectors, countryGroup: string): Record -> bool
  {
    p => !sel.inCountry(countryGroup)(p)
  }

  /** The asset type's total is its total inside a country group plus its
      total outside it. */
  lemma AssetTypeTotalSplits(fx: map<Cell, Cell>, acc: Accessors, sel: Selectors, ps: seq<Record>,
                             countryGroup: string, assetType: seq<string>)
    requires TotalFromAssetType(fx, acc, sel, ps, assetType).Ok?
    ensures var outside := Filter(OutsideCountry(sel, countryGroup), Filter(sel.ofAssetType(assetType), ps));
            TotalFromCountryAndAssetType(fx, acc, sel, ps, countryGroup, assetType).Ok?
            && SumMarketValue(fx, acc, outside).Ok?
            && TotalFromAssetType(fx, acc, sel, ps, assetType).value
               == TotalFromCountryAndAssetType(fx, acc, sel, ps, countryGroup, assetType).value
                  + SumMarketValue(fx, acc, outside).value
  {
    var inType := Filter(sel.ofAssetType(assetType), ps);
    var inside := Filter(sel.inCountry(countryGroup), inType);
    var outside := Filter(OutsideCountry(sel, countryGroup), inType);
    FilterFilter(sel.ofAssetType(assetType), sel.inCountry(countryGroup), Both(sel, countryGroup, assetType), ps);
    assert Filter(Both(sel, countryGroup, assetType), ps) == inside;
    ConvertibleSubset(fx, acc, sel.inCountry(countryGroup), inType);
    ConvertibleSubset(fx, acc, OutsideCountry(sel, countryGroup), inType);
    SumByPartition(Converted(fx, acc), sel.inCountry(countryGroup), OutsideCountry(sel, countryGroup), inType);
  }

  lemma ConvertibleSubset(fx: map<Cell, Cell>, acc: Accessors, f: Record -> bool, ps: seq<Record>)
    requires AllConvertible(fx, acc, ps)
    ensures AllConvertible(fx, acc, Filter(f, ps))
  {
    var kept := Filter(f, ps);
    forall i | 0 <= i < |kept| ensures Convertible(fx, acc, kept[i]) {
      var j :| 0 <= j < |ps| && ps[j] == kept[i];
    }
  }

  /** A selection nothing passes totals 0, and converting never fails on it. */
  lemma EmptySelectionIsZero(fx: map<Cell, Cell>, acc: Accessors, sel: Selectors, ps: seq<Record>,
                             countryGroup: string, assetType: seq<string>)
    requires forall i :: 0 <= i < |ps| ==> !Both(sel, countryGroup, assetType)(ps[i])
    ensures TotalFromCountryAndAssetType(fx, acc, sel, ps, countryGroup, assetType) == Ok(0.0)
  {
    NothingPasses(Both(sel, countryGroup, assetType), ps);
  }

  lemma {:induction false} NothingPasses<T>(f: T -> bool, xs: seq<T>)
    requires forall i :: 0 <= i < |xs| ==> !f(xs[i])
    ensures Filter(f, xs) == []
  {
    if xs != [] {
      NothingPasses(f, xs[1..]);
    }
  }

  // ---------------------------------------------------------------------
  // Asset allocation grid

  /** The grid of `writeAssetAllocationCsv` for any cell function: one row
      per asset type, one cell per country, the cell in row `i` and column
      `j` being the value of the tuple `(countries[j],) + assetTypes[i]`. */
  function Grid(cell: seq<string> -> Result<real>, countries: seq<string>, assetTypes: seq<seq<string>>)
    : (r: Result<seq<seq<real>>>)
    ensures r.Ok? <==> forall i, j :: 0 <= i < |assetTypes| && 0 <= j < |countries| ==>
                         cell([countries[j]] + assetTypes[i]).Ok?
    ensures r.Ok? ==> |r.value| == |assetTypes|
    ensures r.Ok? ==> forall i :: 0 <= i < |assetTypes| ==> |r.value[i]| == |countries|
    ensures r.Ok? ==> forall i, j :: 0 <= i < |assetTypes| && 0 <= j < |countries| ==>
                        cell([countries[j]] + assetTypes[i]) == Ok(r.value[i][j])
  {
    if assetTypes == [] then Ok([])
    else
      var row :- GridRow(cell, countries, assetTypes[0]);
      var rest :- Grid(cell, countries, assetTypes[1..]);
      assert forall i :: 1 <= i < |assetTypes| ==> assetTypes[i] == assetTypes[1..][i - 1];
      Ok([row] + rest)
  }

  /** One line of the grid: `map(lambda el: (el,) + assetType, countries)`
      evaluated cell by cell. */
  function GridRow(cell: seq<string> -> Result<real>, countries: seq<string>, assetType: seq<string>)
    : (r: Result<seq<real>>)
    ensures r.Ok? <==> forall j :: 0 <= j < |countries| ==> cell([countries[j]] + assetType).Ok?
    ensures r.Ok? ==> |r.value| == |countries|
    ensures r.Ok? ==> forall j :: 0 <= j < |countries| ==> cell([countries[j]] + assetType) == Ok(r.value[j])
  {
    if countries == [] then Ok([])
    else
      var v :- cell([countries[0]] + assetType);
      var rest :- GridRow(cell, countries[1..], assetType);
      assert forall j :: 1 <= j < |countries| ==> countries[j] == countries[1..][j - 1];
      Ok([v] + rest)
  }

  /** `assetTypeWithCountryToMarketValue`: the tuple's first item is the
      country group and the rest the asset-type tiers. */
  function AllocationCell(fx: map<Cell, Cell>, acc: Accessors, sel: Selectors, ps: seq<Record>): seq<string> -> Result<real>
  {
    t => if t == [] then Err("TypeError: missing country group")
         else TotalFromCountryAndAssetType(fx, acc, sel, ps, t[0], t[1..])
  }

  /** `writeAssetAllocationCsv` before writing. */
  function AllocationGrid(fx: map<Cell, Cell>, acc: Accessors, sel: Selectors, ps: seq<Record>,
                          countries: seq<string>, assetTypes: seq<seq<string>>): (r: Result<seq<seq<real>>>)
    ensures r.Ok? <==> forall i, j :: 0 <= i < |assetTypes| && 0 <= j < |countries| ==>
                         TotalFromCountryAndAssetType(fx, acc, sel, ps, countries[j], assetTypes[i]).Ok?
    ensures r.Ok? ==> |r.value| == |assetTypes|
    ensures r.Ok? ==> forall i :: 0 <= i < |assetTypes| ==> |r.value[i]| == |countries|
  {
    AllocationCells(fx, acc, sel, ps, countries, assetTypes);
    Grid(AllocationCell(fx, acc, sel, ps), countries, assetTypes)
  }

  /** The cell function on `(country,) + assetType` is the total for that
      country group and asset type. */
  lemma AllocationCells(fx: map<Cell, Cell>, acc: Accessors, sel: Selectors, ps: seq<Record>,
                        countries: seq<string>, assetTypes: seq<seq<string>>)
    ensures forall i, j :: 0 <= i < |assetTypes| && 0 <= j < |countries| ==>
              AllocationCell(fx, acc, sel, ps)([countries[j]] + assetTypes[i])
              == TotalFromCountryAndAssetType(fx, acc, sel, ps, countries[j], assetTypes[i])
  {
    forall i, j | 0 <= i < |assetTypes| && 0 <= j < |countries|
      ensures AllocationCell(fx, acc, sel, ps)([countries[j]] + assetTypes[i])
              == TotalFromCountryAndAssetType(fx, acc, sel, ps, countries[j], assetTypes[i])
    {
      var t := [countries[j]] + assetTypes[i];
      assert t[0] == countries[j] && t[1..] == assetTypes[i];
    }
  }

  /** Each cell is the total for its country group and asset type. */
  lemma AllocationGridCell(fx: map<Cell, Cell>, acc: Accessors, sel: Selectors, ps: seq<Record>,
                           countries: seq<string>, assetTypes: seq<seq<string>>, i: nat, j: nat)
    requires AllocationGrid(fx, acc, sel, ps, countries, assetTypes).Ok?
    requires i < |assetTypes| && j < |countries|
    ensures TotalFromCountryAndAssetType(fx, acc, sel, ps, countries[j], assetTypes[i])
            == Ok(AllocationGrid(fx, acc, sel, ps, countries, assetTypes).value[i][j])
  {
    var t := [countries[j]] + assetTypes[i];
    assert t[0] == countries[j] && t[1..] == assetTypes[i];
  }

  /** `portfolio + '_asset_allocation_' + date + '.csv'` */
  function AllocationFile(portfolio: string, date: string): (name: string)
    ensures |name| == |portfolio| + |date| + 22
    ensures name[..|portfolio|] == portfolio && name[|portfolio| + 18..|name| - 4] == date
  {
    portfolio + "_asset_allocation_" + date + ".csv"
  }

  // ---------------------------------------------------------------------
  // Liquidity distribution

  const Categories: seq<string> := ["L0", "L1", "L2", "L3"]

  /** `getLiquidityCategory` as it stands: every position is highly liquid. */
  function LiquidityCategory(p: Record): (c: string)
    ensures c in Categories
  {
    "L0"
  }

  function InCategory(category: Record -> string, c: string): Record -> bool
  {
    p => category(p) == c
  }

  /** The total of the positions of one category (`d.get(c, [])`): those
      the groupby files under `c`, in their original order. */
  function CategoryTotal(fx: map<Cell, Cell>, acc: Accessors, category: Record -> string, ps: seq<Record>, c: string): Result<real>
  {
    SumMarketValue(fx, acc, Filter(InCategory(category, c), ps))
  }

  /** Every position in one of the four categories can be converted. */
  predicate CategorisedConvertible(fx: map<Cell, Cell>, acc: Accessors, category: Record -> string, ps: seq<Record>)
  {
    forall i :: 0 <= i < |ps| && category(ps[i]) in Categories ==> Convertible(fx, acc, ps[i])
  }

  /** `getLiquidityDistribution`: the rows (category, total, share of the
      grand total) for L0, L1, L2 and L3 in that order, with the FX table
      for USD whatever the reporting currency asked for. A zero grand
      total makes the shares divide by zero. */
  function LiquidityDistribution(fxUsd: map<Cell, Cell>, acc: Accessors, category: Record -> string, ps: seq<Record>)
    : (r: Result<seq<(string, real, real)>>)
    ensures r.Ok? <==> var ts := CategoryTotals(fxUsd, acc, category, ps);
                       ts.Ok? && ts.value[0] + ts.value[1] + ts.value[2] + ts.value[3] != 0.0
    ensures r.Ok? ==> |r.value| == 4
    ensures r.Ok? ==> forall k :: 0 <= k < 4 ==>
                        r.value[k].0 == Categories[k] && CategoryTotal(fxUsd, acc, category, ps, Categories[k]) == Ok(r.value[k].1)
    ensures r.Ok? ==> r.value[0].1 + r.value[1].1 + r.value[2].1 + r.value[3].1 != 0.0
    ensures r.Ok? ==> forall k :: 0 <= k < 4 && r.value[k].1 == 0.0 ==> r.value[k].2 == 0.0
    ensures r.Ok? ==> SharesOfTotal(r.value)
    ensures r.Ok? ==> r.value[0].2 + r.value[1].2 + r.value[2].2 + r.value[3].2 == 1.0
  {
    var ts :- CategoryTotals(fxUsd, acc, category, ps);
    if ts[0] + ts[1] + ts[2] + ts[3] == 0.0 then Err("ZeroDivisionError")
    else Ok(DistributionRows(ts))
  }

  /** The four category totals in order, failing with the first category
      that fails. */
  function CategoryTotals(fx: map<Cell, Cell>, acc: Accessors, category: Record -> string, ps: seq<Record>)
    : (r: Result<seq<real>>)
    ensures r.Ok? <==> forall k :: 0 <= k < 4 ==> CategoryTotal(fx, acc, category, ps, Categories[k]).Ok?
    ensures r.Ok? ==> |r.value| == 4
                      && forall k :: 0 <= k < 4 ==> CategoryTotal(fx, acc, category, ps, Categories[k]) == Ok(r.value[k])
  {
    var f := c => CategoryTotal(fx, acc, category, ps, c);
    assert forall k :: 0 <= k < 4 ==> f(Categories[k]) == CategoryTotal(fx, acc, category, ps, Categories[k]);
    MapR(f, Categories)
  }

  /** Four rows whose totals do not sum to zero, each share being the
      row's total divided by the sum of the four totals. */
  predicate SharesOfTotal(rows: seq<(string, real, real)>)
  {
    |rows| == 4
    && var total := rows[0].1 + rows[1].1 + rows[2].1 + rows[3].1;
       total != 0.0 && forall k :: 0 <= k < 4 ==> rows[k].2 == rows[k].1 / total
  }

  /** Each category with its total and its share of the grand total. */
  function DistributionRows(ts: seq<real>): (rows: seq<(string, real, real)>)
    requires |ts| == 4 && ts[0] + ts[1] + ts[2] + ts[3] != 0.0
    ensures |rows| == 4
    ensures forall k :: 0 <= k < 4 ==> rows[k].0 == Categories[k] && rows[k].1 == ts[k]
    ensures forall k :: 0 <= k < 4 ==> rows[k].2 == ts[k] / (ts[0] + ts[1] + ts[2] + ts[3])
    ensures forall k :: 0 <= k < 4 && ts[k] == 0.0 ==> rows[k].2 == 0.0
    ensures SharesOfTotal(rows)
    ensures rows[0].2 + rows[1].2 + rows[2].2 + rows[3].2 == 1.0
  {
    var total := ts[0] + ts[1] + ts[2] + ts[3];
    var rows := seq(4, k requires 0 <= k < 4 => (Categories[k], ts[k], ts[k] / total));
    SharesSumToOne(ts[0], ts[1], ts[2], ts[3]);
    assert rows[0].2 == ts[0] / total && rows[1].2 == ts[1] / total && rows[2].2 == ts[2] / total && rows[3].2 == ts[3] / total;
    rows
  }

  lemma SharesSumToOne(a: real, b: real, c: real, d: real)
    requires a + b + c + d != 0.0
    ensures a / (a + b + c + d) + b / (a + b + c + d) + c / (a + b + c + d) + d / (a + b + c + d) == 1.0
  {
    var t := a + b + c + d;
    assert a / t + b / t + c / t + d / t == (a + b + c + d) / t;
  }

  /** The distribution fails exactly when a categorised position cannot be
      converted or the grand total is zero. */
  lemma LiquidityDistributionOk(fxUsd: map<Cell, Cell>, acc: Accessors, category: Record -> string, ps: seq<Record>)
    ensures LiquidityDistribution(fxUsd, acc, category, ps).Ok? <==>
              CategorisedConvertible(fxUsd, acc, category, ps)
              && SumBy(Converted(fxUsd, acc), Filter(Categorised(category), ps)) != 0.0
  {
    var g := Converted(fxUsd, acc);
    var ok := CategorisedConvertible(fxUsd, acc, category, ps);
    CategoriesOk(fxUsd, acc, category, ps);
    if ok {
      CategoriesConserve(g, category, ps);
      var ts := CategoryTotals(fxUsd, acc, category, ps).value;
      assert Categories[0] == "L0" && Categories[1] == "L1" && Categories[2] == "L2" && Categories[3] == "L3";
      assert ts[0] + ts[1] + ts[2] + ts[3] == SumBy(g, Filter(Categorised(category), ps));
    }
  }

  /** The categories are checked one at a time: all four totals exist
      exactly when every categorised position converts. */
  lemma CategoriesOk(fxUsd: map<Cell, Cell>, acc: Accessors, category: Record -> string, ps: seq<Record>)
    ensures (forall k :: 0 <= k < 4 ==> CategoryTotal(fxUsd, acc, category, ps, Categories[k]).Ok?)
            <==> CategorisedConvertible(fxUsd, acc, category, ps)
  {
    if CategorisedConvertible(fxUsd, acc, category, ps) {
      forall k | 0 <= k < 4 ensures AllConvertible(fxUsd, acc, Filter(InCategory(category, Categories[k]), ps)) {
        var sel := Filter(InCategory(category, Categories[k]), ps);
        forall i | 0 <= i < |sel| ensures Convertible(fxUsd, acc, sel[i]) {
          assert sel[i] in ps;
          assert InCategory(category, Categories[k])(sel[i]);
        }
      }
    } else {
      var i :| 0 <= i < |ps| && category(ps[i]) in Categories && !Convertible(fxUsd, acc, ps[i]);
      var k :| 0 <= k < 4 && Categories[k] == category(ps[i]);
      assert InCategory(category, Categories[k])(ps[i]);
      var sel := Filter(InCategory(category, Categories[k]), ps);
      assert ps[i] in sel;
      var j :| 0 <= j < |sel| && sel[j] == ps[i];
      assert !AllConvertible(fxUsd, acc, sel);
    }
  }

  /** The position is in one of the four categories. */
  function Categorised(category: Record -> string): Record -> bool
  {
    p => category(p) in Categories
  }

  /** The four category totals add up to the total of all categorised
      positions: no position is counted twice or lost. */
  lemma {:induction false} CategoriesConserve(g: Record -> real, category: Record -> string, ps: seq<Record>)
    ensures SumBy(g, Filter(InCategory(category, "L0"), ps)) + SumBy(g, Filter(InCategory(category, "L1"), ps))
            + SumBy(g, Filter(InCategory(category, "L2"), ps)) + SumBy(g, Filter(InCategory(category, "L3"), ps))
            == SumBy(g, Filter(Categorised(category), ps))
  {
    if ps != [] {
      var p := ps[0];
      var rest := ps[1..];
      CategoriesConserve(g, category, rest);
      assert ps == [p] + rest;
      FilterHead(InCategory(category, "L0"), p, rest, g);
      FilterHead(InCategory(category, "L1"), p, rest, g);
      FilterHead(InCategory(category, "L2"), p, rest, g);
      FilterHead(InCategory(category, "L3"), p, rest, g);
      FilterHead(Categorised(category), p, rest, g);
      assert Categorised(category)(p) <==> (InCategory(category, "L0")(p) || InCategory(category, "L1")(p)
                                             || InCategory(category, "L2")(p) || InCategory(category, "L3")(p));
    }
  }

  /** The sum over a filtered list whose head is `x`. */
  lemma FilterHead<T>(f: T -> bool, x: T, rest: seq<T>, g: T -> real)
    ensures SumBy(g, Filter(f, [x] + rest)) == (if f(x) then g(x) else 0.0) + SumBy(g, Filter(f, rest))
  {
    var xs := [x] + rest;
    assert xs[0] == x && xs[1..] == rest;
    if f(x) {
      SumByCons(g, x, Filter(f, rest));
    } else {
      assert Filter(f, xs) == Filter(f, rest);
    }
  }

  /** With the category as it stands, all of the value is in L0. */
  lemma StubDistribution(fxUsd: map<Cell, Cell>, acc: Accessors, ps: seq<Record>)
    requires LiquidityDistribution(fxUsd, acc, LiquidityCategory, ps).Ok?
    ensures var rows := LiquidityDistribution(fxUsd, acc, LiquidityCategory, ps).value;
            rows[0].2 == 1.0 && rows[1].1 == 0.0 && rows[2].1 == 0.0 && rows[3].1 == 0.0
  {
    var rows := LiquidityDistribution(fxUsd, acc, LiquidityCategory, ps).value;
    StubEmpty(fxUsd, acc, ps, "L1");
    StubEmpty(fxUsd, acc, ps, "L2");
    StubEmpty(fxUsd, acc, ps, "L3");
    assert rows[1].1 == 0.0 && rows[2].1 == 0.0 && rows[3].1 == 0.0;
  }

  lemma StubEmpty(fxUsd: map<Cell, Cell>, acc: Accessors, ps: seq<Record>, c: string)
    requires c != "L0"
    ensures CategoryTotal(fxUsd, acc, LiquidityCategory, ps, c) == Ok(0.0)
  {
    forall i | 0 <= i < |ps| ensures !InCategory(LiquidityCategory, c)(ps[i]) {
      assert LiquidityCategory(ps[i]) == "L0";
    }
    NothingPasses(InCategory(LiquidityCategory, c), ps);
  }

  // ---------------------------------------------------------------------
  // The (id, id type) list

  /** `any(juxt(isPrivateSecurity, isCash, isMoneyMarket, isRepo,
      isFxForward)(p))`: some security-kind test holds. */
  predicate NoNeedId(kinds: seq<Record -> bool>, p: Record)
  {
    exists k :: 0 <= k < |kinds| && kinds[k](p)
  }

  /** `set(map(getIdnType, filterfalse(noNeedId, positions)))` */
  function IdnTypes(kinds: seq<Record -> bool>, idnType: Record -> (string, string), ps: seq<Record>)
    : (r: set<(string, string)>)
    ensures |r| <= |ps|
  {
    if ps == [] then {}
    else (if NoNeedId(kinds, ps[0]) then {} else {idnType(ps[0])}) + IdnTypes(kinds, idnType, ps[1..])
  }

  /** A pair is listed exactly when some position that needs an id has it. */
  lemma {:induction false} IdnTypesMembers(kinds: seq<Record -> bool>, idnType: Record -> (string, string),
                                           ps: seq<Record>, x: (string, string))
    ensures x in IdnTypes(kinds, idnType, ps) <==>
              exists i :: 0 <= i < |ps| && !NoNeedId(kinds, ps[i]) && idnType(ps[i]) == x
  {
    if ps != [] {
      IdnTypesMembers(kinds, idnType, ps[1..], x);
      if exists i :: 0 <= i < |ps| && !NoNeedId(kinds, ps[i]) && idnType(ps[i]) == x {
        var i :| 0 <= i < |ps| && !NoNeedId(kinds, ps[i]) && idnType(ps[i]) == x;
        if i > 0 {
          assert ps[1..][i - 1] == ps[i];
        }
      }
      if exists i :: 0 <= i < |ps[1..]| && !NoNeedId(kinds, ps[1..][i]) && idnType(ps[1..][i]) == x {
        var i :| 0 <= i < |ps[1..]| && !NoNeedId(kinds, ps[1..][i]) && idnType(ps[1..][i]) == x;
        assert ps[i + 1] == ps[1..][i];
      }
    }
  }

  const IdnTypeHeader: (string, string) := ("ID", "ID_TYPE")

  /** The csv of `writeIdnTypeToFile`: the header line, then the distinct
      pairs in the order `order` lists them (Python's set order). */
  function IdnTypeLines(kinds: seq<Record -> bool>, idnType: Record -> (string, string), ps: seq<Record>,
                        order: seq<(string, string)>): (r: Result<seq<(string, string)>>)
    ensures r.Ok? <==> (set i | 0 <= i < |order| :: order[i]) == IdnTypes(kinds, idnType, ps)
                       && forall i, j :: 0 <= i < j < |order| ==> order[i] != order[j]
    ensures r.Ok? ==> |r.value| == |order| + 1 && r.value[0] == IdnTypeHeader && r.value[1..] == order
  {
    if (set i | 0 <= i < |order| :: order[i]) == IdnTypes(kinds, idnType, ps)
       && forall i, j :: 0 <= i < j < |order| ==> order[i] != order[j]
    then
      var lines := [IdnTypeHeader] + order;
      assert lines[1..] == order;
      Ok(lines)
    else Err("not an enumeration of the set")
  }
}
