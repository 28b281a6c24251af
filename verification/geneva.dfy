/** Geneva ledger positions (geneva.py): the date-format change, the
    position-kind predicates, the market value, the simple accessors, and
    the derivation of the (id, id type) pair that never raises by intent.

    A position is a record keyed by the report's column names. */
module Geneva {
  import opened Cells
  import opened Text

  // ---------------------------------------------------------------------
  // Dates

  /** `s` with every occurrence of `c` deleted: the reference for
      `ChangeDateFormat`. */
  function Without(s: string, c: char): (r: string)
    ensures c !in r
    ensures |r| <= |s|
  {
    if s == [] then [] else (if s[0] == c then [] else [s[0]]) + Without(s[1..], c)
  }

  lemma {:induction false} WithoutAppend(a: string, b: string, c: char)
    ensures Without(a + b, c) == Without(a, c) + Without(b, c)
  {
    if a != [] {
      assert (a + b)[0] == a[0];
      assert (a + b)[1..] == a[1..] + b;
      WithoutAppend(a[1..], b, c);
    } else {
      assert a + b == b;
    }
  }

  lemma {:induction false} WithoutAbsent(s: string, c: char)
    requires c !in s
    ensures Without(s, c) == s
  {
    if s != [] {
      WithoutAbsent(s[1..], c);
      assert [s[0]] + s[1..] == s;
    }
  }

  lemma JoinEmptyCons(a: string, rest: seq<string>)
    ensures Join("", [a] + rest) == a + Join("", rest)
  {
    if rest == [] {
      assert [a] + rest == [a];
    } else {
      assert ([a] + rest)[1..] == rest;
    }
  }

  /** Joining the pieces of a split with nothing in between deletes the
      separator. */
  lemma {:induction false} JoinSplitIsWithout(s: string, c: char)
    ensures Join("", SplitChar(s, c)) == Without(s, c)
  {
    if s != [] {
      JoinSplitIsWithout(s[1..], c);
      var rest := SplitChar(s[1..], c);
      if s[0] == c {
        JoinEmptyCons("", rest);
      } else {
        JoinEmptyCons([s[0]] + rest[0], rest[1..]);
        JoinEmptyCons(rest[0], rest[1..]);
        assert [rest[0]] + rest[1..] == rest;
      }
    }
  }

  /** `changeDateFormat`: `''.join(dt.split('-'))`, which removes every dash. */
  function ChangeDateFormat(dt: string): (r: string)
    ensures r == Without(dt, '-')
  {
    JoinSplitIsWithout(dt, '-');
    Join("", SplitChar(dt, '-'))
  }

  predicate IsDigits(s: string, n: nat)
  {
    |s| == n && AllDigits(s)
  }

  lemma DigitsNoDash(s: string)
    requires AllDigits(s)
    ensures '-' !in s
  {
    forall k | 0 <= k < |s| ensures s[k] != '-' {
      assert IsDigit(s[k]);
    }
  }

  /** 'yyyy-mm-dd' becomes 'yyyymmdd'. */
  lemma ChangeDateFormatOfIsoDate(y: string, m: string, d: string)
    requires IsDigits(y, 4) && IsDigits(m, 2) && IsDigits(d, 2)
    ensures ChangeDateFormat(y + "-" + m + "-" + d) == y + m + d
  {
    DigitsNoDash(y);
    DigitsNoDash(m);
    DigitsNoDash(d);
    WithoutAbsent(y, '-');
    WithoutAbsent(m, '-');
    WithoutAbsent(d, '-');
    assert Without("-", '-') == [] by {
      assert "-"[1..] == [];
    }
    WithoutAppend(y, "-", '-');
    assert Without(y + "-", '-') == y;
    WithoutAppend(y + "-", m, '-');
    assert Without(y + "-" + m, '-') == y + m;
    WithoutAppend(y + "-" + m, "-", '-');
    assert Without(y + "-" + m + "-", '-') == y + m;
    WithoutAppend(y + "-" + m + "-", d, '-');
  }

  // ---------------------------------------------------------------------
  // Position kinds

  /** `isGenevaPosition`: Remarks1, lower-cased, starts with 'geneva'. A
      missing Remarks1 is a KeyError, a non-text one an AttributeError. */
  function IsGenevaPosition(p: Record): (r: Result<bool>)
    ensures r.Ok? <==> S("Remarks1") in p && p[S("Remarks1")].S?
    ensures r.Ok? ==> (r.value <==> var t := p[S("Remarks1")].text;
                         |t| >= 6 && forall i :: 0 <= i < 6 ==> LowerChar(t[i]) == "geneva"[i])
  {
    var remarks :- Lookup(p, "Remarks1");
    var text :- AsText(remarks);
    Ok(StartsWith(Lower(text), "geneva"))
  }

  /** Equality of the SortKey column with one of `values`; a cell of
      another kind simply differs. */
  function SortKeyIn(p: Record, values: seq<string>): (r: Result<bool>)
    ensures r.Ok? <==> S("SortKey") in p
    ensures r.Ok? ==> (r.value <==> exists i :: 0 <= i < |values| && p[S("SortKey")] == S(values[i]))
  {
    var key :- Lookup(p, "SortKey");
    Ok(key.S? && key.text in values)
  }

  function IsGenevaFund(p: Record): (r: Result<bool>)
    ensures r.Ok? <==> S("SortKey") in p
    ensures r.Ok? ==>
              (r.value <==> p[S("SortKey")] in
                              {S("Open-End Fund"), S("Exchange Trade Fund"), S("Real Estate Investment Trust")})
  {
    SortKeyIn(p, ["Open-End Fund", "Exchange Trade Fund", "Real Estate Investment Trust"])
  }

  function IsGenevaFxForward(p: Record): (r: Result<bool>)
    ensures r.Ok? <==> S("SortKey") in p
    ensures r.Ok? ==> (r.value <==> p[S("SortKey")] == S("FX Forward"))
  {
    SortKeyIn(p, ["FX Forward"])
  }

  function IsGenevaMoneyMarket(p: Record): (r: Result<bool>)
    ensures r.Ok? <==> S("SortKey") in p
    ensures r.Ok? ==> (r.value <==> p[S("SortKey")] == S("Fixed Deposit"))
  {
    SortKeyIn(p, ["Fixed Deposit"])
  }

  function IsGenevaCash(p: Record): (r: Result<bool>)
    ensures r.Ok? <==> S("SortKey") in p
    ensures r.Ok? ==> (r.value <==> p[S("SortKey")] == S("Cash and Equivalents"))
  {
    SortKeyIn(p, ["Cash and Equivalents"])
  }

  /** Repo positions are not implemented in Geneva: never a repo. */
  function IsGenevaRepo(p: Record): (r: bool)
    ensures !r
  {
    false
  }

  /** Private securities are not yet recognised: never one. */
  function IsGenevaPrivateSecurity(p: Record): (r: bool)
    ensures !r
  {
    false
  }

  function Holds(r: Result<bool>): bool
  {
    r == Ok(true)
  }

  /** The four kinds test distinct SortKey values, so at most one holds. */
  lemma KindsExclusive(p: Record)
    ensures (if Holds(IsGenevaCash(p)) then 1 else 0)
            + (if Holds(IsGenevaMoneyMarket(p)) then 1 else 0)
            + (if Holds(IsGenevaFxForward(p)) then 1 else 0)
            + (if Holds(IsGenevaFund(p)) then 1 else 0) <= 1
  {
  }

  // ---------------------------------------------------------------------
  // Values and accessors

  /** `AccruedInterest + MarketValueBook` with Python's `+`: numbers add,
      two strings concatenate, anything else is a TypeError. */
  function GenevaMarketValue(p: Record): (r: Result<Cell>)
    ensures r.Ok? ==> S("AccruedInterest") in p && S("MarketValueBook") in p
    ensures S("AccruedInterest") in p && S("MarketValueBook") in p
            && p[S("AccruedInterest")].N? && p[S("MarketValueBook")].N?
            ==> r == Ok(N(p[S("AccruedInterest")].num + p[S("MarketValueBook")].num))
    ensures r.Ok? && r.value.N? ==> p[S("AccruedInterest")].N? && p[S("MarketValueBook")].N?
  {
    var accrued :- Lookup(p, "AccruedInterest");
    var book :- Lookup(p, "MarketValueBook");
    match (accrued, book)
    case (N(a), N(b)) => Ok(N(a + b))
    case (S(a), S(b)) => Ok(S(a + b))
    case _ => Err("TypeError: unsupported operand types for +")
  }

  /** `getGenevaPositionDate`: PeriodEndDate without its dashes. */
  function GenevaPositionDate(p: Record): (r: Result<string>)
    ensures r.Ok? <==> S("PeriodEndDate") in p && p[S("PeriodEndDate")].S?
    ensures r.Ok? ==> '-' !in r.value
    ensures r.Ok? ==> r.value == Without(p[S("PeriodEndDate")].text, '-')
  {
    var c :- Lookup(p, "PeriodEndDate");
    var s :- AsText(c);
    Ok(ChangeDateFormat(s))
  }

  /** The one-column accessors `getGenevaBookCurrency`, `getGenevaPortfolioId`,
      `getGenevaQuantity` and `getGenevaAssetType` read these columns. */
  function AccessorColumn(name: string): (column: Result<string>)
    ensures column.Ok? <==> name in {"BookCurrency", "Portfolio", "Quantity", "AssetType"}
  {
    match name
    case "BookCurrency" => Ok("BookCurrency")
    case "Portfolio" => Ok("Portfolio")
    case "Quantity" => Ok("Quantity")
    case "AssetType" => Ok("SortKey")
    case _ => Err("no such accessor")
  }

  /** An accessor returns the column's cell as it is, or a KeyError. */
  function Accessor(name: string, p: Record): (r: Result<Cell>)
    requires AccessorColumn(name).Ok?
    ensures r.Ok? <==> S(AccessorColumn(name).value) in p
    ensures r.Ok? ==> r.value == p[S(AccessorColumn(name).value)]
  {
    Lookup(p, AccessorColumn(name).value)
  }

  lemma AssetTypeIsSortKey(p: Record)
    ensures Accessor("AssetType", p) == Lookup(p, "SortKey")
  {
  }

  // ---------------------------------------------------------------------
  // (id, id type)

  const EquityTypes: seq<string> :=
    ["Common Stock", "Real Estate Investment Trust", "Stapled Security", "Exchange Trade Fund"]

  predicate IsEquityType(assetType: Cell)
  {
    assetType.S? && assetType.text in EquityTypes
  }

  /** The first twelve characters of an id, or the whole id when shorter. */
  function IsinFromInvestId(investId: string): (r: string)
    ensures |r| == Min(|investId|, 12)
    ensures r == investId[..|r|]
  {
    if |investId| < 12 then investId else investId[..12]
  }

  /** `getGenevaIdnType` as written. Python raises on a missing column, on
      `+` or `len` of a non-text InvestID, on `split` of a non-text SortKey,
      and with IndexError on a blank SortKey, whose `split()` is empty. */
  function GenevaIdnType(p: Record): (r: Result<(Cell, Cell)>)
    ensures r.Ok? ==> S("InvestID") in p && S("SortKey") in p
    ensures r.Ok? && IsEquityType(p[S("SortKey")]) ==>
              p[S("InvestID")].S? && r.value == (S(p[S("InvestID")].text + " Equity"), S("TICKER"))
    ensures r.Ok? && !IsEquityType(p[S("SortKey")]) ==>
              p[S("SortKey")].S? && !AllSpace(p[S("SortKey")].text)
    ensures r.Ok? && !IsEquityType(p[S("SortKey")]) && LastWord(p[S("SortKey")].text) == Some("Bond") ==>
              p[S("InvestID")].S? && r.value == (S(IsinFromInvestId(p[S("InvestID")].text)), S("ISIN"))
    ensures r.Ok? && !IsEquityType(p[S("SortKey")]) && LastWord(p[S("SortKey")].text) != Some("Bond") ==>
              r.value == (p[S("InvestID")], p[S("SortKey")])
    ensures (S("InvestID") in p && S("SortKey") in p && p[S("InvestID")].S? && p[S("SortKey")].S?
             && !AllSpace(p[S("SortKey")].text)) ==> r.Ok?
  {
    var investId :- Lookup(p, "InvestID");
    var assetType :- Lookup(p, "SortKey");
    if IsEquityType(assetType) then
      var id :- AsText(investId);
      Ok((S(id + " Equity"), S("TICKER")))
    else
      var sortKey :- AsText(assetType);
      match LastWord(sortKey)
      case None => Err("IndexError: list index out of range")
      case Some(w) =>
        if w == "Bond" then
          var id :- AsText(investId);
          Ok((S(IsinFromInvestId(id)), S("ISIN")))
        else
          Ok((investId, assetType))
  }

  /** A position whose SortKey is blank: the documented never-raise promise
      fails on it. */
  lemma BlankSortKeyRaises(investId: string)
    ensures GenevaIdnType(map[S("InvestID") := S(investId), S("SortKey") := S("")]).Err?
  {
  }

  /** `getGenevaIdnType` as documented: a blank SortKey falls through to the
      special case `(InvestID, SortKey)` like any other unrecognised type. */
  function GenevaIdnTypeTotal(p: Record): (r: Result<(Cell, Cell)>)
    ensures r.Ok? ==> S("InvestID") in p && S("SortKey") in p
    ensures S("InvestID") in p && S("SortKey") in p && p[S("InvestID")].S? && p[S("SortKey")].S? ==> r.Ok?
    ensures r.Ok? ==> r.value.1 in {S("TICKER"), S("ISIN"), p[S("SortKey")]}
  {
    var investId :- Lookup(p, "InvestID");
    var assetType :- Lookup(p, "SortKey");
    if IsEquityType(assetType) then
      var id :- AsText(investId);
      Ok((S(id + " Equity"), S("TICKER")))
    else
      var sortKey :- AsText(assetType);
      if LastWord(sortKey) == Some("Bond") then
        var id :- AsText(investId);
        Ok((S(IsinFromInvestId(id)), S("ISIN")))
      else
        Ok((investId, assetType))
  }

  /** The corrected version agrees with the original wherever the original
      returns, and differs only on blank sort keys. */
  lemma GenevaIdnTypeTotalRefines(p: Record)
    ensures GenevaIdnType(p).Ok? ==> GenevaIdnTypeTotal(p) == GenevaIdnType(p)
    ensures GenevaIdnType(p).Err? && GenevaIdnTypeTotal(p).Ok? ==>
              AllSpace(p[S("SortKey")].text) && GenevaIdnTypeTotal(p).value == (p[S("InvestID")], p[S("SortKey")])
  {
    if S("InvestID") in p && S("SortKey") in p && !IsEquityType(p[S("SortKey")]) && p[S("SortKey")].S? {
      var w := LastWord(p[S("SortKey")].text);
      if w.None? {
        assert GenevaIdnType(p).Err?;
      } else if w == Some("Bond") {
        assert GenevaIdnTypeTotal(p) == GenevaIdnType(p);
      } else {
        assert GenevaIdnTypeTotal(p) == Ok((p[S("InvestID")], p[S("SortKey")]));
      }
    }
  }
}
