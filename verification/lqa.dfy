/** LQA (Bloomberg liquidity assessment) preparation and response reading
    (lqa.py): the response block parser, the Geneva and Bloomberg position
    selections with their (id, id type) enrichment, the CLO split, the
    consolidation by id and the date check that joins the two sources. */
module Lqa {
  import opened Cells
  import opened Text
  import opened Seqs
  import opened Tables
  import Geneva

  // ---------------------------------------------------------------------
  // Reading an LQA response

  predicate IsStartLine(line: Line)
  {
    |line| > 0 && line[0] == S("START-OF-DATA")
  }

  /** The `dropwhile` test `len(L) == 0 or L[0] != 'START-OF-DATA'`. */
  function BeforeStart(line: Line): (r: Result<bool>)
    ensures r == Ok(!IsStartLine(line))
  {
    Ok(!IsStartLine(line))
  }

  /** The `takewhile` test `L[0] != 'END-OF-DATA'`; an empty line raises. */
  function BeforeEnd(line: Line): (r: Result<bool>)
    ensures r.Ok? <==> |line| > 0
    ensures r.Ok? ==> (r.value <==> line[0] != S("END-OF-DATA"))
  {
    var head :- Head(line);
    Ok(head != S("END-OF-DATA"))
  }

  /** `getLqaData`: the rows after START-OF-DATA's next line (the header),
      up to END-OF-DATA, as records keyed by their SECURITIES column. */
  function GetLqaData(lines: seq<Line>): (r: Result<map<Cell, Record>>)
    ensures r.Ok? ==> forall k :: k in r.value ==> S("SECURITIES") in r.value[k] && r.value[k][S("SECURITIES")] == k
  {
    var fromStart :- DropWhileR(BeforeStart, lines);
    var afterStart :- Pop(fromStart);
    var block :- TakeWhileR(BeforeEnd, afterStart.1);
    var headerAndRows :- Pop(block);
    IndexBy(ZipAll(headerAndRows.0, headerAndRows.1), "SECURITIES")
  }

  /** A sheet without a START-OF-DATA line has nothing to read. */
  lemma GetLqaDataNeedsStart(lines: seq<Line>)
    requires forall i :: 0 <= i < |lines| ==> !IsStartLine(lines[i])
    ensures GetLqaData(lines).Err?
  {
    DropWhileAll(lines);
  }

  lemma DropWhileAll(lines: seq<Line>)
    requires forall i :: 0 <= i < |lines| ==> !IsStartLine(lines[i])
    ensures DropWhileR(BeforeStart, lines) == Ok([])
  {
  }

  predicate NotEndLine(line: Line)
  {
    |line| > 0 && line[0] != S("END-OF-DATA")
  }

  /** A response laid out as: lines without START-OF-DATA, the start line,
      the header, the data rows, then END-OF-DATA or the end of the sheet.
      Exactly the data rows are read, each zipped with the header. */
  lemma GetLqaDataOfBlock(pre: seq<Line>, start: Line, header: Line, rows: seq<Line>, tail: seq<Line>)
    requires forall i :: 0 <= i < |pre| ==> !IsStartLine(pre[i])
    requires IsStartLine(start)
    requires NotEndLine(header)
    requires forall i :: 0 <= i < |rows| ==> NotEndLine(rows[i])
    requires tail == [] || (|tail[0]| > 0 && tail[0][0] == S("END-OF-DATA"))
    ensures GetLqaData(pre + [start] + [header] + rows + tail) == IndexBy(ZipAll(header, rows), "SECURITIES")
  {
    var lines := pre + [start] + [header] + rows + tail;
    var afterStart := ([header] + rows) + tail;
    assert lines == pre + ([start] + afterStart);
    DropWhileTo(BeforeStart, pre, start, afterStart);
    var fromStart := [start] + afterStart;
    assert Pop(fromStart) == Ok((start, afterStart)) by {
      assert fromStart[1..] == afterStart;
    }
    assert tail != [] ==> BeforeEnd(tail[0]) == Ok(false);
    TakeWhileTo(BeforeEnd, [header] + rows, tail);
    assert Pop([header] + rows) == Ok((header, rows)) by {
      assert ([header] + rows)[1..] == rows;
    }
  }

  // ---------------------------------------------------------------------
  // Identifiers

  /** `investIdToLqaId`: equity-like types first, then types whose last word
      is 'Bond' (an id shorter than 12 characters raises), anything else
      raises. */
  function InvestIdToLqaId(investId: Cell, assetType: Cell): (r: Result<(string, string)>)
    ensures r.Ok? <==>
              investId.S? &&
              (Geneva.IsEquityType(assetType)
               || (assetType.S? && LastWord(assetType.text) == Some("Bond") && |investId.text| >= 12))
    ensures r.Ok? && Geneva.IsEquityType(assetType) ==> r.value == (investId.text + " Equity", "TICKER")
    ensures r.Ok? && !Geneva.IsEquityType(assetType) ==>
              r.value.1 == "ISIN" && |r.value.0| == 12 && r.value.0 == investId.text[..12]
  {
    if Geneva.IsEquityType(assetType) then
      var id :- AsText(investId);
      Ok((id + " Equity", "TICKER"))
    else
      var t :- AsText(assetType);
      match LastWord(t)
      case None => Err("IndexError: list index out of range")
      case Some(w) =>
        if w == "Bond" then
          var id :- AsText(investId);
          if |id| < 12 then Err("ValueError: failed to get ISIN from id") else Ok((id[..12], "ISIN"))
        else Err("ValueError: unsupported type")
  }

  /** Where the raising variant answers, the never-raising one in geneva.py
      answers the same. */
  lemma InvestIdAgreesWithGeneva(investId: Cell, assetType: Cell)
    requires InvestIdToLqaId(investId, assetType).Ok?
    ensures var r := InvestIdToLqaId(investId, assetType).value;
            Geneva.GenevaIdnType(map[S("InvestID") := investId, S("SortKey") := assetType]) == Ok((S(r.0), S(r.1)))
  {
  }

  // ---------------------------------------------------------------------
  // Geneva positions

  const NoLiquidityTypes: set<Cell> := {S("Cash and Equivalents"), S("Fixed Deposit"), S("Open-End Fund")}

  /** `noNeedLiquidityGeneva`: zero quantity (tested first), or a cash,
      fixed-deposit or open-end-fund description. */
  function NoNeedLiquidityGeneva(p: Record): (r: Result<bool>)
    ensures r.Ok? <==> S("Quantity") in p && (p[S("Quantity")] == N(0.0) || S("ThenByDescription") in p)
    ensures r.Ok? ==> (r.value <==> p[S("Quantity")] == N(0.0) || p[S("ThenByDescription")] in NoLiquidityTypes)
  {
    var quantity :- Lookup(p, "Quantity");
    if quantity == N(0.0) then Ok(true)
    else
      var description :- Lookup(p, "ThenByDescription");
      Ok(description in NoLiquidityTypes)
  }

  /** The positions that need a liquidity measure, stated directly. */
  predicate NeedsLiquidity(p: Record)
  {
    S("Quantity") in p && p[S("Quantity")] != N(0.0)
    && S("ThenByDescription") in p && p[S("ThenByDescription")] !in NoLiquidityTypes
  }

  /** `addPosition` then `addIdnType`: Position := Quantity, then Id and
      IdType from `investIdToLqaId(InvestID, ThenByDescription)`. */
  function AddLqaFields(p: Record): (r: Result<Record>)
    ensures r.Ok? <==> S("Quantity") in p && S("InvestID") in p && S("ThenByDescription") in p
                       && InvestIdToLqaId(p[S("InvestID")], p[S("ThenByDescription")]).Ok?
    ensures r.Ok? ==> r.value.Keys == p.Keys + {S("Position"), S("Id"), S("IdType")}
    ensures r.Ok? ==> r.value[S("Position")] == p[S("Quantity")]
    ensures r.Ok? ==> var idn := InvestIdToLqaId(p[S("InvestID")], p[S("ThenByDescription")]).value;
                      r.value[S("Id")] == S(idn.0) && r.value[S("IdType")] == S(idn.1)
    ensures r.Ok? ==> forall k :: k in p && k !in {S("Position"), S("Id"), S("IdType")} ==> r.value[k] == p[k]
  {
    var quantity :- Lookup(p, "Quantity");
    var withPosition := Merge(p, map[S("Position") := quantity]);
    var investId :- Lookup(withPosition, "InvestID");
    var description :- Lookup(withPosition, "ThenByDescription");
    var idn :- InvestIdToLqaId(investId, description);
    Ok(Merge(withPosition, map[S("Id") := S(idn.0), S("IdType") := S(idn.1)]))
  }

  /** `getGenevaLqaPositions`: the positions that need a liquidity measure,
      in input order, each enriched by `AddLqaFields`. */
  function GenevaLqaPositions(ps: seq<Record>): (r: Result<seq<Record>>)
    ensures r.Ok? <==> AllOk(NoNeedLiquidityGeneva, ps) && AllOk(AddLqaFields, Filter(NeedsLiquidity, ps))
    ensures r.Ok? ==> var kept := Filter(NeedsLiquidity, ps);
                      |r.value| == |kept| && forall i :: 0 <= i < |kept| ==> r.value[i] == AddLqaFields(kept[i]).value
  {
    var kept :- FilterFalseR(NoNeedLiquidityGeneva, ps);
    FilterCongruent(Rejects(NoNeedLiquidityGeneva), NeedsLiquidity, ps);
    MapR(AddLqaFields, kept)
  }

  // ---------------------------------------------------------------------
  // Bloomberg positions

  const UnwantedAssetTypes: set<Cell> :=
    {S("Cash"), S("Foreign Exchange Forward"), S("Repo Liability"), S("Money Market")}

  /** Open-ended funds, which come from Geneva instead. */
  const FundNames: set<Cell> := {S(".FSFUND HK"), S("CLFLDIF HK")}

  const CloAccounts: set<Cell> :=
    {S("12229"), S("12734"), S("12366"), S("12630"), S("12549"), S("12550"), S("13007")}

  /** `p['Position'] == '' or p['Position'] <= 0`: comparing text other than
      '' (or None) with a number raises TypeError. */
  function EmptyOrNonPositive(p: Record): (r: Result<bool>)
    ensures r.Ok? <==> S("Position") in p && (p[S("Position")] == Blank || p[S("Position")].N?)
    ensures r.Ok? ==> (r.value <==> p[S("Position")] == Blank || p[S("Position")].num <= 0.0)
  {
    var position :- Lookup(p, "Position");
    if position == Blank then Ok(true)
    else
      var x :- AsNumber(position);
      Ok(x <= 0.0)
  }

  /** Cash-like asset types, or one of the fund names (looked up only when
      the asset type passes). */
  function UnwantedType(p: Record): (r: Result<bool>)
    ensures r.Ok? <==> S("Asset Type") in p && (p[S("Asset Type")] in UnwantedAssetTypes || S("Name") in p)
    ensures r.Ok? ==> (r.value <==> p[S("Asset Type")] in UnwantedAssetTypes || p[S("Name")] in FundNames)
  {
    var assetType :- Lookup(p, "Asset Type");
    if assetType in UnwantedAssetTypes then Ok(true)
    else
      var name :- Lookup(p, "Name");
      Ok(name in FundNames)
  }

  /** `p['Account Code'][:5] == '19437'`: the Geneva-sourced portfolio. A
      numeric code cannot be sliced and raises. */
  function GenevaAccount(p: Record): (r: Result<bool>)
    ensures r.Ok? <==> S("Account Code") in p && p[S("Account Code")].S?
    ensures r.Ok? ==> (r.value <==> StartsWith(p[S("Account Code")].text, "19437"))
  {
    var code :- Lookup(p, "Account Code");
    var text :- AsText(code);
    Ok(text[..Min(5, |text|)] == "19437")
  }

  /** The Bloomberg rows that survive all three filters, stated directly. */
  predicate BlpSurvivor(p: Record)
  {
    S("Position") in p && p[S("Position")].N? && p[S("Position")].num > 0.0
    && S("Asset Type") in p && p[S("Asset Type")] !in UnwantedAssetTypes
    && S("Name") in p && p[S("Name")] !in FundNames
    && S("Account Code") in p && p[S("Account Code")].S? && !StartsWith(p[S("Account Code")].text, "19437")
  }

  /** `updatePositionId`: Equity rows are identified by ticker, the rest by
      ISIN. */
  function UpdatePositionId(p: Record): (r: Result<Record>)
    ensures r.Ok? <==> S("Asset Type") in p &&
                       (if p[S("Asset Type")] == S("Equity") then S("Name") in p && p[S("Name")].S? else S("ISIN") in p)
    ensures r.Ok? ==> r.value.Keys == p.Keys + {S("Id"), S("IdType")}
    ensures r.Ok? && p[S("Asset Type")] == S("Equity") ==>
              r.value[S("Id")] == S(p[S("Name")].text + " Equity") && r.value[S("IdType")] == S("TICKER")
    ensures r.Ok? && p[S("Asset Type")] != S("Equity") ==>
              r.value[S("Id")] == p[S("ISIN")] && r.value[S("IdType")] == S("ISIN")
    ensures r.Ok? ==> forall k :: k in p && k !in {S("Id"), S("IdType")} ==> r.value[k] == p[k]
  {
    var assetType :- Lookup(p, "Asset Type");
    if assetType == S("Equity") then
      var name :- Lookup(p, "Name");
      var text :- AsText(name);
      Ok(Merge(p, map[S("Id") := S(text + " Equity"), S("IdType") := S("TICKER")]))
    else
      var isin :- Lookup(p, "ISIN");
      Ok(Merge(p, map[S("Id") := isin, S("IdType") := S("ISIN")]))
  }

  /** `isCLOPortfolio` */
  function IsClo(p: Record): (r: Result<bool>)
    ensures r.Ok? <==> S("Account Code") in p
    ensures r.Ok? ==> (r.value <==> p[S("Account Code")] in CloAccounts)
  {
    var code :- Lookup(p, "Account Code");
    Ok(code in CloAccounts)
  }

  predicate InCloAccount(p: Record)
  {
    S("Account Code") in p && p[S("Account Code")] in CloAccounts
  }

  predicate NotInCloAccount(p: Record)
  {
    !InCloAccount(p)
  }

  /** `splitCLO`: a left fold appending each position to the CLO or the
      non-CLO list. */
  function SplitClo(ps: seq<Record>): Result<(seq<Record>, seq<Record>)>
  {
    if ps == [] then Ok(([], []))
    else
      var acc :- SplitClo(ps[..|ps| - 1]);
      var last := ps[|ps| - 1];
      var clo :- IsClo(last);
      if clo then Ok((acc.0 + [last], acc.1)) else Ok((acc.0, acc.1 + [last]))
  }

  /** The fold is a partition: it succeeds when every position has an
      account code, and then the CLO list is exactly the positions in the
      seven CLO accounts and the other list the rest, both in input order. */
  lemma {:induction false} SplitCloIsPartition(ps: seq<Record>)
    ensures SplitClo(ps).Ok? <==> HasColumn(ps, "Account Code")
    ensures SplitClo(ps).Ok? ==> SplitClo(ps).value == (Filter(InCloAccount, ps), Filter(NotInCloAccount, ps))
  {
    if ps != [] {
      var init, last := ps[..|ps| - 1], ps[|ps| - 1];
      SplitCloIsPartition(init);
      assert init + [last] == ps;
      HasColumnSnoc(init, last);
      if SplitClo(ps).Ok? {
        SplitCloStep(init, last);
      }
    }
  }

  lemma HasColumnSnoc(init: seq<Record>, last: Record)
    ensures HasColumn(init + [last], "Account Code") <==> HasColumn(init, "Account Code") && S("Account Code") in last
  {
    var ps := init + [last];
    assert forall j :: 0 <= j < |init| ==> ps[j] == init[j];
    assert ps[|init|] == last;
  }

  /** One step of the fold appends the last position to its list. */
  lemma SplitCloStep(init: seq<Record>, last: Record)
    requires SplitClo(init).Ok? && S("Account Code") in last
    requires SplitClo(init).value == (Filter(InCloAccount, init), Filter(NotInCloAccount, init))
    ensures SplitClo(init + [last]) == Ok((Filter(InCloAccount, init + [last]), Filter(NotInCloAccount, init + [last])))
  {
    var ps := init + [last];
    assert ps[..|ps| - 1] == init && ps[|ps| - 1] == last;
    var acc := SplitClo(init).value;
    assert IsClo(last) == Ok(InCloAccount(last));
    var clo := Filter(InCloAccount, ps);
    var rest := Filter(NotInCloAccount, ps);
    FilterAppend(InCloAccount, init, [last]);
    FilterAppend(NotInCloAccount, init, [last]);
    FilterSingle(InCloAccount, last);
    FilterSingle(NotInCloAccount, last);
    if InCloAccount(last) {
      assert clo == acc.0 + [last] && rest == acc.1;
      assert SplitClo(ps) == Ok((acc.0 + [last], acc.1));
    } else {
      assert clo == acc.0 && rest == acc.1 + [last];
      assert SplitClo(ps) == Ok((acc.0, acc.1 + [last]));
    }
  }

  /** Every position lands in exactly one list. */
  lemma SplitCloConserves(ps: seq<Record>)
    requires SplitClo(ps).Ok?
    ensures multiset(SplitClo(ps).value.0) + multiset(SplitClo(ps).value.1) == multiset(ps)
  {
    SplitCloIsPartition(ps);
    FilterPartition(InCloAccount, NotInCloAccount, ps);
  }

  /** `getBlpLqaPositions`: the three `filterfalse` stages, `updatePositionId`,
      then the CLO split. */
  function BlpLqaPositions(ps: seq<Record>): (r: Result<(seq<Record>, seq<Record>)>)
    ensures r.Ok? <==> BlpStagesOk(ps) && AllOk(UpdatePositionId, Filter(BlpSurvivor, ps))
    ensures r.Ok? ==> var ided := MapR(UpdatePositionId, Filter(BlpSurvivor, ps)).value;
                      r.value == (Filter(InCloAccount, ided), Filter(NotInCloAccount, ided))
  {
    var s1 :- FilterFalseR(EmptyOrNonPositive, ps);
    var s2 :- FilterFalseR(UnwantedType, s1);
    FirstTwoStages(ps);
    var s3 :- FilterFalseR(GenevaAccount, s2);
    BlpSurvivorsAreFiltered(ps, s1, s2, s3);
    var withIds :- MapR(UpdatePositionId, s3);
    IdsKeepAccountCode(s3, withIds);
    SplitCloIsPartition(withIds);
    SplitClo(withIds)
  }

  /** Each `filterfalse` stage finds the column it reads, on the positions
      the earlier stages let through. */
  predicate BlpStagesOk(ps: seq<Record>)
  {
    AllOk(EmptyOrNonPositive, ps)
    && AllOk(UnwantedType, Filter(Rejects(EmptyOrNonPositive), ps))
    && AllOk(GenevaAccount, Filter(KeptByFirstTwo, ps))
  }

  lemma FirstTwoStages(ps: seq<Record>)
    ensures Filter(Rejects(UnwantedType), Filter(Rejects(EmptyOrNonPositive), ps)) == Filter(KeptByFirstTwo, ps)
  {
    FilterFilter(Rejects(EmptyOrNonPositive), Rejects(UnwantedType), KeptByFirstTwo, ps);
  }

  /** A survivor has an account code, and assigning its id keeps it, so
      the CLO split never raises. */
  lemma IdsKeepAccountCode(survivors: seq<Record>, withIds: seq<Record>)
    requires forall i :: 0 <= i < |survivors| ==> BlpSurvivor(survivors[i])
    requires MapR(UpdatePositionId, survivors) == Ok(withIds)
    ensures HasColumn(withIds, "Account Code")
  {
    forall j | 0 <= j < |withIds| ensures S("Account Code") in withIds[j] {
      assert withIds[j] == UpdatePositionId(survivors[j]).value;
    }
  }

  predicate KeptByFirstTwo(p: Record)
  {
    Rejects(EmptyOrNonPositive)(p) && Rejects(UnwantedType)(p)
  }

  /** Passing the three stages without raising is being a survivor. */
  lemma SurvivorStages(p: Record)
    ensures BlpSurvivor(p) == (KeptByFirstTwo(p) && Rejects(GenevaAccount)(p))
  {
    assert Rejects(EmptyOrNonPositive)(p) == (EmptyOrNonPositive(p) == Ok(false));
    assert Rejects(UnwantedType)(p) == (UnwantedType(p) == Ok(false));
    assert Rejects(GenevaAccount)(p) == (GenevaAccount(p) == Ok(false));
    assert Rejects(EmptyOrNonPositive)(p)
           <==> S("Position") in p && p[S("Position")].N? && p[S("Position")].num > 0.0;
    assert Rejects(UnwantedType)(p)
           <==> S("Asset Type") in p && p[S("Asset Type")] !in UnwantedAssetTypes
                && S("Name") in p && p[S("Name")] !in FundNames;
    assert Rejects(GenevaAccount)(p)
           <==> S("Account Code") in p && p[S("Account Code")].S? && !StartsWith(p[S("Account Code")].text, "19437");
  }

  lemma BlpSurvivorsAreFiltered(ps: seq<Record>, s1: seq<Record>, s2: seq<Record>, s3: seq<Record>)
    requires s1 == Filter(Rejects(EmptyOrNonPositive), ps)
    requires s2 == Filter(Rejects(UnwantedType), s1)
    requires s3 == Filter(Rejects(GenevaAccount), s2)
    ensures s3 == Filter(BlpSurvivor, ps)
  {
    FilterFilter(Rejects(EmptyOrNonPositive), Rejects(UnwantedType), KeptByFirstTwo, ps);
    forall p ensures BlpSurvivor(p) == (KeptByFirstTwo(p) && Rejects(GenevaAccount)(p)) {
      SurvivorStages(p);
    }
    FilterFilter(KeptByFirstTwo, Rejects(GenevaAccount), BlpSurvivor, ps);
  }

  // ---------------------------------------------------------------------
  // Consolidation by Id

  /** A position as a consolidation entry: key Id, amount Position. The sum
      raises unless every Position is a number. */
  function PositionEntry(p: Record): (e: Result<Entry<Cell, Record>>)
    ensures e.Ok? <==> S("Id") in p && S("Position") in p && p[S("Position")].N?
    ensures e.Ok? ==> e.value == Entry(p[S("Id")], p[S("Position")].num, p)
  {
    var id :- Lookup(p, "Id");
    var position :- Lookup(p, "Position");
    var x :- AsNumber(position);
    Ok(Entry(id, x, p))
  }

  function Entries(ps: seq<Record>): (es: seq<Entry<Cell, Record>>)
    requires AllOk(PositionEntry, ps)
    ensures |es| == |ps|
    ensures forall i :: 0 <= i < |ps| ==> es[i] == PositionEntry(ps[i]).value
  {
    MapR(PositionEntry, ps).value
  }

  /** A numeric Position, 0 for anything else. */
  function PositionOf(p: Record): real
  {
    if S("Position") in p && p[S("Position")].N? then p[S("Position")].num else 0.0
  }

  function PositionTotal(ps: seq<Record>): real
  {
    SumBy(PositionOf, ps)
  }

  /** `consolidateGroup`: the first member with Position replaced by the
      group's sum. */
  function WithPosition(p: Record, total: real): (r: Record)
    ensures r.Keys == p.Keys + {S("Position")}
    ensures r[S("Position")] == N(total)
    ensures forall k :: k in p && k != S("Position") ==> r[k] == p[k]
  {
    Merge(p, map[S("Position") := N(total)])
  }

  /** `consolidate`: one record per distinct Id in first-seen order, each
      the group's first member with the group's summed Position. */
  function Consolidate(ps: seq<Record>): (r: Result<seq<Record>>)
    ensures r.Ok? <==> AllOk(PositionEntry, ps)
    ensures r.Ok? ==> var es := Entries(ps); var ids := Distinct(KeysOf(es));
                      |r.value| == |ids|
                      && forall i :: 0 <= i < |ids| ==>
                           r.value[i] == WithPosition(FirstRec(es, ids[i]), GroupTotal(es, ids[i]))
  {
    var es :- MapR(PositionEntry, ps);
    var c := Seqs.Consolidate(es);
    ConsolidateIsReference(es);
    Ok(seq(|c|, i requires 0 <= i < |c| => WithPosition(c[i].rec, c[i].amount)))
  }

  /** What consolidation promises: the records carry distinct Ids, every
      input Id appears, and the total Position is unchanged. */
  lemma ConsolidateSpecLqa(ps: seq<Record>)
    requires Consolidate(ps).Ok?
    ensures var r := Consolidate(ps).value;
            (forall i :: 0 <= i < |r| ==> S("Id") in r[i])
            && (forall i, j :: 0 <= i < j < |r| ==> r[i][S("Id")] != r[j][S("Id")])
            && (forall j :: 0 <= j < |ps| ==> exists i :: 0 <= i < |r| && r[i][S("Id")] == ps[j][S("Id")])
            && PositionTotal(r) == PositionTotal(ps)
  {
    var r := Consolidate(ps).value;
    var ids := Distinct(KeysOf(Entries(ps)));
    ConsolidatedIds(ps);
    forall j | 0 <= j < |ps| ensures exists i :: 0 <= i < |r| && r[i][S("Id")] == ps[j][S("Id")] {
      assert KeysOf(Entries(ps))[j] == ps[j][S("Id")];
      var i :| 0 <= i < |ids| && ids[i] == KeysOf(Entries(ps))[j];
      assert r[i][S("Id")] == ps[j][S("Id")];
    }
    ConsolidatedTotal(ps);
  }

  /** The i-th consolidated record carries the i-th distinct Id. */
  lemma ConsolidatedIds(ps: seq<Record>)
    requires Consolidate(ps).Ok?
    ensures var r := Consolidate(ps).value; var ids := Distinct(KeysOf(Entries(ps)));
            |r| == |ids| && forall i :: 0 <= i < |r| ==> S("Id") in r[i] && r[i][S("Id")] == ids[i]
  {
    var r := Consolidate(ps).value;
    var es := Entries(ps);
    var ids := Distinct(KeysOf(es));
    forall i | 0 <= i < |r| ensures S("Id") in r[i] && r[i][S("Id")] == ids[i] {
      var j := FirstRecOf(es, ids[i]);
    }
  }

  lemma ConsolidatedTotal(ps: seq<Record>)
    requires Consolidate(ps).Ok?
    ensures PositionTotal(Consolidate(ps).value) == PositionTotal(ps)
  {
    var r := Consolidate(ps).value;
    var es := Entries(ps);
    ConsolidateSpec(es);
    var c := Seqs.Consolidate(es);
    TotalIsSumBy(c, PositionOf, r);
    TotalIsSumBy(es, PositionOf, ps);
  }

  // ---------------------------------------------------------------------
  // Joining the two sources

  /** `checkDate`: the Bloomberg and Geneva dates must agree; the parts
      pass through unchanged. */
  function CheckDate(d1: string, clo: seq<Record>, nonClo: seq<Record>, d2: string, geneva: seq<Record>)
    : (r: Result<(string, seq<Record>, seq<Record>, seq<Record>)>)
    ensures r.Ok? <==> d1 == d2
    ensures r.Ok? ==> r.value == (d1, clo, nonClo, geneva)
  {
    if d1 != d2 then Err("ValueError: inconsistent dates") else Ok((d1, clo, nonClo, geneva))
  }

  /** The two position lists `buildLqaRequestFromFiles` hands to the request
      writer: non-CLO Bloomberg plus Geneva positions consolidated together,
      and the CLO positions consolidated on their own. */
  function LqaRequestPositions(blpDate: string, blpRows: seq<Record>, genevaDate: string, genevaRows: seq<Record>)
    : (r: Result<(seq<Record>, seq<Record>)>)
    ensures r.Ok? <==> blpDate == genevaDate && BlpLqaPositions(blpRows).Ok? && GenevaLqaPositions(genevaRows).Ok?
                       && Consolidate(BlpLqaPositions(blpRows).value.1 + GenevaLqaPositions(genevaRows).value).Ok?
                       && Consolidate(BlpLqaPositions(blpRows).value.0).Ok?
    ensures r.Ok? ==> var blp := BlpLqaPositions(blpRows).value; var geneva := GenevaLqaPositions(genevaRows).value;
                      Consolidate(blp.1 + geneva).Ok? && Consolidate(blp.0).Ok?
                      && r.value == (Consolidate(blp.1 + geneva).value, Consolidate(blp.0).value)
  {
    var blp :- BlpLqaPositions(blpRows);
    var geneva :- GenevaLqaPositions(genevaRows);
    var checked :- CheckDate(blpDate, blp.0, blp.1, genevaDate, geneva);
    var nonClo :- Consolidate(checked.2 + checked.3);
    var clo :- Consolidate(checked.1);
    Ok((nonClo, clo))
  }

  /** The Bloomberg side never stops the consolidation: every survivor has
      a numeric Position and has been given an Id. */
  lemma BlpPositionsConsolidate(ps: seq<Record>)
    requires BlpLqaPositions(ps).Ok?
    ensures AllOk(PositionEntry, BlpLqaPositions(ps).value.0)
    ensures AllOk(PositionEntry, BlpLqaPositions(ps).value.1)
  {
    var survivors := Filter(BlpSurvivor, ps);
    var ided := MapR(UpdatePositionId, survivors).value;
    forall i | 0 <= i < |ided| ensures PositionEntry(ided[i]).Ok? {
      SurvivorEntry(survivors[i]);
    }
    AllOkFilter(PositionEntry, InCloAccount, ided);
    AllOkFilter(PositionEntry, NotInCloAccount, ided);
  }

  lemma SurvivorEntry(p: Record)
    requires BlpSurvivor(p) && UpdatePositionId(p).Ok?
    ensures PositionEntry(UpdatePositionId(p).value).Ok?
  {
  }

  lemma AllOkFilter<T, U>(f: T -> Result<U>, g: T -> bool, xs: seq<T>)
    requires AllOk(f, xs)
    ensures AllOk(f, Filter(g, xs))
  {
    var ys := Filter(g, xs);
    forall i | 0 <= i < |ys| ensures f(ys[i]).Ok? {
      var j :| 0 <= j < |xs| && xs[j] == ys[i];
    }
  }

  /** A selected Geneva position enters the consolidation exactly when its
      Quantity, now its Position, is a number. */
  lemma GenevaPositionsConsolidate(ps: seq<Record>)
    requires GenevaLqaPositions(ps).Ok?
    ensures AllOk(PositionEntry, GenevaLqaPositions(ps).value) <==> NumericQuantities(Filter(NeedsLiquidity, ps))
  {
    var kept := Filter(NeedsLiquidity, ps);
    var geneva := GenevaLqaPositions(ps).value;
    forall i | 0 <= i < |kept| ensures PositionEntry(geneva[i]).Ok? <==> NumericQuantity(kept[i]) {
      GenevaEntry(kept[i]);
    }
  }

  lemma GenevaEntry(p: Record)
    requires AddLqaFields(p).Ok?
    ensures PositionEntry(AddLqaFields(p).value).Ok? <==> NumericQuantity(p)
  {
  }

  predicate NumericQuantity(p: Record)
  {
    S("Quantity") in p && p[S("Quantity")].N?
  }

  predicate NumericQuantities(ps: seq<Record>)
  {
    forall i :: 0 <= i < |ps| ==> NumericQuantity(ps[i])
  }

  /** With equal dates and both readers succeeding, the two requests exist
      exactly when every selected Geneva position has a numeric Quantity
      (it became the position's Position). */
  lemma LqaRequestSucceeds(blpDate: string, blpRows: seq<Record>, genevaDate: string, genevaRows: seq<Record>)
    requires blpDate == genevaDate && BlpLqaPositions(blpRows).Ok? && GenevaLqaPositions(genevaRows).Ok?
    ensures LqaRequestPositions(blpDate, blpRows, genevaDate, genevaRows).Ok?
            <==> NumericQuantities(Filter(NeedsLiquidity, genevaRows))
  {
    var blp := BlpLqaPositions(blpRows).value;
    var geneva := GenevaLqaPositions(genevaRows).value;
    BlpPositionsConsolidate(blpRows);
    GenevaPositionsConsolidate(genevaRows);
    AllOkAppend(PositionEntry, blp.1, geneva);
  }

  lemma AllOkAppend<T, U>(f: T -> Result<U>, a: seq<T>, b: seq<T>)
    ensures AllOk(f, a + b) <==> AllOk(f, a) && AllOk(f, b)
  {
    assert forall i :: 0 <= i < |a| ==> (a + b)[i] == a[i];
    assert forall i :: 0 <= i < |b| ==> (a + b)[|a| + i] == b[i];
  }

  /** No quantity is lost or invented between the selected positions and
      the two requests. */
  lemma LqaRequestConserves(blpDate: string, blpRows: seq<Record>, genevaDate: string, genevaRows: seq<Record>)
    requires LqaRequestPositions(blpDate, blpRows, genevaDate, genevaRows).Ok?
    ensures var r := LqaRequestPositions(blpDate, blpRows, genevaDate, genevaRows).value;
            var blp := BlpLqaPositions(blpRows).value;
            PositionTotal(r.0) + PositionTotal(r.1)
            == PositionTotal(blp.0) + PositionTotal(blp.1) + PositionTotal(GenevaLqaPositions(genevaRows).value)
  {
    var blp := BlpLqaPositions(blpRows).value;
    var geneva := GenevaLqaPositions(genevaRows).value;
    ConsolidateSpecLqa(blp.1 + geneva);
    ConsolidateSpecLqa(blp.0);
    SumByAppend(PositionOf, blp.1, geneva);
  }
}
