/** The reference-data loaders of data.py, applied to lines and records
    already read from the workbooks: the rating-score and country-group
    mapping tables, the asset-type special cases, the FX table, the
    portfolio dispatch and the input file names. */
module Data {
  import opened Cells
  import opened Text
  import opened Seqs
  import opened Tables
  import Geneva

  // ---------------------------------------------------------------------
  // The two mapping tables: a title line, then rows of at least three
  // cells up to the first row that is too short or starts with ''.

  /** `len(line) > 2 and line[0] != ''` */
  predicate MappingRow(line: Line)
  {
    |line| > 2 && line[0] != Blank
  }

  /** `takewhile(MappingRow, lines after the popped title)`; an empty file
      raises on `pop`. */
  function MappingRows(lines: seq<Line>): (r: Result<seq<Line>>)
    ensures r.Ok? <==> lines != []
    ensures r.Ok? ==> r.value <= lines[1..]
    ensures r.Ok? ==> forall i :: 0 <= i < |r.value| ==> MappingRow(r.value[i]) && |r.value[i]| > 2
    ensures r.Ok? && |r.value| + 1 < |lines| ==> !MappingRow(lines[|r.value| + 1])
  {
    var split :- Pop(lines);
    var rest := split.1;
    Ok(rest[..Span(MappingRow, rest)])
  }

  function RatingPairs(rows: seq<Line>): (ps: seq<((Cell, Cell), Cell)>)
    requires forall i :: 0 <= i < |rows| ==> |rows[i]| > 2
    ensures |ps| == |rows|
    ensures forall i :: 0 <= i < |rows| ==> ps[i] == ((rows[i][0], rows[i][1]), rows[i][2])
  {
    seq(|rows|, i requires 0 <= i < |rows| => ((rows[i][0], rows[i][1]), rows[i][2]))
  }

  /** `loadRatingScoreMappingFromFile`: (agency, rating) -> score. */
  function RatingScoreMapping(lines: seq<Line>): (r: Result<map<(Cell, Cell), Cell>>)
    ensures r.Ok? <==> lines != []
    ensures r.Ok? ==> var rows := MappingRows(lines).value;
                      forall i :: 0 <= i < |rows| ==> (rows[i][0], rows[i][1]) in r.value
  {
    var rows :- MappingRows(lines);
    Ok(DictOf(RatingPairs(rows)))
  }

  /** Every (agency, rating) key comes from a table row, and the score is
      that of the last row with the key. */
  lemma RatingScoreKeys(lines: seq<Line>, k: (Cell, Cell))
    requires RatingScoreMapping(lines).Ok? && k in RatingScoreMapping(lines).value
    ensures var rows := MappingRows(lines).value;
            exists i :: 0 <= i < |rows| && (rows[i][0], rows[i][1]) == k
                        && RatingScoreMapping(lines).value[k] == rows[i][2]
  {
    var rows := MappingRows(lines).value;
    DictOfKeys(RatingPairs(rows), k);
  }

  lemma RatingScoreLast(lines: seq<Line>, j: nat)
    requires lines != [] && j < |MappingRows(lines).value|
    requires var rows := MappingRows(lines).value;
             forall i :: j < i < |rows| ==> (rows[i][0], rows[i][1]) != (rows[j][0], rows[j][1])
    ensures var rows := MappingRows(lines).value;
            RatingScoreMapping(lines).value[(rows[j][0], rows[j][1])] == rows[j][2]
  {
    var rows := MappingRows(lines).value;
    DictOfLast(RatingPairs(rows), j);
  }

  /** `(line[0], line[2].strip())`: the group must be text. */
  function CountryPair(row: Line): (r: Result<(Cell, string)>)
    ensures r.Ok? <==> |row| > 2 && row[2].S?
    ensures r.Ok? ==> r.value == (row[0], Strip(row[2].text))
  {
    if |row| > 2 then
      var group :- AsText(row[2]);
      Ok((row[0], Strip(group)))
    else Err("IndexError: list index out of range")
  }

  function CountryPairs(rows: seq<Line>): (r: Result<seq<(Cell, string)>>)
    requires forall i :: 0 <= i < |rows| ==> |rows[i]| > 2
    ensures r.Ok? <==> forall i :: 0 <= i < |rows| ==> rows[i][2].S?
    ensures r.Ok? ==> |r.value| == |rows|
    ensures r.Ok? ==> forall i :: 0 <= i < |rows| ==> r.value[i] == (rows[i][0], Strip(rows[i][2].text))
  {
    var pairs := MapR(CountryPair, rows);
    assert pairs.Ok? <==> forall i :: 0 <= i < |rows| ==> CountryPair(rows[i]).Ok?;
    pairs
  }

  /** `loadCountryGroupMappingFromFile`: country code -> country group. */
  function CountryGroupMapping(lines: seq<Line>): (r: Result<map<Cell, string>>)
    ensures r.Ok? <==> lines != [] && forall i :: 0 <= i < |MappingRows(lines).value| ==> MappingRows(lines).value[i][2].S?
    ensures r.Ok? ==> var rows := MappingRows(lines).value;
                      forall i :: 0 <= i < |rows| ==> rows[i][0] in r.value
  {
    var rows :- MappingRows(lines);
    var pairs :- CountryPairs(rows);
    Ok(DictOf(pairs))
  }

  /** The group of a country is the stripped group text of its last row. */
  lemma CountryGroupLast(lines: seq<Line>, j: nat)
    requires CountryGroupMapping(lines).Ok? && j < |MappingRows(lines).value|
    requires var rows := MappingRows(lines).value;
             forall i :: j < i < |rows| ==> rows[i][0] != rows[j][0]
    ensures var rows := MappingRows(lines).value;
            CountryGroupMapping(lines).value[rows[j][0]] == Strip(rows[j][2].text)
            && NoSpaceAtEnds(CountryGroupMapping(lines).value[rows[j][0]])
  {
    var rows := MappingRows(lines).value;
    DictOfLast(CountryPairs(rows).value, j);
  }

  // ---------------------------------------------------------------------
  // Asset-type special cases.

  /** `tuple(map(strip, s.split(',')))` */
  function StringToTuple(s: string): (t: seq<string>)
    ensures |t| == Count(s, ',') + 1
    ensures forall i :: 0 <= i < |t| ==> ',' !in t[i] && NoSpaceAtEnds(t[i])
    ensures |t| == |SplitChar(s, ',')| && forall i :: 0 <= i < |t| ==> t[i] == Strip(SplitChar(s, ',')[i])
  {
    var parts := SplitChar(s, ',');
    SplitCharJoin(s, ',');
    seq(|parts|, i requires 0 <= i < |parts| => Strip(parts[i]))
  }

  /** Writing comma-free items with commas and reading them back gives
      each item stripped, in order: "Fixed Income, Corporate" reads as
      the two items "Fixed Income" and "Corporate". */
  lemma StringToTupleOfItems(items: seq<string>)
    requires |items| >= 1
    requires forall i :: 0 <= i < |items| ==> ',' !in items[i]
    ensures |StringToTuple(Join(",", items))| == |items|
    ensures forall i :: 0 <= i < |items| ==> StringToTuple(Join(",", items))[i] == Strip(items[i])
  {
    assert "," == [','];
    SplitCharOfJoin(items, ',');
  }

  /** Writing stripped, comma-free items with commas and splitting again
      gives the items back. */
  lemma StringToTupleOfJoin(items: seq<string>)
    requires |items| >= 1
    requires forall i :: 0 <= i < |items| ==> ',' !in items[i] && Strip(items[i]) == items[i]
    ensures StringToTuple(Join(",", items)) == items
  {
    StringToTupleOfItems(items);
  }

  /** A special-case record after `updatePosition`. The asset type becomes a
      tuple of strings, which a cell cannot hold, so it is kept beside the
      other fields rather than under the 'AssetType' key. */
  datatype SpecialCase = SpecialCase(info: Record, assetType: seq<string>)

  /** `str(int(x))` for a float portfolio number, anything else as it is. */
  function PortfolioText(c: Cell): (r: Cell)
    ensures c.N? ==> r.S? && ParseInt(r.text) == Some(Truncate(c.num))
    ensures !c.N? ==> r == c
  {
    if c.N? then
      ParseIntToString(Truncate(c.num));
      S(IntToString(Truncate(c.num)))
    else c
  }

  /** The fields of a special case other than its asset type, with the
      portfolio number normalised. */
  function UpdatedInfo(p: Record): (info: Record)
    requires S("Portfolio") in p
    ensures info.Keys == p.Keys - {S("AssetType")}
    ensures info[S("Portfolio")] == PortfolioText(p[S("Portfolio")])
    ensures forall k :: k in p && k != S("Portfolio") && k != S("AssetType") ==> info[k] == p[k]
  {
    assert S("Portfolio") != S("AssetType") by { assert "Portfolio"[0] != "AssetType"[0]; }
    p[S("Portfolio") := PortfolioText(p[S("Portfolio")])] - {S("AssetType")}
  }

  /** `updatePosition`: raises on a missing 'Portfolio' or 'AssetType', or
      an asset type that is not text. */
  function UpdatePosition(p: Record): (r: Result<SpecialCase>)
    ensures r.Ok? <==> S("Portfolio") in p && LookupText(p, "AssetType").Ok?
    ensures r.Ok? ==> r.value == SpecialCase(UpdatedInfo(p), StringToTuple(p[S("AssetType")].text))
  {
    var _ :- Lookup(p, "Portfolio");
    var assetType :- LookupText(p, "AssetType");
    Ok(SpecialCase(UpdatedInfo(p), StringToTuple(assetType)))
  }

  /** `(p['ID'], p)` of an updated position. */
  function SpecialPair(p: Record): (r: Result<(Cell, SpecialCase)>)
    ensures r.Ok? <==> UpdatePosition(p).Ok? && S("ID") in p
    ensures r.Ok? ==> r.value.0 == p[S("ID")] && Ok(r.value.1) == UpdatePosition(p)
  {
    var sc :- UpdatePosition(p);
    assert S("ID") != S("AssetType") by { assert "ID"[0] != "AssetType"[0]; }
    var id :- Lookup(sc.info, "ID");
    Ok((id, sc))
  }

  function SpecialPairs(ps: seq<Record>): (r: Result<seq<(Cell, SpecialCase)>>)
    ensures r.Ok? <==> forall i :: 0 <= i < |ps| ==> UpdatePosition(ps[i]).Ok? && S("ID") in ps[i]
    ensures r.Ok? ==> |r.value| == |ps|
    ensures r.Ok? ==> forall i :: 0 <= i < |ps| ==>
                        Ok(r.value[i].1) == UpdatePosition(ps[i]) && r.value[i].0 == ps[i][S("ID")]
  {
    var pairs := MapR(SpecialPair, ps);
    assert pairs.Ok? <==> forall i :: 0 <= i < |ps| ==> SpecialPair(ps[i]).Ok?;
    pairs
  }

  /** `loadAssetTypeSpecialCaseFromFile`: ID -> updated record. */
  function AssetTypeSpecialCases(ps: seq<Record>): (r: Result<map<Cell, SpecialCase>>)
    ensures r.Ok? <==> forall i :: 0 <= i < |ps| ==> UpdatePosition(ps[i]).Ok? && S("ID") in ps[i]
    ensures r.Ok? ==> forall i :: 0 <= i < |ps| ==> ps[i][S("ID")] in r.value
  {
    var pairs :- SpecialPairs(ps);
    Ok(DictOf(pairs))
  }

  /** The entry under an ID is the update of the last record with that ID. */
  lemma AssetTypeSpecialCaseLast(ps: seq<Record>, j: nat)
    requires AssetTypeSpecialCases(ps).Ok? && j < |ps|
    requires forall i :: j < i < |ps| ==> ps[i][S("ID")] != ps[j][S("ID")]
    ensures Ok(AssetTypeSpecialCases(ps).value[ps[j][S("ID")]]) == UpdatePosition(ps[j])
  {
    DictOfLast(SpecialPairs(ps).value, j);
  }

  // ---------------------------------------------------------------------
  // FX table.

  /** The row filter of `getFX`: the date is compared first, and the
      reporting currency is only read when the date matches. How an Excel
      ordinal becomes a 'yyyymmdd' string is the parameter `toDate`. */
  function FxWanted(toDate: Cell -> Result<string>, date: string, target: string, p: Record): (r: Result<bool>)
    ensures r.Ok? <==> S("Date") in p && toDate(p[S("Date")]).Ok?
                       && (toDate(p[S("Date")]).value == date ==> S("Reporting Currency") in p)
    ensures r.Ok? ==> (r.value <==> toDate(p[S("Date")]).value == date && p[S("Reporting Currency")] == S(target))
  {
    var d :- Lookup(p, "Date");
    var ds :- toDate(d);
    if ds != date then Ok(false)
    else
      var reporting :- Lookup(p, "Reporting Currency");
      Ok(reporting == S(target))
  }

  function FxTest(toDate: Cell -> Result<string>, date: string, target: string): Record -> Result<bool>
  {
    p => FxWanted(toDate, date, target, p)
  }

  /** `(p['Currency'], p['FX'])` */
  function CurrencyRate(p: Record): (r: Result<(Cell, Cell)>)
    ensures r.Ok? <==> S("Currency") in p && S("FX") in p
    ensures r.Ok? ==> r.value == (p[S("Currency")], p[S("FX")])
  {
    var currency :- Lookup(p, "Currency");
    var fx :- Lookup(p, "FX");
    Ok((currency, fx))
  }

  /** The rows of the FX sheet for the date and the target currency. */
  function FxRows(toDate: Cell -> Result<string>, date: string, target: string, rows: seq<Record>): (r: Result<seq<Record>>)
    ensures r.Ok? <==> AllOk(FxTest(toDate, date, target), rows)
    ensures r.Ok? ==> forall i :: 0 <= i < |r.value| ==> FxWanted(toDate, date, target, r.value[i]) == Ok(true)
    ensures r.Ok? ==> r.value == Filter(Accepts(FxTest(toDate, date, target)), rows)
  {
    var kept := FilterR(FxTest(toDate, date, target), rows);
    if kept.Ok? then
      assert forall i :: 0 <= i < |kept.value| ==> Accepts(FxTest(toDate, date, target))(kept.value[i]);
      kept
    else kept
  }

  /** `getFX`: currency -> rate for the date, where the target currency
      always has a rate: 1.0 unless the sheet itself lists it. */
  function GetFx(toDate: Cell -> Result<string>, date: string, target: string, rows: seq<Record>): (r: Result<map<Cell, Cell>>)
    ensures r.Ok? <==> FxRows(toDate, date, target, rows).Ok? && AllOk(CurrencyRate, FxRows(toDate, date, target, rows).value)
    ensures r.Ok? ==> S(target) in r.value
    ensures r.Ok? ==> var kept := FxRows(toDate, date, target, rows).value;
                      forall i :: 0 <= i < |kept| ==> kept[i][S("Currency")] in r.value
  {
    var kept :- FxRows(toDate, date, target, rows);
    var pairs :- MapR(CurrencyRate, kept);
    Ok(Merge(map[S(target) := N(1.0)], DictOf(pairs)))
  }

  /** The rate of a listed currency is that of its last row for the date. */
  lemma GetFxLast(toDate: Cell -> Result<string>, date: string, target: string, rows: seq<Record>, j: nat)
    requires GetFx(toDate, date, target, rows).Ok?
    requires j < |FxRows(toDate, date, target, rows).value|
    requires var kept := FxRows(toDate, date, target, rows).value;
             forall i :: j < i < |kept| ==> kept[i][S("Currency")] != kept[j][S("Currency")]
    ensures var kept := FxRows(toDate, date, target, rows).value;
            GetFx(toDate, date, target, rows).value[kept[j][S("Currency")]] == kept[j][S("FX")]
  {
    var kept := FxRows(toDate, date, target, rows).value;
    DictOfLast(MapR(CurrencyRate, kept).value, j);
  }

  /** Without a row for the target currency itself, its rate is 1.0. */
  lemma GetFxTarget(toDate: Cell -> Result<string>, date: string, target: string, rows: seq<Record>)
    requires GetFx(toDate, date, target, rows).Ok?
    requires var kept := FxRows(toDate, date, target, rows).value;
             forall i :: 0 <= i < |kept| ==> kept[i][S("Currency")] != S(target)
    ensures GetFx(toDate, date, target, rows).value[S(target)] == N(1.0)
  {
    var kept := FxRows(toDate, date, target, rows).value;
    var pairs := MapR(CurrencyRate, kept).value;
    if S(target) in DictOf(pairs) {
      DictOfKeys(pairs, S(target));
    }
  }

  // ---------------------------------------------------------------------
  // Positions of a portfolio and the input file names.

  const GenevaRemark: string := "Geneva investment positions report"

  /** `mergeDict(p, {'Remarks1': 'Geneva investment positions report'})` */
  function TagGeneva(p: Record): (r: Record)
    ensures r.Keys == p.Keys + {S("Remarks1")}
    ensures r[S("Remarks1")] == S(GenevaRemark)
    ensures forall k :: k in p && k != S("Remarks1") ==> r[k] == p[k]
  {
    Merge(p, map[S("Remarks1") := S(GenevaRemark)])
  }

  /** `getPortfolioPositions`: only portfolio 19437 is served, from its
      Geneva report (whose positions, as the report reader returns them,
      are the parameter); any other portfolio raises. */
  function PortfolioPositions(portfolio: string, genevaPositions: seq<Record>): (r: Result<seq<Record>>)
    ensures r.Ok? <==> portfolio == "19437"
    ensures r.Ok? ==> |r.value| == |genevaPositions|
    ensures r.Ok? ==> forall i :: 0 <= i < |r.value| ==> r.value[i] == TagGeneva(genevaPositions[i])
  {
    if portfolio == "19437" then
      Ok(seq(|genevaPositions|, i requires 0 <= i < |genevaPositions| => TagGeneva(genevaPositions[i])))
    else Err("getBlpPositions(): not implemented")
  }

  /** Every position served is recognised as a Geneva position downstream. */
  lemma PortfolioPositionsAreGeneva(genevaPositions: seq<Record>, i: nat)
    requires i < |genevaPositions|
    ensures Geneva.IsGenevaPosition(PortfolioPositions("19437", genevaPositions).value[i]) == Ok(true)
  {
    var t := PortfolioPositions("19437", genevaPositions).value[i][S("Remarks1")].text;
    assert t == GenevaRemark;
    assert t[..6] == "Geneva";
  }

  /** `portfolio + '_Investment_Positions_' + date + '.xlsx'` */
  function GenevaPositionFile(portfolio: string, date: string): (name: string)
    ensures |name| == |portfolio| + |date| + 27
  {
    portfolio + "_Investment_Positions_" + date + ".xlsx"
  }

  /** The portfolio and the date can be read back from the file name. */
  lemma GenevaPositionFileParts(portfolio: string, date: string)
    ensures var name := GenevaPositionFile(portfolio, date);
            name[..|portfolio|] == portfolio && name[|portfolio| + 22..|name| - 5] == date
            && name[|name| - 5..] == ".xlsx"
  {
  }

  /** `'BlpData_' + date + '.xlsx'` */
  function BlpDataFile(date: string): (name: string)
    ensures |name| == |date| + 13
  {
    "BlpData_" + date + ".xlsx"
  }

  lemma BlpDataFileDate(date: string)
    ensures var name := BlpDataFile(date);
            name[..8] == "BlpData_" && name[8..|name| - 5] == date && name[|name| - 5..] == ".xlsx"
  {
  }

  /** `loadBlpDataFromFile`: the Bloomberg records of a day by ID. */
  function LoadBlpData(ps: seq<Record>): (r: Result<map<Cell, Record>>)
    ensures r.Ok? <==> HasColumn(ps, "ID")
    ensures r.Ok? ==> forall i :: 0 <= i < |ps| ==> ps[i][S("ID")] in r.value
  {
    IndexBy(ps, "ID")
  }
}
