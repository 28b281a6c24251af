/** The Bloomberg liquidity request built from a risk-monitor sheet
    (liquidity.py): the position reader, the consolidation by Name, the
    validity filter, the LQA record and its '|'-separated request line. */
module LiquidityRequest {
  import opened Cells
  import opened Text
  import opened Seqs
  import opened Tables
  import Lqa

  // ---------------------------------------------------------------------
  // Reading the positions

  /** The `takewhile` test `line[0] != ''`. */
  function BeforeBlank(line: Line): (r: Result<bool>)
    ensures r.Ok? <==> |line| > 0
    ensures r.Ok? ==> (r.value <==> line[0] != Blank)
  {
    var head :- Head(line);
    Ok(head != Blank)
  }

  const SummaryLabels: set<Cell> := {S("Top Level"), S("Long"), S("Short")}

  /** The `filterfalse` test: the sheet's subtotal rows. */
  function SummaryRow(line: Line): (r: Result<bool>)
    ensures r.Ok? <==> |line| > 0
    ensures r.Ok? ==> (r.value <==> line[0] in SummaryLabels)
  {
    var head :- Head(line);
    Ok(head in SummaryLabels)
  }

  predicate IsSummaryRow(line: Line)
  {
    |line| > 0 && line[0] in SummaryLabels
  }

  predicate NotSummaryRow(line: Line)
  {
    !IsSummaryRow(line)
  }

  /** `getPositions` after the sheet is read: the first line starting with
      'Name' is the header; the rows after it up to the first one with a
      blank first cell, less the subtotal rows, each zipped with it. */
  function GetPositions(lines: seq<Line>): (r: Result<seq<Record>>)
    ensures r.Ok? ==> exists i :: 0 <= i < |lines| && |lines[i]| > 0 && lines[i][0] == S("Name")
  {
    var fromHeader :- DropWhileR(BeforeHeader, lines);
    var split :- Pop(fromHeader);
    var body :- TakeWhileR(BeforeBlank, split.1);
    var kept :- FilterFalseR(SummaryRow, body);
    assert lines[|lines| - |fromHeader|] == split.0;
    Ok(ZipAll(split.0, kept))
  }

  /** A sheet laid out as: lines before the header, the header, position and
      subtotal rows, then a line with a blank first cell or the end. */
  lemma GetPositionsOfBlock(pre: seq<Line>, header: Line, rows: seq<Line>, tail: seq<Line>)
    requires forall i :: 0 <= i < |pre| ==> |pre[i]| > 0 && pre[i][0] != S("Name")
    requires |header| > 0 && header[0] == S("Name")
    requires forall i :: 0 <= i < |rows| ==> |rows[i]| > 0 && rows[i][0] != Blank
    requires tail == [] || (|tail[0]| > 0 && tail[0][0] == Blank)
    ensures GetPositions(pre + [header] + rows + tail) == Ok(ZipAll(header, Filter(NotSummaryRow, rows)))
  {
    var afterHeader := rows + tail;
    assert pre + [header] + rows + tail == pre + ([header] + afterHeader);
    assert forall i :: 0 <= i < |pre| ==> BeforeHeader(pre[i]) == Ok(true);
    DropWhileTo(BeforeHeader, pre, header, afterHeader);
    assert Pop([header] + afterHeader) == Ok((header, afterHeader)) by {
      assert ([header] + afterHeader)[1..] == afterHeader;
    }
    assert forall i :: 0 <= i < |rows| ==> BeforeBlank(rows[i]) == Ok(true);
    assert tail != [] ==> BeforeBlank(tail[0]) == Ok(false);
    TakeWhileTo(BeforeBlank, rows, tail);
    SummaryFilter(rows);
  }

  /** On non-empty rows the `filterfalse` stage is the plain filter. */
  lemma SummaryFilter(rows: seq<Line>)
    requires forall i :: 0 <= i < |rows| ==> |rows[i]| > 0
    ensures FilterFalseR(SummaryRow, rows) == Ok(Filter(NotSummaryRow, rows))
  {
    forall i | 0 <= i < |rows| ensures Rejects(SummaryRow)(rows[i]) == NotSummaryRow(rows[i]) {
      assert Rejects(SummaryRow)(rows[i]) == (SummaryRow(rows[i]) == Ok(false));
    }
    FilterCongruent(Rejects(SummaryRow), NotSummaryRow, rows);
  }

  /** A sheet without a 'Name' line yields nothing but an error. */
  lemma GetPositionsNeedsHeader(lines: seq<Line>)
    requires forall i :: 0 <= i < |lines| ==> !(|lines[i]| > 0 && lines[i][0] == S("Name"))
    ensures GetPositions(lines).Err?
  {
  }

  // ---------------------------------------------------------------------
  // Consolidation by Name

  /** A position as a consolidation entry: key Name, amount Position. */
  function NameEntry(p: Record): (e: Result<Entry<Cell, Record>>)
    ensures e.Ok? <==> S("Name") in p && S("Position") in p && p[S("Position")].N?
    ensures e.Ok? ==> e.value == Entry(p[S("Name")], p[S("Position")].num, p)
  {
    var name :- Lookup(p, "Name");
    var position :- Lookup(p, "Position");
    var x :- AsNumber(position);
    Ok(Entry(name, x, p))
  }

  function NameEntries(ps: seq<Record>): (es: seq<Entry<Cell, Record>>)
    requires AllOk(NameEntry, ps)
    ensures |es| == |ps|
    ensures forall i :: 0 <= i < |ps| ==> es[i] == NameEntry(ps[i]).value
  {
    MapR(NameEntry, ps).value
  }

  const ConsolidatedKeys: set<Cell> := {S("Name"), S("ISIN"), S("Asset Type"), S("Position")}

  /** `consolidateGroup`: Name, the first member's ISIN and Asset Type, and
      the summed Position; no other field survives. */
  function GroupRecord(e: Entry<Cell, Record>): (r: Result<Record>)
    ensures r.Ok? <==> S("ISIN") in e.rec && S("Asset Type") in e.rec
    ensures r.Ok? ==> r.value.Keys == ConsolidatedKeys
    ensures r.Ok? ==> r.value[S("Name")] == e.key && r.value[S("Position")] == N(e.amount)
                      && r.value[S("ISIN")] == e.rec[S("ISIN")] && r.value[S("Asset Type")] == e.rec[S("Asset Type")]
  {
    var isin :- Lookup(e.rec, "ISIN");
    var assetType :- Lookup(e.rec, "Asset Type");
    Ok(map[S("Name") := e.key, S("ISIN") := isin, S("Asset Type") := assetType, S("Position") := N(e.amount)])
  }

  /** The first member of every group carries ISIN and Asset Type. */
  predicate LeadersComplete(es: seq<Entry<Cell, Record>>)
  {
    forall k :: k in KeysOf(es) ==> S("ISIN") in FirstRec(es, k) && S("Asset Type") in FirstRec(es, k)
  }

  /** `consolidate`: one record per distinct Name in first-seen order. */
  function ConsolidateByName(ps: seq<Record>): (r: Result<seq<Record>>)
    ensures r.Ok? <==> AllOk(NameEntry, ps) && LeadersComplete(NameEntries(ps))
    ensures r.Ok? ==> var es := NameEntries(ps); var names := Distinct(KeysOf(es));
                      |r.value| == |names|
                      && forall i :: 0 <= i < |names| ==>
                           r.value[i].Keys == ConsolidatedKeys
                           && r.value[i][S("Name")] == names[i]
                           && r.value[i][S("Position")] == N(GroupTotal(es, names[i]))
                           && r.value[i][S("ISIN")] == FirstRec(es, names[i])[S("ISIN")]
                           && r.value[i][S("Asset Type")] == FirstRec(es, names[i])[S("Asset Type")]
  {
    var es :- MapR(NameEntry, ps);
    var c := Seqs.Consolidate(es);
    ConsolidateIsReference(es);
    LeadersOk(es);
    MapR(GroupRecord, c)
  }

  lemma LeadersOk(es: seq<Entry<Cell, Record>>)
    ensures AllOk(GroupRecord, Seqs.Consolidate(es)) <==> LeadersComplete(es)
  {
    var c := Seqs.Consolidate(es);
    var d := Distinct(KeysOf(es));
    ConsolidateIsReference(es);
    assert |c| == |d|;
    assert forall i :: 0 <= i < |c| ==> c[i].rec == FirstRec(es, d[i]);
    if AllOk(GroupRecord, c) {
      forall k | k in KeysOf(es) ensures S("ISIN") in FirstRec(es, k) && S("Asset Type") in FirstRec(es, k) {
        assert k in d;
        var i :| 0 <= i < |d| && d[i] == k;
        assert GroupRecord(c[i]).Ok?;
      }
    }
  }

  /** The consolidated records carry distinct Names. */
  lemma ConsolidatedNamesDistinct(ps: seq<Record>)
    requires ConsolidateByName(ps).Ok?
    ensures var r := ConsolidateByName(ps).value;
            forall i, j :: 0 <= i < j < |r| ==> S("Name") in r[i] && S("Name") in r[j] && r[i][S("Name")] != r[j][S("Name")]
  {
    var r := ConsolidateByName(ps).value;
    var names := Distinct(KeysOf(NameEntries(ps)));
    assert forall i :: 0 <= i < |r| ==> S("Name") in r[i] && r[i][S("Name")] == names[i];
  }

  /** Every input Name has a consolidated record. */
  lemma ConsolidatedNamesCover(ps: seq<Record>)
    requires ConsolidateByName(ps).Ok?
    ensures var r := ConsolidateByName(ps).value;
            forall j :: 0 <= j < |ps| ==> S("Name") in ps[j] && exists i :: 0 <= i < |r| && S("Name") in r[i] && r[i][S("Name")] == ps[j][S("Name")]
  {
    var r := ConsolidateByName(ps).value;
    var es := NameEntries(ps);
    var names := Distinct(KeysOf(es));
    forall j | 0 <= j < |ps|
      ensures S("Name") in ps[j] && exists i :: 0 <= i < |r| && S("Name") in r[i] && r[i][S("Name")] == ps[j][S("Name")]
    {
      assert NameEntry(ps[j]).Ok?;
      assert KeysOf(es)[j] == ps[j][S("Name")];
      var i :| 0 <= i < |names| && names[i] == KeysOf(es)[j];
      assert S("Name") in r[i] && r[i][S("Name")] == ps[j][S("Name")];
    }
  }

  lemma ConsolidatedNameTotal(ps: seq<Record>)
    requires ConsolidateByName(ps).Ok?
    ensures Lqa.PositionTotal(ConsolidateByName(ps).value) == Lqa.PositionTotal(ps)
  {
    var r := ConsolidateByName(ps).value;
    var es := NameEntries(ps);
    ConsolidateSpec(es);
    var c := Seqs.Consolidate(es);
    TotalIsSumBy(c, Lqa.PositionOf, r);
    TotalIsSumBy(es, Lqa.PositionOf, ps);
  }

  // ---------------------------------------------------------------------
  // Valid positions

  const NonSecurityTypes: set<Cell> := {S("Cash"), S("Repo Liability"), S("Foreign Exchange Forward")}

  /** The `filterfalse` test on Asset Type. */
  function NonSecurity(p: Record): (r: Result<bool>)
    ensures r.Ok? <==> S("Asset Type") in p
    ensures r.Ok? ==> (r.value <==> p[S("Asset Type")] in NonSecurityTypes)
  {
    var assetType :- Lookup(p, "Asset Type");
    Ok(assetType in NonSecurityTypes)
  }

  /** The `filter` test `x['Position'] > 0`; a non-number raises. */
  function PositivePosition(p: Record): (r: Result<bool>)
    ensures r.Ok? <==> S("Position") in p && p[S("Position")].N?
    ensures r.Ok? ==> (r.value <==> p[S("Position")].num > 0.0)
  {
    var position :- Lookup(p, "Position");
    var x :- AsNumber(position);
    Ok(x > 0.0)
  }

  predicate IsValid(p: Record)
  {
    S("Asset Type") in p && p[S("Asset Type")] !in NonSecurityTypes
    && S("Position") in p && p[S("Position")].N? && p[S("Position")].num > 0.0
  }

  /** `validPosition`: the security positions with a positive Position, in
      input order. */
  function ValidPosition(ps: seq<Record>): (r: Result<seq<Record>>)
    ensures r.Ok? <==> AllOk(NonSecurity, ps) && AllOk(PositivePosition, Filter(Rejects(NonSecurity), ps))
    ensures r.Ok? ==> r.value == Filter(IsValid, ps)
  {
    var securities :- FilterFalseR(NonSecurity, ps);
    var positive :- FilterR(PositivePosition, securities);
    forall p ensures IsValid(p) == (Rejects(NonSecurity)(p) && Accepts(PositivePosition)(p)) {
      ValidStages(p);
    }
    FilterFilter(Rejects(NonSecurity), Accepts(PositivePosition), IsValid, ps);
    Ok(positive)
  }

  lemma ValidStages(p: Record)
    ensures IsValid(p) == (Rejects(NonSecurity)(p) && Accepts(PositivePosition)(p))
  {
    assert Rejects(NonSecurity)(p) == (NonSecurity(p) == Ok(false));
    assert Accepts(PositivePosition)(p) == (PositivePosition(p) == Ok(true));
  }

  /** Consolidated records always pass through the validity filter without
      raising, so the filter sees the netted Position of each Name. */
  lemma ValidAfterConsolidation(ps: seq<Record>)
    requires ConsolidateByName(ps).Ok?
    ensures ValidPosition(ConsolidateByName(ps).value).Ok?
  {
    var r := ConsolidateByName(ps).value;
    assert forall i :: 0 <= i < |r| ==> r[i].Keys == ConsolidatedKeys && r[i][S("Position")].N?;
    ValidPositionOk(r);
  }

  predicate Tidy(p: Record)
  {
    S("Asset Type") in p && S("Position") in p && p[S("Position")].N?
  }

  lemma ValidPositionOk(ps: seq<Record>)
    requires forall i :: 0 <= i < |ps| ==> Tidy(ps[i])
    ensures ValidPosition(ps).Ok?
  {
    var s := Filter(Rejects(NonSecurity), ps);
    assert forall i :: 0 <= i < |s| ==> s[i] in ps;
  }

  // ---------------------------------------------------------------------
  // The LQA record and its line

  /** The header order of the request line. */
  const LqaHeaders: seq<string> :=
    [ "LQA_POSITION_TAG_1", "LQA_TGT_LIQUIDATION_VOLUME", "LQA_SOURCE_TGT_LIQUIDATION_COST"
    , "LQA_FACTOR_TGT_LIQUIDATION_COST", "LQA_TGT_LIQUIDATION_HORIZON", "LQA_TGT_COST_CONF_LEVL"
    , "LQA_MODEL_AS_OF_DATE"]

  /** The id fields and the header fields. */
  const LqaRecordKeys: set<Cell> :=
    { S("Identifier ID"), S("Identifier ID Type")
    , S("LQA_POSITION_TAG_1"), S("LQA_TGT_LIQUIDATION_VOLUME"), S("LQA_SOURCE_TGT_LIQUIDATION_COST")
    , S("LQA_FACTOR_TGT_LIQUIDATION_COST"), S("LQA_TGT_LIQUIDATION_HORIZON"), S("LQA_TGT_COST_CONF_LEVL")
    , S("LQA_MODEL_AS_OF_DATE")}

  /** `lqaRecord`: equities by ticker with cost source PR and factor 20,
      the rest by ISIN with BA and 1; tag MasterList, horizon 1, confidence
      95, the given date, and the Position as the target volume. */
  function LqaRecord(show: real -> string, date: string, p: Record): (r: Result<Record>)
    ensures r.Ok? <==> S("Asset Type") in p && S("Position") in p
                       && (if p[S("Asset Type")] == S("Equity") then S("Name") in p && p[S("Name")].S? else S("ISIN") in p)
    ensures r.Ok? ==> r.value.Keys == LqaRecordKeys
    ensures r.Ok? && p[S("Asset Type")] == S("Equity") ==>
              r.value[S("Identifier ID")] == S(p[S("Name")].text + " Equity")
              && r.value[S("Identifier ID Type")] == S("TICKER")
              && r.value[S("LQA_SOURCE_TGT_LIQUIDATION_COST")] == S("PR")
              && r.value[S("LQA_FACTOR_TGT_LIQUIDATION_COST")] == S("20")
    ensures r.Ok? && p[S("Asset Type")] != S("Equity") ==>
              r.value[S("Identifier ID")] == p[S("ISIN")]
              && r.value[S("Identifier ID Type")] == S("ISIN")
              && r.value[S("LQA_SOURCE_TGT_LIQUIDATION_COST")] == S("BA")
              && r.value[S("LQA_FACTOR_TGT_LIQUIDATION_COST")] == S("1")
    ensures r.Ok? ==> r.value[S("LQA_POSITION_TAG_1")] == S("MasterList")
                      && r.value[S("LQA_TGT_LIQUIDATION_VOLUME")] == S(CellString(show, p[S("Position")]))
                      && r.value[S("LQA_TGT_LIQUIDATION_HORIZON")] == S("1")
                      && r.value[S("LQA_TGT_COST_CONF_LEVL")] == S("95")
                      && r.value[S("LQA_MODEL_AS_OF_DATE")] == S(date)
  {
    var assetType :- Lookup(p, "Asset Type");
    var equity := assetType == S("Equity");
    var id :- if equity then EquityTicker(p) else Lookup(p, "ISIN");
    var position :- Lookup(p, "Position");
    Ok(map[ S("Identifier ID") := id
          , S("Identifier ID Type") := S(if equity then "TICKER" else "ISIN")
          , S("LQA_POSITION_TAG_1") := S("MasterList")
          , S("LQA_TGT_LIQUIDATION_VOLUME") := S(CellString(show, position))
          , S("LQA_SOURCE_TGT_LIQUIDATION_COST") := S(if equity then "PR" else "BA")
          , S("LQA_FACTOR_TGT_LIQUIDATION_COST") := S(if equity then "20" else "1")
          , S("LQA_TGT_LIQUIDATION_HORIZON") := S("1")
          , S("LQA_TGT_COST_CONF_LEVL") := S("95")
          , S("LQA_MODEL_AS_OF_DATE") := S(date)
          ])
  }

  /** `r['Name'] + ' Equity'`: a non-text Name raises. */
  function EquityTicker(p: Record): (r: Result<Cell>)
    ensures r.Ok? <==> S("Name") in p && p[S("Name")].S?
    ensures r.Ok? ==> r.value == S(p[S("Name")].text + " Equity")
  {
    var name :- Lookup(p, "Name");
    var text :- AsText(name);
    Ok(S(text + " Equity"))
  }

  /** `outputLine`: id, id type, the header names, then the values in the
      same order, each followed by '|'. */
  function OutputLine(headers: seq<string>, r: Record): (line: Result<string>)
    ensures line.Ok? <==> LookupText(r, "Identifier ID").Ok? && LookupText(r, "Identifier ID Type").Ok?
                          && forall i :: 0 <= i < |headers| ==> LookupText(r, headers[i]).Ok?
  {
    var id :- LookupText(r, "Identifier ID");
    var idType :- LookupText(r, "Identifier ID Type");
    var values :- MapR(h => LookupText(r, h), headers);
    Ok(id + "|" + idType + "|" + Join("|", headers) + "|" + Join("|", values) + "|")
  }

  /** The field values in header order. */
  function Values(headers: seq<string>, r: Record): (vs: seq<string>)
    requires forall i :: 0 <= i < |headers| ==> LookupText(r, headers[i]).Ok?
    ensures |vs| == |headers|
    ensures forall i :: 0 <= i < |headers| ==> vs[i] == LookupText(r, headers[i]).value
  {
    seq(|headers|, i requires 0 <= i < |headers| && LookupText(r, headers[i]).Ok? => LookupText(r, headers[i]).value)
  }

  /** Splitting a request line on '|' gives back the id, the id type, the
      headers and the values, then the empty piece after the final '|',
      when no field contains '|'. */
  lemma OutputLineFields(headers: seq<string>, r: Record)
    requires |headers| >= 1
    requires OutputLine(headers, r).Ok?
    requires var parts := [r[S("Identifier ID")].text, r[S("Identifier ID Type")].text] + headers + Values(headers, r);
             forall i :: 0 <= i < |parts| ==> '|' !in parts[i]
    ensures SplitChar(OutputLine(headers, r).value, '|')
            == [r[S("Identifier ID")].text, r[S("Identifier ID Type")].text] + headers + Values(headers, r) + [""]
  {
    var id, idType := r[S("Identifier ID")].text, r[S("Identifier ID Type")].text;
    var values := Values(headers, r);
    assert MapR(h => LookupText(r, h), headers).value == values;
    var parts := [id, idType] + headers + values + [""];
    JoinFields(id, idType, headers, values);
    assert Join("|", parts) == OutputLine(headers, r).value;
    forall i | 0 <= i < |parts| ensures '|' !in parts[i] {
      if i == |parts| - 1 { assert parts[i] == ""; }
    }
    SplitCharOfJoin(parts, '|');
  }

  /** The request line is the '|'-join of its fields and a final empty
      piece. */
  lemma JoinFields(id: string, idType: string, headers: seq<string>, values: seq<string>)
    requires |headers| >= 1 && |values| >= 1
    ensures Join("|", [id, idType] + headers + values + [""])
            == id + "|" + idType + "|" + Join("|", headers) + "|" + Join("|", values) + "|"
  {
    var h, v := Join("|", headers), Join("|", values);
    JoinAppend("|", values, [""]);
    assert Join("|", values + [""]) == v + "|";
    JoinAppend("|", headers, values + [""]);
    JoinAppend("|", [id, idType], headers + (values + [""]));
    assert Join("|", [id, idType]) == id + "|" + idType by {
      assert [id, idType][1..] == [idType];
    }
    Regroup([id, idType], headers, values, [""]);
    Regroup5(id + "|" + idType + "|", h, "|", v, "|");
  }

  /** `getLQARecords`: positions, consolidated by Name, then the valid ones,
      then their LQA records. The validity test sees each Name's netted
      Position. */
  function GetLqaRecords(show: real -> string, date: string, lines: seq<Line>): (r: Result<seq<Record>>)
    ensures r.Ok? <==> GetPositions(lines).Ok? && ConsolidateByName(GetPositions(lines).value).Ok?
                       && AllOk(LqaRecordOf(show, date), Filter(IsValid, ConsolidateByName(GetPositions(lines).value).value))
    ensures r.Ok? ==> var kept := Filter(IsValid, ConsolidateByName(GetPositions(lines).value).value);
                      |r.value| == |kept|
                      && forall i :: 0 <= i < |kept| ==> LqaRecord(show, date, kept[i]) == Ok(r.value[i])
  {
    var ps :- GetPositions(lines);
    var consolidated :- ConsolidateByName(ps);
    ValidAfterConsolidation(ps);
    var valid := ValidPosition(consolidated).value;
    LqaRecords(show, date, valid)
  }

  /** `partial(lqaRecord, date)` */
  function LqaRecordOf(show: real -> string, date: string): Record -> Result<Record>
  {
    p => LqaRecord(show, date, p)
  }

  /** A valid consolidated equity has a ticker when its Name is text. */
  predicate TickerReady(p: Record)
  {
    S("Asset Type") in p && (p[S("Asset Type")] == S("Equity") ==> S("Name") in p && p[S("Name")].S?)
  }

  predicate AllTickerReady(ps: seq<Record>)
  {
    forall i :: 0 <= i < |ps| ==> TickerReady(ps[i])
  }

  /** Once the sheet is read and consolidated, building the records raises
      exactly when some valid equity's Name is not text: every other field
      an LQA record reads is present on a consolidated record. */
  lemma GetLqaRecordsSucceeds(show: real -> string, date: string, lines: seq<Line>)
    requires GetPositions(lines).Ok? && ConsolidateByName(GetPositions(lines).value).Ok?
    ensures GetLqaRecords(show, date, lines).Ok?
            <==> AllTickerReady(Filter(IsValid, ConsolidateByName(GetPositions(lines).value).value))
  {
    var consolidated := ConsolidateByName(GetPositions(lines).value).value;
    assert forall j :: 0 <= j < |consolidated| ==> consolidated[j].Keys == ConsolidatedKeys;
    ReadyRecords(show, date, consolidated);
  }

  lemma ReadyRecords(show: real -> string, date: string, rs: seq<Record>)
    requires forall j :: 0 <= j < |rs| ==> rs[j].Keys == ConsolidatedKeys
    ensures AllOk(LqaRecordOf(show, date), Filter(IsValid, rs)) <==> AllTickerReady(Filter(IsValid, rs))
  {
    var kept := Filter(IsValid, rs);
    assert forall i :: 0 <= i < |kept| ==> kept[i] in rs;
    ReadyAll(show, date, kept);
  }

  lemma ReadyAll(show: real -> string, date: string, ps: seq<Record>)
    requires forall i :: 0 <= i < |ps| ==> ps[i].Keys == ConsolidatedKeys
    ensures AllOk(LqaRecordOf(show, date), ps) <==> AllTickerReady(ps)
  {
    forall i | 0 <= i < |ps| ensures LqaRecordOf(show, date)(ps[i]).Ok? <==> TickerReady(ps[i]) {
      ReadyRecord(show, date, ps[i]);
    }
  }

  lemma ReadyRecord(show: real -> string, date: string, p: Record)
    requires p.Keys == ConsolidatedKeys
    ensures LqaRecordOf(show, date)(p).Ok? <==> TickerReady(p)
  {
  }

  /** `map(partial(lqaRecord, date), ps)` consumed. */
  function LqaRecords(show: real -> string, date: string, ps: seq<Record>): (r: Result<seq<Record>>)
    ensures r.Ok? <==> AllOk(LqaRecordOf(show, date), ps)
    ensures r.Ok? <==> forall i :: 0 <= i < |ps| ==> LqaRecord(show, date, ps[i]).Ok?
    ensures r.Ok? ==> |r.value| == |ps| && forall i :: 0 <= i < |ps| ==> r.value[i] == LqaRecord(show, date, ps[i]).value
  {
    var f := LqaRecordOf(show, date);
    assert forall i :: 0 <= i < |ps| ==> f(ps[i]) == LqaRecord(show, date, ps[i]);
    MapR(f, ps)
  }
}
