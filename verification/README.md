# risk_report — a Dafny model of the liquidity and asset-allocation core

This project models the pure core of `risk_report`. `risk_report` turns a
fund's Bloomberg and Geneva position reports into two outputs:

- Bloomberg LQA (liquidity assessment) request files;
- liquidity and asset-allocation figures.

Every workbook is taken as already read. A sheet is a sequence of lines, and
a line is a sequence of cells. A cell is text, a number or Python's `None`.
A record is a map from header cells to cells, which is what
`dict(zip(header, line))` builds.

Every Python exception becomes an `Err` of a `Result`. This covers a
`KeyError`, an `IndexError`, a `TypeError` from comparing text with a
number, `pop` on an empty iterator, and `lognRaise`. Most contracts state
when a call raises as well as what it returns when it does not. The sheet
readers (`Lqa.GetLqaData`, `LiquidityRequest.GetPositions`,
`Sfc.TakeBetweenLines`, `Sfc.GetHeaders`, `Blp.BlpPositions`) state
only part of this in their contracts. Each has a lemma giving the result on
a laid-out sheet, and all but the two `Sfc` ones have a lemma showing that a
sheet without its marker line raises.

| module | file | models |
|---|---|---|
| `Cells` | cells.dfy | cells, records, `Result`, column lookup, `mergeDict` as a right-biased map union |
| `Text` | text.dfy | `strip`, `split`, `join`, `str(int)`, `int(str)` and the last whitespace word |
| `Seqs` | seqs.dfy | `filter`/`filterfalse` with raising predicates, `map`, sums, and `groupby` + per-group sum as `consolidate` |
| `Tables` | tables.dfy | `dropwhile`/`takewhile`, `pop`, `firstOf`, `dict(zip(header, line))`, and `dict` of pairs where the last duplicate wins |
| `LiquidityScore` | liquidity_score.dfy | the special-case bond liquidity category (main_liquidity.py) |
| `Geneva` | geneva.dfy | the Geneva accessors, kind tests and (id, idType) derivation |
| `Lqa` | lqa.dfy | the LQA response reader and the request pipeline for Bloomberg and Geneva positions (lqa.py) |
| `LiquidityRequest` | liquidity.dfy | the older request pipeline from a Bloomberg position sheet (liquidity.py) |
| `LqaDaphne` | lqa_daphne.dfy | the universe-file line serialisers (lqa_daphne.py) |
| `Sfc` | sfc.dfy | the SFC template reader with its leading-blank fill-down (sfc.py) |
| `Data` | data.dfy | the reference-table loaders, FX table, portfolio dispatch and file names (data.py) |
| `Blp` | blp.dfy | the Bloomberg report date and position reader (blp.py) |
| `Report` | report.dfy | the report aggregation helpers (main_backup.py) |

Imported code whose body is not part of the repository becomes a
parameter. This covers:

- market value and book currency (`Report.Accessors`);
- the country and asset-type filters (`Report.Selectors`);
- the id derivation and kind tests of `writeIdnTypeToFile`;
- the liquidity category, which is a parameter of
  `Report.LiquidityDistribution` so that the distribution is stated for
  any category function; `getLiquidityCategory` itself
  (`Report.LiquidityCategory`) is the stub `Report.StubDistribution`
  instantiates it with;
- the Excel-date conversion in `getFX`;
- float rendering (`show: real -> string`).

Money and quantities are `real`.

## Model

| member | source | states |
|---|---|---|
| LiquidityScore.MaturityScore | main_liquidity.py:24-30 | whole years to maturity (floor of days/365): under 1 scores 4, under 3 scores 3, under 5 scores 2, otherwise 1; a past maturity scores 4; always 1..4 |
| LiquidityScore.RatingScore | main_liquidity.py:34-39 | the average rating score maps to 4 from 15, to at least 3 from 12, to at least 2 from 6, else 1 |
| LiquidityScore.ConcentrationScore | main_liquidity.py:43-48 | given the amount outstanding as a number, raises exactly when it is zero; otherwise the percentage quantity/amount*100 scores 4 under 5, 3 under 10, 2 under 20, else 1 |
| LiquidityScore.LiquidityRating | main_liquidity.py:51-54 | a total from 12 is L0, from 9 at least L1, from 6 at least L2, below 6 L3 |
| LiquidityScore.TotalScore | main_liquidity.py:57-61 | the total is the maturity, rating and concentration scores added, lies in 3..12 and exists exactly when the amount outstanding is non-zero |
| LiquidityScore.SpecialCaseBondCategory | main_liquidity.py:14-61 | the category is L0 iff maturity is under a year, the rating score is at least 15 and the concentration is under 5% (all three sub-scores 4); L0 or L1 iff the sub-scores add to at least 9; L3 iff they add to less than 6 |
| LiquidityScore.AmountOutstanding | main_liquidity.py:47 | `p['AMT_OUTSTANDING']` used as a divisor: raises when the column is missing or holds text, otherwise gives the number |
| LiquidityScore.SpecialCaseBondCategoryOf | main_liquidity.py:14-61 | on a position record: raises iff AMT_OUTSTANDING is missing, not a number or zero, and otherwise gives the category for that amount |
| LiquidityScore.LabelsDistinct | main_liquidity.py:51-54 | the four labels are pairwise distinct |
| LiquidityScore.LiquidityRatingMonotone | main_liquidity.py:51-54 | a higher total never gives a less liquid category |
| LiquidityScore.MaturityMonotone | main_liquidity.py:24-30 | a later maturity never gives a more liquid category |
| LiquidityScore.RatingMonotone | main_liquidity.py:34-39 | a lower rating score never gives a more liquid category |
| LiquidityScore.ConcentrationMonotone | main_liquidity.py:43-48 | a larger holding (positive amount outstanding) never gives a more liquid category |
| Geneva.ChangeDateFormat | geneva.py:13 | the result is the input with every '-' removed |
| Geneva.JoinSplitIsWithout | geneva.py:13 | `''.join(s.split(c))` is `s` without any `c` |
| Geneva.ChangeDateFormatOfIsoDate | geneva.py:12-13 | 'yyyy-mm-dd' becomes 'yyyymmdd' |
| Geneva.IsGenevaPosition | geneva.py:18-19 | raises unless Remarks1 is text; true iff its first six characters lower-case to 'geneva' |
| Geneva.IsGenevaFund | geneva.py:24-25 | raises without SortKey; true iff SortKey is one of the three fund types |
| Geneva.IsGenevaFxForward | geneva.py:30-31 | true iff SortKey is 'FX Forward' |
| Geneva.IsGenevaRepo | geneva.py:36 | always false |
| Geneva.IsGenevaMoneyMarket | geneva.py:41-42 | true iff SortKey is 'Fixed Deposit' |
| Geneva.IsGenevaCash | geneva.py:47-48 | true iff SortKey is 'Cash and Equivalents' |
| Geneva.IsGenevaPrivateSecurity | geneva.py:56 | always false |
| Geneva.KindsExclusive | geneva.py:24-48 | at most one of cash, money market, FX forward and fund holds for a position |
| Geneva.GenevaMarketValue | geneva.py:61-62 | with both columns numeric the value is AccruedInterest + MarketValueBook; it needs both columns |
| Geneva.GenevaPositionDate | geneva.py:67-68 | raises unless PeriodEndDate is text; the result is that date without '-' |
| Geneva.Accessor | geneva.py:73-86 | each of BookCurrency, Portfolio, Quantity reads its own column and raises when it is missing |
| Geneva.AssetTypeIsSortKey | geneva.py:127-128 | the asset type is the SortKey column |
| Geneva.IsinFromInvestId | geneva.py:101-104 | the first 12 characters of the id, or the whole id when shorter |
| Geneva.GenevaIdnType | geneva.py:91-120 | the four equity types give (id + ' Equity', 'TICKER'); a SortKey whose last word is 'Bond' gives (ISIN from id, 'ISIN'); anything else gives (InvestID, SortKey); it succeeds on every text id with a non-blank SortKey |
| Geneva.BlankSortKeyRaises | geneva.py:97-118 | a blank SortKey raises, against the never-throw note |
| Geneva.GenevaIdnTypeTotal | geneva.py:98-120 | never raises on text InvestID and SortKey; the id type is TICKER, ISIN or the SortKey |
| Geneva.GenevaIdnTypeTotalRefines | geneva.py:98-120 | agrees with the code wherever the code succeeds; where only the corrected version succeeds the SortKey is blank and the result is (InvestID, SortKey) |
| Lqa.BeforeEnd | lqa.py:34 | raises on an empty line; true until the 'END-OF-DATA' line |
| Lqa.GetLqaData | lqa.py:24-45 | every key of the result is the SECURITIES value of its own record |
| Lqa.GetLqaDataOfBlock | lqa.py:24-45 | for a sheet with lines before START-OF-DATA, the header, data rows and then END-OF-DATA or the end, the result is the data rows zipped with the header and keyed by SECURITIES, the last duplicate winning |
| Lqa.GetLqaDataNeedsStart | lqa.py:35-36 | a sheet without a START-OF-DATA line raises |
| Lqa.InvestIdToLqaId | lqa.py:135-161 | the equity types, checked first, give (id + ' Equity', 'TICKER'); a 'Bond' type gives the id's first 12 characters as ISIN and raises for a shorter id; every other type raises |
| Lqa.InvestIdAgreesWithGeneva | lqa.py:135-161 | wherever the raising variant succeeds it agrees with the Geneva variant |
| Lqa.NoNeedLiquidityGeneva | lqa.py:165-182 | true iff Quantity is 0 or ThenByDescription is cash, fixed deposit or open-end fund; ThenByDescription is read only when Quantity is not 0 |
| Lqa.AddLqaFields | lqa.py:204-212 | adds exactly Position = Quantity, Id and IdType from the id derivation; every other field is kept |
| Lqa.GenevaLqaPositions | lqa.py:186-220 | the output is, in order, exactly the positions that need liquidity, each with the LQA fields added; it raises exactly when a test or a derivation raises |
| Lqa.EmptyOrNonPositive | lqa.py:247 | true iff Position is '' or a number <= 0; other text raises |
| Lqa.UnwantedType | lqa.py:241-245 | true iff the asset type is cash, FX forward, repo liability or money market, or the name is one of the two funds; Name is read only when needed |
| Lqa.GenevaAccount | lqa.py:239 | true iff the account code starts with '19437' |
| Lqa.SurvivorStages | lqa.py:238-248 | a position survives iff it passes all three removal stages |
| Lqa.BlpSurvivorsAreFiltered | lqa.py:238-248 | the three filterfalse stages in sequence keep exactly the survivors |
| Lqa.UpdatePositionId | lqa.py:251-254 | Equity gives (Name + ' Equity', TICKER), otherwise (ISIN, ISIN); only Id and IdType change |
| Lqa.IsClo | lqa.py:257-258 | true iff the account code is one of the seven CLO codes |
| Lqa.SplitCloIsPartition | lqa.py:268-278 | the reduce yields exactly (CLO positions, other positions) in input order, and raises iff some position lacks an account code |
| Lqa.SplitCloConserves | lqa.py:268-278 | the two lists together are a permutation of the input |
| Lqa.BlpLqaPositions | lqa.py:224-287 | succeeds iff every stage finds the columns it reads on the positions that reach it and every survivor can be given an id; the CLO and non-CLO outputs are then the survivors with ids assigned, split by account |
| Lqa.SplitClo | lqa.py:268-278 | the reduce that appends each position to the CLO or the non-CLO list (its contract is Lqa.SplitCloIsPartition) |
| Lqa.BlpPositionsConsolidate | lqa.py:111-117 | both Bloomberg outputs always enter the consolidation: every survivor has a numeric Position and an Id |
| Lqa.GenevaPositionsConsolidate | lqa.py:111-114 | the Geneva positions enter the consolidation iff every selected Quantity is a number |
| Lqa.Consolidate | lqa.py:390-400 | one record per distinct Id, in first-seen order; each is the first record of its group with Position set to the group's sum |
| Lqa.ConsolidateSpecLqa | lqa.py:390-400 | the Ids are distinct, every input Id appears, and the total Position is conserved |
| Lqa.ConsolidatedIds | lqa.py:396-400 | the output Ids are the distinct input Ids in first-seen order |
| Lqa.ConsolidatedTotal | lqa.py:390-400 | the total Position is conserved |
| Lqa.CheckDate | lqa.py:120-122 | raises iff the two dates differ; otherwise it passes every part through unchanged |
| Lqa.LqaRequestPositions | lqa.py:81-131 | succeeds iff the dates agree, both readers succeed and both consolidations succeed; the non-CLO request is then the consolidation of non-CLO Bloomberg and Geneva positions and the CLO request the consolidation of CLO positions |
| Lqa.LqaRequestSucceeds | lqa.py:81-131 | with equal dates and both readers succeeding, the requests exist iff every selected Geneva position has a numeric Quantity |
| Lqa.LqaRequestConserves | lqa.py:111-117 | the two requests hold the same total Position as the three input streams |
| LiquidityRequest.BeforeBlank | liquidity.py:89 | true until the first line with a blank first cell |
| LiquidityRequest.SummaryRow | liquidity.py:88 | true iff the first cell is 'Top Level', 'Long' or 'Short' |
| LiquidityRequest.GetPositions | liquidity.py:85-94 | a result needs a line whose first cell is 'Name' |
| LiquidityRequest.GetPositionsOfBlock | liquidity.py:85-94 | the header is the first 'Name' line; the rows up to the first blank-led line, less the summary rows, are zipped with it |
| LiquidityRequest.GetPositionsNeedsHeader | liquidity.py:91-92 | a sheet without a 'Name' line raises |
| LiquidityRequest.GroupRecord | liquidity.py:63-68 | the consolidated record has exactly Name, ISIN, Asset Type and Position, with ISIN and Asset Type from the first member |
| LiquidityRequest.ConsolidateByName | liquidity.py:72-76 | one record per distinct Name, first-seen order, Position the group sum, ISIN and Asset Type from the group's first record |
| LiquidityRequest.LeadersOk | liquidity.py:63-68 | consolidation raises exactly when some group's first record lacks ISIN or Asset Type |
| LiquidityRequest.ConsolidatedNamesDistinct | liquidity.py:72-76 | the consolidated records carry distinct Names |
| LiquidityRequest.ConsolidatedNamesCover | liquidity.py:72-76 | every input Name has a consolidated record |
| LiquidityRequest.ConsolidatedNameTotal | liquidity.py:63-76 | the total Position is conserved |
| LiquidityRequest.NonSecurity | liquidity.py:42-43 | true iff Asset Type is Cash, Repo Liability or Foreign Exchange Forward |
| LiquidityRequest.PositivePosition | liquidity.py:41 | true iff Position is a number above 0 |
| LiquidityRequest.ValidPosition | liquidity.py:40-44 | keeps exactly the security records with a positive Position, in order; Position is read only for securities |
| LiquidityRequest.ValidStages | liquidity.py:40-44 | validity is the conjunction of both filter stages |
| LiquidityRequest.ValidAfterConsolidation | liquidity.py:98-103 | the validity filter never raises on consolidated records, so netting happens before the Position > 0 test |
| LiquidityRequest.ValidPositionOk | liquidity.py:40-44 | records with numeric Position and text Asset Type never make the filter raise |
| LiquidityRequest.LqaRecord | liquidity.py:22-36 | Equity gives (Name + ' Equity', TICKER, PR, 20), otherwise (ISIN, ISIN, BA, 1); the tag, volume, horizon, confidence and date fields are fixed or copied; exactly the nine LQA keys |
| LiquidityRequest.EquityTicker | liquidity.py:23 | the ticker is Name + ' Equity' and needs a text Name |
| LiquidityRequest.OutputLine | liquidity.py:110-112 | raises iff some needed field is missing or not text |
| LiquidityRequest.OutputLineFields | liquidity.py:110-122 | split on '\|', the line gives back id, id type, the headers, the values in header order and a final empty piece (every field ends with '\|') |
| LiquidityRequest.GetLqaRecords | liquidity.py:98-103 | succeeds iff the sheet is read, consolidation succeeds and every valid consolidated position has an LQA record; the records are those, in order |
| LiquidityRequest.GetLqaRecordsSucceeds | liquidity.py:98-103 | once the sheet is read and consolidated, the records exist iff every valid equity has a text Name |
| LiquidityRequest.LqaRecords | liquidity.py:99 | one LQA record per position, raising iff one raises |
| LqaDaphne.IntOf | lqa_daphne.py:32 | `int()` truncates a float toward zero, parses integer text and raises otherwise |
| LqaDaphne.KeyValues | lqa_daphne.py:26-31 | one `KEY=value` per key, in key order, each value copied from the column of the same name |
| LqaDaphne.LineFields | lqa_daphne.py:23-33 | exactly nine fields: id, id type, six `KEY=value` in fixed order, and the as-of date through `int()` |
| LqaDaphne.LqaLine | lqa_daphne.py:23-33 | the line joins the nine fields with ', ' |
| LqaDaphne.StressLine | lqa_daphne.py:53-66 | the stress line is the twelve stress fields joined with ', ', raising iff a field raises |
| LqaDaphne.Request | lqa_daphne.py:37-70 | the file is the lines of the positions joined with newlines, raising iff some line raises |
| LqaDaphne.LqaLineFields | lqa_daphne.py:23-33 | split on ',', the line gives back the nine fields (after the first each keeps its leading blank) |
| LqaDaphne.StressFields | lqa_daphne.py:53-66 | twelve fields: the nine normal ones then the three factor fields |
| LqaDaphne.StressLineExtends | lqa_daphne.py:53-66 | the stress line is the normal line followed by ', ' and the three factor fields |
| LqaDaphne.Lines | lqa_daphne.py:37-70 | one line per position in order; raises iff a position's line raises |
| LqaDaphne.RequestLines | lqa_daphne.py:37-70 | split on newlines the file gives back exactly the lines, so there is no trailing newline |
| Sfc.NotHeaderLine | sfc.py:26-27 | true for an empty line or one whose first cell does not start with the template prefix |
| Sfc.TakeBetweenLines | sfc.py:29-32 | the block starts at the header line and holds only non-empty, non-'Others' lines |
| Sfc.TakeBetweenLinesOfLayout | sfc.py:26-32 | for a template laid out as preamble, header, rows and an ending line, the block is the header and the rows |
| Sfc.GetHeaders | sfc.py:34-40 | the headers are fewer than the cells and each is stripped |
| Sfc.GetHeadersOfLayout | sfc.py:34-40 | a header row of label, blanks, names and 'Total' gives the stripped names |
| Sfc.RemoveTrailingSpaces | sfc.py:43-50 | a prefix of the first five cells, not ending in a blank, having dropped only blanks |
| Sfc.LineToTuple | sfc.py:52-55 | drops the last cell iff it equals the one before; raises when fewer than two cells remain |
| Sfc.LineToTupleShape | sfc.py:52-55 | a tuple has one to five cells and never ends in a blank |
| Sfc.FillSpace | sfc.py:59-66 | a blank cell takes the previous row's cell in that column, or None past its end; other cells are kept; the length is the row's |
| Sfc.FillUpLeadingSpaces | sfc.py:58-76 | one output row per input row, each as long as its input, raising iff some row is empty |
| Sfc.FillFromRows | sfc.py:69-76 | a row with a non-blank first cell is yielded unchanged; otherwise it is filled from the row yielded before it, which is five blanks for the first |
| Sfc.FillUpKeeps | sfc.py:58-76 | the fill-down changes only blank cells of rows whose first cell is blank |
| Sfc.FillUpInherits | sfc.py:58-76 | a blank cell under a row reaching its column repeats the output cell above it |
| Sfc.FillUpLoop | sfc.py:69-76 | the generator's loop, row by row, computes the same rows |
| Sfc.ReadSfcTemplate | sfc.py:86-92 | succeeds iff the block is found and non-empty, its first line gives headers and every later line gives a tuple; the rows are then the filled-down tuples of the later block lines |
| Sfc.TuplesFill | sfc.py:52-84 | the fill-down never raises on tuples from `lineToTuple` |
| Sfc.ReadSfcTemplateOfLayout | sfc.py:86-92 | on a laid-out template the headers are the stripped region names and the rows the filled-down tuples of the asset-type lines |
| Data.MappingRows | data.py:115-123 | skips the first line, then takes lines while they have more than two cells and a non-blank first cell; the next line fails that test |
| Data.RatingScoreMapping | data.py:110-123 | every row's (cell 0, cell 1) is a key; raises only on an empty sheet |
| Data.RatingScoreKeys | data.py:117-118 | every key comes from a row and maps to that row's cell 2 |
| Data.RatingScoreLast | data.py:117-118 | a row whose key does not repeat later gives that key's score |
| Data.CountryPairs | data.py:135 | each row gives (cell 0, stripped cell 2); raises when a cell 2 is not text |
| Data.CountryGroupMapping | data.py:128-140 | every row's cell 0 is a key |
| Data.CountryGroupLast | data.py:134-135 | the last row of a country gives its stripped group |
| Data.StringToTuple | data.py:149-153 | one item more than there are commas; item i is the i-th comma-separated part stripped, so it is comma-free and has no blank at either end |
| Data.StringToTupleOfItems | data.py:149-153 | writing comma-free items with commas and reading them back gives each item stripped, in order |
| Data.StringToTupleOfJoin | data.py:149-153 | splitting the comma-join of stripped, comma-free items gives them back |
| Data.PortfolioText | data.py:158-160 | a float Portfolio becomes the decimal text of its integer part; any other value is kept |
| Data.UpdatedInfo | data.py:156-163 | only Portfolio changes, and AssetType moves out beside the record |
| Data.UpdatePosition | data.py:156-163 | raises iff Portfolio is missing or AssetType is not text; the asset type becomes its tuple |
| Data.SpecialPairs | data.py:169-170 | one (ID, updated position) pair per row, raising iff a row raises |
| Data.AssetTypeSpecialCases | data.py:166-173 | every row's ID is a key |
| Data.AssetTypeSpecialCaseLast | data.py:166-173 | the last row of an ID gives that ID's entry |
| Data.FxWanted | data.py:202-204 | true iff the row's date converts to the report date and its Reporting Currency is the target; the currency is read only for a matching date |
| Data.CurrencyRate | data.py:201 | (Currency, FX), raising when either is missing |
| Data.FxRows | data.py:202-204 | the kept rows are exactly the rows matching date and target, in order; raises iff the test raises on some row |
| Data.GetFx | data.py:178-206 | the target currency always has an entry, and so does every matching row's currency |
| Data.GetFxLast | data.py:197-206 | the last matching row of a currency gives its rate |
| Data.GetFxTarget | data.py:199 | with no matching row for the target itself, its rate is 1.0 |
| Data.TagGeneva | data.py:81-83 | only Remarks1 changes, to the Geneva report remark |
| Data.PortfolioPositions | data.py:59-66 | portfolio '19437' gives the Geneva positions, each tagged; any other portfolio raises |
| Data.PortfolioPositionsAreGeneva | data.py:81-83 | every tagged position passes the Geneva position test |
| Data.GenevaPositionFile | data.py:95-98 | the name is 27 characters longer than portfolio and date together |
| Data.GenevaPositionFileParts | data.py:95-98 | the file name is portfolio, '_Investment_Positions_', date, '.xlsx' |
| Data.BlpDataFile | data.py:50-51 | the name is 13 characters longer than the date |
| Data.BlpDataFileDate | data.py:50-51 | the file name is 'BlpData_', date, '.xlsx' |
| Data.LoadBlpData | data.py:42-46 | raises iff some record lacks ID; every record's ID is a key |
| Tables.DictOfKeys | data.py:117-118 | every key of `dict(pairs)` comes from a pair with that value |
| Tables.DictOfLast | data.py:117-118 | a key's last pair wins |
| Tables.KeyedByValues | lqa.py:41 | every value of the id-keyed dict is a record carrying its key |
| Tables.KeyedByLast | lqa.py:41 | the last record with a key is the one kept |
| Tables.FirstOfAt | blp.py:106-109 | `firstOf` returns the element after a run of rejected ones |
| Blp.DateLineTest | blp.py:108 | true iff the line has more than one cell and cell 1 starts with 'Risk-Mon Steven'; a non-text cell 1 raises |
| Blp.BlpDate | blp.py:106-121 | the date is the last whitespace word of cell 1 on the first date line; without such a line it raises |
| Blp.BlpPositions | blp.py:203-207 | a result needs a 'Name' line |
| Blp.PositionsAfter | blp.py:203-207 | after lines without a 'Name' first cell, the positions are the later rows zipped with the 'Name' header |
| Blp.ReadBlpFile | blp.py:99-130 | the date and the positions whose Account Code is not blank; raises iff the date or header is missing or a record lacks Account Code |
| Blp.AccountFilter | blp.py:126 | the filterfalse stage keeps exactly the records with a non-blank account code |
| Blp.AccountFilterPartition | blp.py:126 | the records kept and the records dropped make up all the records |
| Blp.ReadBlpFileOfLayout | blp.py:99-130 | on a laid-out report the date is the title's last word and the positions are the rows under 'Name', read from the whole sheet or from the lines after the title alike |
| Blp.ReadBlpFileNeedsDate | blp.py:119 | a sheet without a date line raises |
| Report.RatingsApplicable | main_backup.py:73-76 | a fixed-income tuple whose second tier is not cash equivalents, credit derivatives or asset-backed (its contract is Report.RatingsApplicableTiers) |
| Report.RatingsApplicableTiers | main_backup.py:73-76 | tiers after the second do not matter, a tuple of one tier never applies, and the second tier is none of the three excluded ones |
| Report.MarketValueWithFx | main_backup.py:109-110 | raises iff the book currency has no numeric non-zero rate; the converted value times the rate is the market value |
| Report.MarketValueAtPar | main_backup.py:109-110 | at rate 1.0 the value is unchanged |
| Report.SumMarketValue | main_backup.py:118-124 | the sum of the converted values, raising iff some position cannot be converted |
| Report.SumMarketValueAppend | main_backup.py:118-124 | the sum over two lists is the sum of their sums |
| Report.TotalFromCountryAndAssetType | main_backup.py:160-165 | the sum over the positions passing the country filter and then the asset-type filter, the same as one filter on both |
| Report.TotalFromAssetType | main_backup.py:185-189 | the sum of the converted values of the positions of that asset type, raising iff one of them cannot be converted |
| Report.AssetTypeTotalSplits | main_backup.py:160-189 | an asset type's total is its total inside a country group plus its total outside it |
| Report.EmptySelectionIsZero | main_backup.py:160-165 | an empty selection sums to 0 |
| Report.Grid | main_backup.py:208-216 | one row per asset type and one cell per country; cell (i, j) is evaluated on (country j,) + asset type i |
| Report.AllocationGrid | main_backup.py:208-225 | the grid exists exactly when every country-and-asset-type total succeeds, and then has one row per asset type of one cell per country |
| Report.AllocationGridCell | main_backup.py:208-216 | cell (i, j) is the country-and-asset-type total for country j and asset type i |
| Report.AllocationFile | main_backup.py:221 | the file name is portfolio, '_asset_allocation_', date, '.csv' |
| Report.LiquidityCategory | main_backup.py:30-43 | the stub category is one of the four |
| Report.LiquidityDistribution | main_backup.py:229-258 | four rows in order L0..L3, each with its category's converted total and, as share, that total divided by the sum of the four totals; the shares add up to 1 |
| Report.CategoryTotals | main_backup.py:240-248 | the list holds the totals of L0..L3 in that order and fails iff one category's total fails |
| Report.DistributionRows | main_backup.py:250-256 | each row pairs a category with its total and that total over the grand total; a zero total has a zero share; the shares add up to 1 |
| Report.LiquidityDistributionOk | main_backup.py:242-256 | the distribution exists iff every categorised position converts and the grand total is non-zero |
| Report.CategoriesOk | main_backup.py:242-248 | the four totals exist iff every categorised position converts |
| Report.CategoriesConserve | main_backup.py:240-248 | the four category sums add up to the sum over all categorised positions |
| Report.SharesSumToOne | main_backup.py:253-256 | the four shares of a non-zero total add to 1 |
| Report.StubDistribution | main_backup.py:229-258 | with the stub category everything lands in L0: its share is 1 and the other totals 0 |
| Report.StubEmpty | main_backup.py:30-43 | with the stub category any other category's total is 0 |
| Report.IdnTypes | main_backup.py:58-68 | at most one distinct id pair per position |
| Report.IdnTypesMembers | main_backup.py:58-68 | a pair is in the id set iff some position that needs an id has it |
| Report.IdnTypeLines | main_backup.py:62-68 | the header ('ID', 'ID_TYPE') followed by each distinct id pair once |
| Seqs.FilterPartition | lqa.py:268-278 | a filter and its complement together are a permutation of the input |
| Seqs.ConsolidateSpec | lqa.py:396-400 | grouping keeps one entry per distinct key in first-seen order, with the group's sum and first record |
| Seqs.ConsolidateConserves | lqa.py:390-391 | grouping conserves the total amount |
| Text.SplitCharOfJoin | lqa_daphne.py:37 | splitting a join on its separator gives back the parts when none holds it |
| Text.StripUnchanged | data.py:151 | a string with no blank at either end is its own `strip()` |
| Text.StripDropsBlanks | data.py:151 | everything `strip()` removes, at the front and at the back, is blank |
| Text.ParseIntToString | data.py:158 | `int(str(n)) == n` |

## Left out

- File and workbook I/O: `fileToLines`, `open_workbook`, `getRawPositions*`,
  `writeCsv` and the request-file writers. The model starts from lines or
  records in memory.
- `os.path.join` and the input directory: file names are modelled without
  their directory.
- `lru_cache` and logging (`lognContinue` is the identity).
- Date parsing: `datetime.strptime` and date subtraction in
  main_liquidity.py. The number of days to maturity is an input.
- `getAverageRatingScore`, `getQuantity` and the asset-type cascade:
  their bodies are not in the repository, so the average rating score and
  the quantity are inputs.
- `fromExcelOrdinal` and `strftime` in `getFX`: a parameter `toDate`
  converts the Date cell.
- `getMarketValue`, `getBookCurrency`, `byCountryFilter` and
  `byAssetTypeFilterTuple`: parameters (`Report.Accessors`,
  `Report.Selectors`). The filters are taken as total predicates.
- `getIdnType` and the `isPrivateSecurity`/`isCash`/... tests of
  `writeIdnTypeToFile`: parameters.
- Python's set iteration order in `writeIdnTypeToFile`: a parameter
  `order`. The file is written only for an order that lists every
  distinct pair exactly once.
- `getFISecuritiesWoRatings`: its only effect is through the callback into
  `getAverageRatingScore`, whose body is not in the repository.
- `getGenevaPositions`' `getPositions` on the Geneva sheet is not part of
  this model. `Data.PortfolioPositions` takes the Geneva records as input.
- `lqa.buildLqaRequest`: its line builder refers to an undefined `r`
  (lqa.py:314), so it raises on its first position. `Lqa.LqaRequestPositions`
  stops at the two consolidated position lists it would have been given.
- `saveBlpPositionToDB` does nothing, and the `__main__` blocks are
  scaffolding.
- Floating point: money is `real`. Float rendering (`str(float)`) is a
  parameter `show`, and float/int equality follows `real`.
- Text: whitespace is the six characters space, tab, newline, carriage
  return, vertical tab and form feed. Python's `strip()` and `split()` also
  treat '\x1c' to '\x1f' and Unicode spaces such as '\x85' and '\xa0' as
  whitespace; the model does not. `lower()` is ASCII, and `int()` on text
  does not accept underscores between digits.
- `mergeDict` is modelled as a right-biased union (`Cells.Merge`).
  `utils.iter.pop` is "first element or raise", and `firstOf` is "first
  match or None".
- Laziness: the iterator pipelines are modelled as eager stages. A raise
  anywhere surfaces as `Err` once the output is consumed.
- `Blp.ReadBlpFile`: the date and the positions are both read from the
  whole sheet. `Blp.ReadBlpFileOfLayout` shows this agrees with one shared
  iterator when the title line comes before the 'Name' header and every
  line above the title is non-empty, has a text cell 1 or at most one
  cell, and has no 'Name' in cell 0. An empty line above the title makes
  the model raise, while a reader that starts after the title would not.
- `Data.UpdatePosition`: the AssetType tuple is kept beside the record
  (`SpecialCase.assetType`) rather than under its key, since a cell cannot
  hold a tuple.
- `Report.LiquidityDistribution`: the `reportingCurrency` argument has no
  effect because USD is hard-coded. The model takes the USD table `fxUsd`.
- LiquidityScore.ConcentrationScore: takes AMT_OUTSTANDING as a number, so
  the KeyError of a missing column and the TypeError of a text value such
  as '#N/A' are not part of its contract. `LiquidityScore.SpecialCaseBondCategoryOf`
  reads the column from the position record and raises in both cases.
- `LiquidityScore.ConcentrationMonotone`: stated for a positive amount
  outstanding only, because a negative one reverses the order.

## Findings

| source | as written | input that shows it | evidently intended | confidence | as-written member | corrected member |
|---|---|---|---|---|---|---|
| geneva.py:97-118 | `isBondType` takes `assetType.split()[-1]`, which raises IndexError on a blank or all-whitespace SortKey, although the function promises never to raise | a position with InvestID 'X' and SortKey '' | a SortKey without words falls through to the special case (InvestID, SortKey) | not executed | Geneva.BlankSortKeyRaises | Geneva.GenevaIdnTypeTotalRefines |
