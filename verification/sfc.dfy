/** Reading the SFC template (sfc.py `readSfcTemplate`) from lines already
    read: the block between the 'By asset class / by region' line and the
    first empty or 'Others' line, the region headers, and the asset-type
    rows with their leading blanks filled down from the row above. */
module Sfc {
  import opened Cells
  import opened Text
  import opened Seqs
  import opened Tables

  const HeaderPrefix: string := "By asset class / by region"

  // ---------------------------------------------------------------------
  // The block

  /** `notHeaderLine`: an empty line, or one whose first cell does not
      start with the prefix; a first cell that is not text raises. */
  function NotHeaderLine(line: Line): (r: Result<bool>)
    ensures r.Ok? <==> |line| == 0 || line[0].S?
    ensures r.Ok? ==> (r.value <==> !(|line| > 0 && StartsWith(line[0].text, HeaderPrefix)))
  {
    if |line| == 0 then Ok(true)
    else
      var first :- AsText(line[0]);
      Ok(!StartsWith(first, HeaderPrefix))
  }

  predicate InBlock(line: Line)
  {
    |line| > 0 && line[0] != S("Others")
  }

  /** `takeBetweenLines`: from the header line up to the first empty or
      'Others' line; the header line is part of the block. */
  function TakeBetweenLines(lines: seq<Line>): (r: Result<seq<Line>>)
    ensures r.Ok? ==> forall i :: 0 <= i < |r.value| ==> InBlock(r.value[i])
    ensures r.Ok? && r.value != [] ==> |r.value[0]| > 0 && r.value[0][0].S? && StartsWith(r.value[0][0].text, HeaderPrefix)
  {
    var fromHeader :- DropWhileR(NotHeaderLine, lines);
    var n := Span(InBlock, fromHeader);
    Ok(fromHeader[..n])
  }

  /** A template laid out as: lines before the header, the header, rows
      that are neither empty nor 'Others', then an empty or 'Others' line or
      the end: the block is the header and the rows. */
  lemma TakeBetweenLinesOfLayout(pre: seq<Line>, header: Line, rows: seq<Line>, tail: seq<Line>)
    requires forall i :: 0 <= i < |pre| ==> NotHeaderLine(pre[i]) == Ok(true)
    requires |header| > 0 && header[0].S? && StartsWith(header[0].text, HeaderPrefix)
    requires forall i :: 0 <= i < |rows| ==> InBlock(rows[i])
    requires tail == [] || !InBlock(tail[0])
    ensures TakeBetweenLines(pre + [header] + rows + tail) == Ok([header] + rows)
  {
    BlockStart(pre, header, rows, tail);
    BlockSpan(header, rows, tail);
  }

  /** The scan for the header stops at the header. */
  lemma BlockStart(pre: seq<Line>, header: Line, rows: seq<Line>, tail: seq<Line>)
    requires forall i :: 0 <= i < |pre| ==> NotHeaderLine(pre[i]) == Ok(true)
    requires |header| > 0 && header[0].S? && StartsWith(header[0].text, HeaderPrefix)
    ensures DropWhileR(NotHeaderLine, pre + [header] + rows + tail) == Ok([header] + rows + tail)
  {
    Regroup(pre, [header], rows, tail);
    DropWhileTo(NotHeaderLine, pre, header, rows + tail);
  }

  lemma BlockSpan(header: Line, rows: seq<Line>, tail: seq<Line>)
    requires |header| > 0 && header[0].S? && StartsWith(header[0].text, HeaderPrefix)
    requires forall i :: 0 <= i < |rows| ==> InBlock(rows[i])
    requires tail == [] || !InBlock(tail[0])
    ensures var xs := [header] + rows + tail; xs[..Span(InBlock, xs)] == [header] + rows
  {
    var block := [header] + rows;
    forall i | 0 <= i < |block| ensures InBlock(block[i]) {
      if i > 0 { assert block[i] == rows[i - 1]; }
    }
    SpanTo(InBlock, block, tail);
    assert (block + tail)[..|block|] == block;
  }

  // ---------------------------------------------------------------------
  // Headers

  function StripCell(c: Cell): (r: Result<string>)
    ensures r.Ok? <==> c.S?
    ensures r.Ok? ==> r.value == Strip(c.text)
  {
    var t :- AsText(c);
    Ok(Strip(t))
  }

  predicate IsBlank(c: Cell)
  {
    c == Blank
  }

  predicate NotTotal(c: Cell)
  {
    c != S("Total")
  }

  /** `getHeaders`: after column 0, skip the leading blank cells, stop at
      'Total', strip each name; a name that is not text raises. */
  function GetHeaders(line: Line): (r: Result<seq<string>>)
    ensures r.Ok? ==> |r.value| < |line| || line == []
    ensures r.Ok? ==> forall k :: 0 <= k < |r.value| ==> NoSpaceAtEnds(r.value[k])
  {
    var rest := if |line| == 0 then [] else line[1..];
    var from := rest[Span(IsBlank, rest)..];
    var names := from[..Span(NotTotal, from)];
    MapR(StripCell, names)
  }

  /** The header row as label, blank cells, region names and an optional
      'Total' onwards: the headers are the stripped names. */
  lemma GetHeadersOfLayout(lead: Cell, blanks: Line, names: seq<string>, tail: Line)
    requires forall i :: 0 <= i < |blanks| ==> blanks[i] == Blank
    requires names != [] ==> names[0] != ""
    requires forall i :: 0 <= i < |names| ==> names[i] != "Total"
    requires tail == [] || tail[0] == S("Total")
    ensures GetHeaders([lead] + blanks + TextCells(names) + tail) == Ok(Strips(names))
  {
    var line := [lead] + blanks + TextCells(names) + tail;
    var rest := line[1..];
    assert rest == blanks + (TextCells(names) + tail);
    var from := TextCells(names) + tail;
    assert from == [] || !IsBlank(from[0]);
    SpanTo(IsBlank, blanks, from);
    assert rest[|blanks|..] == from;
    SpanTo(NotTotal, TextCells(names), tail);
    assert from[..|names|] == TextCells(names);
    StripAll(names);
  }

  lemma StripAll(names: seq<string>)
    ensures MapR(StripCell, TextCells(names)) == Ok(Strips(names))
  {
    var r := MapR(StripCell, TextCells(names));
    assert AllOk(StripCell, TextCells(names));
    assert r.value == Strips(names);
  }

  function TextCells(names: seq<string>): (cs: Line)
    ensures |cs| == |names|
    ensures forall i :: 0 <= i < |names| ==> cs[i] == S(names[i])
  {
    seq(|names|, i requires 0 <= i < |names| => S(names[i]))
  }

  function Strips(names: seq<string>): (ss: seq<string>)
    ensures |ss| == |names|
    ensures forall i :: 0 <= i < |names| ==> ss[i] == Strip(names[i])
  {
    seq(|names|, i requires 0 <= i < |names| => Strip(names[i]))
  }

  // ---------------------------------------------------------------------
  // Asset-type rows

  /** The number of blank cells at the end of `t`. */
  function TrailingBlanks(t: Line): (n: nat)
    ensures n <= |t|
    ensures forall i :: |t| - n <= i < |t| ==> t[i] == Blank
    ensures n < |t| ==> t[|t| - n - 1] != Blank
  {
    if t == [] || t[|t| - 1] != Blank then 0 else TrailingBlanks(t[..|t| - 1]) + 1
  }

  /** `removeTrailingSpaces`: the first five cells less their trailing
      blanks. */
  function RemoveTrailingSpaces(line: Line): (r: Line)
    ensures |r| <= 5 && |r| <= |line| && r == line[..|r|]
    ensures r == [] || r[|r| - 1] != Blank
    ensures forall i :: |r| <= i < Min(5, |line|) ==> line[i] == Blank
  {
    var t := line[..Min(5, |line|)];
    t[..|t| - TrailingBlanks(t)]
  }

  /** `lineToTuple`: drop the last cell when it repeats the one before it;
      fewer than two cells left raises IndexError. */
  function LineToTuple(line: Line): (r: Result<Line>)
    ensures r.Ok? <==> |RemoveTrailingSpaces(line)| >= 2
    ensures r.Ok? ==> var t := RemoveTrailingSpaces(line);
                      |r.value| <= |t| && r.value == t[..|r.value|]
                      && (|r.value| == |t| - 1 <==> t[|t| - 1] == t[|t| - 2])
                      && (|r.value| == |t| <==> t[|t| - 1] != t[|t| - 2])
  {
    var t := RemoveTrailingSpaces(line);
    if |t| < 2 then Err("IndexError: tuple index out of range")
    else if t[|t| - 1] == t[|t| - 2] then Ok(t[..|t| - 1])
    else Ok(t)
  }

  /** A tuple after `lineToTuple` never ends in a blank and has at least one
      cell, so the fill-down below can read its first cell. */
  lemma LineToTupleShape(line: Line)
    requires LineToTuple(line).Ok?
    ensures var r := LineToTuple(line).value; 1 <= |r| <= 5 && r[|r| - 1] != Blank
  {
    var t := RemoveTrailingSpaces(line);
    var r := LineToTuple(line).value;
    if |r| == |t| - 1 {
      assert t[|t| - 2] == t[|t| - 1];
    }
  }

  // ---------------------------------------------------------------------
  // Fill-down

  /** The row before the first: five blank cells. */
  const Initial: Line := [Blank, Blank, Blank, Blank, Blank]

  /** `fillSpace(combine(previous, line))`: each blank cell of `line` takes
      the cell of `previous` in the same column, or None past its end;
      the result is as long as `line`. */
  function FillSpace(previous: Line, line: Line): (r: Line)
    ensures |r| == |line|
    ensures forall i :: 0 <= i < |line| && line[i] != Blank ==> r[i] == line[i]
    ensures forall i :: 0 <= i < |line| && line[i] == Blank && i < |previous| ==> r[i] == previous[i]
    ensures forall i :: 0 <= i < |line| && line[i] == Blank && i >= |previous| ==> r[i] == Nothing
  {
    var pairs := Combine(previous, line);
    seq(|pairs|, i requires 0 <= i < |pairs| => if pairs[i].1 == Blank then pairs[i].0 else pairs[i].1)
  }

  /** `zip(previous, line)` when `previous` is longer, else
      `zip_longest(previous, line)`, padding `previous` with None. */
  function Combine(previous: Line, line: Line): (pairs: seq<(Cell, Cell)>)
    ensures |pairs| == |line|
    ensures forall i :: 0 <= i < |line| ==> pairs[i].1 == line[i]
    ensures forall i :: 0 <= i < |line| ==> pairs[i].0 == if i < |previous| then previous[i] else Nothing
  {
    if |previous| > |line| then seq(|line|, i requires 0 <= i < |line| => (previous[i], line[i]))
    else seq(|line|, i requires 0 <= i < |line| => (if i < |previous| then previous[i] else Nothing, line[i]))
  }

  /** The generator `fillupLeadingSpaces` consumed, starting from the row
      `previous`: a row with a non-blank first cell is yielded as it is,
      one with a blank first cell is filled from the row yielded before. */
  function FillFrom(previous: Line, lines: seq<Line>): (r: Result<seq<Line>>)
    ensures r.Ok? <==> forall i :: 0 <= i < |lines| ==> |lines[i]| > 0
    ensures r.Ok? ==> |r.value| == |lines|
    ensures r.Ok? ==> forall i :: 0 <= i < |lines| ==> |r.value[i]| == |lines[i]|
    decreases |lines|
  {
    if lines == [] then Ok([])
    else
      var first :- Head(lines[0]);
      var row := if first == Blank then FillSpace(previous, lines[0]) else lines[0];
      var rest :- FillFrom(row, lines[1..]);
      assert forall i :: 1 <= i < |lines| ==> lines[i] == lines[1..][i - 1];
      Ok([row] + rest)
  }

  function FillUpLeadingSpaces(lines: seq<Line>): (r: Result<seq<Line>>)
    ensures r.Ok? <==> forall i :: 0 <= i < |lines| ==> |lines[i]| > 0
    ensures r.Ok? ==> |r.value| == |lines|
    ensures r.Ok? ==> forall i :: 0 <= i < |lines| ==> |r.value[i]| == |lines[i]|
  {
    FillFrom(Initial, lines)
  }

  /** Row by row: the yielded row is the input row when its first cell is
      not blank, otherwise the input row filled from the row yielded just
      before it (five blanks before the first). */
  lemma {:induction false} FillFromRows(previous: Line, lines: seq<Line>, i: nat)
    requires FillFrom(previous, lines).Ok? && i < |lines|
    decreases i
    ensures var r := FillFrom(previous, lines).value;
            var before := if i == 0 then previous else r[i - 1];
            r[i] == if lines[i][0] == Blank then FillSpace(before, lines[i]) else lines[i]
  {
    if i > 0 {
      var r := FillFrom(previous, lines).value;
      var row := r[0];
      FillFromRows(row, lines[1..], i - 1);
      assert lines[1..][i - 1] == lines[i];
      assert FillFrom(row, lines[1..]).value == r[1..];
    }
  }

  /** The fill-down changes only blank cells of rows that start blank, and
      a row keeps its length. */
  lemma FillUpKeeps(lines: seq<Line>, i: nat, c: nat)
    requires FillUpLeadingSpaces(lines).Ok? && i < |lines|
    ensures |FillUpLeadingSpaces(lines).value[i]| == |lines[i]|
    ensures c < |lines[i]| && (lines[i][0] != Blank || lines[i][c] != Blank)
            ==> FillUpLeadingSpaces(lines).value[i][c] == lines[i][c]
  {
    FillFromRows(Initial, lines, i);
  }

  /** A blank cell under a row that reaches its column repeats the cell
      above it in the output. */
  lemma FillUpInherits(lines: seq<Line>, i: nat, c: nat)
    requires FillUpLeadingSpaces(lines).Ok? && 0 < i < |lines|
    requires c < |lines[i]| && lines[i][0] == Blank && lines[i][c] == Blank
    requires c < |lines[i - 1]|
    ensures FillUpLeadingSpaces(lines).value[i][c] == FillUpLeadingSpaces(lines).value[i - 1][c]
  {
    FillFromRows(Initial, lines, i);
    FillUpKeeps(lines, i - 1, c);
  }

  /** `out` in front of a successful result; a failure is kept. */
  function Prefixed(out: seq<Line>, r: Result<seq<Line>>): Result<seq<Line>>
  {
    if r.Ok? then Ok(out + r.value) else r
  }

  lemma PrefixedNothing(r: Result<seq<Line>>)
    ensures Prefixed([], r) == r
  {
    if r.Ok? { assert [] + r.value == r.value; }
  }

  lemma PrefixedAppend(out: seq<Line>, row: Line, r: Result<seq<Line>>)
    ensures Prefixed(out, Prefixed([row], r)) == Prefixed(out + [row], r)
  {
    if r.Ok? { assert out + ([row] + r.value) == out + [row] + r.value; }
  }

  /** One step of the fill-down. */
  lemma FillFromStep(previous: Line, lines: seq<Line>)
    requires lines != [] && |lines[0]| > 0
    ensures var row := if lines[0][0] == Blank then FillSpace(previous, lines[0]) else lines[0];
            FillFrom(previous, lines) == Prefixed([row], FillFrom(row, lines[1..]))
  {
  }

  /** The same fill-down as the generator's loop, one row at a time. */
  method FillUpLoop(lines: seq<Line>) returns (r: Result<seq<Line>>)
    ensures r == FillUpLeadingSpaces(lines)
  {
    var previous := Initial;
    var out: seq<Line> := [];
    var k := 0;
    assert lines[0..] == lines;
    PrefixedNothing(FillFrom(Initial, lines));
    while k < |lines|
      invariant 0 <= k <= |lines|
      invariant FillFrom(Initial, lines) == Prefixed(out, FillFrom(previous, lines[k..]))
    {
      var line := lines[k];
      assert lines[k..][0] == line && lines[k..][1..] == lines[k + 1..];
      var first := Head(line);
      if first.Err? {
        return Err(first.msg);
      }
      var row := if first.value == Blank then FillSpace(previous, line) else line;
      FillFromStep(previous, lines[k..]);
      PrefixedAppend(out, row, FillFrom(row, lines[k + 1..]));
      out := out + [row];
      previous := row;
      k := k + 1;
    }
    assert lines[k..] == [];
    assert out + [] == out;
    return Ok(out);
  }

  // ---------------------------------------------------------------------
  // The whole reader

  /** `readSfcTemplate` on the lines of the sheet: the headers of the
      block's first line and the filled-down asset-type rows after it. */
  function ReadSfcTemplate(lines: seq<Line>): (r: Result<(seq<string>, seq<Line>)>)
    ensures r.Ok? <==> TakeBetweenLines(lines).Ok? && TakeBetweenLines(lines).value != []
                       && GetHeaders(TakeBetweenLines(lines).value[0]).Ok?
                       && AllOk(LineToTuple, TakeBetweenLines(lines).value[1..])
    ensures r.Ok? ==> var block := TakeBetweenLines(lines).value;
                      GetHeaders(block[0]) == Ok(r.value.0) && |r.value.1| == |block| - 1
                      && r.value.1 == FillUpLeadingSpaces(MapR(LineToTuple, block[1..]).value).value
  {
    var block :- TakeBetweenLines(lines);
    var split :- Pop(block);
    var headers :- GetHeaders(split.0);
    var tuples :- MapR(LineToTuple, split.1);
    TuplesFill(split.1);
    var rows := FillUpLeadingSpaces(tuples).value;
    Ok((headers, rows))
  }

  /** The fill-down never raises on the rows `lineToTuple` produced: each
      has a first cell. */
  lemma TuplesFill(rows: seq<Line>)
    requires AllOk(LineToTuple, rows)
    ensures FillUpLeadingSpaces(MapR(LineToTuple, rows).value).Ok?
  {
    var tuples := MapR(LineToTuple, rows).value;
    forall i | 0 <= i < |tuples| ensures |tuples[i]| > 0 {
      LineToTupleShape(rows[i]);
    }
  }

  /** A laid-out template: lines before the header, the header line (title,
      blanks, region names, then 'Total' onwards or nothing), asset-type
      rows, then an empty or 'Others' line or the end. The reader gives the
      stripped region names and the filled-down tuples of the rows. */
  lemma ReadSfcTemplateOfLayout(pre: seq<Line>, title: string, blanks: Line, names: seq<string>, total: Line,
                                rows: seq<Line>, tail: seq<Line>)
    requires forall i :: 0 <= i < |pre| ==> NotHeaderLine(pre[i]) == Ok(true)
    requires StartsWith(title, HeaderPrefix)
    requires forall i :: 0 <= i < |blanks| ==> blanks[i] == Blank
    requires names != [] ==> names[0] != ""
    requires forall i :: 0 <= i < |names| ==> names[i] != "Total"
    requires total == [] || total[0] == S("Total")
    requires forall i :: 0 <= i < |rows| ==> InBlock(rows[i]) && LineToTuple(rows[i]).Ok?
    requires tail == [] || !InBlock(tail[0])
    ensures var header := [S(title)] + blanks + TextCells(names) + total;
            ReadSfcTemplate(pre + [header] + rows + tail)
            == Ok((Strips(names), FillUpLeadingSpaces(MapR(LineToTuple, rows).value).value))
  {
    var header := [S(title)] + blanks + TextCells(names) + total;
    assert header[0] == S(title);
    TakeBetweenLinesOfLayout(pre, header, rows, tail);
    GetHeadersOfLayout(S(title), blanks, names, total);
    ReadOfBlock(pre + [header] + rows + tail, header, rows);
  }

  lemma ReadOfBlock(lines: seq<Line>, header: Line, rows: seq<Line>)
    requires TakeBetweenLines(lines) == Ok([header] + rows)
    requires GetHeaders(header).Ok? && AllOk(LineToTuple, rows)
    ensures ReadSfcTemplate(lines) == Ok((GetHeaders(header).value, FillUpLeadingSpaces(MapR(LineToTuple, rows).value).value))
  {
    assert ([header] + rows)[0] == header && ([header] + rows)[1..] == rows;
  }
}
