/** The Bloomberg risk report reader (blp.py): the report date from the
    title line, the positions under the 'Name' header, and the removal of
    rows without an account code. */
module Blp {
  import opened Cells
  import opened Text
  import opened Seqs
  import opened Tables

  /** The title text in cell 1 of the line carrying the date. */
  const DateMarker: string := "Risk-Mon Steven"

  /** `len(line) > 1 and line[1].startswith('Risk-Mon Steven')`: cell 1 must
      be text once the line is long enough. */
  function DateLineTest(line: Line): (r: Result<bool>)
    ensures r.Ok? <==> |line| <= 1 || line[1].S?
    ensures r.Ok? ==> (r.value <==> |line| > 1 && StartsWith(line[1].text, DateMarker))
  {
    if |line| > 1 then
      var t :- AsText(line[1]);
      Ok(StartsWith(t, DateMarker))
    else Ok(false)
  }

  /** Text starting with the marker is never blank. */
  lemma MarkedNotBlank(t: string)
    requires StartsWith(t, DateMarker)
    ensures !AllSpace(t)
  {
    assert t[0] == 'R';
  }

  /** `getDateFromLines`: the last word of cell 1 on the first date line; a
      sheet without one raises. */
  function BlpDate(lines: seq<Line>): (r: Result<string>)
    ensures r.Ok? <==> FirstOf(DateLineTest, lines).Ok? && FirstOf(DateLineTest, lines).value.Some?
    ensures r.Ok? ==> var line := FirstOf(DateLineTest, lines).value.value;
                      |line| > 1 && line[1].S? && Some(r.value) == LastWord(line[1].text)
  {
    var found :- FirstOf(DateLineTest, lines);
    if found.None? then Err("Failed to find date line")
    else
      var line := found.value;
      MarkedNotBlank(line[1].text);
      match LastWord(line[1].text)
      case Some(w) => Ok(w)
  }

  /** `getPositions`: from the first line whose cell 0 is 'Name', that line
      is the header and every later line becomes a record. */
  function BlpPositions(lines: seq<Line>): (r: Result<seq<Record>>)
    ensures r.Ok? ==> exists i :: 0 <= i < |lines| && |lines[i]| > 0 && lines[i][0] == S("Name")
  {
    var fromHeader :- DropWhileR(BeforeHeader, lines);
    var split :- Pop(fromHeader);
    assert lines[|lines| - |fromHeader|] == split.0;
    Ok(ZipAll(split.0, split.1))
  }

  /** `p['Account Code'] == ''` */
  function NoAccountCode(p: Record): (r: Result<bool>)
    ensures r.Ok? <==> S("Account Code") in p
    ensures r.Ok? ==> (r.value <==> p[S("Account Code")] == Blank)
  {
    var code :- Lookup(p, "Account Code");
    Ok(code == Blank)
  }

  predicate HasAccountCode(p: Record)
  {
    S("Account Code") in p && p[S("Account Code")] != Blank
  }

  /** `readBlpFile` on the lines of the sheet: the date, then the positions
      that have an account code. */
  function ReadBlpFile(lines: seq<Line>): (r: Result<(string, seq<Record>)>)
    ensures r.Ok? <==> BlpDate(lines).Ok? && BlpPositions(lines).Ok? && HasColumn(BlpPositions(lines).value, "Account Code")
    ensures r.Ok? ==> r.value.0 == BlpDate(lines).value
    ensures r.Ok? ==> r.value.1 == Filter(HasAccountCode, BlpPositions(lines).value)
  {
    var date :- BlpDate(lines);
    var ps :- BlpPositions(lines);
    var kept :- FilterFalseR(NoAccountCode, ps);
    AccountFilter(ps);
    Ok((date, kept))
  }

  /** The `filterfalse` stage keeps exactly the records with an account
      code, once every record has the column. */
  lemma AccountFilter(ps: seq<Record>)
    ensures FilterFalseR(NoAccountCode, ps).Ok? <==> HasColumn(ps, "Account Code")
    ensures FilterFalseR(NoAccountCode, ps).Ok? ==> FilterFalseR(NoAccountCode, ps).value == Filter(HasAccountCode, ps)
  {
    assert AllOk(NoAccountCode, ps) <==> HasColumn(ps, "Account Code");
    if HasColumn(ps, "Account Code") {
      forall i | 0 <= i < |ps| ensures Rejects(NoAccountCode)(ps[i]) == HasAccountCode(ps[i]) {
        assert Rejects(NoAccountCode)(ps[i]) == (NoAccountCode(ps[i]) == Ok(false));
      }
      FilterCongruent(Rejects(NoAccountCode), HasAccountCode, ps);
    }
  }

  /** What the filter removes and what it keeps make up all the records. */
  lemma AccountFilterPartition(ps: seq<Record>)
    ensures |Filter(HasAccountCode, ps)| + |Filter(LacksAccountCode, ps)| == |ps|
    ensures multiset(Filter(HasAccountCode, ps)) + multiset(Filter(LacksAccountCode, ps)) == multiset(ps)
  {
    FilterPartition(HasAccountCode, LacksAccountCode, ps);
  }

  predicate LacksAccountCode(p: Record)
  {
    !HasAccountCode(p)
  }

  /** A report laid out as: lines above the title, the title line, lines
      down to the header, the 'Name' header, then position rows. The date
      is the title's last word and each row under the header is a record.
      The positions come out the same when they are read from the lines
      after the title only, as they are when the title search and the
      position reader consume one iterator. */
  lemma ReadBlpFileOfLayout(top: seq<Line>, title: Line, mid: seq<Line>, header: Line, rows: seq<Line>)
    requires forall i :: 0 <= i < |top| ==> DateLineTest(top[i]) == Ok(false) && BeforeHeader(top[i]) == Ok(true)
    requires DateLineTest(title) == Ok(true) && BeforeHeader(title) == Ok(true)
    requires forall i :: 0 <= i < |mid| ==> BeforeHeader(mid[i]) == Ok(true)
    requires |header| > 0 && header[0] == S("Name")
    ensures BlpDate(top + [title] + mid + [header] + rows).Ok?
            && Some(BlpDate(top + [title] + mid + [header] + rows).value) == LastWord(title[1].text)
    ensures BlpPositions(top + [title] + mid + [header] + rows) == Ok(ZipAll(header, rows))
    ensures BlpPositions(mid + [header] + rows) == Ok(ZipAll(header, rows))
  {
    var lines := top + [title] + mid + [header] + rows;
    assert lines[|top|] == title;
    assert forall i :: 0 <= i < |top| ==> lines[i] == top[i];
    FirstOfAt(DateLineTest, lines, |top|);
    PositionsAfter(top + [title] + mid, header, rows);
    assert lines == (top + [title] + mid) + [header] + rows;
    PositionsAfter(mid, header, rows);
  }

  lemma PositionsAfter(pre: seq<Line>, header: Line, rows: seq<Line>)
    requires forall i :: 0 <= i < |pre| ==> BeforeHeader(pre[i]) == Ok(true)
    requires |header| > 0 && header[0] == S("Name")
    ensures BlpPositions(pre + [header] + rows) == Ok(ZipAll(header, rows))
  {
    assert pre + [header] + rows == pre + ([header] + rows);
    DropWhileTo(BeforeHeader, pre, header, rows);
    assert Pop([header] + rows) == Ok((header, rows)) by {
      assert ([header] + rows)[1..] == rows;
    }
  }

  /** A sheet without a date line raises, whatever its positions. */
  lemma ReadBlpFileNeedsDate(lines: seq<Line>)
    requires forall i :: 0 <= i < |lines| ==> DateLineTest(lines[i]) == Ok(false)
    ensures ReadBlpFile(lines).Err?
  {
  }
}
