/** The LQA universe file built from ready-made request positions
    (lqa_daphne.py): one ', '-separated line per position, the stress
    variant with three extra factors, and the lines joined by newlines. */
module LqaDaphne {
  import opened Cells
  import opened Text
  import opened Seqs

  /** The `KEY=value` fields of the normal line, in order; the as-of date
      comes last and is rendered separately. */
  const Keys: seq<string> :=
    [ "LQA_POSITION_TAG_1", "LQA_TGT_LIQUIDATION_VOLUME", "LQA_SOURCE_TGT_LIQUIDATION_COST"
    , "LQA_FACTOR_TGT_LIQUIDATION_COST", "LQA_TGT_LIQUIDATION_HORIZON", "LQA_TGT_COST_CONF_LEVL"]

  /** The extra fields of the stress line. */
  const StressKeys: seq<string> :=
    ["LQA_FACTOR_EXPECTED_DAILY_VOLUME", "LQA_FACTOR_PRICE_VOLATILITY", "LQA_FACTOR_BID_ASK_SPREAD"]

  /** Python's `int(c)`: a float is truncated toward zero, text must read as
      an integer, anything else raises. */
  function IntOf(c: Cell): (r: Result<int>)
    ensures c.N? ==> r == Ok(Truncate(c.num))
    ensures c.S? ==> (r.Ok? <==> ParseInt(c.text).Some?)
    ensures c.S? && r.Ok? ==> r.value == ParseInt(c.text).value
    ensures c.Nothing? ==> r.Err?
  {
    match c
    case N(x) => Ok(Truncate(x))
    case S(t) => (match ParseInt(t) case Some(i) => Ok(i) case None => Err("ValueError: invalid literal for int()"))
    case Nothing => Err("TypeError: int() of None")
  }

  /** `'KEY={0}'.format(position['KEY'])` */
  function KeyValue(show: real -> string, p: Record, key: string): (r: Result<string>)
    ensures r.Ok? <==> S(key) in p
    ensures r.Ok? ==> r.value == key + "=" + CellString(show, p[S(key)])
  {
    var c :- Lookup(p, key);
    Ok(key + "=" + CellString(show, c))
  }

  /** The `KEY=value` fields for `keys`, in order. */
  function KeyValues(show: real -> string, p: Record, keys: seq<string>): (r: Result<seq<string>>)
    ensures r.Ok? <==> forall i :: 0 <= i < |keys| ==> S(keys[i]) in p
    ensures r.Ok? ==> |r.value| == |keys|
                      && forall i :: 0 <= i < |keys| ==> r.value[i] == keys[i] + "=" + CellString(show, p[S(keys[i])])
  {
    var f := (k: string) => KeyValue(show, p, k);
    assert forall i :: 0 <= i < |keys| ==> f(keys[i]) == KeyValue(show, p, keys[i]);
    MapR(f, keys)
  }

  /** The nine fields of `lqaLine` in `buildLqaRequest`: the id and its type
      verbatim, six `KEY=value` fields, and the as-of date through `int()`. */
  function LineFields(show: real -> string, p: Record): (r: Result<seq<string>>)
    ensures r.Ok? <==> LookupText(p, "Identifier ID").Ok? && LookupText(p, "Identifier ID Type").Ok?
                       && (forall i :: 0 <= i < 6 ==> S(Keys[i]) in p)
                       && S("LQA_MODEL_AS_OF_DATE") in p && IntOf(p[S("LQA_MODEL_AS_OF_DATE")]).Ok?
    ensures r.Ok? ==> |r.value| == 9
    ensures r.Ok? ==> r.value[0] == p[S("Identifier ID")].text && r.value[1] == p[S("Identifier ID Type")].text
    ensures r.Ok? ==> forall i :: 0 <= i < 6 ==> r.value[i + 2] == Keys[i] + "=" + CellString(show, p[S(Keys[i])])
    ensures r.Ok? ==> r.value[8] == "LQA_MODEL_AS_OF_DATE=" + IntToString(IntOf(p[S("LQA_MODEL_AS_OF_DATE")]).value)
  {
    var id :- LookupText(p, "Identifier ID");
    var idType :- LookupText(p, "Identifier ID Type");
    var fields :- KeyValues(show, p, Keys);
    var dateCell :- Lookup(p, "LQA_MODEL_AS_OF_DATE");
    var date :- IntOf(dateCell);
    Ok([id, idType] + fields + ["LQA_MODEL_AS_OF_DATE=" + IntToString(date)])
  }

  /** `lqaLine` of `buildLqaRequest`. */
  function LqaLine(show: real -> string, p: Record): (r: Result<string>)
    ensures r.Ok? <==> LineFields(show, p).Ok?
    ensures r.Ok? ==> r.value == Join(", ", LineFields(show, p).value)
  {
    var fields :- LineFields(show, p);
    Ok(Join(", ", fields))
  }

  /** `lqaLine` of `buildLqaRequestStress`: the normal fields followed by the
      expected daily volume, price volatility and bid-ask spread factors. */
  function StressFields(show: real -> string, p: Record): (r: Result<seq<string>>)
    ensures r.Ok? ==> |r.value| == 12
    ensures r.Ok? <==> LineFields(show, p).Ok? && forall i :: 0 <= i < 3 ==> S(StressKeys[i]) in p
    ensures r.Ok? ==> r.value[..9] == LineFields(show, p).value
    ensures r.Ok? ==> forall i :: 0 <= i < 3 ==> r.value[i + 9] == StressKeys[i] + "=" + CellString(show, p[S(StressKeys[i])])
  {
    var fields :- LineFields(show, p);
    var extra :- KeyValues(show, p, StressKeys);
    assert (fields + extra)[..9] == fields;
    Ok(fields + extra)
  }

  function StressLine(show: real -> string, p: Record): (r: Result<string>)
    ensures r.Ok? <==> StressFields(show, p).Ok?
    ensures r.Ok? ==> r.value == Join(", ", StressFields(show, p).value)
  {
    var fields :- StressFields(show, p);
    Ok(Join(", ", fields))
  }

  /** The stress line is the normal line continued by the three factors. */
  lemma StressLineExtends(show: real -> string, p: Record)
    requires StressLine(show, p).Ok?
    ensures LqaLine(show, p).Ok?
    ensures StressLine(show, p).value == LqaLine(show, p).value + ", " + Join(", ", StressFields(show, p).value[9..])
  {
    var all := StressFields(show, p).value;
    assert all == all[..9] + all[9..];
    JoinAppend(", ", all[..9], all[9..]);
  }

  /** Splitting a line on ',' gives back the fields, each after the first
      with the separator's blank in front, when no field holds a comma. */
  lemma LqaLineFields(show: real -> string, p: Record)
    requires LqaLine(show, p).Ok?
    requires forall i :: 0 <= i < 9 ==> ',' !in LineFields(show, p).value[i]
    ensures var fs := LineFields(show, p).value;
            SplitChar(LqaLine(show, p).value, ',') == [fs[0]] + PrefixTail(" ", fs[1..])
  {
    assert ", " == [','] + " ";
    SplitOfJoinWithSeparator(LineFields(show, p).value, ',', " ");
  }

  /** `'\n'.join(map(lqaLine, positions))`: no newline after the last line. */
  function Request(show: real -> string, ps: seq<Record>, stress: bool): (r: Result<string>)
    ensures r.Ok? <==> forall i :: 0 <= i < |ps| ==> LineOf(show, stress, ps[i]).Ok?
    ensures r.Ok? ==> r.value == Join("\n", Lines(show, ps, stress).value)
  {
    var lines :- Lines(show, ps, stress);
    Ok(Join("\n", lines))
  }

  /** The line of one position in the chosen variant. */
  function LineOf(show: real -> string, stress: bool, p: Record): Result<string>
  {
    if stress then StressLine(show, p) else LqaLine(show, p)
  }

  function Lines(show: real -> string, ps: seq<Record>, stress: bool): (r: Result<seq<string>>)
    ensures r.Ok? <==> forall i :: 0 <= i < |ps| ==> LineOf(show, stress, ps[i]).Ok?
    ensures r.Ok? ==> |r.value| == |ps|
    ensures r.Ok? ==> forall i :: 0 <= i < |ps| ==> Ok(r.value[i]) == LineOf(show, stress, ps[i])
  {
    var f := (p: Record) => LineOf(show, stress, p);
    assert forall i :: 0 <= i < |ps| ==> f(ps[i]) == LineOf(show, stress, ps[i]);
    MapR(f, ps)
  }

  /** Splitting the file on newlines gives back one line per position when
      no field holds a newline; the last piece is the last line, so there is
      no trailing newline. */
  lemma RequestLines(show: real -> string, ps: seq<Record>, stress: bool)
    requires |ps| >= 1
    requires Request(show, ps, stress).Ok?
    requires forall i :: 0 <= i < |ps| ==> '\n' !in Lines(show, ps, stress).value[i]
    ensures SplitChar(Request(show, ps, stress).value, '\n') == Lines(show, ps, stress).value
  {
    SplitCharOfJoin(Lines(show, ps, stress).value, '\n');
  }
}
