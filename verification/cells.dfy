/** Spreadsheet cells, rows and records as the readers hand them over, plus
    the failure-compatible result type that stands for a raised exception.

    A Python exception (KeyError, IndexError, TypeError, AttributeError, the
    ValueError of `lognRaise`, or `pop` on an exhausted iterator) is an `Err`.
    Only WHETHER a call raises is modelled; the message is informational. */
module Cells {

  datatype Option<+T> = None | Some(value: T)

  datatype Result<+T> = Ok(value: T) | Err(msg: string) {
    predicate IsFailure() { Err? }

    function PropagateFailure<U>(): Result<U>
      requires Err?
    {
      Err(msg)
    }

    function Extract(): T
      requires Ok?
    {
      value
    }
  }

  /** One spreadsheet cell: text, a number (every Excel number reads as a
      float), or Python's `None`, which only the SFC fill-down can produce. */
  datatype Cell = S(text: string) | N(num: real) | Nothing

  /** The empty cell `''`. */
  const Blank: Cell := S("")

  type Line = seq<Cell>

  /** A row turned into a dictionary: header cell -> value cell. */
  type Record = map<Cell, Cell>

  /** `record[key]`: a missing key raises KeyError. */
  function Lookup(r: Record, key: string): (c: Result<Cell>)
    ensures c.Ok? <==> S(key) in r
    ensures c.Ok? ==> c.value == r[S(key)]
  {
    if S(key) in r then Ok(r[S(key)]) else Err("KeyError: " + key)
  }

  /** A cell used where Python needs a `str` (`startswith`, `strip`, `+`). */
  function AsText(c: Cell): (r: Result<string>)
    ensures r.Ok? <==> c.S?
    ensures r.Ok? ==> c == S(r.value)
  {
    if c.S? then Ok(c.text) else Err("TypeError: not a string")
  }

  /** `r[key]` used where Python needs a `str`. */
  function LookupText(r: Record, key: string): (v: Result<string>)
    ensures v.Ok? <==> S(key) in r && r[S(key)].S?
    ensures v.Ok? ==> v.value == r[S(key)].text
  {
    var c :- Lookup(r, key);
    AsText(c)
  }

  /** `str(c)` and `'{0}'.format(c)`. How Python renders a float is not
      modelled: it is the parameter `show`. */
  function CellString(show: real -> string, c: Cell): string
  {
    match c
    case S(t) => t
    case N(x) => show(x)
    case Nothing => "None"
  }

  /** A cell used where Python needs a number (`<=`, `sum`, `/`). */
  function AsNumber(c: Cell): (r: Result<real>)
    ensures r.Ok? <==> c.N?
    ensures r.Ok? ==> c == N(r.value)
  {
    if c.N? then Ok(c.num) else Err("TypeError: not a number")
  }

  /** `line[0]`: an empty line raises IndexError. */
  function Head(line: Line): (r: Result<Cell>)
    ensures r.Ok? <==> |line| > 0
    ensures r.Ok? ==> r.value == line[0]
  {
    if |line| > 0 then Ok(line[0]) else Err("IndexError: empty line")
  }

  /** No column after `i` (and before `n`) repeats the name `header[i]`. */
  predicate LastOccurrence(header: Line, i: nat, n: nat)
    requires i < n <= |header|
  {
    forall j :: i < j < n ==> header[j] != header[i]
  }

  /** The dictionary built from the first `n` header/value pairs. */
  function ZipUpTo(header: Line, line: Line, n: nat): (r: Record)
    requires n <= |header| && n <= |line|
    ensures r.Keys == set i | 0 <= i < n :: header[i]
    ensures forall i :: 0 <= i < n && LastOccurrence(header, i, n) ==> r[header[i]] == line[i]
  {
    if n == 0 then map[]
    else
      var prev := ZipUpTo(header, line, n - 1);
      ZipUpToStep(header, line, n, prev);
      prev[header[n - 1] := line[n - 1]]
  }

  /** Adding column `n - 1` to the dictionary of the first `n - 1` pairs. */
  lemma ZipUpToStep(header: Line, line: Line, n: nat, prev: Record)
    requires 0 < n <= |header| && n <= |line|
    requires prev.Keys == set i | 0 <= i < n - 1 :: header[i]
    requires forall i :: 0 <= i < n - 1 && LastOccurrence(header, i, n - 1) ==> prev[header[i]] == line[i]
    ensures var r := prev[header[n - 1] := line[n - 1]];
            r.Keys == (set i | 0 <= i < n :: header[i])
            && forall i :: 0 <= i < n && LastOccurrence(header, i, n) ==> r[header[i]] == line[i]
  {
    var r := prev[header[n - 1] := line[n - 1]];
    assert r.Keys == prev.Keys + {header[n - 1]};
    HeaderNamesStep(header, n);
    forall i | 0 <= i < n && LastOccurrence(header, i, n) ensures r[header[i]] == line[i] {
      if i < n - 1 {
        assert header[n - 1] != header[i];
        assert LastOccurrence(header, i, n - 1);
      }
    }
  }

  /** The names of the first `n` columns are those of the first `n - 1` and
      column `n - 1`. */
  lemma HeaderNamesStep(header: Line, n: nat)
    requires 0 < n <= |header|
    ensures (set i | 0 <= i < n :: header[i]) == (set i | 0 <= i < n - 1 :: header[i]) + {header[n - 1]}
  {
  }

  function Min(a: nat, b: nat): nat { if a <= b then a else b }

  /** `dict(zip(header, line))`: pairs up to the shorter length; when the
      header repeats a name, the later column wins. */
  function ZipRecord(header: Line, line: Line): (r: Record)
    ensures r.Keys == set i | 0 <= i < Min(|header|, |line|) :: header[i]
    ensures forall i :: 0 <= i < Min(|header|, |line|) && LastOccurrence(header, i, Min(|header|, |line|))
                        ==> r[header[i]] == line[i]
  {
    ZipUpTo(header, line, Min(|header|, |line|))
  }

  /** `mergeDict(a, b)` (a helper the repository imports but does not show),
      read as "a updated with b": keys of `b` win. */
  function Merge(a: Record, b: Record): (r: Record)
    ensures r.Keys == a.Keys + b.Keys
    ensures forall k :: k in b ==> r[k] == b[k]
    ensures forall k :: k in a && k !in b ==> r[k] == a[k]
  {
    a + b
  }
}
