/** The iterator steps the parsers chain over lines read from a worksheet:
    `dropwhile`, `takewhile` (whose test may raise, e.g. `L[0]` on an empty
    line), `pop`, `dict(zip(header, line))` over many lines, and building a
    dictionary keyed by one column. */
module Tables {
  import opened Cells

  /** `dropwhile(f, xs)` consumed: the suffix from the first element the
      test rejects. A test that raises before that point raises. */
  function DropWhileR<T>(f: T -> Result<bool>, xs: seq<T>): (r: Result<seq<T>>)
    ensures r.Ok? ==> |r.value| <= |xs| && r.value == xs[|xs| - |r.value|..]
    ensures r.Ok? ==> forall i :: 0 <= i < |xs| - |r.value| ==> f(xs[i]) == Ok(true)
    ensures r.Ok? && r.value != [] ==> f(r.value[0]) == Ok(false)
    ensures r.Err? ==> exists k :: 0 <= k < |xs| && f(xs[k]).Err? && forall i :: 0 <= i < k ==> f(xs[i]) == Ok(true)
  {
    if xs == [] then Ok([])
    else
      var keep :- f(xs[0]);
      if keep then
        var r := DropWhileR(f, xs[1..]);
        if r.Err? then
          ghost var k :| 0 <= k < |xs[1..]| && f(xs[1..][k]).Err? && forall i :: 0 <= i < k ==> f(xs[1..][i]) == Ok(true);
          assert f(xs[k + 1]).Err? && forall i :: 0 <= i < k + 1 ==> f(xs[i]) == Ok(true) by {
            forall i | 0 <= i < k + 1 ensures f(xs[i]) == Ok(true) {
              if i > 0 { assert xs[i] == xs[1..][i - 1]; }
            }
          }
          r
        else
          assert forall i :: 1 <= i < |xs| - |r.value| ==> xs[i] == xs[1..][i - 1];
          assert xs[1..][|xs| - 1 - |r.value|..] == xs[|xs| - |r.value|..];
          r
      else Ok(xs)
  }

  /** `takewhile(f, xs)` consumed: the longest prefix the test accepts. A
      test that raises within that prefix or on the element that ends it
      raises. */
  function TakeWhileR<T>(f: T -> Result<bool>, xs: seq<T>): (r: Result<seq<T>>)
    ensures r.Ok? ==> |r.value| <= |xs| && r.value == xs[..|r.value|]
    ensures r.Ok? ==> forall i :: 0 <= i < |r.value| ==> f(xs[i]) == Ok(true)
    ensures r.Ok? && |r.value| < |xs| ==> f(xs[|r.value|]) == Ok(false)
    ensures r.Err? ==> exists k :: 0 <= k < |xs| && f(xs[k]).Err? && forall i :: 0 <= i < k ==> f(xs[i]) == Ok(true)
  {
    if xs == [] then Ok([])
    else
      var keep :- f(xs[0]);
      if keep then
        var r := TakeWhileR(f, xs[1..]);
        if r.Err? then
          ghost var k :| 0 <= k < |xs[1..]| && f(xs[1..][k]).Err? && forall i :: 0 <= i < k ==> f(xs[1..][i]) == Ok(true);
          assert f(xs[k + 1]).Err? && forall i :: 0 <= i < k + 1 ==> f(xs[i]) == Ok(true) by {
            forall i | 0 <= i < k + 1 ensures f(xs[i]) == Ok(true) {
              if i > 0 { assert xs[i] == xs[1..][i - 1]; }
            }
          }
          Err(r.msg)
        else
          var t := [xs[0]] + r.value;
          assert forall i :: 1 <= i < |t| ==> t[i] == xs[1..][i - 1];
          Ok(t)
      else Ok([])
  }

  /** When no element before `n` raises or stops the scan, and the one at
      `n` stops it, `dropwhile` keeps exactly the suffix from `n`. */
  lemma {:induction false} DropWhileAt<T>(f: T -> Result<bool>, xs: seq<T>, n: nat)
    requires n < |xs| && f(xs[n]) == Ok(false)
    requires forall i :: 0 <= i < n ==> f(xs[i]) == Ok(true)
    ensures DropWhileR(f, xs) == Ok(xs[n..])
  {
    if n > 0 {
      assert forall i :: 0 <= i < n - 1 ==> xs[1..][i] == xs[i + 1];
      DropWhileAt(f, xs[1..], n - 1);
      assert xs[1..][n - 1..] == xs[n..];
    }
  }

  /** The prefix before `n` is taken when its elements pass and the one at
      `n` (if any) stops the scan. */
  lemma {:induction false} TakeWhileAt<T>(f: T -> Result<bool>, xs: seq<T>, n: nat)
    requires n <= |xs|
    requires n < |xs| ==> f(xs[n]) == Ok(false)
    requires forall i :: 0 <= i < n ==> f(xs[i]) == Ok(true)
    ensures TakeWhileR(f, xs) == Ok(xs[..n])
  {
    if n > 0 {
      assert forall i :: 0 <= i < n - 1 ==> xs[1..][i] == xs[i + 1];
      TakeWhileAt(f, xs[1..], n - 1);
      assert [xs[0]] + xs[1..][..n - 1] == xs[..n];
    }
  }

  /** `dropwhile` over lines laid out as: passing elements, the first
      element that stops the scan, anything. */
  lemma DropWhileTo<T>(f: T -> Result<bool>, pre: seq<T>, x: T, rest: seq<T>)
    requires forall i :: 0 <= i < |pre| ==> f(pre[i]) == Ok(true)
    requires f(x) == Ok(false)
    ensures DropWhileR(f, pre + ([x] + rest)) == Ok([x] + rest)
  {
    var xs := pre + ([x] + rest);
    assert xs[|pre|] == x;
    assert forall i :: 0 <= i < |pre| ==> xs[i] == pre[i];
    DropWhileAt(f, xs, |pre|);
    assert xs[|pre|..] == [x] + rest;
  }

  /** `takewhile` over passing elements followed by nothing or by an element
      that stops the scan. */
  lemma TakeWhileTo<T>(f: T -> Result<bool>, block: seq<T>, tail: seq<T>)
    requires forall i :: 0 <= i < |block| ==> f(block[i]) == Ok(true)
    requires tail == [] || f(tail[0]) == Ok(false)
    ensures TakeWhileR(f, block + tail) == Ok(block)
  {
    var xs := block + tail;
    assert forall i :: 0 <= i < |block| ==> xs[i] == block[i];
    assert |block| < |xs| ==> xs[|block|] == tail[0];
    TakeWhileAt(f, xs, |block|);
    assert xs[..|block|] == block;
  }

  /** The length of the longest prefix `f` accepts: `dropwhile(f, xs)` is
      `xs[Span(f, xs)..]` and `takewhile(f, xs)` is `xs[..Span(f, xs)]` when
      the test cannot raise. */
  function Span<T>(f: T -> bool, xs: seq<T>): (n: nat)
    ensures n <= |xs|
    ensures forall i :: 0 <= i < n ==> f(xs[i])
    ensures n < |xs| ==> !f(xs[n])
  {
    if xs == [] || !f(xs[0]) then 0
    else
      var n := Span(f, xs[1..]);
      assert forall i :: 1 <= i < n + 1 ==> xs[i] == xs[1..][i - 1];
      n + 1
  }

  /** The accepted prefix of `block + tail` is `block` when `tail` is empty
      or starts with an element `f` rejects. */
  lemma {:induction false} SpanTo<T>(f: T -> bool, block: seq<T>, tail: seq<T>)
    requires forall i :: 0 <= i < |block| ==> f(block[i])
    requires tail == [] || !f(tail[0])
    ensures Span(f, block + tail) == |block|
  {
    if block == [] {
      assert block + tail == tail;
    } else {
      var xs := block + tail;
      assert xs[0] == block[0];
      assert xs[1..] == block[1..] + tail;
      SpanTo(f, block[1..], tail);
    }
  }

  /** The `dropwhile` test of the position readers, `line[0] != 'Name'`; an empty line raises. */
  function BeforeHeader(line: Line): (r: Result<bool>)
    ensures r.Ok? <==> |line| > 0
    ensures r.Ok? ==> (r.value <==> line[0] != S("Name"))
  {
    var head :- Head(line);
    Ok(head != S("Name"))
  }

  /** `firstOf(f, xs)`: the first element the test accepts, or `None`; a
      test that raises on an element before it raises. */
  function FirstOf<T>(f: T -> Result<bool>, xs: seq<T>): (r: Result<Option<T>>)
    ensures r == Ok(None) <==> forall i :: 0 <= i < |xs| ==> f(xs[i]) == Ok(false)
    ensures r.Ok? && r.value.Some? ==> r.value.value in xs && f(r.value.value) == Ok(true)
  {
    if xs == [] then Ok(None)
    else
      var found :- f(xs[0]);
      if found then Ok(Some(xs[0]))
      else
        var r := FirstOf(f, xs[1..]);
        assert r == Ok(None) ==> forall i :: 1 <= i < |xs| ==> f(xs[i]) == f(xs[1..][i - 1]);
        r
  }

  /** The element found is the first one the test accepts, when the test
      rejects every element before it. */
  lemma {:induction false} FirstOfAt<T>(f: T -> Result<bool>, xs: seq<T>, k: nat)
    requires k < |xs| && f(xs[k]) == Ok(true)
    requires forall i :: 0 <= i < k ==> f(xs[i]) == Ok(false)
    ensures FirstOf(f, xs) == Ok(Some(xs[k]))
  {
    if k > 0 {
      assert forall i :: 0 <= i < k - 1 ==> xs[1..][i] == xs[i + 1];
      FirstOfAt(f, xs[1..], k - 1);
    }
  }

  /** `pop(it)`: the first element and the rest, or an error when empty. */
  function Pop<T>(xs: seq<T>): (r: Result<(T, seq<T>)>)
    ensures r.Ok? <==> xs != []
    ensures r.Ok? ==> [r.value.0] + r.value.1 == xs
  {
    if xs == [] then Err("StopIteration") else Ok((xs[0], xs[1..]))
  }

  /** `map(lambda L: dict(zip(header, L)), lines)` */
  function ZipAll(header: Line, lines: seq<Line>): (rs: seq<Record>)
    ensures |rs| == |lines|
    ensures forall i :: 0 <= i < |lines| ==> rs[i] == ZipRecord(header, lines[i])
  {
    seq(|lines|, i requires 0 <= i < |lines| => ZipRecord(header, lines[i]))
  }

  /** No record after index `i` has the same `column` value. */
  predicate LastWithKey(rs: seq<Record>, column: string, i: nat)
    requires i < |rs|
    requires forall j :: 0 <= j < |rs| ==> S(column) in rs[j]
  {
    forall j :: i < j < |rs| ==> rs[j][S(column)] != rs[i][S(column)]
  }

  predicate HasColumn(rs: seq<Record>, column: string)
  {
    forall j :: 0 <= j < |rs| ==> S(column) in rs[j]
  }

  /** `dict(map(lambda p: (p[column], p), rs))` when every record has the
      column: each record is filed under its `column` value. */
  function KeyedBy(rs: seq<Record>, column: string): (m: map<Cell, Record>)
    requires HasColumn(rs, column)
    ensures forall j :: 0 <= j < |rs| ==> rs[j][S(column)] in m
    ensures forall k :: k in m ==> S(column) in m[k] && m[k][S(column)] == k
  {
    if rs == [] then map[]
    else
      var init := rs[..|rs| - 1];
      var last := rs[|rs| - 1];
      assert forall j :: 0 <= j < |init| ==> init[j] == rs[j];
      KeyedBy(init, column)[last[S(column)] := last]
  }

  /** Every value of the dictionary is one of the records. */
  lemma {:induction false} KeyedByValues(rs: seq<Record>, column: string, k: Cell)
    requires HasColumn(rs, column) && k in KeyedBy(rs, column)
    ensures KeyedBy(rs, column)[k] in rs
  {
    if rs != [] {
      var init := rs[..|rs| - 1];
      if k != rs[|rs| - 1][S(column)] {
        KeyedByValues(init, column, k);
      }
    }
  }

  /** A later record replaces an earlier one with the same value: the record
      kept under a value is the last one carrying it. */
  lemma {:induction false} KeyedByLast(rs: seq<Record>, column: string, j: nat)
    requires HasColumn(rs, column) && j < |rs| && LastWithKey(rs, column, j)
    ensures KeyedBy(rs, column)[rs[j][S(column)]] == rs[j]
  {
    var init := rs[..|rs| - 1];
    if j < |init| {
      assert LastWithKey(init, column, j);
      KeyedByLast(init, column, j);
    }
  }

  /** `dict(pairs)`: every key of the pairs is present, and a later pair
      replaces an earlier one with the same key. */
  function DictOf<K, V>(pairs: seq<(K, V)>): (m: map<K, V>)
    ensures forall i :: 0 <= i < |pairs| ==> pairs[i].0 in m
  {
    if pairs == [] then map[]
    else
      var init := pairs[..|pairs| - 1];
      assert forall i :: 0 <= i < |init| ==> init[i] == pairs[i];
      DictOf(init)[pairs[|pairs| - 1].0 := pairs[|pairs| - 1].1]
  }

  /** Nothing but the pairs' keys is in the dictionary. */
  lemma {:induction false} DictOfKeys<K, V>(pairs: seq<(K, V)>, k: K)
    requires k in DictOf(pairs)
    ensures exists i :: 0 <= i < |pairs| && pairs[i] == (k, DictOf(pairs)[k])
  {
    var init := pairs[..|pairs| - 1];
    if k == pairs[|pairs| - 1].0 {
      assert pairs[|pairs| - 1] == (k, DictOf(pairs)[k]);
    } else {
      DictOfKeys(init, k);
      var i :| 0 <= i < |init| && init[i] == (k, DictOf(init)[k]);
      assert pairs[i] == init[i];
    }
  }

  /** The value kept under a key is that of the last pair carrying it. */
  lemma {:induction false} DictOfLast<K, V>(pairs: seq<(K, V)>, j: nat)
    requires j < |pairs|
    requires forall i :: j < i < |pairs| ==> pairs[i].0 != pairs[j].0
    ensures DictOf(pairs)[pairs[j].0] == pairs[j].1
  {
    var init := pairs[..|pairs| - 1];
    if j < |init| {
      assert init[j] == pairs[j];
      DictOfLast(init, j);
    }
  }

  /** The same dictionary, or KeyError when a record lacks the column. */
  function IndexBy(rs: seq<Record>, column: string): (r: Result<map<Cell, Record>>)
    ensures r.Ok? <==> HasColumn(rs, column)
    ensures r.Ok? ==> r.value == KeyedBy(rs, column)
  {
    if HasColumn(rs, column) then Ok(KeyedBy(rs, column)) else Err("KeyError: " + column)
  }
}
