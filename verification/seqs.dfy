/** Sequence combinators behind the repository's `filter` / `filterfalse` /
    `map` / `sum` pipelines and its `groupby`-then-sum consolidation. */
module Seqs {
  import opened Cells

  /** `list(filter(f, xs))` */
  function Filter<T>(f: T -> bool, xs: seq<T>): (r: seq<T>)
    ensures |r| <= |xs|
    ensures forall i :: 0 <= i < |r| ==> r[i] in xs && f(r[i])
    ensures forall i :: 0 <= i < |xs| && f(xs[i]) ==> xs[i] in r
  {
    if xs == [] then [] else (if f(xs[0]) then [xs[0]] else []) + Filter(f, xs[1..])
  }

  lemma {:induction false} FilterAppend<T>(f: T -> bool, a: seq<T>, b: seq<T>)
    ensures Filter(f, a + b) == Filter(f, a) + Filter(f, b)
  {
    if a != [] {
      assert (a + b)[0] == a[0];
      assert (a + b)[1..] == a[1..] + b;
      FilterAppend(f, a[1..], b);
      assert Filter(f, a + b) == (if f(a[0]) then [a[0]] else []) + Filter(f, a[1..] + b);
    } else {
      assert a + b == b;
    }
  }

  lemma FilterSingle<T>(f: T -> bool, x: T)
    ensures Filter(f, [x]) == (if f(x) then [x] else [])
  {
    assert [x][1..] == [];
  }

  /** Filtering by `f` and by its negation splits `xs` without loss or
      duplication. */
  lemma {:induction false} FilterPartition<T>(f: T -> bool, g: T -> bool, xs: seq<T>)
    requires forall x :: g(x) == !f(x)
    ensures multiset(Filter(f, xs)) + multiset(Filter(g, xs)) == multiset(xs)
    ensures |Filter(f, xs)| + |Filter(g, xs)| == |xs|
  {
    if xs != [] {
      FilterPartition(f, g, xs[1..]);
      assert xs == [xs[0]] + xs[1..];
    }
  }

  /** Two filters in a row keep what satisfies both, in either order. */
  lemma {:induction false} FilterFilter<T>(f: T -> bool, g: T -> bool, both: T -> bool, xs: seq<T>)
    requires forall x :: both(x) == (f(x) && g(x))
    ensures Filter(g, Filter(f, xs)) == Filter(both, xs)
    ensures Filter(f, Filter(g, xs)) == Filter(both, xs)
  {
    if xs != [] {
      FilterFilter(f, g, both, xs[1..]);
      var x := xs[0];
      var fr := if f(x) then [x] else [];
      var gr := if g(x) then [x] else [];
      FilterAppend(g, fr, Filter(f, xs[1..]));
      FilterAppend(f, gr, Filter(g, xs[1..]));
      assert Filter(f, xs) == fr + Filter(f, xs[1..]);
      assert Filter(g, xs) == gr + Filter(g, xs[1..]);
    }
  }

  // ---------------------------------------------------------------------
  // The same combinators when the predicate or the mapped function can raise.

  /** `f` answers True without raising. */
  function Accepts<T>(f: T -> Result<bool>): T -> bool
  {
    x => f(x) == Ok(true)
  }

  /** `f` answers False without raising. */
  function Rejects<T>(f: T -> Result<bool>): T -> bool
  {
    x => f(x) == Ok(false)
  }

  predicate AllOk<T, U>(f: T -> Result<U>, xs: seq<T>)
  {
    forall i :: 0 <= i < |xs| ==> f(xs[i]).Ok?
  }

  /** `filter(f, xs)`: raises as soon as `f` raises on some element. */
  function FilterR<T>(f: T -> Result<bool>, xs: seq<T>): (r: Result<seq<T>>)
    ensures r.Ok? <==> AllOk(f, xs)
    ensures r.Ok? ==> r.value == Filter(Accepts(f), xs)
  {
    if xs == [] then Ok([])
    else
      var keep :- f(xs[0]);
      var rest :- FilterR(f, xs[1..]);
      Ok(if keep then [xs[0]] + rest else rest)
  }

  /** `filterfalse(f, xs)` */
  function FilterFalseR<T>(f: T -> Result<bool>, xs: seq<T>): (r: Result<seq<T>>)
    ensures r.Ok? <==> AllOk(f, xs)
    ensures r.Ok? ==> r.value == Filter(Rejects(f), xs)
  {
    if xs == [] then Ok([])
    else
      var drop :- f(xs[0]);
      var rest :- FilterFalseR(f, xs[1..]);
      Ok(if drop then rest else [xs[0]] + rest)
  }

  /** `map(f, xs)` */
  function MapR<T, U>(f: T -> Result<U>, xs: seq<T>): (r: Result<seq<U>>)
    ensures r.Ok? <==> AllOk(f, xs)
    ensures r.Ok? ==> |r.value| == |xs|
    ensures r.Ok? ==> forall i :: 0 <= i < |xs| ==> r.value[i] == f(xs[i]).value
  {
    if xs == [] then Ok([])
    else
      var y :- f(xs[0]);
      var rest :- MapR(f, xs[1..]);
      Ok([y] + rest)
  }

  /** `sum(map(g, xs))`, added up from the left. */
  function SumBy<T>(g: T -> real, xs: seq<T>): real
  {
    if xs == [] then 0.0 else SumBy(g, xs[..|xs| - 1]) + g(xs[|xs| - 1])
  }

  lemma {:induction false} SumByAppend<T>(g: T -> real, a: seq<T>, b: seq<T>)
    ensures SumBy(g, a + b) == SumBy(g, a) + SumBy(g, b)
  {
    if b == [] {
      assert a + b == a;
    } else {
      assert (a + b)[..|a + b| - 1] == a + b[..|b| - 1];
      SumByAppend(g, a, b[..|b| - 1]);
    }
  }

  /** Two predicates that agree on every element select the same elements. */
  lemma {:induction false} FilterCongruent<T>(f: T -> bool, g: T -> bool, xs: seq<T>)
    requires forall i :: 0 <= i < |xs| ==> f(xs[i]) == g(xs[i])
    ensures Filter(f, xs) == Filter(g, xs)
  {
    if xs != [] {
      FilterCongruent(f, g, xs[1..]);
    }
  }

  lemma SumByCons<T>(g: T -> real, x: T, xs: seq<T>)
    ensures SumBy(g, [x] + xs) == g(x) + SumBy(g, xs)
  {
    SumByAppend(g, [x], xs);
    assert [x][..0] == [];
  }

  /** Splitting by a predicate and its negation conserves any sum. */
  lemma {:induction false} SumByPartition<T>(g: T -> real, f: T -> bool, h: T -> bool, xs: seq<T>)
    requires forall x :: h(x) == !f(x)
    ensures SumBy(g, Filter(f, xs)) + SumBy(g, Filter(h, xs)) == SumBy(g, xs)
  {
    if xs != [] {
      var x, rest := xs[0], xs[1..];
      SumByPartition(g, f, h, rest);
      assert [x] + rest == xs;
      SumByCons(g, x, rest);
      if f(x) {
        assert Filter(f, xs) == [x] + Filter(f, rest);
        assert Filter(h, xs) == [] + Filter(h, rest) == Filter(h, rest);
        SumByCons(g, x, Filter(f, rest));
      } else {
        assert Filter(h, xs) == [x] + Filter(h, rest);
        assert Filter(f, xs) == [] + Filter(f, rest) == Filter(f, rest);
        SumByCons(g, x, Filter(h, rest));
      }
    }
  }

  // ---------------------------------------------------------------------
  // Consolidation: toolz `groupby` on a key (groups in first-seen order,
  // members in input order) followed by one record per group whose amount
  // is the group's sum and whose other fields come from the first member.

  datatype Entry<K, R> = Entry(key: K, amount: real, rec: R)

  function KeysOf<K, R>(es: seq<Entry<K, R>>): (ks: seq<K>)
    ensures |ks| == |es|
    ensures forall i :: 0 <= i < |es| ==> ks[i] == es[i].key
  {
    seq(|es|, i requires 0 <= i < |es| => es[i].key)
  }

  /** Sum of every amount. */
  function Total<K, R>(es: seq<Entry<K, R>>): real
  {
    if es == [] then 0.0 else Total(es[..|es| - 1]) + es[|es| - 1].amount
  }

  /** Sum of the amounts carrying key `k`. */
  function GroupTotal<K(==), R>(es: seq<Entry<K, R>>, k: K): real
  {
    if es == [] then 0.0
    else GroupTotal(es[..|es| - 1], k) + (if es[|es| - 1].key == k then es[|es| - 1].amount else 0.0)
  }

  /** The record of the first entry carrying key `k`. */
  function FirstRec<K(==), R>(es: seq<Entry<K, R>>, k: K): R
    requires k in KeysOf(es)
  {
    var init := es[..|es| - 1];
    if k in KeysOf(init) then FirstRec(init, k) else es[|es| - 1].rec
  }

  /** The keys in order of first appearance, each once. */
  function Distinct<K(==)>(ks: seq<K>): (r: seq<K>)
    ensures forall i :: 0 <= i < |r| ==> r[i] in ks
    ensures forall i :: 0 <= i < |ks| ==> ks[i] in r
    ensures forall i, j :: 0 <= i < j < |r| ==> r[i] != r[j]
  {
    if ks == [] then []
    else
      var init := Distinct(ks[..|ks| - 1]);
      var k := ks[|ks| - 1];
      assert ks == ks[..|ks| - 1] + [k];
      if k in ks[..|ks| - 1] then init else init + [k]
  }

  function IndexOf<K(==)>(ks: seq<K>, k: K): (i: int)
    ensures -1 <= i < |ks|
    ensures i >= 0 ==> ks[i] == k
    ensures i < 0 ==> k !in ks
  {
    if ks == [] then -1
    else if ks[|ks| - 1] == k then |ks| - 1
    else IndexOf(ks[..|ks| - 1], k)
  }

  /** Fold step: add `x` to the group of its key, or open a new group. */
  function Absorb<K(==), R>(acc: seq<Entry<K, R>>, x: Entry<K, R>): seq<Entry<K, R>>
  {
    var i := IndexOf(KeysOf(acc), x.key);
    if i < 0 then acc + [x]
    else acc[i := acc[i].(amount := acc[i].amount + x.amount)]
  }

  function Consolidate<K(==), R>(es: seq<Entry<K, R>>): seq<Entry<K, R>>
  {
    if es == [] then [] else Absorb(Consolidate(es[..|es| - 1]), es[|es| - 1])
  }

  /** Independent description of the consolidation: one entry per distinct
      key, in first-seen order, carrying the group sum and the first
      member's record. */
  function Reference<K(==), R>(es: seq<Entry<K, R>>): seq<Entry<K, R>>
  {
    var d := Distinct(KeysOf(es));
    seq(|d|, i requires 0 <= i < |d| => Entry(d[i], GroupTotal(es, d[i]), FirstRec(es, d[i])))
  }

  lemma GroupTotalAbsent<K, R>(es: seq<Entry<K, R>>, k: K)
    requires k !in KeysOf(es)
    ensures GroupTotal(es, k) == 0.0
  {
    if es != [] {
      assert KeysOf(es[..|es| - 1]) == KeysOf(es)[..|es| - 1];
      GroupTotalAbsent(es[..|es| - 1], k);
    }
  }

  lemma Regroup<T>(a: seq<T>, b: seq<T>, c: seq<T>, d: seq<T>)
    ensures a + b + c + d == a + (b + (c + d))
    ensures b + (c + d) == b + c + d
  {
  }

  lemma Regroup5<T>(a: seq<T>, b: seq<T>, c: seq<T>, d: seq<T>, e: seq<T>)
    ensures a + ((b + c) + (d + e)) == a + b + c + d + e
  {
  }

  lemma SameElements<T>(a: seq<T>, b: seq<T>)
    requires |a| == |b|
    requires forall j :: 0 <= j < |a| ==> a[j] == b[j]
    ensures a == b
  {
  }

  lemma KeysOfSnoc<K, R>(es: seq<Entry<K, R>>)
    requires es != []
    ensures KeysOf(es) == KeysOf(es[..|es| - 1]) + [es[|es| - 1].key]
  {
  }

  lemma FirstRecStep<K, R>(es: seq<Entry<K, R>>, k: K)
    requires es != [] && k in KeysOf(es[..|es| - 1])
    ensures k in KeysOf(es) && FirstRec(es, k) == FirstRec(es[..|es| - 1], k)
  {
    KeysOfSnoc(es);
  }

  lemma {:induction false} ConsolidateIsReference<K, R>(es: seq<Entry<K, R>>)
    ensures Consolidate(es) == Reference(es)
  {
    if es != [] {
      var init := es[..|es| - 1];
      var x := es[|es| - 1];
      ConsolidateIsReference(init);
      if x.key !in KeysOf(init) {
        NewKeyStep(es);
      } else {
        KeysOfSnoc(es);
        OldKeyStep(es, Reference(init), Distinct(KeysOf(init)));
      }
    }
  }

  lemma DistinctSnoc<K>(ks: seq<K>)
    requires ks != []
    ensures Distinct(ks) == Distinct(ks[..|ks| - 1])
                            + (if ks[|ks| - 1] in ks[..|ks| - 1] then [] else [ks[|ks| - 1]])
  {
  }

  lemma KeysOfReference<K, R>(es: seq<Entry<K, R>>)
    ensures KeysOf(Reference(es)) == Distinct(KeysOf(es))
  {
  }

  lemma AbsorbNew<K, R>(acc: seq<Entry<K, R>>, x: Entry<K, R>)
    requires x.key !in KeysOf(acc)
    ensures Absorb(acc, x) == acc + [x]
  {
  }

  lemma AbsorbOld<K, R>(acc: seq<Entry<K, R>>, x: Entry<K, R>)
    requires x.key in KeysOf(acc)
    ensures var i := IndexOf(KeysOf(acc), x.key);
            0 <= i && Absorb(acc, x) == acc[i := acc[i].(amount := acc[i].amount + x.amount)]
  {
  }

  lemma NewKeyStep<K, R>(es: seq<Entry<K, R>>)
    requires es != []
    requires es[|es| - 1].key !in KeysOf(es[..|es| - 1])
    ensures Absorb(Reference(es[..|es| - 1]), es[|es| - 1]) == Reference(es)
  {
    var x := es[|es| - 1];
    var init := es[..|es| - 1];
    var d := Distinct(KeysOf(init));
    KeysOfReference(init);
    AbsorbNew(Reference(init), x);
    NewKeyDistinct(es);
    GroupTotalAbsent(init, x.key);
    var r, b := Reference(es), Reference(init) + [x];
    assert |r| == |d| + 1 == |b|;
    forall j | 0 <= j < |d| ensures r[j] == b[j] {
      KeptEntry(es, d, j);
    }
    NewEntry(es, d);
    SameElements(r, b);
  }

  /** A key not seen before joins the distinct keys at the end. */
  lemma NewKeyDistinct<K, R>(es: seq<Entry<K, R>>)
    requires es != [] && es[|es| - 1].key !in KeysOf(es[..|es| - 1])
    ensures es[|es| - 1].key in KeysOf(es)
    ensures Distinct(KeysOf(es)) == Distinct(KeysOf(es[..|es| - 1])) + [es[|es| - 1].key]
  {
    var ks := KeysOf(es);
    KeysOfSnoc(es);
    DistinctSnoc(ks);
    assert ks[..|ks| - 1] == KeysOf(es[..|es| - 1]);
  }

  /** An entry of an existing key is unaffected by a new key's arrival. */
  lemma KeptEntry<K, R>(es: seq<Entry<K, R>>, d: seq<K>, j: nat)
    requires es != []
    requires d == Distinct(KeysOf(es[..|es| - 1]))
    requires Distinct(KeysOf(es)) == d + [es[|es| - 1].key]
    requires es[|es| - 1].key !in KeysOf(es[..|es| - 1])
    requires j < |d|
    ensures Reference(es)[j] == Reference(es[..|es| - 1])[j]
  {
    var init := es[..|es| - 1];
    assert d[j] in KeysOf(init);
    FirstRecStep(es, d[j]);
  }

  /** A new key's entry is the new member itself. */
  lemma NewEntry<K, R>(es: seq<Entry<K, R>>, d: seq<K>)
    requires es != []
    requires Distinct(KeysOf(es)) == d + [es[|es| - 1].key]
    requires GroupTotal(es[..|es| - 1], es[|es| - 1].key) == 0.0
    requires FirstRec(es, es[|es| - 1].key) == es[|es| - 1].rec
    ensures Reference(es)[|d|] == es[|es| - 1]
  {
    var x := es[|es| - 1];
    assert GroupTotal(es, x.key) == x.amount;
  }

  lemma OldKeyStep<K, R>(es: seq<Entry<K, R>>, acc: seq<Entry<K, R>>, d: seq<K>)
    requires es != []
    requires d == Distinct(KeysOf(es[..|es| - 1])) && acc == Reference(es[..|es| - 1])
    requires es[|es| - 1].key in KeysOf(es[..|es| - 1])
    requires KeysOf(es) == KeysOf(es[..|es| - 1]) + [es[|es| - 1].key]
    ensures Absorb(acc, es[|es| - 1]) == Reference(es)
  {
    var x := es[|es| - 1];
    KeysOfReference(es[..|es| - 1]);
    OldKeyDistinct(es);
    var i := IndexOf(d, x.key);
    var a := acc[i := acc[i].(amount := acc[i].amount + x.amount)];
    AbsorbOld(acc, x);
    var r := Reference(es);
    forall j | 0 <= j < |d| ensures r[j] == a[j] {
      OldEntry(es, d, j);
    }
    SameElements(r, a);
  }

  /** A key seen before leaves the distinct keys as they were. */
  lemma OldKeyDistinct<K, R>(es: seq<Entry<K, R>>)
    requires es != [] && es[|es| - 1].key in KeysOf(es[..|es| - 1])
    ensures Distinct(KeysOf(es)) == Distinct(KeysOf(es[..|es| - 1]))
  {
    var ks := KeysOf(es);
    KeysOfSnoc(es);
    DistinctSnoc(ks);
    assert ks[..|ks| - 1] == KeysOf(es[..|es| - 1]);
  }

  /** An entry once a key already present receives another member: its
      sum grows by that member's amount when the key matches, and its
      record stays the first member's. */
  lemma OldEntry<K, R>(es: seq<Entry<K, R>>, d: seq<K>, j: nat)
    requires es != []
    requires d == Distinct(KeysOf(es[..|es| - 1])) && Distinct(KeysOf(es)) == d
    requires j < |d|
    ensures d[j] in KeysOf(es[..|es| - 1])
    ensures Reference(es)[j]
            == Entry(d[j], GroupTotal(es[..|es| - 1], d[j]) + (if es[|es| - 1].key == d[j] then es[|es| - 1].amount else 0.0),
                     FirstRec(es[..|es| - 1], d[j]))
  {
    assert d[j] in KeysOf(es[..|es| - 1]);
    FirstRecStep(es, d[j]);
  }

  lemma {:induction false} TotalUpdate<K, R>(es: seq<Entry<K, R>>, i: nat, e: Entry<K, R>)
    requires i < |es|
    ensures Total(es[i := e]) == Total(es) - es[i].amount + e.amount
  {
    var n := |es| - 1;
    if i < n {
      assert es[i := e][..n] == es[..n][i := e];
      TotalUpdate(es[..n], i, e);
    } else {
      assert es[i := e][..n] == es[..n];
    }
  }

  lemma {:induction false} ConsolidateConserves<K, R>(es: seq<Entry<K, R>>)
    ensures Total(Consolidate(es)) == Total(es)
  {
    if es != [] {
      var init := es[..|es| - 1];
      var x := es[|es| - 1];
      ConsolidateConserves(init);
      var acc := Consolidate(init);
      assert Consolidate(es) == Absorb(acc, x);
      assert Total(es) == Total(init) + x.amount;
      AbsorbAdds(acc, x);
    }
  }

  /** Absorbing an entry adds its amount to the total. */
  lemma AbsorbAdds<K, R>(acc: seq<Entry<K, R>>, x: Entry<K, R>)
    ensures Total(Absorb(acc, x)) == Total(acc) + x.amount
  {
    var i := IndexOf(KeysOf(acc), x.key);
    if i < 0 {
      assert (acc + [x])[..|acc|] == acc;
    } else {
      TotalUpdate(acc, i, acc[i].(amount := acc[i].amount + x.amount));
    }
  }

  /** What consolidation promises: one entry per distinct key, in
      first-seen order, each carrying its group's sum and its first
      member's record; the grand total is unchanged. */
  lemma ConsolidateSpec<K, R>(es: seq<Entry<K, R>>)
    ensures KeysOf(Consolidate(es)) == Distinct(KeysOf(es))
    ensures forall i, j :: 0 <= i < j < |Consolidate(es)| ==> Consolidate(es)[i].key != Consolidate(es)[j].key
    ensures forall k :: k in KeysOf(Consolidate(es)) <==> k in KeysOf(es)
    ensures forall i :: 0 <= i < |Consolidate(es)| ==>
              Consolidate(es)[i].key in KeysOf(es)
              && Consolidate(es)[i].amount == GroupTotal(es, Consolidate(es)[i].key)
              && Consolidate(es)[i].rec == FirstRec(es, Consolidate(es)[i].key)
    ensures Total(Consolidate(es)) == Total(es)
  {
    ConsolidateIsReference(es);
    ConsolidateConserves(es);
    var c := Consolidate(es);
    assert KeysOf(c) == Distinct(KeysOf(es));
    forall i | 0 <= i < |c| ensures c[i].key in KeysOf(es) {
      assert c[i].key == Distinct(KeysOf(es))[i];
    }
  }

  /** The record `FirstRec` returns is that of an entry with the key. */
  lemma {:induction false} FirstRecOf<K, R>(es: seq<Entry<K, R>>, k: K) returns (j: nat)
    requires k in KeysOf(es)
    ensures j < |es| && es[j].key == k && es[j].rec == FirstRec(es, k)
  {
    var init := es[..|es| - 1];
    if k in KeysOf(init) {
      j := FirstRecOf(init, k);
      assert es[j] == init[j];
    } else {
      j := |es| - 1;
    }
  }

  /** Entries whose amounts are `g` of the matching elements total
      `SumBy(g, ...)` of those elements. */
  lemma {:induction false} TotalIsSumBy<K, R, T>(es: seq<Entry<K, R>>, g: T -> real, xs: seq<T>)
    requires |es| == |xs|
    requires forall i :: 0 <= i < |es| ==> es[i].amount == g(xs[i])
    ensures Total(es) == SumBy(g, xs)
  {
    if es != [] {
      TotalIsSumBy(es[..|es| - 1], g, xs[..|xs| - 1]);
    }
  }
}
