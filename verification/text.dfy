/** The handful of Python `str` operations the repository relies on:
    `startswith`, `lower`, `strip`, `split()`, `split(c)`, `sep.join`, and
    `str(int)` / `int(str)` on decimal digits.

    Whitespace is the ASCII set Python's `str.split()` and `str.strip()`
    treat as blank; `lower` folds ASCII letters only. */
module Text {
  import opened Cells

  predicate IsSpace(c: char)
  {
    c == ' ' || c == '\t' || c == '\n' || c == '\r' || c == '\U{000B}' || c == '\U{000C}'
  }

  predicate AllSpace(s: string)
  {
    forall i :: 0 <= i < |s| ==> IsSpace(s[i])
  }

  predicate NoSpace(s: string)
  {
    forall i :: 0 <= i < |s| ==> !IsSpace(s[i])
  }

  predicate StartsWith(s: string, prefix: string)
  {
    |prefix| <= |s| && s[..|prefix|] == prefix
  }

  function LowerChar(c: char): (d: char)
    ensures 'A' <= c <= 'Z' ==> d as int == c as int + 32
    ensures !('A' <= c <= 'Z') ==> d == c
  {
    if 'A' <= c <= 'Z' then (c as int + 32) as char else c
  }

  /** `s.lower()` on ASCII letters. */
  function Lower(s: string): (r: string)
    ensures |r| == |s|
    ensures forall i :: 0 <= i < |s| ==> r[i] == LowerChar(s[i])
  {
    seq(|s|, i requires 0 <= i < |s| => LowerChar(s[i]))
  }

  /** `s.rstrip()` */
  function TrimEnd(s: string): (r: string)
    ensures |r| <= |s| && r == s[..|r|]
    ensures AllSpace(s[|r|..])
    ensures r == [] || !IsSpace(r[|r| - 1])
  {
    if s != [] && IsSpace(s[|s| - 1]) then
      var r := TrimEnd(s[..|s| - 1]);
      r
    else s
  }

  /** No blank at either end: what `strip` leaves. */
  predicate NoSpaceAtEnds(s: string)
  {
    s == [] || (!IsSpace(s[0]) && !IsSpace(s[|s| - 1]))
  }

  /** The first index at or after `k` that holds no blank, or `|s|`. */
  function SkipBlanks(s: string, k: nat): (i: nat)
    requires k <= |s|
    ensures k <= i <= |s|
    ensures forall j :: k <= j < i ==> IsSpace(s[j])
    ensures i < |s| ==> !IsSpace(s[i])
    decreases |s| - k
  {
    if k < |s| && IsSpace(s[k]) then SkipBlanks(s, k + 1) else k
  }

  /** The end of `s[lo..hi]` once its trailing blanks are dropped. */
  function DropTrailing(s: string, lo: nat, hi: nat): (j: nat)
    requires lo <= hi <= |s|
    ensures lo <= j <= hi
    ensures forall k :: j <= k < hi ==> IsSpace(s[k])
    ensures j > lo ==> !IsSpace(s[j - 1])
    decreases hi
  {
    if hi > lo && IsSpace(s[hi - 1]) then DropTrailing(s, lo, hi - 1) else hi
  }

  /** `s.strip()`: the slice of `s` left after dropping blank ends. */
  function Strip(s: string): (r: string)
    ensures var i := SkipBlanks(s, 0); i + |r| <= |s| && r == s[i..i + |r|]
    ensures NoSpaceAtEnds(r)
  {
    var i := SkipBlanks(s, 0);
    s[i..DropTrailing(s, i, |s|)]
  }

  /** What `strip` drops on either side is blank. */
  lemma StripDropsBlanks(s: string)
    ensures forall k :: 0 <= k < SkipBlanks(s, 0) ==> IsSpace(s[k])
    ensures forall k :: SkipBlanks(s, 0) + |Strip(s)| <= k < |s| ==> IsSpace(s[k])
  {
    var i := SkipBlanks(s, 0);
    assert Strip(s) == s[i..DropTrailing(s, i, |s|)];
  }

  /** A string without blank ends is its own strip. */
  lemma StripUnchanged(s: string)
    requires NoSpaceAtEnds(s)
    ensures Strip(s) == s
  {
    assert SkipBlanks(s, 0) == 0;
    assert DropTrailing(s, 0, |s|) == |s|;
    assert s[0..|s|] == s;
  }

  /** The maximal run of non-blank characters at the end of `t`. */
  function TrailingWord(t: string): (w: string)
    ensures |w| <= |t| && w == t[|t| - |w|..]
    ensures NoSpace(w)
    ensures |w| < |t| ==> IsSpace(t[|t| - |w| - 1])
  {
    if t == [] || IsSpace(t[|t| - 1]) then []
    else
      var w := TrailingWord(t[..|t| - 1]);
      w + [t[|t| - 1]]
  }

  /** `s.split()[-1]`: the last whitespace-separated word, or `None` where
      Python raises IndexError because the string is blank. */
  function LastWord(s: string): (r: Option<string>)
    ensures r.None? <==> AllSpace(s)
    ensures r.Some? ==> r.value != [] && NoSpace(r.value)
    ensures r.Some? ==> var k := |TrimEnd(s)| - |r.value|;
                        0 <= k && k + |r.value| <= |s| && s[k..k + |r.value|] == r.value
                        && AllSpace(s[k + |r.value|..]) && (k == 0 || IsSpace(s[k - 1]))
  {
    var t := TrimEnd(s);
    if t == [] then
      assert s == s[|t|..];
      None
    else
      var w := TrailingWord(t);
      var k := |t| - |w|;
      assert s[k..k + |w|] == t[k..];
      assert s[k + |w|..] == s[|t|..];
      Some(w)
  }

  /** `sep.join(parts)` */
  function Join(sep: string, parts: seq<string>): (r: string)
    ensures |parts| == 1 ==> r == parts[0]
  {
    if |parts| == 0 then ""
    else if |parts| == 1 then parts[0]
    else parts[0] + sep + Join(sep, parts[1..])
  }

  /** Joining a concatenation: the two joins meet at one separator. */
  lemma {:induction false} JoinAppend(sep: string, a: seq<string>, b: seq<string>)
    requires |a| >= 1 && |b| >= 1
    ensures Join(sep, a + b) == Join(sep, a) + sep + Join(sep, b)
  {
    if |a| == 1 {
      assert (a + b)[1..] == b;
    } else {
      JoinAppend(sep, a[1..], b);
      assert (a + b)[1..] == a[1..] + b;
    }
  }

  /** `s.split(c)` for a one-character separator `c`. */
  function SplitChar(s: string, c: char): (parts: seq<string>)
    ensures |parts| >= 1
    ensures forall i :: 0 <= i < |parts| ==> c !in parts[i]
  {
    if s == [] then [""]
    else
      var rest := SplitChar(s[1..], c);
      if s[0] == c then [""] + rest
      else [[s[0]] + rest[0]] + rest[1..]
  }

  function Count(s: string, c: char): nat
  {
    if s == [] then 0 else (if s[0] == c then 1 else 0) + Count(s[1..], c)
  }

  /** Splitting on `c` yields one more part than there are `c`s, and joining
      the parts with `c` gives back the string. */
  lemma {:induction false} SplitCharJoin(s: string, c: char)
    ensures |SplitChar(s, c)| == Count(s, c) + 1
    ensures Join([c], SplitChar(s, c)) == s
  {
    if s != [] {
      SplitCharJoin(s[1..], c);
      var rest := SplitChar(s[1..], c);
      if s[0] != c {
        var parts := SplitChar(s, c);
        assert parts[1..] == rest[1..];
        if |rest| == 1 {
          assert parts == [[s[0]] + rest[0]];
        } else {
          assert Join([c], parts) == [s[0]] + rest[0] + [c] + Join([c], rest[1..]);
        }
      }
    }
  }

  /** Splitting `p + [c] + rest` where `p` has no `c`: `p` is the first part. */
  lemma {:induction false} SplitCharPrefix(p: string, c: char, rest: string)
    requires c !in p
    ensures SplitChar(p + [c] + rest, c) == [p] + SplitChar(rest, c)
  {
    if p == [] {
      assert (p + [c] + rest)[1..] == rest;
    } else {
      assert (p + [c] + rest)[1..] == p[1..] + [c] + rest;
      SplitCharPrefix(p[1..], c, rest);
      assert [p[0]] + p[1..] == p;
    }
  }

  /** `SplitChar` inverts `Join` when no part contains the separator. */
  lemma {:induction false} SplitCharOfJoin(parts: seq<string>, c: char)
    requires |parts| >= 1
    requires forall i :: 0 <= i < |parts| ==> c !in parts[i]
    ensures SplitChar(Join([c], parts), c) == parts
  {
    if |parts| == 1 {
      SplitCharNoSep(parts[0], c);
    } else {
      SplitCharOfJoin(parts[1..], c);
      assert Join([c], parts) == parts[0] + [c] + Join([c], parts[1..]);
      SplitCharPrefix(parts[0], c, Join([c], parts[1..]));
      assert [parts[0]] + parts[1..] == parts;
    }
  }

  lemma {:induction false} SplitCharNoSep(s: string, c: char)
    requires c !in s
    ensures SplitChar(s, c) == [s]
  {
    if s != [] {
      SplitCharNoSep(s[1..], c);
      assert [s[0]] + s[1..] == s;
    }
  }

  /** Each part after the first prefixed with `tail`. */
  function PrefixTail(tail: string, parts: seq<string>): (r: seq<string>)
    ensures |r| == |parts|
    ensures forall i :: 0 <= i < |parts| ==> r[i] == tail + parts[i]
  {
    seq(|parts|, i requires 0 <= i < |parts| => tail + parts[i])
  }

  /** Joining with a separator `[c] + tail` is joining with `c` after
      gluing `tail` onto every part but the first. */
  lemma {:induction false} JoinLeadChar(c: char, tail: string, parts: seq<string>)
    requires |parts| >= 1
    ensures Join([c] + tail, parts) == Join([c], [parts[0]] + PrefixTail(tail, parts[1..]))
  {
    if |parts| > 1 {
      JoinLeadChar(c, tail, parts[1..]);
      assert parts[1..][1..] == parts[2..];
      var later := PrefixTail(tail, parts[2..]);
      var p1 := PrefixTail(tail, parts[1..]);
      assert p1 == [tail + parts[1]] + later;
      JoinCons([c], parts[0], p1);
      if |parts| > 2 {
        JoinCons([c], tail + parts[1], later);
        JoinCons([c], parts[1], later);
      }
    }
  }

  /** Joining a list with a first element and a non-empty rest. */
  lemma JoinCons(sep: string, a: string, rest: seq<string>)
    requires rest != []
    ensures Join(sep, [a] + rest) == a + sep + Join(sep, rest)
  {
    assert ([a] + rest)[1..] == rest;
  }

  /** Splitting a `[c] + tail`-joined list on `c` when no part and not the
      tail contains `c`: the first part comes back verbatim and each later
      part comes back with `tail` in front. */
  lemma SplitOfJoinWithSeparator(parts: seq<string>, c: char, tail: string)
    requires |parts| >= 1
    requires c !in tail
    requires forall i :: 0 <= i < |parts| ==> c !in parts[i]
    ensures SplitChar(Join([c] + tail, parts), c) == [parts[0]] + PrefixTail(tail, parts[1..])
  {
    JoinLeadChar(c, tail, parts);
    var q := [parts[0]] + PrefixTail(tail, parts[1..]);
    forall i | 0 <= i < |q| ensures c !in q[i] {
      if i > 0 {
        assert q[i] == tail + parts[i];
      }
    }
    SplitCharOfJoin(q, c);
  }

  // ---------------------------------------------------------------------
  // Decimal numbers

  predicate IsDigit(c: char) { '0' <= c <= '9' }

  predicate AllDigits(s: string)
  {
    forall i :: 0 <= i < |s| ==> IsDigit(s[i])
  }

  function DigitChar(d: nat): (c: char)
    requires d < 10
    ensures IsDigit(c)
  {
    ('0' as int + d) as char
  }

  /** `str(n)` for a natural number. */
  function NatToString(n: nat): (s: string)
    ensures s != [] && AllDigits(s)
  {
    if n < 10 then [DigitChar(n)] else NatToString(n / 10) + [DigitChar(n % 10)]
  }

  /** `str(i)` for an integer. */
  function IntToString(i: int): (s: string)
    ensures s != []
  {
    if i < 0 then "-" + NatToString(-i) else NatToString(i)
  }

  /** The value of a string of decimal digits. */
  function ParseDigits(s: string): nat
    requires AllDigits(s)
  {
    if s == [] then 0 else 10 * ParseDigits(s[..|s| - 1]) + (s[|s| - 1] as int - '0' as int)
  }

  /** Reading back the decimal rendering of a number gives the number. */
  lemma {:induction false} ParseNatToString(n: nat)
    ensures ParseDigits(NatToString(n)) == n
  {
    if n >= 10 {
      ParseNatToString(n / 10);
      var s := NatToString(n);
      assert s[..|s| - 1] == NatToString(n / 10);
    }
  }

  /** Python's `int(s)` on text: blanks around an optionally signed run of
      decimal digits; anything else raises ValueError (`None` here). */
  function ParseInt(s: string): (r: Option<int>)
    ensures r.Some? ==> var t := Strip(s); t != [] && (AllDigits(t) || (t[0] in "+-" && AllDigits(t[1..])))
  {
    var t := Strip(s);
    if t == [] then None
    else if AllDigits(t) then Some(ParseDigits(t))
    else if t[0] in "+-" && |t| > 1 && AllDigits(t[1..]) then
      var n: int := ParseDigits(t[1..]);
      Some(if t[0] == '-' then -n else n)
    else None
  }

  lemma StripDigits(s: string)
    requires s != [] && AllDigits(s)
    ensures Strip(s) == s
  {
    assert !IsSpace(s[0]) && !IsSpace(s[|s| - 1]);
    StripUnchanged(s);
  }

  /** `int(str(i))` gives back `i`. */
  lemma ParseIntToString(i: int)
    ensures ParseInt(IntToString(i)) == Some(i)
  {
    if i < 0 {
      ParseNegative(i);
    } else {
      StripDigits(NatToString(i));
      ParseNatToString(i);
    }
  }

  lemma ParseNegative(i: int)
    requires i < 0
    ensures ParseInt("-" + NatToString(-i)) == Some(i)
  {
    var d := NatToString(-i);
    var s := "-" + d;
    assert s[0] == '-' && s[1..] == d;
    assert s[|s| - 1] == d[|d| - 1] && IsDigit(d[|d| - 1]);
    StripUnchanged(s);
    ParseMinus(s);
    ParseNatToString(-i);
  }

  /** A minus sign before digits, nothing around them, reads as the
      negated digits. */
  lemma ParseMinus(t: string)
    requires Strip(t) == t && |t| > 1 && t[0] == '-' && AllDigits(t[1..])
    ensures ParseInt(t) == Some(-(ParseDigits(t[1..]) as int))
  {
    assert !AllDigits(t) by {
      assert !IsDigit(t[0]);
    }
  }

  /** Python's `int(x)` on a float: truncation toward zero. */
  function Truncate(x: real): (t: int)
    ensures x >= 0.0 ==> t as real <= x < t as real + 1.0
    ensures x < 0.0 ==> t as real - 1.0 < x <= t as real
  {
    if x >= 0.0 then x.Floor else -((-x).Floor)
  }
}
