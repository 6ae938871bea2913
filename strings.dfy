/**
 The two string operations the path generator's output is built from:
 JavaScript's `Array.prototype.join(sep)` and its inverse, splitting a
 string at every occurrence of a separator character.
 */
module Strings {

  /** `xs.join([sep])`: the elements in order with one `sep` between neighbours. */
  function Join(xs: seq<string>, sep: char): (s: string)
    ensures |xs| == 1 ==> s == xs[0]
  {
    if |xs| == 0 then ""
    else if |xs| == 1 then xs[0]
    else xs[0] + [sep] + Join(xs[1..], sep)
  }

  /** The maximal runs of `s` that do not contain `sep`, in order (never empty). */
  function Split(s: string, sep: char): (parts: seq<string>)
    ensures |parts| >= 1
    ensures forall k :: 0 <= k < |parts| ==> sep !in parts[k]
  {
    if |s| == 0 then [""]
    else
      var rest := Split(s[1..], sep);
      if s[0] == sep then [""] + rest
      else [[s[0]] + rest[0]] + rest[1..]
  }

  /** No element of `xs` contains `sep`. */
  predicate Free(xs: seq<string>, sep: char) {
    forall k :: 0 <= k < |xs| ==> sep !in xs[k]
  }

  /** Joining two non-empty lists is joining their joins. */
  lemma {:induction false} JoinAppend(xs: seq<string>, ys: seq<string>, sep: char)
    requires |xs| >= 1 && |ys| >= 1
    ensures Join(xs + ys, sep) == Join(xs, sep) + [sep] + Join(ys, sep)
  {
    if |xs| == 1 {
      assert (xs + ys)[1..] == ys;
    } else {
      assert (xs + ys)[1..] == xs[1..] + ys;
      JoinAppend(xs[1..], ys, sep);
    }
  }

  /** A prefix free of `sep` is glued to the first part of what follows it. */
  lemma {:induction false} SplitPrefix(a: string, t: string, sep: char)
    requires sep !in a
    ensures Split(a + t, sep) == [a + Split(t, sep)[0]] + Split(t, sep)[1..]
  {
    var parts := Split(t, sep);
    if |a| == 0 {
      assert a + t == t;
      assert a + parts[0] == parts[0];
      assert parts == [parts[0]] + parts[1..];
    } else {
      assert (a + t)[0] == a[0] && a[0] != sep;
      assert (a + t)[1..] == a[1..] + t;
      SplitPrefix(a[1..], t, sep);
      assert [a[0]] + (a[1..] + parts[0]) == a + parts[0];
    }
  }

  /** Splitting undoes joining whenever no element contains the separator. */
  lemma {:induction false} SplitJoin(xs: seq<string>, sep: char)
    requires |xs| >= 1 && Free(xs, sep)
    ensures Split(Join(xs, sep), sep) == xs
  {
    if |xs| == 1 {
      SplitPrefix(xs[0], "", sep);
      assert xs[0] + "" == xs[0];
    } else {
      var rest := Join(xs[1..], sep);
      SplitJoin(xs[1..], sep);
      SplitPrefix(xs[0], [sep] + rest, sep);
      assert (xs[0] + [sep] + rest) == xs[0] + ([sep] + rest);
      assert ([sep] + rest)[0] == sep && ([sep] + rest)[1..] == rest;
      assert Split([sep] + rest, sep) == [""] + xs[1..];
      assert xs[0] + "" == xs[0];
      assert xs == [xs[0]] + xs[1..];
    }
  }

  /** The lists of `xss` one after another. */
  function Concat(xss: seq<seq<string>>): seq<string> {
    if |xss| == 0 then [] else xss[0] + Concat(xss[1..])
  }

  /** Each list of `xss` joined on its own. */
  function JoinEach(xss: seq<seq<string>>, sep: char): (r: seq<string>)
    ensures |r| == |xss|
  {
    seq(|xss|, k requires 0 <= k < |xss| => Join(xss[k], sep))
  }

  /** A concatenation of lists of `n` elements each has `n` elements per list. */
  lemma {:induction false} ConcatLength(xss: seq<seq<string>>, n: nat)
    requires forall k :: 0 <= k < |xss| ==> |xss[k]| == n
    ensures |Concat(xss)| == n * |xss|
  {
    if |xss| > 0 {
      ConcatLength(xss[1..], n);
      assert n * |xss| == n + n * |xss[1..]|;
    }
  }

  /** Lists of `n` elements each lie back to back in their concatenation. */
  lemma {:induction false} ConcatSlice(xss: seq<seq<string>>, n: nat, k: nat)
    requires forall k :: 0 <= k < |xss| ==> |xss[k]| == n
    requires k < |xss|
    ensures n * k + n <= |Concat(xss)|
    ensures Concat(xss)[n * k .. n * k + n] == xss[k]
  {
    var rest := Concat(xss[1..]);
    assert Concat(xss) == xss[0] + rest;
    if k == 0 {
      assert (xss[0] + rest)[0 .. n] == xss[0];
    } else {
      var j := n * (k - 1);
      ConcatSlice(xss[1..], n, k - 1);
      assert n * k == n + j;
      assert (xss[0] + rest)[n + j .. n + j + n] == rest[j .. j + n];
    }
  }

  /** Every element of a concatenation comes from one of the lists. */
  lemma {:induction false} ConcatFree(xss: seq<seq<string>>, sep: char)
    requires forall k :: 0 <= k < |xss| ==> Free(xss[k], sep)
    ensures Free(Concat(xss), sep)
  {
    if |xss| > 0 {
      ConcatFree(xss[1..], sep);
      assert forall k :: 0 <= k < |xss[1..]| ==> xss[1..][k] == xss[k + 1];
    }
  }

  /** Joining the joins of non-empty lists is joining their concatenation. */
  lemma {:induction false} JoinConcat(xss: seq<seq<string>>, sep: char)
    requires |xss| >= 1
    requires forall k :: 0 <= k < |xss| ==> |xss[k]| >= 1
    ensures Join(JoinEach(xss, sep), sep) == Join(Concat(xss), sep)
  {
    var joined := JoinEach(xss, sep);
    if |xss| == 1 {
      assert Concat(xss) == xss[0] + [];
      assert xss[0] + [] == xss[0];
    } else {
      JoinConcat(xss[1..], sep);
      assert joined[1..] == JoinEach(xss[1..], sep);
      assert |Concat(xss[1..])| >= |xss[1][..]|;
      JoinAppend(xss[0], Concat(xss[1..]), sep);
    }
  }
}
