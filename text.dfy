/** String helpers the formatter is built from: `sep.join(xs)`,
    `s.split(c)` for a one-character separator (the inverse of joining),
    `s.replace("\n", " ")`, and the decimal text of a natural number. */
module Text {

  /** `sep.join(xs)`: the elements of `xs` in order, with `sep` between
      neighbours and nowhere else. Joining nothing gives the empty string;
      otherwise the result begins with the first element. */
  function Join(sep: string, xs: seq<string>): (r: string)
    ensures |xs| == 0 ==> r == ""
    ensures |xs| >= 1 ==> xs[0] <= r
  {
    if |xs| == 0 then ""
    else if |xs| == 1 then xs[0]
    else
      var rest := Join(sep, xs[1..]);
      xs[0] + sep + rest
  }

  /** Prepending one element prepends that element and the separator. */
  lemma {:induction false} JoinCons(sep: string, x: string, xs: seq<string>)
    requires |xs| >= 1
    ensures Join(sep, [x] + xs) == x + sep + Join(sep, xs)
  {
    assert ([x] + xs)[1..] == xs;
  }

  /** Appending one element appends the separator and that element. */
  lemma {:induction false} JoinSnoc(sep: string, xs: seq<string>, x: string)
    requires |xs| >= 1
    ensures Join(sep, xs + [x]) == Join(sep, xs) + sep + x
  {
    if |xs| == 1 {
      assert xs + [x] == [xs[0], x];
      assert [xs[0], x][1..] == [x];
    } else {
      assert (xs + [x])[1..] == xs[1..] + [x];
      JoinSnoc(sep, xs[1..], x);
    }
  }

  /** `s.split(c)` as Python computes it for a one-character separator:
      the pieces of `s` between occurrences of `c`, in order. There is
      always at least one piece and no piece contains `c`. */
  function SplitOn(c: char, s: string): (r: seq<string>)
    ensures |r| >= 1
    ensures forall k :: 0 <= k < |r| ==> c !in r[k]
    decreases |s|
  {
    if |s| == 0 then [""]
    else
      var rest := SplitOn(c, s[1..]);
      if s[0] == c then [""] + rest
      else [[s[0]] + rest[0]] + rest[1..]
  }

  /** A string without the separator is a single piece. */
  lemma {:induction false} SplitOnNoSeparator(c: char, s: string)
    requires c !in s
    ensures SplitOn(c, s) == [s]
    decreases |s|
  {
    if |s| > 0 {
      assert c !in s[1..] by {
        forall k | 0 <= k < |s[1..]| ensures s[1..][k] != c {
          assert s[1..][k] == s[k + 1];
        }
      }
      SplitOnNoSeparator(c, s[1..]);
      assert [s[0]] + s[1..] == s;
    }
  }

  /** Splitting at one occurrence of the separator splits the two sides
      independently. */
  lemma {:induction false} SplitOnAround(c: char, x: string, y: string)
    ensures SplitOn(c, x + [c] + y) == SplitOn(c, x) + SplitOn(c, y)
    decreases |x|
  {
    var s := x + [c] + y;
    if |x| == 0 {
      assert s == [c] + y;
      assert s[1..] == y;
    } else {
      assert s[1..] == x[1..] + [c] + y;
      SplitOnAround(c, x[1..], y);
      var a, b := SplitOn(c, x[1..]), SplitOn(c, y);
      assert SplitOn(c, s[1..]) == a + b;
      if x[0] == c {
        assert SplitOn(c, s) == [""] + (a + b);
        assert SplitOn(c, x) == [""] + a;
      } else {
        assert SplitOn(c, s) == [[x[0]] + (a + b)[0]] + (a + b)[1..];
        assert SplitOn(c, x) == [[x[0]] + a[0]] + a[1..];
        ExtendFirstPiece([x[0]], a, b);
      }
    }
  }

  /** Prefixing the first piece of a split commutes with appending more
      pieces after it. */
  lemma {:induction false} ExtendFirstPiece(h: string, a: seq<string>, b: seq<string>)
    requires |a| >= 1
    ensures [h + (a + b)[0]] + (a + b)[1..] == [h + a[0]] + a[1..] + b
  {
    assert (a + b)[0] == a[0];
    assert (a + b)[1..] == a[1..] + b;
  }

  /** The pieces of every element of `xs`, one element after the other. */
  function ConcatSplits(c: char, xs: seq<string>): seq<string>
  {
    if |xs| == 0 then [] else SplitOn(c, xs[0]) + ConcatSplits(c, xs[1..])
  }

  lemma {:induction false} ConcatSplitsAppend(c: char, xs: seq<string>, ys: seq<string>)
    ensures ConcatSplits(c, xs + ys) == ConcatSplits(c, xs) + ConcatSplits(c, ys)
  {
    if |xs| == 0 {
      assert xs + ys == ys;
    } else {
      assert (xs + ys)[0] == xs[0];
      assert (xs + ys)[1..] == xs[1..] + ys;
      ConcatSplitsAppend(c, xs[1..], ys);
    }
  }

  /** When no element contains the separator, every element is one piece. */
  lemma {:induction false} ConcatSplitsClean(c: char, xs: seq<string>)
    requires forall k :: 0 <= k < |xs| ==> c !in xs[k]
    ensures ConcatSplits(c, xs) == xs
  {
    if |xs| > 0 {
      SplitOnNoSeparator(c, xs[0]);
      ConcatSplitsClean(c, xs[1..]);
      assert [xs[0]] + xs[1..] == xs;
    }
  }

  /** Elements without the separator stay whole at the end. */
  lemma {:induction false} ConcatSplitsCleanSuffix(c: char, xs: seq<string>, ys: seq<string>)
    requires forall k :: 0 <= k < |ys| ==> c !in ys[k]
    ensures var r := ConcatSplits(c, xs + ys); |r| >= |ys| && r[|r| - |ys|..] == ys
  {
    ConcatSplitsAppend(c, xs, ys);
    ConcatSplitsClean(c, ys);
    var r := ConcatSplits(c, xs + ys);
    assert r == ConcatSplits(c, xs) + ys;
    assert r[|r| - |ys|..] == ys;
  }

  /** Splitting a join recovers the pieces of the joined elements. */
  lemma {:induction false} SplitOnJoin(c: char, xs: seq<string>)
    requires |xs| >= 1
    ensures SplitOn(c, Join([c], xs)) == ConcatSplits(c, xs)
  {
    if |xs| == 1 {
      assert ConcatSplits(c, xs[1..]) == [];
    } else {
      SplitOnAround(c, xs[0], Join([c], xs[1..]));
      SplitOnJoin(c, xs[1..]);
    }
  }

  /** Split inverts join when no element contains the separator. */
  lemma {:induction false} SplitOnJoinRoundTrip(c: char, xs: seq<string>)
    requires |xs| >= 1
    requires forall k :: 0 <= k < |xs| ==> c !in xs[k]
    ensures SplitOn(c, Join([c], xs)) == xs
  {
    SplitOnJoin(c, xs);
    ConcatSplitsClean(c, xs);
  }

  /** Splitting the join of some elements followed by elements without
      the separator gives those last elements back at the end. */
  lemma {:induction false} SplitOnJoinEndsWith(c: char, xs: seq<string>, tail: seq<string>)
    requires |xs + tail| >= 1
    requires forall k :: 0 <= k < |tail| ==> c !in tail[k]
    ensures var pieces := SplitOn(c, Join([c], xs + tail));
      |pieces| >= |tail| && pieces[|pieces| - |tail|..] == tail
  {
    var pieces := SplitOn(c, Join([c], xs + tail));
    SplitOnJoin(c, xs + tail);
    assert pieces == ConcatSplits(c, xs + tail);
    ConcatSplitsCleanSuffix(c, xs, tail);
  }

  /** `s.replace("\n", " ")`: every newline becomes a space, every other
      character is kept in place, so no newline is left. */
  function ReplaceNewlines(s: string): (r: string)
    ensures |r| == |s|
    ensures forall i :: 0 <= i < |s| ==> r[i] == (if s[i] == '\n' then ' ' else s[i])
    ensures '\n' !in r
  {
    if |s| == 0 then ""
    else [if s[0] == '\n' then ' ' else s[0]] + ReplaceNewlines(s[1..])
  }

  /** Text with its newlines replaced is a single line. */
  lemma {:induction false} ReplaceNewlinesIsOneLine(s: string)
    ensures SplitOn('\n', ReplaceNewlines(s)) == [ReplaceNewlines(s)]
  {
    SplitOnNoSeparator('\n', ReplaceNewlines(s));
  }

  /** Text without newlines does not change. */
  lemma {:induction false} ReplaceNewlinesKeepsSingleLine(s: string)
    requires '\n' !in s
    ensures ReplaceNewlines(s) == s
  {
    if |s| > 0 {
      assert s[0] in s;
      assert '\n' !in s[1..] by {
        forall k | 0 <= k < |s[1..]| ensures s[1..][k] != '\n' {
          assert s[1..][k] == s[k + 1];
        }
      }
      ReplaceNewlinesKeepsSingleLine(s[1..]);
      assert [s[0]] + s[1..] == s;
    }
  }

  predicate IsDigit(ch: char)
  {
    48 <= ch as int <= 57
  }

  function DigitChar(d: nat): (ch: char)
    requires d < 10
    ensures IsDigit(ch)
  {
    (48 + d) as char
  }

  /** `str(n)` for a natural number: its decimal digits, most significant
      first, with no leading zero. */
  function NatToDecimal(n: nat): (r: string)
    ensures |r| >= 1
    ensures forall i :: 0 <= i < |r| ==> IsDigit(r[i])
    ensures r[0] == '0' ==> n == 0
    decreases n
  {
    if n < 10 then [DigitChar(n)] else NatToDecimal(n / 10) + [DigitChar(n % 10)]
  }

  /** The number a string of decimal digits denotes. */
  function DecimalValue(s: string): nat
    requires forall i :: 0 <= i < |s| ==> IsDigit(s[i])
  {
    if |s| == 0 then 0
    else
      assert IsDigit(s[|s| - 1]);
      10 * DecimalValue(s[..|s| - 1]) + ((s[|s| - 1] as int) - 48)
  }

  /** Reading back the decimal text gives the number. */
  lemma {:induction false} DecimalRoundTrip(n: nat)
    ensures DecimalValue(NatToDecimal(n)) == n
    decreases n
  {
    var r := NatToDecimal(n);
    if n >= 10 {
      var q := NatToDecimal(n / 10);
      assert r[..|r| - 1] == q;
      DecimalRoundTrip(n / 10);
    }
  }

  /** Different numbers have different decimal texts. */
  lemma NatToDecimalInjective(m: nat, n: nat)
    requires NatToDecimal(m) == NatToDecimal(n)
    ensures m == n
  {
    DecimalRoundTrip(m);
    DecimalRoundTrip(n);
  }
}
