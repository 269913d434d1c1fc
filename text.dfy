/**
 * String operations the downloader relies on: Rust's `str::split` on one
 * character, the first piece of such a split, and the decimal rendering of a
 * number used when an HTTP status is formatted into a message.
 */
module Text {

  /** Number of occurrences of `c` in `s`. */
  function Count(s: string, c: char): nat
    decreases |s|
  {
    if |s| == 0 then 0 else (if s[0] == c then 1 else 0) + Count(s[1..], c)
  }

  /**
   * The pieces of `s` between occurrences of `sep`, in order, as
   * `s.split(sep).collect::<Vec<_>>()` yields them: there is always at least
   * one piece, and no piece contains the separator.
   */
  function Split(s: string, sep: char): (pieces: seq<string>)
    ensures |pieces| >= 1
    ensures forall i :: 0 <= i < |pieces| ==> sep !in pieces[i]
    decreases |s|
  {
    if |s| == 0 then [""]
    else
      var rest := Split(s[1..], sep);
      if s[0] == sep then [""] + rest
      else [[s[0]] + rest[0]] + rest[1..]
  }

  /** The pieces glued back together with `sep` between consecutive ones. */
  function JoinWith(pieces: seq<string>, sep: char): string
    decreases |pieces|
  {
    if |pieces| == 0 then ""
    else if |pieces| == 1 then pieces[0]
    else pieces[0] + [sep] + JoinWith(pieces[1..], sep)
  }

  /** Splitting and joining again gives back the original string. */
  lemma {:induction false} JoinSplit(s: string, sep: char)
    ensures JoinWith(Split(s, sep), sep) == s
    decreases |s|
  {
    if |s| > 0 {
      var rest := Split(s[1..], sep);
      JoinSplit(s[1..], sep);
      if s[0] == sep {
        assert Split(s, sep) == [""] + rest;
        assert ([""] + rest)[1..] == rest;
        assert s == [sep] + s[1..];
      } else {
        assert s == [s[0]] + s[1..];
        if |rest| > 1 {
          assert rest[1..][0] == rest[1];
          assert JoinWith(rest, sep) == rest[0] + [sep] + JoinWith(rest[1..], sep);
        }
      }
    }
  }

  /** A split over a string with no separator has a single piece. */
  lemma {:induction false} SplitPlain(s: string, sep: char)
    requires sep !in s
    ensures Split(s, sep) == [s]
    decreases |s|
  {
    if |s| > 0 {
      assert sep !in s[1..] by {
        forall k | 0 <= k < |s[1..]| ensures s[1..][k] != sep { assert s[1..][k] == s[k + 1]; }
      }
      SplitPlain(s[1..], sep);
      assert [s[0]] + s[1..] == s;
    }
  }

  /** Splitting at a separator splits the two sides independently. */
  lemma {:induction false} SplitAround(a: string, b: string, sep: char)
    ensures Split(a + [sep] + b, sep) == Split(a, sep) + Split(b, sep)
    decreases |a|
  {
    var s := a + [sep] + b;
    if |a| == 0 {
      assert s == [sep] + b;
      assert s[1..] == b;
    } else {
      assert s[0] == a[0];
      assert s[1..] == a[1..] + [sep] + b;
      SplitAround(a[1..], b, sep);
      if a[0] != sep {
        ConsHead(a[0], Split(a[1..], sep), Split(b, sep));
      }
    }
  }

  /** Extending the first piece of `x + y` extends the first piece of `x`. */
  lemma ConsHead(c: char, x: seq<string>, y: seq<string>)
    requires |x| >= 1
    ensures [[c] + (x + y)[0]] + (x + y)[1..] == ([[c] + x[0]] + x[1..]) + y
  {
    assert (x + y)[1..] == x[1..] + y;
  }

  /** Appending a separator and a separator-free piece appends that piece to the split. */
  lemma SplitAppend(a: string, b: string, sep: char)
    requires sep !in b
    ensures Split(a + [sep] + b, sep) == Split(a, sep) + [b]
  {
    SplitAround(a, b, sep);
    SplitPlain(b, sep);
  }

  /** Joining separator-free pieces and splitting again gives back the pieces. */
  lemma {:induction false} SplitJoin(pieces: seq<string>, sep: char)
    requires |pieces| >= 1
    requires forall i :: 0 <= i < |pieces| ==> sep !in pieces[i]
    ensures Split(JoinWith(pieces, sep), sep) == pieces
    decreases |pieces|
  {
    if |pieces| == 1 {
      SplitPlain(pieces[0], sep);
    } else {
      SplitJoin(pieces[1..], sep);
      SplitPlain(pieces[0], sep);
      SplitAround(pieces[0], JoinWith(pieces[1..], sep), sep);
      assert pieces == [pieces[0]] + pieces[1..];
    }
  }

  /** There is one more piece than there are separators. */
  lemma {:induction false} SplitCount(s: string, sep: char)
    ensures |Split(s, sep)| == Count(s, sep) + 1
    decreases |s|
  {
    if |s| > 0 {
      SplitCount(s[1..], sep);
    }
  }

  /**
   * The first piece of a split, `s.split(sep).collect::<Vec<_>>()[0]`: the
   * text of `s` before its first `sep`, or all of `s` when there is none.
   */
  function Before(s: string, sep: char): string
  {
    Split(s, sep)[0]
  }

  /** `Before` is the longest prefix of `s` free of `sep`. */
  lemma {:induction false} BeforeIsLongestPlainPrefix(s: string, sep: char)
    ensures Before(s, sep) <= s
    ensures sep !in Before(s, sep)
    ensures |Before(s, sep)| == |s| || s[|Before(s, sep)|] == sep
    decreases |s|
  {
    if |s| > 0 && s[0] != sep {
      BeforeIsLongestPlainPrefix(s[1..], sep);
      assert Before(s, sep) == [s[0]] + Before(s[1..], sep);
    }
  }

  /** A string without the separator is its own first piece. */
  lemma BeforePlain(s: string, sep: char)
    requires sep !in s
    ensures Before(s, sep) == s
  {
    SplitPlain(s, sep);
  }

  predicate IsDecimalDigit(c: char) { '0' <= c <= '9' }

  function DigitChar(d: nat): (c: char)
    requires d < 10
    ensures IsDecimalDigit(c)
  {
    "0123456789"[d]
  }

  function DigitValue(c: char): nat
    requires IsDecimalDigit(c)
  {
    (c as int - '0' as int) as nat
  }

  /**
   * The decimal text of `n` without leading zeros, as Rust's debug formatting prints an
   * unsigned integer.
   */
  function Decimal(n: nat): (s: string)
    ensures |s| >= 1
    ensures forall i :: 0 <= i < |s| ==> IsDecimalDigit(s[i])
    ensures s[0] == '0' ==> n == 0
  {
    if n < 10 then [DigitChar(n)] else Decimal(n / 10) + [DigitChar(n % 10)]
  }

  /** The number a string of decimal digits denotes. */
  function DecimalValue(s: string): nat
    requires forall i :: 0 <= i < |s| ==> IsDecimalDigit(s[i])
    decreases |s|
  {
    if |s| == 0 then 0 else 10 * DecimalValue(s[..|s| - 1]) + DigitValue(s[|s| - 1])
  }

  /** Reading back a rendered number gives the number. */
  lemma {:induction false} DecimalRoundTrip(n: nat)
    ensures DecimalValue(Decimal(n)) == n
  {
    if n >= 10 {
      var s := Decimal(n);
      DecimalRoundTrip(n / 10);
      assert s[..|s| - 1] == Decimal(n / 10);
    }
  }
}
