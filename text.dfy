/**
 * The string operations the commflag script relies on, written out:
 * str.strip(), str.split(','), ','.join(...), str.split('@', 1),
 * str.replace(' ', 'T'), re.findall('\d+', ...), int(...) of a digit
 * string and str(...) of an integer.
 */
module Text {
  import opened Wrappers

  /** The characters Python 2's str.strip() removes: space, \t, \n, \x0b, \x0c, \r. */
  predicate IsSpace(c: char) {
    c == ' ' || ('\t' <= c <= '\r')
  }

  predicate IsDigit(c: char) {
    '0' <= c <= '9'
  }

  predicate AllSpace(s: string) {
    forall k :: 0 <= k < |s| ==> IsSpace(s[k])
  }

  /** A non-empty run of the characters 0-9: what '\d+' matches in a byte string. */
  predicate IsDigitRun(s: string) {
    |s| > 0 && forall k :: 0 <= k < |s| ==> IsDigit(s[k])
  }

  /** A string re.findall('\d+', ...) can return. */
  type DigitString = s: string | IsDigitRun(s) witness "0"

  // ---------------------------------------------------------------- strip

  function LeadingSpaces(s: string): (n: nat)
    ensures n <= |s|
    ensures AllSpace(s[..n])
    ensures n < |s| ==> !IsSpace(s[n])
  {
    if s != [] && IsSpace(s[0]) then
      var n := 1 + LeadingSpaces(s[1..]);
      assert s[..n] == [s[0]] + s[1..][..n - 1];
      n
    else 0
  }

  function TrailingSpaces(s: string): (n: nat)
    ensures n <= |s|
    ensures forall k :: |s| - n <= k < |s| ==> IsSpace(s[k])
    ensures n < |s| ==> !IsSpace(s[|s| - 1 - n])
  {
    if s != [] && IsSpace(s[|s| - 1]) then 1 + TrailingSpaces(s[..|s| - 1]) else 0
  }

  /** No whitespace at either end. */
  predicate Unpadded(s: string) {
    s == [] || (!IsSpace(s[0]) && !IsSpace(s[|s| - 1]))
  }

  /** str.strip(): s without its leading and trailing whitespace. */
  function Strip(s: string): (r: string)
    ensures Unpadded(r)
    ensures LeadingSpaces(s) + |r| <= |s| && r == s[LeadingSpaces(s)..LeadingSpaces(s) + |r|]
    ensures AllSpace(s[..LeadingSpaces(s)]) && AllSpace(s[LeadingSpaces(s) + |r|..])
  {
    var i := LeadingSpaces(s);
    var t := s[i..];
    var j := TrailingSpaces(t);
    var r := t[..|t| - j];
    assert r == s[i..i + |r|];
    assert AllSpace(s[i + |r|..]) by {
      var tail := t[|t| - j..];
      assert s[i + |r|..] == tail;
      forall k | 0 <= k < |tail|
        ensures IsSpace(tail[k])
      {
        assert tail[k] == t[|t| - j + k];
      }
    }
    r
  }

  /** A string with nothing to strip is its own strip. */
  lemma {:induction false} StripUnchanged(s: string)
    requires Unpadded(s)
    ensures Strip(s) == s
  {
    if s != [] {
      assert LeadingSpaces(s) == 0;
      assert TrailingSpaces(s) == 0;
    }
  }

  lemma {:induction false} StripIdempotent(s: string)
    ensures Strip(Strip(s)) == Strip(s)
  {
    StripUnchanged(Strip(s));
  }

  // ---------------------------------------------------------------- split and join

  /** str.split(sep): the pieces between the separators; never empty, "" gives [""]. */
  function Split(s: string, sep: char): (r: seq<string>)
    ensures |r| >= 1
    ensures forall k :: 0 <= k < |r| ==> sep !in r[k]
  {
    if s == [] then [""]
    else
      var rest := Split(s[1..], sep);
      if s[0] == sep then [""] + rest
      else [[s[0]] + rest[0]] + rest[1..]
  }

  /** sep.join(xs). */
  function Join(xs: seq<string>, sep: char): string {
    if xs == [] then ""
    else if |xs| == 1 then xs[0]
    else xs[0] + [sep] + Join(xs[1..], sep)
  }

  /** Splitting loses nothing: joining the pieces gives the string back. */
  lemma {:induction false} JoinSplit(s: string, sep: char)
    ensures Join(Split(s, sep), sep) == s
  {
    if s != [] {
      var rest := Split(s[1..], sep);
      JoinSplit(s[1..], sep);
      if s[0] == sep {
        assert ([""] + rest)[1..] == rest;
      } else if |rest| > 1 {
        var r := Split(s, sep);
        assert r[1..] == rest[1..];
      }
    }
  }

  lemma {:induction false} SplitNoSeparator(a: string, sep: char)
    requires sep !in a
    ensures Split(a, sep) == [a]
  {
    if a != [] {
      SplitNoSeparator(a[1..], sep);
      assert [a[0]] + a[1..] == a;
    }
  }

  lemma {:induction false} SplitAtSeparator(a: string, b: string, sep: char)
    requires sep !in a
    ensures Split(a + [sep] + b, sep) == [a] + Split(b, sep)
  {
    var s := a + [sep] + b;
    if a == [] {
      assert s[1..] == b;
    } else {
      assert s[1..] == a[1..] + [sep] + b;
      SplitAtSeparator(a[1..], b, sep);
      assert [a[0]] + a[1..] == a;
    }
  }

  /** Joining pieces free of the separator and splitting again gives the pieces back. */
  lemma {:induction false} SplitJoin(xs: seq<string>, sep: char)
    requires |xs| >= 1
    requires forall k :: 0 <= k < |xs| ==> sep !in xs[k]
    ensures Split(Join(xs, sep), sep) == xs
  {
    if |xs| == 1 {
      SplitNoSeparator(xs[0], sep);
    } else {
      SplitJoin(xs[1..], sep);
      SplitAtSeparator(xs[0], Join(xs[1..], sep), sep);
    }
  }

  function IndexOf(s: string, c: char): (i: nat)
    requires c in s
    ensures i < |s| && s[i] == c && c !in s[..i]
  {
    if s[0] == c then 0
    else
      var i := 1 + IndexOf(s[1..], c);
      assert s[..i] == [s[0]] + s[1..][..i - 1];
      i
  }

  /** s.split(c, 1) unpacked into exactly two parts; None where Python's unpack fails. */
  function SplitFirst(s: string, c: char): (r: Option<(string, string)>)
    ensures r.None? <==> c !in s
    ensures r.Some? ==> s == r.value.0 + [c] + r.value.1 && c !in r.value.0
  {
    if c !in s then None
    else
      var i := IndexOf(s, c);
      assert s == s[..i] + [c] + s[i + 1..];
      Some((s[..i], s[i + 1..]))
  }

  /** The split is the one at the first separator, whichever way the string was put together. */
  lemma SplitFirstAt(a: string, b: string, c: char)
    requires c !in a
    ensures SplitFirst(a + [c] + b, c) == Some((a, b))
  {
    var s := a + [c] + b;
    var r := SplitFirst(s, c);
    assert s[|a|] == c && s[..|a|] == a;
    assert forall k :: 0 <= k < |r.value.0| ==> r.value.0[k] == s[k];
    assert |r.value.0| == |a|;
    assert r.value.0 == s[..|a|];
  }

  /** s.replace(from, to) for single characters. */
  function ReplaceChar(s: string, from: char, to: char): (r: string)
    ensures |r| == |s|
    ensures from != to ==> from !in r
    ensures forall k :: 0 <= k < |s| && s[k] != from ==> r[k] == s[k]
    ensures forall k :: 0 <= k < |s| && s[k] == from ==> r[k] == to
  {
    seq(|s|, k requires 0 <= k < |s| => if s[k] == from then to else s[k])
  }

  // ---------------------------------------------------------------- digit runs

  function DigitPrefixLength(s: string): (n: nat)
    ensures n <= |s|
    ensures forall k :: 0 <= k < n ==> IsDigit(s[k])
    ensures n < |s| ==> !IsDigit(s[n])
  {
    if s != [] && IsDigit(s[0]) then 1 + DigitPrefixLength(s[1..]) else 0
  }

  /** re.findall('\d+', s): the maximal runs of digits, left to right. */
  function DigitRuns(s: string): (r: seq<string>)
    ensures forall k :: 0 <= k < |r| ==> IsDigitRun(r[k])
    decreases |s|
  {
    if s == [] then []
    else if !IsDigit(s[0]) then DigitRuns(s[1..])
    else
      var n := DigitPrefixLength(s);
      [s[..n]] + DigitRuns(s[n..])
  }

  /** There is a run exactly when there is a digit. */
  lemma {:induction false} DigitRunsEmpty(s: string)
    ensures DigitRuns(s) == [] <==> forall k :: 0 <= k < |s| ==> !IsDigit(s[k])
  {
    if s != [] && !IsDigit(s[0]) {
      DigitRunsEmpty(s[1..]);
      assert forall k :: 1 <= k < |s| ==> s[k] == s[1..][k - 1];
    }
  }

  lemma {:induction false} DigitPrefixOfAppend(a: string, b: string)
    requires a == [] || b == [] || !IsDigit(a[|a| - 1]) || !IsDigit(b[0])
    requires a != []
    ensures DigitPrefixLength(a + b) == DigitPrefixLength(a)
  {
    if IsDigit(a[0]) {
      assert (a + b)[1..] == a[1..] + b;
      if |a| > 1 {
        DigitPrefixOfAppend(a[1..], b);
      } else {
        assert a[1..] + b == b;
      }
    }
  }

  /** Runs do not merge across a boundary that has a non-digit on one side. */
  lemma {:induction false} DigitRunsAppend(a: string, b: string)
    requires a == [] || b == [] || !IsDigit(a[|a| - 1]) || !IsDigit(b[0])
    ensures DigitRuns(a + b) == DigitRuns(a) + DigitRuns(b)
    decreases |a|
  {
    if a == [] {
      assert a + b == b;
    } else if !IsDigit(a[0]) {
      assert (a + b)[1..] == a[1..] + b;
      DigitRunsAppend(a[1..], b);
    } else {
      var n := DigitPrefixLength(a);
      DigitPrefixOfAppend(a, b);
      assert (a + b)[..n] == a[..n];
      assert (a + b)[n..] == a[n..] + b;
      DigitRunsAppend(a[n..], b);
    }
  }

  /** A run followed by a non-digit (or nothing) is found whole. */
  lemma {:induction false} DigitRunsOfRun(r: string, b: string)
    requires IsDigitRun(r)
    requires b == [] || !IsDigit(b[0])
    ensures DigitRuns(r + b) == [r] + DigitRuns(b)
  {
    var s := r + b;
    assert DigitPrefixLength(s) == |r|;
    assert s[..|r|] == r;
    assert s[|r|..] == b;
  }

  /**
   * The runs are the maximal ones: cutting s around any maximal run r
   * finds r, in its place between the runs before it and after it.
   */
  lemma {:induction false} MaximalRun(a: string, r: string, b: string)
    requires a == [] || !IsDigit(a[|a| - 1])
    requires IsDigitRun(r)
    requires b == [] || !IsDigit(b[0])
    ensures DigitRuns(a + r + b) == DigitRuns(a) + [r] + DigitRuns(b)
  {
    DigitRunsOfRun(r, b);
    assert a + r + b == a + (r + b);
    DigitRunsAppend(a, r + b);
  }

  // ---------------------------------------------------------------- decimal numbers

  function DigitChar(d: nat): (c: char)
    requires d < 10
    ensures IsDigit(c)
  {
    ('0' as int + d) as char
  }

  /** str(n) for a non-negative Python int: decimal digits, no leading zero. */
  function NatToString(n: nat): (r: string)
    ensures IsDigitRun(r)
    ensures |r| > 1 ==> r[0] != '0'
  {
    if n < 10 then [DigitChar(n)]
    else NatToString(n / 10) + [DigitChar(n % 10)]
  }

  /** int(s) for a string of decimal digits. */
  function DecimalValue(s: string): nat
    requires forall k :: 0 <= k < |s| ==> IsDigit(s[k])
  {
    if s == [] then 0
    else
      assert IsDigit(s[|s| - 1]);
      DecimalValue(s[..|s| - 1]) * 10 + (s[|s| - 1] as int - '0' as int)
  }

  /** int(str(n)) == n. */
  lemma {:induction false} DecimalRoundTrip(n: nat)
    ensures DecimalValue(NatToString(n)) == n
  {
    if n >= 10 {
      var s := NatToString(n);
      assert s[..|s| - 1] == NatToString(n / 10);
      DecimalRoundTrip(n / 10);
    }
  }

  /** str(i) for any Python int. */
  function IntToString(i: int): (r: string)
    ensures i >= 0 ==> IsDigitRun(r) && DecimalValue(r) == i && (|r| > 1 ==> r[0] != '0')
    ensures i < 0 ==> |r| >= 2 && r[0] == '-' && IsDigitRun(r[1..]) && DecimalValue(r[1..]) == -i && (|r| > 2 ==> r[1] != '0')
  {
    if i < 0 then
      var r := "-" + NatToString(-i);
      DecimalRoundTrip(-i);
      assert r[1..] == NatToString(-i);
      r
    else
      DecimalRoundTrip(i);
      NatToString(i)
  }
}
