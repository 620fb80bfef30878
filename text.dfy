/**
 * The string operations the Python code relies on: `str()` of an integer,
 * `str.join`, `str.replace` of one character by another, and suffix tests.
 * Strings are sequences of characters.
 */
module Text {

  predicate IsDigit(c: char) {
    '0' <= c <= '9'
  }

  predicate AllDigits(s: string) {
    forall i :: 0 <= i < |s| ==> IsDigit(s[i])
  }

  function DigitChar(d: nat): (c: char)
    requires d < 10
    ensures IsDigit(c) && DigitValue(c) == d
  {
    (48 + d) as char
  }

  function DigitValue(c: char): nat
    requires IsDigit(c)
  {
    c as int - 48
  }

  /** `str(n)` for a non-negative integer: decimal digits, no leading zero. */
  function NatToDecimal(n: nat): (r: string)
    ensures |r| >= 1 && AllDigits(r)
    ensures r[0] == '0' ==> n == 0
    decreases n
  {
    if n < 10 then [DigitChar(n)] else NatToDecimal(n / 10) + [DigitChar(n % 10)]
  }

  /** The value of a string of decimal digits (`int(s)`). */
  function ParseDecimal(s: string): nat
    requires AllDigits(s)
  {
    if |s| == 0 then 0 else ParseDecimal(s[..|s| - 1]) * 10 + DigitValue(s[|s| - 1])
  }

  /** Rendering a natural number and reading it back gives the number. */
  lemma {:induction false} DecimalRoundTrip(n: nat)
    ensures ParseDecimal(NatToDecimal(n)) == n
    decreases n
  {
    var s := NatToDecimal(n);
    if n < 10 {
      assert s[..|s| - 1] == [];
    } else {
      assert s[..|s| - 1] == NatToDecimal(n / 10);
      DecimalRoundTrip(n / 10);
    }
  }

  /** Different numbers render as different strings. */
  lemma DecimalInjective(a: nat, b: nat)
    requires a != b
    ensures NatToDecimal(a) != NatToDecimal(b)
  {
    DecimalRoundTrip(a);
    DecimalRoundTrip(b);
  }

  /** `str(i)` for any integer: a minus sign before the digits of a negative one. */
  function IntToDecimal(i: int): (r: string)
    ensures |r| >= 1
    ensures r[0] == '-' <==> i < 0
  {
    if i < 0 then "-" + NatToDecimal(-i) else NatToDecimal(i)
  }

  /** The strings `IntToDecimal` produces: an optional minus sign and at least one digit. */
  predicate IsIntegerText(s: string) {
    if |s| > 0 && s[0] == '-' then |s| > 1 && AllDigits(s[1..]) else |s| > 0 && AllDigits(s)
  }

  function ParseInt(s: string): int
    requires IsIntegerText(s)
  {
    if |s| > 0 && s[0] == '-' then -(ParseDecimal(s[1..]) as int) else ParseDecimal(s)
  }

  /** The rendered integer is well formed and reads back as the same integer. */
  lemma IntRoundTrip(i: int)
    ensures IsIntegerText(IntToDecimal(i))
    ensures ParseInt(IntToDecimal(i)) == i
  {
    var s := IntToDecimal(i);
    if i < 0 {
      assert s[1..] == NatToDecimal(-i);
      DecimalRoundTrip(-i);
    } else {
      DecimalRoundTrip(i);
    }
  }

  /**
   * `sep.join(xs)`. What the joined text holds is stated by the lemmas below:
   * where each string and each separator sit, and where the text ends.
   */
  function Join(xs: seq<string>, sep: string): string {
    if |xs| == 0 then ""
    else if |xs| == 1 then xs[0]
    else xs[0] + sep + Join(xs[1..], sep)
  }

  /** The joined text is empty for no strings; otherwise it starts with the first string and ends with the last. */
  lemma {:induction false} JoinAffixes(xs: seq<string>, sep: string)
    ensures xs == [] ==> Join(xs, sep) == ""
    ensures xs != [] ==> StartsWith(Join(xs, sep), xs[0]) && EndsWith(Join(xs, sep), xs[|xs| - 1])
    decreases |xs|
  {
    if |xs| > 1 {
      var rest := Join(xs[1..], sep);
      JoinAffixes(xs[1..], sep);
      assert xs[1..][|xs| - 2] == xs[|xs| - 1];
      ThreePartAffixes(xs[0], sep, rest);
      ConcatAffixes(xs[0] + sep, rest);
      assert Join(xs, sep) == (xs[0] + sep) + rest;
      assert Join(xs, sep)[|Join(xs, sep)| - |xs[|xs| - 1]|..] == rest[|rest| - |xs[|xs| - 1]|..];
    }
  }

  /** Joining one more element appends the separator and that element. */
  lemma {:induction false} JoinAppend(xs: seq<string>, y: string, sep: string)
    requires xs != []
    ensures Join(xs + [y], sep) == Join(xs, sep) + sep + y
  {
    if |xs| == 1 {
      assert (xs + [y])[1..] == [y];
    } else {
      assert (xs + [y])[1..] == xs[1..] + [y];
      JoinAppend(xs[1..], y, sep);
    }
  }

  /** Where the i-th string starts in `Join(xs, sep)`: the earlier strings, each followed by `sep`. */
  function JoinOffset(xs: seq<string>, sep: string, i: nat): nat
    requires i <= |xs|
  {
    if i == 0 then 0 else JoinOffset(xs, sep, i - 1) + |xs[i - 1]| + |sep|
  }

  /** Appending a string does not move the earlier offsets. */
  lemma {:induction false} JoinOffsetPrefix(xs: seq<string>, y: string, sep: string, i: nat)
    requires i <= |xs|
    ensures JoinOffset(xs + [y], sep, i) == JoinOffset(xs, sep, i)
  {
    if i > 0 {
      JoinOffsetPrefix(xs, y, sep, i - 1);
      assert (xs + [y])[i - 1] == xs[i - 1];
    }
  }

  /** The joined string ends where the last string ends. */
  lemma {:induction false} JoinLength(xs: seq<string>, sep: string)
    requires xs != []
    ensures |Join(xs, sep)| == JoinOffset(xs, sep, |xs| - 1) + |xs[|xs| - 1]|
    decreases |xs|
  {
    if |xs| > 1 {
      var init, y := xs[..|xs| - 1], xs[|xs| - 1];
      assert xs == init + [y];
      JoinAppend(init, y, sep);
      JoinLength(init, sep);
      JoinOffsetPrefix(init, y, sep, |init| - 1);
    }
  }

  /** A slice of the second part of a concatenation, shifted by the first part. */
  lemma ShiftSlice(a: string, b: string, i: nat, j: nat)
    requires i <= j <= |b|
    ensures |a| + j <= |a + b|
    ensures (a + b)[|a| + i .. |a| + j] == b[i..j]
  {
    assert forall k | 0 <= k < j - i :: (a + b)[|a| + i .. |a| + j][k] == b[i..j][k];
  }

  /** Offsets past the first string are the offsets in the rest, shifted by the first string and a separator. */
  lemma {:induction false} JoinOffsetTail(xs: seq<string>, sep: string, i: nat)
    requires 1 <= i <= |xs|
    ensures JoinOffset(xs, sep, i) == |xs[0]| + |sep| + JoinOffset(xs[1..], sep, i - 1)
  {
    if i > 1 {
      JoinOffsetTail(xs, sep, i - 1);
      assert xs[1..][i - 2] == xs[i - 1];
    }
  }

  /** `piece` occurs in `s` starting at index `at`. */
  predicate OccursAt(s: string, at: nat, piece: string) {
    at + |piece| <= |s| && s[at .. at + |piece|] == piece
  }

  /** The i-th string sits at its offset in the joined string. */
  lemma {:induction false} JoinPieceAt(xs: seq<string>, sep: string, i: nat)
    requires i < |xs|
    ensures OccursAt(Join(xs, sep), JoinOffset(xs, sep, i), xs[i])
    decreases |xs|
  {
    if i == 0 {
      var r := Join(xs, sep);
      JoinAffixes(xs, sep);
      assert r[0..|xs[0]|] == r[..|xs[0]|];
    } else {
      var tl := xs[1..];
      var rest, o := Join(tl, sep), JoinOffset(tl, sep, i - 1);
      assert tl[i - 1] == xs[i];
      JoinPieceAt(tl, sep, i - 1);
      assert Join(xs, sep) == xs[0] + sep + rest;
      assert JoinOffset(xs, sep, i) == |xs[0]| + |sep| + o by {
        JoinOffsetTail(xs, sep, i);
      }
      PieceAfterHead(Join(xs, sep), xs[0], sep, rest, JoinOffset(xs, sep, i), o, tl[i - 1]);
    }
  }

  /** A piece of the rest is found, shifted, after a head and a separator. */
  lemma PieceAfterHead(r: string, head: string, sep: string, rest: string, at: nat, o: nat, piece: string)
    requires r == head + sep + rest && at == |head| + |sep| + o
    requires OccursAt(rest, o, piece)
    ensures OccursAt(r, at, piece)
  {
    ShiftSlice(head + sep, rest, o, o + |piece|);
  }

  /** The separator follows every string but the last, and the next string starts right after it. */
  lemma {:induction false} JoinSeparatorAt(xs: seq<string>, sep: string, i: nat)
    requires i + 1 < |xs|
    ensures OccursAt(Join(xs, sep), JoinOffset(xs, sep, i) + |xs[i]|, sep)
    ensures JoinOffset(xs, sep, i + 1) == JoinOffset(xs, sep, i) + |xs[i]| + |sep|
    decreases |xs|
  {
    if i == 0 {
      var rest := Join(xs[1..], sep);
      assert Join(xs, sep) == xs[0] + sep + rest;
      MiddleSlice(xs[0], sep, rest, 0, |sep|);
      assert sep[0..|sep|] == sep;
    } else {
      var tl := xs[1..];
      var rest, o := Join(tl, sep), JoinOffset(tl, sep, i - 1) + |tl[i - 1]|;
      assert tl[i - 1] == xs[i];
      JoinSeparatorAt(tl, sep, i - 1);
      assert Join(xs, sep) == xs[0] + sep + rest;
      assert JoinOffset(xs, sep, i) == |xs[0]| + |sep| + JoinOffset(tl, sep, i - 1) by {
        JoinOffsetTail(xs, sep, i);
      }
      PieceAfterHead(Join(xs, sep), xs[0], sep, rest, JoinOffset(xs, sep, i) + |xs[i]|, o, sep);
    }
  }

  /** `s.replace(old, new)` with one-character arguments. */
  function ReplaceChar(s: string, from: char, to: char): (r: string)
    ensures |r| == |s|
    ensures forall i :: 0 <= i < |s| ==> r[i] == (if s[i] == from then to else s[i])
    ensures from != to ==> from !in r
  {
    if |s| == 0 then "" else [if s[0] == from then to else s[0]] + ReplaceChar(s[1..], from, to)
  }

  predicate StartsWith(s: string, prefix: string) {
    |prefix| <= |s| && s[..|prefix|] == prefix
  }

  predicate EndsWith(s: string, suffix: string) {
    |suffix| <= |s| && s[|s| - |suffix|..] == suffix
  }

  /** A concatenation of three parts starts with the first and ends with the last. */
  lemma ThreePartAffixes(a: string, b: string, c: string)
    ensures StartsWith(a + b + c, a) && EndsWith(a + b + c, c)
  {
    assert (a + b + c)[..|a|] == a;
    assert (a + b + c)[|a| + |b|..] == c;
  }

  /** A concatenation starts with its first part and ends with its second. */
  lemma ConcatAffixes(a: string, b: string)
    ensures StartsWith(a + b, a) && EndsWith(a + b, b)
  {
    assert (a + b)[..|a|] == a;
    assert (a + b)[|a|..] == b;
  }

  /** A slice of the middle part of a three-part concatenation. */
  lemma MiddleSlice(a: string, m: string, b: string, i: nat, j: nat)
    requires i <= j <= |m|
    ensures |a| + j <= |a + m + b|
    ensures (a + m + b)[|a| + i .. |a| + j] == m[i..j]
  {
    assert (a + m + b)[|a| + i .. |a| + j] == (a + m)[|a| + i .. |a| + j];
  }

  /** A part that ends `|b|` characters before the end is found by measuring back from the end. */
  lemma SliceBeforeSuffix(r: string, front: string, a: string, m: string, b: string)
    requires r == front + (a + m + b)
    ensures |b| + |m| <= |r|
    ensures r[|r| - |b| - |m| .. |r| - |b|] == m
  {
    assert r == (front + a) + m + b;
    MiddleSlice(front + a, m, b, 0, |m|);
    assert m[0..|m|] == m;
  }

  /** A piece of the middle part of a three-part concatenation, found at its shifted offset. */
  lemma PieceInMiddle(r: string, a: string, m: string, b: string, at: nat, o: nat, piece: string)
    requires r == a + m + b && at == |a| + o
    requires OccursAt(m, o, piece)
    ensures OccursAt(r, at, piece)
  {
    MiddleSlice(a, m, b, o, o + |piece|);
  }

  /** A piece inside the middle part of a three-part string, right after the middle's own prefix `w`. */
  lemma NestedPieceAt(a: string, w: string, piece: string, t: string, b: string)
    ensures OccursAt(a + (w + piece + t) + b, |a| + |w|, piece)
  {
    PieceInMiddle(w + piece + t, w, piece, t, |w|, 0, piece);
    PieceInMiddle(a + (w + piece + t) + b, a, w + piece + t, b, |a| + |w|, |w|, piece);
  }

  /** Strings that start with the same prefix are equal exactly when the rests are. */
  lemma PrefixCancel(p: string, s: string, t: string)
    ensures p + s == p + t <==> s == t
  {
    if p + s == p + t {
      assert s == (p + s)[|p|..];
      assert t == (p + t)[|p|..];
    }
  }

  /** Two different strings of equal length stay different whatever follows them. */
  lemma EqualLengthHeadsDiffer(a: string, b: string, s: string, t: string)
    requires |a| == |b| && a != b
    ensures a + s != b + t
  {
    assert (a + s)[..|a|] == a;
    assert (b + t)[..|b|] == b;
  }
}
