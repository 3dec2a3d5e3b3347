/**
 * Helpers shared by the models of the Swift sources: an optional value,
 * Swift's `firstIndex(where:)`, removal of elements by position
 * (`remove(at:)`, `remove(atOffsets:)`), `split(separator:)` on strings,
 * the last occurrence of a character, and decimal integer text
 * (`"\(n)"` and `Int(String)`).
 */
module Common {

  datatype Option<T> = None | Some(value: T) {
    function GetOr(default: T): T {
      match this
      case Some(v) => v
      case None => default
    }
  }

  // ---------------------------------------------------------------------
  // firstIndex(where:)
  // ---------------------------------------------------------------------

  /** The index of the first element satisfying `p`, as Swift's `firstIndex(where:)`. */
  function FirstIndex<T>(xs: seq<T>, p: T -> bool): (r: Option<nat>)
    ensures r.Some? ==> r.value < |xs| && p(xs[r.value])
    ensures r.Some? ==> forall j :: 0 <= j < r.value ==> !p(xs[j])
    ensures r.None? <==> forall j :: 0 <= j < |xs| ==> !p(xs[j])
    decreases |xs|
  {
    if |xs| == 0 then None
    else if p(xs[0]) then Some(0)
    else
      match FirstIndex(xs[1..], p)
      case None => None
      case Some(k) => Some(k + 1)
  }

  // ---------------------------------------------------------------------
  // Removing elements by position
  // ---------------------------------------------------------------------

  /** Swift's `remove(at:)`: the sequence without its element at `i`. */
  function RemoveAt<T>(xs: seq<T>, i: nat): (r: seq<T>)
    requires i < |xs|
    ensures |r| == |xs| - 1
    ensures forall j :: 0 <= j < i ==> r[j] == xs[j]
    ensures forall j :: i <= j < |r| ==> r[j] == xs[j + 1]
  {
    xs[..i] + xs[i + 1..]
  }

  /** The number of indices below `n` that `keep` accepts. */
  function CountKept(keep: nat -> bool, n: nat): (c: nat)
    ensures c <= n
  {
    if n == 0 then 0 else CountKept(keep, n - 1) + (if keep(n - 1) then 1 else 0)
  }

  /** The elements whose index `keep` accepts, in their original order. */
  function FilterIndices<T>(xs: seq<T>, keep: nat -> bool): (r: seq<T>)
    ensures |r| == CountKept(keep, |xs|)
    decreases |xs|
  {
    if |xs| == 0 then []
    else FilterIndices(xs[..|xs| - 1], keep) + (if keep(|xs| - 1) then [xs[|xs| - 1]] else [])
  }

  lemma {:induction false} CountKeptMonotone(keep: nat -> bool, i: nat, n: nat)
    requires i <= n
    ensures CountKept(keep, i) <= CountKept(keep, n)
    ensures i < n && keep(i) ==> CountKept(keep, i) < CountKept(keep, n)
    decreases n - i
  {
    if i < n {
      CountKeptMonotone(keep, i, n - 1);
    }
  }

  /** An accepted element lands at the position given by the number of accepted elements before it. */
  lemma {:induction false} FilterIndicesAt<T>(xs: seq<T>, keep: nat -> bool, i: nat)
    requires i < |xs| && keep(i)
    ensures CountKept(keep, i) < |FilterIndices(xs, keep)|
    ensures FilterIndices(xs, keep)[CountKept(keep, i)] == xs[i]
    decreases |xs|
  {
    var n := |xs|;
    var front := xs[..n - 1];
    if i == n - 1 {
      assert |FilterIndices(front, keep)| == CountKept(keep, i);
    } else {
      FilterIndicesAt(front, keep, i);
      assert front[i] == xs[i];
    }
  }

  /** Every element of the result is an accepted element of the input. */
  lemma {:induction false} FilterIndicesFrom<T>(xs: seq<T>, keep: nat -> bool, k: nat)
    requires k < |FilterIndices(xs, keep)|
    ensures exists i :: 0 <= i < |xs| && keep(i) && CountKept(keep, i) == k && FilterIndices(xs, keep)[k] == xs[i]
    decreases |xs|
  {
    var n := |xs|;
    var front := xs[..n - 1];
    if k < |FilterIndices(front, keep)| {
      FilterIndicesFrom(front, keep, k);
      var i :| 0 <= i < |front| && keep(i) && CountKept(keep, i) == k && FilterIndices(front, keep)[k] == front[i];
      assert FilterIndices(xs, keep)[k] == xs[i];
    } else {
      assert keep(n - 1) && FilterIndices(xs, keep)[k] == xs[n - 1];
    }
  }

  /** Keeping every index leaves the sequence as it was. */
  lemma {:induction false} FilterIndicesAll<T>(xs: seq<T>, keep: nat -> bool)
    requires forall i :: 0 <= i < |xs| ==> keep(i)
    ensures FilterIndices(xs, keep) == xs
    decreases |xs|
  {
    if |xs| > 0 {
      FilterIndicesAll(xs[..|xs| - 1], keep);
      assert xs[..|xs| - 1] + [xs[|xs| - 1]] == xs;
    }
  }

  /** Swift's `remove(atOffsets:)`: the elements whose positions are not in `offsets`, in order. */
  function RemoveOffsets<T>(xs: seq<T>, offsets: set<nat>): (r: seq<T>)
  {
    FilterIndices(xs, (i: nat) => i !in offsets)
  }

  /** An element that is not removed moves down by the number of removed positions before it. */
  lemma RemoveOffsetsKeeps<T>(xs: seq<T>, offsets: set<nat>, i: nat)
    requires i < |xs| && i !in offsets
    ensures var r := RemoveOffsets(xs, offsets);
      var removedBefore := i - CountKept((j: nat) => j !in offsets, i);
      i - removedBefore < |r| && r[i - removedBefore] == xs[i]
  {
    FilterIndicesAt(xs, (j: nat) => j !in offsets, i);
  }

  /** Every element left by `remove(atOffsets:)` sits at a position outside `offsets`. */
  lemma RemoveOffsetsOnlyKept<T>(xs: seq<T>, offsets: set<nat>, k: nat)
    requires k < |RemoveOffsets(xs, offsets)|
    ensures exists i :: 0 <= i < |xs| && i !in offsets && RemoveOffsets(xs, offsets)[k] == xs[i]
  {
    FilterIndicesFrom(xs, (j: nat) => j !in offsets, k);
  }

  // ---------------------------------------------------------------------
  // Strings: split(separator:), lastIndex(of:), joined(separator:)
  // ---------------------------------------------------------------------

  /** The length of the run of characters other than `sep` at the end of `s`. */
  function TrailingWordLength(s: string, sep: char): (n: nat)
    ensures n <= |s|
    ensures forall j :: |s| - n <= j < |s| ==> s[j] != sep
    ensures n < |s| ==> s[|s| - n - 1] == sep
  {
    if |s| == 0 || s[|s| - 1] == sep then 0
    else TrailingWordLength(s[..|s| - 1], sep) + 1
  }

  /**
   * Swift's `s.split(separator: sep)` with its default of omitting empty
   * subsequences: the maximal runs of characters other than `sep`.
   */
  function Components(s: string, sep: char): (parts: seq<string>)
    decreases |s|
  {
    if |s| == 0 then []
    else if s[|s| - 1] == sep then Components(s[..|s| - 1], sep)
    else
      var n := TrailingWordLength(s, sep);
      Components(s[..|s| - n], sep) + [s[|s| - n..]]
  }

  /** The concatenation of a list of strings. */
  function Concat(parts: seq<string>): string
  {
    if |parts| == 0 then [] else Concat(parts[..|parts| - 1]) + parts[|parts| - 1]
  }

  /** `s` with every occurrence of `c` deleted. */
  function Without(s: string, c: char): string
  {
    if |s| == 0 then []
    else Without(s[..|s| - 1], c) + (if s[|s| - 1] == c then [] else [s[|s| - 1]])
  }

  lemma {:induction false} WithoutAppend(a: string, b: string, c: char)
    ensures Without(a + b, c) == Without(a, c) + Without(b, c)
    decreases |b|
  {
    if |b| > 0 {
      assert (a + b)[..|a + b| - 1] == a + b[..|b| - 1];
      WithoutAppend(a, b[..|b| - 1], c);
    } else {
      assert a + b == a;
    }
  }

  lemma {:induction false} WithoutAbsent(s: string, c: char)
    requires forall j :: 0 <= j < |s| ==> s[j] != c
    ensures Without(s, c) == s
    decreases |s|
  {
    if |s| > 0 {
      WithoutAbsent(s[..|s| - 1], c);
      assert s[..|s| - 1] + [s[|s| - 1]] == s;
    }
  }

  /** The components are non-empty and contain no separator. */
  lemma {:induction false} ComponentsWords(s: string, sep: char)
    ensures forall k :: 0 <= k < |Components(s, sep)| ==> |Components(s, sep)[k]| > 0
    ensures forall k, j :: 0 <= k < |Components(s, sep)| && 0 <= j < |Components(s, sep)[k]| ==> Components(s, sep)[k][j] != sep
    decreases |s|
  {
    if |s| == 0 {
    } else if s[|s| - 1] == sep {
      assert Components(s, sep) == Components(s[..|s| - 1], sep);
      ComponentsWords(s[..|s| - 1], sep);
    } else {
      var n := TrailingWordLength(s, sep);
      assert Components(s, sep) == Components(s[..|s| - n], sep) + [s[|s| - n..]];
      ComponentsWords(s[..|s| - n], sep);
    }
  }

  /** Together the components are exactly the characters of `s` other than the separator, in order. */
  lemma {:induction false} ComponentsConcat(s: string, sep: char)
    ensures Concat(Components(s, sep)) == Without(s, sep)
    decreases |s|
  {
    if |s| == 0 {
    } else if s[|s| - 1] == sep {
      assert Components(s, sep) == Components(s[..|s| - 1], sep);
      ComponentsConcat(s[..|s| - 1], sep);
      assert Without(s, sep) == Without(s[..|s| - 1], sep);
    } else {
      var n := TrailingWordLength(s, sep);
      var front, word := s[..|s| - n], s[|s| - n..];
      var parts := Components(front, sep) + [word];
      assert Components(s, sep) == parts;
      ComponentsConcat(front, sep);
      assert parts[..|parts| - 1] == Components(front, sep);
      assert Concat(parts) == Concat(Components(front, sep)) + word;
      assert front + word == s;
      WithoutAppend(front, word, sep);
      WithoutAbsent(word, sep);
    }
  }

  /** `s` has no character other than `sep` (it is empty or all separators). */
  predicate AllSeparators(s: string, sep: char)
  {
    forall j :: 0 <= j < |s| ==> s[j] == sep
  }

  /** There are no components exactly when every character is a separator. */
  lemma {:induction false} ComponentsEmpty(s: string, sep: char)
    ensures |Components(s, sep)| == 0 <==> AllSeparators(s, sep)
    decreases |s|
  {
    if |s| > 0 && s[|s| - 1] == sep {
      ComponentsEmpty(s[..|s| - 1], sep);
    }
  }

  /** The number of separators at the end of `s`. */
  function TrailingSeparators(s: string, sep: char): (n: nat)
    ensures n <= |s|
    ensures forall j :: |s| - n <= j < |s| ==> s[j] == sep
    ensures n < |s| ==> s[|s| - n - 1] != sep
  {
    if |s| == 0 || s[|s| - 1] != sep then 0
    else TrailingSeparators(s[..|s| - 1], sep) + 1
  }

  /** The run of non-separators that ends right before the trailing separators of `s`. */
  function LastWord(s: string, sep: char): string
  {
    var t := s[..|s| - TrailingSeparators(s, sep)];
    t[|t| - TrailingWordLength(t, sep)..]
  }

  /** The last component is `LastWord`. */
  lemma {:induction false} LastComponentIsSuffix(s: string, sep: char)
    requires !AllSeparators(s, sep)
    ensures |Components(s, sep)| > 0
    ensures Components(s, sep)[|Components(s, sep)| - 1] == LastWord(s, sep)
  {
    var n := TrailingSeparators(s, sep);
    var t := s[..|s| - n];
    ComponentsDropTrailing(s, sep);
    assert n < |s|;
    assert t[|t| - 1] == s[|s| - n - 1];
    var m := TrailingWordLength(t, sep);
    assert Components(t, sep) == Components(t[..|t| - m], sep) + [t[|t| - m..]];
  }

  /** Trailing separators contribute no component. */
  lemma {:induction false} ComponentsDropTrailing(s: string, sep: char)
    ensures Components(s, sep) == Components(s[..|s| - TrailingSeparators(s, sep)], sep)
    decreases |s|
  {
    if |s| > 0 && s[|s| - 1] == sep {
      var front := s[..|s| - 1];
      ComponentsDropTrailing(front, sep);
      assert TrailingSeparators(s, sep) == TrailingSeparators(front, sep) + 1;
      assert s[..|s| - TrailingSeparators(s, sep)] == front[..|front| - TrailingSeparators(front, sep)];
    } else {
      assert s[..|s| - TrailingSeparators(s, sep)] == s;
    }
  }

  /**
   * `s.split(separator: sep).last ?? s`: the last non-empty component, or
   * the whole string when it has none.
   */
  function LastComponentOr(s: string, sep: char): (r: string)
    ensures AllSeparators(s, sep) ==> r == s
    ensures !AllSeparators(s, sep) ==> |r| > 0 && forall j :: 0 <= j < |r| ==> r[j] != sep
  {
    ComponentsWords(s, sep);
    ComponentsEmpty(s, sep);
    var parts := Components(s, sep);
    if |parts| == 0 then s else parts[|parts| - 1]
  }

  /** The last component is the last run of non-separators in `s`. */
  lemma LastComponentOrSuffix(s: string, sep: char)
    requires !AllSeparators(s, sep)
    ensures LastComponentOr(s, sep) == LastWord(s, sep)
  {
    LastComponentIsSuffix(s, sep);
  }

  /** The components joined with `sep` between them, as Swift's `joined(separator:)`. */
  function Join(parts: seq<string>, sep: char): string
  {
    if |parts| == 0 then []
    else if |parts| == 1 then parts[0]
    else Join(parts[..|parts| - 1], sep) + [sep] + parts[|parts| - 1]
  }

  /** The position of the last occurrence of `c`, as Swift's `lastIndex(of:)`. */
  function LastIndexOf(s: string, c: char): (r: Option<nat>)
    ensures r.Some? ==> r.value < |s| && s[r.value] == c && forall j :: r.value < j < |s| ==> s[j] != c
    ensures r.None? <==> forall j :: 0 <= j < |s| ==> s[j] != c
  {
    if |s| == 0 then None
    else if s[|s| - 1] == c then Some(|s| - 1)
    else LastIndexOf(s[..|s| - 1], c)
  }

  // ---------------------------------------------------------------------
  // Decimal text of integers
  // ---------------------------------------------------------------------

  predicate IsDigit(c: char) { '0' <= c <= '9' }

  function DigitChar(d: nat): char
    requires d < 10
  {
    ['0', '1', '2', '3', '4', '5', '6', '7', '8', '9'][d]
  }

  function DigitValue(c: char): nat
    requires IsDigit(c)
  {
    (c as int - '0' as int) as nat
  }

  /** `"\(n)"` for a natural number: its decimal digits without sign or leading zeros. */
  function NatToString(n: nat): (s: string)
    ensures |s| > 0 && forall j :: 0 <= j < |s| ==> IsDigit(s[j])
  {
    if n < 10 then [DigitChar(n)] else NatToString(n / 10) + [DigitChar(n % 10)]
  }

  /** The value of a non-empty string of decimal digits. */
  function DigitsValue(s: string): nat
    requires forall j :: 0 <= j < |s| ==> IsDigit(s[j])
  {
    if |s| == 0 then 0 else DigitsValue(s[..|s| - 1]) * 10 + DigitValue(s[|s| - 1])
  }

  /**
   * Swift's `Int(String)`: an optional '+' or '-' followed by one or more
   * decimal digits, nothing else. Values beyond 64 bits, which Swift
   * rejects, are accepted here.
   */
  function ParseInt(s: string): (r: Option<int>)
    ensures r.Some? ==> |s| > 0
  {
    if |s| == 0 then None
    else
      var sign, digits := if s[0] == '-' then -1 else 1, if s[0] == '-' || s[0] == '+' then s[1..] else s;
      if |digits| > 0 && forall j :: 0 <= j < |digits| ==> IsDigit(digits[j]) then Some(sign * DigitsValue(digits))
      else None
  }

  lemma {:induction false} DigitsRoundTrip(n: nat)
    ensures DigitsValue(NatToString(n)) == n
    decreases n
  {
    if n >= 10 {
      DigitsRoundTrip(n / 10);
      var s := NatToString(n);
      assert s[..|s| - 1] == NatToString(n / 10);
    }
  }

  /** Reading back the decimal text of a natural number gives the number. */
  lemma ParseIntRoundTrip(n: nat)
    ensures ParseInt(NatToString(n)) == Some(n)
  {
    DigitsRoundTrip(n);
  }
}
