/**
 * String helpers the kiosk relies on: the digit filter of the
 * identification-number field (`value.replace(/\D/g, '')`), JavaScript's
 * `String.prototype.trim`, the decimal rendering of a count inside a CSV
 * cell, and `Array.prototype.join` with a one-character separator together
 * with the split that reads it back.
 */
module Text {

  /** `\d` in a JavaScript regular expression without the `u` flag: ASCII digits only. */
  predicate IsDigit(c: char) {
    '0' <= c <= '9'
  }

  predicate AllDigits(s: string) {
    forall i | 0 <= i < |s| :: IsDigit(s[i])
  }

  /** The characters `String.prototype.trim` removes: white space and line terminators. */
  predicate IsSpace(c: char) {
    || c == ' ' || c == '\t' || c == '\n' || c == '\r'
    || c == '\U{000B}' || c == '\U{000C}' || c == '\U{00A0}' || c == '\U{FEFF}'
    || c == '\U{1680}' || ('\U{2000}' <= c <= '\U{200A}')
    || c == '\U{2028}' || c == '\U{2029}' || c == '\U{202F}' || c == '\U{205F}' || c == '\U{3000}'
  }

  // ---------------------------------------------------------------------------
  // The digit filter
  // ---------------------------------------------------------------------------

  /** `value.replace(/\D/g, '')`: keeps the digits of `s`, in order, and drops everything else. */
  function StripNonDigits(s: string): (r: string)
    ensures AllDigits(r)
    ensures |r| <= |s|
    ensures AllDigits(s) ==> r == s
  {
    if s == [] then []
    else
      var rest := StripNonDigits(s[1..]);
      if IsDigit(s[0]) then [s[0]] + rest else rest
  }

  /** The filter keeps every digit of `s`, as many times as it occurs there. */
  lemma {:induction false} StripNonDigitsKeepsDigits(s: string, c: char)
    requires IsDigit(c)
    ensures multiset(StripNonDigits(s))[c] == multiset(s)[c]
  {
    if s != [] {
      assert s == [s[0]] + s[1..];
      StripNonDigitsKeepsDigits(s[1..], c);
    }
  }

  /** Filtering a concatenation filters each part: the digits keep their order. */
  lemma {:induction false} StripNonDigitsAppend(a: string, b: string)
    ensures StripNonDigits(a + b) == StripNonDigits(a) + StripNonDigits(b)
  {
    if a != [] {
      var ab := a + b;
      assert ab != [] && ab[0] == a[0] && ab[1..] == a[1..] + b;
      StripNonDigitsAppend(a[1..], b);
      var head: string := if IsDigit(a[0]) then [a[0]] else [];
      assert StripNonDigits(ab) == head + StripNonDigits(a[1..] + b);
      assert StripNonDigits(a) == head + StripNonDigits(a[1..]);
    } else {
      assert a + b == b;
    }
  }

  // ---------------------------------------------------------------------------
  // trim
  // ---------------------------------------------------------------------------

  function TrimStart(s: string): (r: string)
    ensures |r| <= |s| && r == s[|s| - |r|..]
    ensures r != [] ==> !IsSpace(r[0])
    ensures forall i | 0 <= i < |s| - |r| :: IsSpace(s[i])
  {
    if s != [] && IsSpace(s[0]) then TrimStart(s[1..]) else s
  }

  function TrimEnd(s: string): (r: string)
    ensures |r| <= |s| && r == s[..|r|]
    ensures r != [] ==> !IsSpace(r[|r| - 1])
    ensures forall i | |r| <= i < |s| :: IsSpace(s[i])
  {
    if s != [] && IsSpace(s[|s| - 1]) then TrimEnd(s[..|s| - 1]) else s
  }

  /**
   * `s.trim()`: the longest infix of `s` that neither starts nor ends with
   * white space. It is empty exactly when `s` is all white space, and it is
   * `s` itself when `s` already starts and ends with something else.
   */
  function Trim(s: string): (r: string)
    ensures r == [] <==> forall i | 0 <= i < |s| :: IsSpace(s[i])
    ensures r != [] ==> !IsSpace(r[0]) && !IsSpace(r[|r| - 1])
    ensures s != [] && !IsSpace(s[0]) && !IsSpace(s[|s| - 1]) ==> r == s
  {
    var t := TrimStart(s);
    var r := TrimEnd(t);
    assert r == [] ==> t == [];
    assert r != [] ==> !IsSpace(r[0]) by {
      if r != [] {
        assert r[0] == t[0];
      }
    }
    r
  }

  /**
   * `s.trim()` is what is left of `s` once a leading run and a trailing run
   * of white space are cut off; with the ends `Trim` guarantees, those runs
   * are the longest ones.
   */
  lemma TrimCutsWhiteSpace(s: string)
    ensures exists a, b | 0 <= a <= b <= |s| ::
      && Trim(s) == s[a..b]
      && (forall i | 0 <= i < a :: IsSpace(s[i]))
      && (forall i | b <= i < |s| :: IsSpace(s[i]))
  {
    var t := TrimStart(s);
    var r := TrimEnd(t);
    var a, b := |s| - |t|, |s| - |t| + |r|;
    assert r == s[a..b];
    forall i | b <= i < |s| ensures IsSpace(s[i]) {
      assert s[i] == t[i - a];
    }
  }

  /** A digit string has no white space to trim. */
  lemma TrimAllDigits(s: string)
    requires AllDigits(s)
    ensures Trim(s) == s
  {
    if s != [] {
      assert IsDigit(s[0]) && IsDigit(s[|s| - 1]);
    }
  }

  // ---------------------------------------------------------------------------
  // Decimal rendering of a count (JavaScript's number-to-string on a non-negative integer)
  // ---------------------------------------------------------------------------

  function DigitChar(d: nat): (c: char)
    requires d < 10
    ensures IsDigit(c)
  {
    '0' + d as char
  }

  function DigitValue(c: char): (d: nat)
    requires IsDigit(c)
    ensures d < 10
  {
    (c - '0') as nat
  }

  /** The decimal numeral of `n`, without leading zeros. */
  function DecimalString(n: nat): (s: string)
    ensures s != [] && AllDigits(s)
    ensures s[0] == '0' ==> s == "0"
  {
    if n < 10 then [DigitChar(n)] else DecimalString(n / 10) + [DigitChar(n % 10)]
  }

  /** The value of a numeral, most significant digit first. */
  function DecimalValue(s: string): nat
    requires AllDigits(s)
  {
    if s == [] then 0 else DecimalValue(s[..|s| - 1]) * 10 + DigitValue(s[|s| - 1])
  }

  /** Reading a rendered count back gives the count. */
  lemma {:induction false} DecimalRoundTrip(n: nat)
    ensures DecimalValue(DecimalString(n)) == n
  {
    var s := DecimalString(n);
    if n < 10 {
      assert s[..|s| - 1] == [];
    } else {
      DecimalRoundTrip(n / 10);
      assert s[..|s| - 1] == DecimalString(n / 10);
    }
  }

  // ---------------------------------------------------------------------------
  // join and split on a one-character separator
  // ---------------------------------------------------------------------------

  /** `cells.join(sep)`. */
  function Join(cells: seq<string>, sep: char): string
  {
    if cells == [] then []
    else if |cells| == 1 then cells[0]
    else cells[0] + [sep] + Join(cells[1..], sep)
  }

  /** The first position of `c` in `s`. */
  function IndexOf(s: string, c: char): (i: nat)
    requires c in s
    ensures i < |s| && s[i] == c && c !in s[..i]
  {
    if s[0] == c then 0 else IndexOf(s[1..], c) + 1
  }

  /** Cuts `s` at every occurrence of `sep`; `Split("", sep)` is `[""]`. */
  function Split(s: string, sep: char): (r: seq<string>)
    ensures r != []
    decreases |s|
  {
    if sep !in s then [s]
    else
      var i := IndexOf(s, sep);
      [s[..i]] + Split(s[i + 1..], sep)
  }

  /** A character that is neither the separator nor in any cell is not in the joined text. */
  lemma {:induction false} NotInJoin(cells: seq<string>, sep: char, c: char)
    requires c != sep
    requires forall k | 0 <= k < |cells| :: c !in cells[k]
    ensures c !in Join(cells, sep)
  {
    if |cells| > 1 {
      NotInJoin(cells[1..], sep, c);
    }
  }

  /**
   * Splitting a joined row on its separator gives back the cells, provided
   * there is at least one cell and no cell contains the separator.
   */
  lemma {:induction false} SplitJoin(cells: seq<string>, sep: char)
    requires cells != []
    requires forall k | 0 <= k < |cells| :: sep !in cells[k]
    ensures Split(Join(cells, sep), sep) == cells
  {
    if |cells| > 1 {
      var a := cells[0];
      var rest := Join(cells[1..], sep);
      var s := Join(cells, sep);
      assert s == a + [sep] + rest;
      assert s[|a|] == sep;
      assert s[..|a|] == a;
      assert IndexOf(s, sep) == |a|;
      assert s[|a| + 1..] == rest;
      SplitJoin(cells[1..], sep);
    }
  }
}
