/** Character and string primitives of the .NET runtime that the modelled code
  * relies on: Char.IsWhiteSpace, String.IsNullOrWhiteSpace, String.Trim,
  * String.Split, String.IndexOf, invariant case mapping and the decimal
  * rendering of unsigned integers.
  *
  * A .NET `null` string is modelled by the empty string wherever the source
  * only tests it with IsNullOrWhiteSpace or IsNullOrEmpty, which treat the two
  * alike.
  */
module Text {

  /** Char.IsWhiteSpace: U+0009..U+000D, U+0085 and the members of the Unicode
    * categories Zs (space separators), Zl and Zp. */
  predicate IsWhiteSpace(c: char) {
    c == ' ' || ('\t' <= c <= '\r') || c == '\U{0085}' || c == '\U{00A0}' || c == '\U{1680}'
    || ('\U{2000}' <= c <= '\U{200A}') || c == '\U{2028}' || c == '\U{2029}'
    || c == '\U{202F}' || c == '\U{205F}' || c == '\U{3000}'
  }

  /** String.IsNullOrWhiteSpace. */
  predicate IsBlank(s: string) {
    forall i :: 0 <= i < |s| ==> IsWhiteSpace(s[i])
  }

  /** Removes every leading character that `drop` selects. */
  function TrimStart(s: string, drop: char -> bool): string {
    if s == [] || !drop(s[0]) then s else TrimStart(s[1..], drop)
  }

  /** TrimStart removes a prefix of selected characters and stops at the first
    * character that is not selected. */
  lemma {:induction false} TrimStartSpec(s: string, drop: char -> bool)
    ensures var r := TrimStart(s, drop);
      && |r| <= |s| && r == s[|s| - |r|..]
      && (r != [] ==> !drop(r[0]))
      && (forall k :: 0 <= k < |s| - |r| ==> drop(s[k]))
  {
    if s != [] && drop(s[0]) {
      var t := s[1..];
      TrimStartSpec(t, drop);
      var r := TrimStart(t, drop);
      assert TrimStart(s, drop) == r;
      assert s[|s| - |r|..] == t[|t| - |r|..];
      forall k | 0 <= k < |s| - |r|
        ensures drop(s[k])
      {
        if k > 0 {
          assert s[k] == t[k - 1];
        }
      }
    }
  }

  /** Removes every trailing character that `drop` selects. */
  function TrimEnd(s: string, drop: char -> bool): string {
    if s == [] || !drop(s[|s| - 1]) then s else TrimEnd(s[..|s| - 1], drop)
  }

  /** TrimEnd removes a suffix of selected characters and stops at the last
    * character that is not selected. */
  lemma {:induction false} TrimEndSpec(s: string, drop: char -> bool)
    ensures var r := TrimEnd(s, drop);
      && |r| <= |s| && r == s[..|r|]
      && (r != [] ==> !drop(r[|r| - 1]))
      && (forall k :: |r| <= k < |s| ==> drop(s[k]))
  {
    if s != [] && drop(s[|s| - 1]) {
      TrimEndSpec(s[..|s| - 1], drop);
    }
  }

  /** Trims both ends with the same selector. */
  function TrimBy(s: string, drop: char -> bool): string {
    TrimEnd(TrimStart(s, drop), drop)
  }

  /** String.Trim(): removes leading and trailing white space. */
  function Trim(s: string): string {
    TrimBy(s, IsWhiteSpace)
  }

  /** String.Trim(params char[]): removes leading and trailing characters of `cs`. */
  function TrimChars(s: string, cs: set<char>): string {
    TrimBy(s, c => c in cs)
  }

  /** Neither end of `s` is a character that `drop` selects. */
  predicate NoEdge(s: string, drop: char -> bool) {
    s != [] ==> !drop(s[0]) && !drop(s[|s| - 1])
  }

  lemma TrimByNoEdge(s: string, drop: char -> bool)
    requires NoEdge(s, drop)
    ensures TrimBy(s, drop) == s
  {
  }

  /** A trimmed string is blank exactly when it is empty, and trimming
    * removes only the selected characters: the result is a slice of `s`. */
  lemma TrimBlank(s: string)
    ensures IsBlank(s) <==> Trim(s) == []
    ensures exists i, j :: 0 <= i <= j <= |s| && Trim(s) == s[i..j]
  {
    var t := TrimStart(s, IsWhiteSpace);
    var r := TrimEnd(t, IsWhiteSpace);
    TrimStartSpec(s, IsWhiteSpace);
    TrimEndSpec(t, IsWhiteSpace);
    assert r == s[|s| - |t|..][..|r|];
    assert r == s[|s| - |t|..|s| - |t| + |r|];
    if r != [] {
      assert !IsWhiteSpace(r[0]);
      assert r[0] == s[|s| - |t|];
    }
  }

  /** Trimming with IsWhiteSpace leaves a string without white space at its ends. */
  lemma TrimNoEdge(s: string)
    ensures NoEdge(Trim(s), IsWhiteSpace)
  {
    var t := TrimStart(s, IsWhiteSpace);
    var r := TrimEnd(t, IsWhiteSpace);
    TrimStartSpec(s, IsWhiteSpace);
    TrimEndSpec(t, IsWhiteSpace);
    if r != [] {
      assert r[0] == t[0];
    }
  }

  /** A string whose ends are not white space is its own trim. */
  lemma TrimIdentity(s: string)
    requires NoEdge(s, IsWhiteSpace)
    ensures Trim(s) == s
  {
    TrimByNoEdge(s, IsWhiteSpace);
  }

  /** A string whose ends are not in `cs` is unchanged by TrimChars(cs). */
  lemma TrimCharsIdentity(s: string, cs: set<char>)
    requires s != [] ==> s[0] !in cs && s[|s| - 1] !in cs
    ensures TrimChars(s, cs) == s
  {
    TrimByNoEdge(s, c => c in cs);
  }

  /** TrimChars(cs) removes one character of `cs` on each side of a string
    * whose own ends are not in `cs`. */
  lemma TrimCharsWrapped(a: char, x: string, b: char, cs: set<char>)
    requires a in cs && b in cs
    requires x != [] && x[0] !in cs && x[|x| - 1] !in cs
    ensures TrimChars([a] + x + [b], cs) == x
  {
    var w := [a] + x + [b];
    assert w[1..] == x + [b];
    assert TrimStart(w, c => c in cs) == TrimStart(x + [b], c => c in cs);
    assert (x + [b])[0] == x[0];
    assert TrimStart(x + [b], c => c in cs) == x + [b];
    assert (x + [b])[..|x|] == x;
    assert TrimEnd(x + [b], c => c in cs) == TrimEnd(x, c => c in cs);
  }

  /** A string with a character that is not white space is not blank. */
  lemma NotBlank(s: string, i: nat)
    requires i < |s| && !IsWhiteSpace(s[i])
    ensures !IsBlank(s)
  {
  }

  /** String.Length: the number of UTF-16 code units, in which a character
    * beyond the Basic Multilingual Plane is a surrogate pair. */
  function Utf16Length(s: string): (n: nat)
    ensures |s| <= n <= 2 * |s|
    ensures (forall i :: 0 <= i < |s| ==> s[i] < '\U{10000}') ==> n == |s|
  {
    if s == [] then 0 else (if s[0] < '\U{10000}' then 1 else 2) + Utf16Length(s[1..])
  }

  /** A character beyond the Basic Multilingual Plane counts twice. */
  lemma SurrogatePairLength()
    ensures Utf16Length("a\U{1F600}") == 3
    ensures Utf16Length("\U{1F600}\U{1F600}") == 4
  {
    assert "a\U{1F600}"[1..] == "\U{1F600}";
    assert "\U{1F600}\U{1F600}"[1..] == "\U{1F600}";
    assert "\U{1F600}"[1..] == "";
  }

  /** String.IndexOf(char): the first position of `c`, or -1. */
  function IndexOf(s: string, c: char): (i: int)
    ensures -1 <= i < |s|
    ensures i == -1 <==> c !in s
    ensures i >= 0 ==> s[i] == c && c !in s[..i]
  {
    if s == [] then -1
    else if s[0] == c then 0
    else
      var j := IndexOf(s[1..], c);
      if j == -1 then -1
      else
        assert s[..j + 1] == [s[0]] + s[1..][..j];
        j + 1
  }

  /** String.Split(char): the pieces between occurrences of `sep`. */
  function Split(s: string, sep: char): (parts: seq<string>)
    ensures |parts| >= 1
    ensures sep !in s ==> parts == [s]
    decreases |s|
  {
    var i := IndexOf(s, sep);
    if i < 0 then [s] else [s[..i]] + Split(s[i + 1..], sep)
  }

  /** The first piece of a split stops at the first separator. */
  lemma SplitCons(a: string, sep: char, b: string)
    requires sep !in a
    ensures Split(a + [sep] + b, sep) == [a] + Split(b, sep)
  {
    var s := a + [sep] + b;
    var i := IndexOf(s, sep);
    assert s[|a|] == sep;
    assert s[..|a|] == a;
    assert s[|a| + 1..] == b;
  }

  /** ASCII upper- and lower-case mapping (the invariant culture on ASCII). */
  function ToUpperChar(c: char): char {
    if 'a' <= c <= 'z' then (c as int - 32) as char else c
  }

  function ToLowerChar(c: char): char {
    if 'A' <= c <= 'Z' then (c as int + 32) as char else c
  }

  /** String.ToLowerInvariant on ASCII. */
  function ToLower(s: string): (r: string)
    ensures |r| == |s|
    ensures forall i :: 0 <= i < |s| ==> r[i] == ToLowerChar(s[i])
  {
    if s == [] then [] else [ToLowerChar(s[0])] + ToLower(s[1..])
  }

  /** String.Equals(a, b, StringComparison.OrdinalIgnoreCase) on ASCII:
    * equal lengths and equal characters after upper-casing. */
  predicate EqualsIgnoreCase(a: string, b: string) {
    |a| == |b| && forall i :: 0 <= i < |a| ==> ToUpperChar(a[i]) == ToUpperChar(b[i])
  }

  /** The decimal digit for 0..9. */
  function DigitChar(d: int): (c: char)
    requires 0 <= d < 10
    ensures '0' <= c <= '9'
  {
    ('0' as int + d) as char
  }

  /** UInt32.ToString(): the decimal rendering, without leading zeros. */
  function NatToString(n: nat): (s: string)
    ensures |s| >= 1
    ensures forall i :: 0 <= i < |s| ==> '0' <= s[i] <= '9'
    ensures n > 0 ==> s[0] != '0'
  {
    if n < 10 then [DigitChar(n)] else NatToString(n / 10) + [DigitChar(n % 10)]
  }

  /** The value of a decimal digit string. */
  function DecimalValue(s: string): nat
    requires forall i :: 0 <= i < |s| ==> '0' <= s[i] <= '9'
  {
    if s == [] then 0 else 10 * DecimalValue(s[..|s| - 1]) + (s[|s| - 1] as int - '0' as int)
  }

  /** The decimal rendering of a number reads back as that number. */
  lemma {:induction false} DecimalRoundTrip(n: nat)
    ensures DecimalValue(NatToString(n)) == n
  {
    if n >= 10 {
      DecimalRoundTrip(n / 10);
      var s := NatToString(n);
      assert s[..|s| - 1] == NatToString(n / 10);
    }
  }

  /** Integer.ToString(): a minus sign before the magnitude when negative. */
  function IntToString(n: int): (s: string)
    ensures |s| >= 1
  {
    if n < 0 then "-" + NatToString(-n) else NatToString(n)
  }
}
