/** The hexadecimal text codec of Zongsoft.Common.Convert: ToHexString,
  * GetDigit, FromHexString and the TryParseHex overloads.
  *
  * .NET arrays that may be null are `array?`; a null or empty string is "".
  * Each encoder/decoder method is proved against a specification function
  * (HexText, HexDecode, HexNumber), and the round trip is proved about those
  * functions.
  */
module HexCodec {
  import opened Text
  import opened Results

  type Byte = b: int | 0 <= b < 256
  type Digit = d: int | 0 <= d < 16

  /** '\0' is the "no separator" value of ToHexString. */
  const NUL: char := '\0'

  predicate IsHexDigit(c: char) {
    ('0' <= c <= '9') || ('A' <= c <= 'F') || ('a' <= c <= 'f')
  }

  /** The value of a hexadecimal digit, as TryParseHex computes it. */
  function HexDigitValue(c: char): (d: Digit)
    requires IsHexDigit(c)
  {
    if '0' <= c <= '9' then c as int - '0' as int
    else if 'A' <= c <= 'F' then c as int - 'A' as int + 10
    else c as int - 'a' as int + 10
  }

  /** The letter base chosen by `isLower`. */
  function Alpha(isLower: bool): char {
    if isLower then 'a' else 'A'
  }

  /** GetDigit: the digit of a nibble, using letters from `alpha` above 9.
    * It is the inverse of HexDigitValue, and its letters have the case of `alpha`. */
  function GetDigit(value: Digit, alpha: char): (c: char)
    requires alpha == 'a' || alpha == 'A'
    ensures IsHexDigit(c) && HexDigitValue(c) == value
    ensures value < 10 <==> '0' <= c <= '9'
    ensures value >= 10 ==> (('a' <= c <= 'f') <==> alpha == 'a')
  {
    if value < 10 then ('0' as int + value) as char
    else (alpha as int + (value - 10)) as char
  }

  /** Characters per byte: two digits, plus one separator when there is one. */
  function Rank(separator: char): int {
    if separator == NUL then 2 else 3
  }

  /** Where the characters of byte i start: i times the rank. */
  function Offset(i: nat, separator: char): nat {
    if separator == NUL then 2 * i else 3 * i
  }

  /** The high and the low nibble of a byte. */
  function High(b: Byte): Digit { b / 16 }
  function Low(b: Byte): Digit { b % 16 }

  /** The two digits of one byte: high nibble, then low nibble. */
  function Pair(b: Byte, isLower: bool): seq<char> {
    [GetDigit(High(b), Alpha(isLower)), GetDigit(Low(b), Alpha(isLower))]
  }

  /** The text ToHexString produces: the pairs of all bytes, separated by
    * `separator` unless it is '\0'. */
  function HexText(bytes: seq<Byte>, separator: char, isLower: bool): string {
    if bytes == [] then []
    else if |bytes| == 1 || separator == NUL then Pair(bytes[0], isLower) + HexText(bytes[1..], separator, isLower)
    else Pair(bytes[0], isLower) + [separator] + HexText(bytes[1..], separator, isLower)
  }

  /** The length of the encoding: 2n without separator, 3n-1 with one, 0 when empty. */
  lemma {:induction false} HexTextLength(bytes: seq<Byte>, separator: char, isLower: bool)
    ensures |HexText(bytes, separator, isLower)|
         == if bytes == [] then 0 else Offset(|bytes|, separator) - (Rank(separator) - 2)
  {
    if |bytes| > 1 {
      HexTextLength(bytes[1..], separator, isLower);
    }
  }

  /** Where each character of the encoding comes from: position i*rank holds the
    * high-nibble digit of byte i, i*rank+1 its low-nibble digit, and i*rank+2 the
    * separator, except after the last byte. */
  lemma {:induction false} HexTextAt(bytes: seq<Byte>, separator: char, isLower: bool, i: nat)
    requires i < |bytes|
    ensures var s, r, p := HexText(bytes, separator, isLower), Rank(separator), Offset(i, separator);
      && p + 1 < |s|
      && s[p] == GetDigit(High(bytes[i]), Alpha(isLower))
      && s[p + 1] == GetDigit(Low(bytes[i]), Alpha(isLower))
      && (r == 3 && i < |bytes| - 1 ==> p + 2 < |s| && s[p + 2] == separator)
      && (i == |bytes| - 1 ==> p + 2 == |s|)
  {
    HexTextLength(bytes, separator, isLower);
    var s := HexText(bytes, separator, isLower);
    var head := if |bytes| == 1 || separator == NUL then Pair(bytes[0], isLower) else Pair(bytes[0], isLower) + [separator];
    var t := HexText(bytes[1..], separator, isLower);
    assert s == head + t;
    if i > 0 {
      HexTextAt(bytes[1..], separator, isLower, i - 1);
      assert |head| == Rank(separator);
      assert Offset(i, separator) == Offset(i - 1, separator) + |head|;
      assert bytes[1..][i - 1] == bytes[i];
    }
  }

  /** ToHexString(bytes, separator, isLower): fills a character array by index. */
  method ToHexString(bytes: array?<Byte>, separator: char, isLower: bool) returns (s: string)
    ensures bytes == null ==> s == ""
    ensures bytes != null ==> s == HexText(bytes[..], separator, isLower)
  {
    if bytes == null || bytes.Length < 1 {
      return "";
    }
    var alpha := if isLower then 'a' else 'A';
    var rank := if separator == '\0' then 2 else 3;
    ghost var b := bytes[..];
    ghost var expected := HexText(b, separator, isLower);
    HexTextLength(b, separator, isLower);
    assert bytes.Length * rank == Offset(bytes.Length, separator);
    var characters := new char[bytes.Length * rank - (rank - 2)];
    var p := 0;
    for i := 0 to bytes.Length
      invariant p == Offset(i, separator)
      invariant forall j :: 0 <= j < p && j < characters.Length ==> characters[j] == expected[j]
    {
      HexTextAt(b, separator, isLower, i);
      var value := bytes[i];
      assert value == b[i];
      characters[p] := GetDigit(High(value), alpha);
      characters[p + 1] := GetDigit(Low(value), alpha);
      if rank == 3 && i < bytes.Length - 1 {
        characters[p + 2] := separator;
      }
      p := p + rank;
    }
    s := characters[..];
  }

  /** ToHexString(bytes): upper case, no separator. */
  method ToHexStringUpper(bytes: array?<Byte>) returns (s: string)
    ensures bytes == null ==> s == ""
    ensures bytes != null ==> s == HexText(bytes[..], NUL, false)
    ensures bytes != null ==> |s| == 2 * bytes.Length
  {
    s := ToHexString(bytes, '\0', false);
    if bytes != null {
      HexTextLength(bytes[..], NUL, false);
    }
  }

  /** ToHexString(bytes, isLower): no separator. */
  method ToHexStringCase(bytes: array?<Byte>, isLower: bool) returns (s: string)
    ensures bytes == null ==> s == ""
    ensures bytes != null ==> s == HexText(bytes[..], NUL, isLower)
    ensures bytes != null ==> |s| == 2 * bytes.Length
  {
    s := ToHexString(bytes, '\0', isLower);
    if bytes != null {
      HexTextLength(bytes[..], NUL, isLower);
    }
  }

  /** The characters FromHexString ignores: white space and the separator. */
  predicate Skipped(c: char, separator: char) {
    IsWhiteSpace(c) || c == separator
  }

  /** The UTF-16 code units that `foreach (char c in text)` visits. A
    * character beyond the Basic Multilingual Plane is a surrogate pair; both
    * halves are written here as that character, since neither half is white
    * space, a hexadecimal digit or a valid separator. */
  function CodeUnits(text: string): (units: seq<char>)
    ensures |units| == Utf16Length(text)
  {
    if text == [] then []
    else (if text[0] < '\U{10000}' then [text[0]] else [text[0], text[0]]) + CodeUnits(text[1..])
  }

  lemma {:induction false} CodeUnitsConcat(a: string, b: string)
    ensures CodeUnits(a + b) == CodeUnits(a) + CodeUnits(b)
  {
    if a == [] {
      assert a + b == b;
    } else {
      assert (a + b)[0] == a[0];
      assert (a + b)[1..] == a[1..] + b;
      CodeUnitsConcat(a[1..], b);
    }
  }

  /** One character is one code unit, or two beyond the Basic Multilingual Plane. */
  lemma CodeUnitsSingle(c: char)
    ensures CodeUnits([c]) == if c < '\U{10000}' then [c] else [c, c]
  {
    assert [c][1..] == [];
    var head := if c < '\U{10000}' then [c] else [c, c];
    assert CodeUnits([c]) == head + CodeUnits([]);
    assert head + [] == head;
  }

  /** A text whose characters beyond the Basic Multilingual Plane are all the
    * separator collects the same characters as its code units. */
  lemma {:induction false} CodeUnitsNarrow(text: string, separator: char)
    requires forall k :: 0 <= k < |text| ==> text[k] < '\U{10000}' || text[k] == separator
    ensures Significant(CodeUnits(text), separator) == Significant(text, separator)
  {
    if text != [] {
      var c := text[0];
      CodeUnitsNarrow(text[1..], separator);
      var head := if c < '\U{10000}' then [c] else [c, c];
      assert CodeUnits(text) == head + CodeUnits(text[1..]);
      SignificantConcat(head, CodeUnits(text[1..]), separator);
      SignificantSingle(c, separator);
      if c >= '\U{10000}' {
        assert head == [c] + [c];
        SignificantConcat([c], [c], separator);
      }
    }
  }

  /** The characters FromHexString collects into its two-character buffer. */
  function Significant(text: string, separator: char): (r: string)
    ensures forall i :: 0 <= i < |r| ==> !Skipped(r[i], separator)
  {
    if text == [] then []
    else if Skipped(text[0], separator) then Significant(text[1..], separator)
    else [text[0]] + Significant(text[1..], separator)
  }

  lemma {:induction false} SignificantConcat(a: string, b: string, separator: char)
    ensures Significant(a + b, separator) == Significant(a, separator) + Significant(b, separator)
  {
    if a == [] {
      assert a + b == b;
    } else {
      assert (a + b)[0] == a[0];
      assert (a + b)[1..] == a[1..] + b;
      SignificantConcat(a[1..], b, separator);
    }
  }

  /** One character is kept exactly when it is not skipped. */
  lemma SignificantSingle(c: char, separator: char)
    ensures Significant([c], separator) == if Skipped(c, separator) then [] else [c]
  {
    assert [c][1..] == [];
    assert Significant([], separator) == [];
    if !Skipped(c, separator) {
      assert Significant([c], separator) == [c] + [];
    }
  }

  /** The digits of the non-white-space characters, or None if any of those
    * is not a hexadecimal digit: the first loop of TryParseHex. */
  function HexDigits(cs: seq<char>): Option<seq<Digit>> {
    if cs == [] then Some([])
    else if IsWhiteSpace(cs[0]) then HexDigits(cs[1..])
    else if !IsHexDigit(cs[0]) then None
    else match HexDigits(cs[1..])
      case None => None
      case Some(ds) => Some([HexDigitValue(cs[0])] + ds)
  }

  lemma {:induction false} HexDigitsConcat(a: seq<char>, b: seq<char>)
    ensures HexDigits(a + b)
         == if HexDigits(a).Some? && HexDigits(b).Some? then Some(HexDigits(a).value + HexDigits(b).value) else None
  {
    if a == [] {
      assert a + b == b;
      assert HexDigits(a) == Some([]);
      if HexDigits(b).Some? {
        assert [] + HexDigits(b).value == HexDigits(b).value;
      }
    } else {
      assert (a + b)[0] == a[0];
      assert (a + b)[1..] == a[1..] + b;
      HexDigitsConcat(a[1..], b);
      if IsWhiteSpace(a[0]) {
        assert HexDigits(a + b) == HexDigits(a[1..] + b);
        assert HexDigits(a) == HexDigits(a[1..]);
      } else if IsHexDigit(a[0]) {
        var v := HexDigitValue(a[0]);
        if HexDigits(a[1..]).Some? && HexDigits(b).Some? {
          var x, y := HexDigits(a[1..]).value, HexDigits(b).value;
          assert HexDigits(a + b) == Some([v] + (x + y));
          assert HexDigits(a) == Some([v] + x);
          assert [v] + (x + y) == ([v] + x) + y;
        }
      }
    }
  }

  /** One character: white space gives no digit, a digit its value, anything else fails. */
  lemma HexDigitsSingle(c: char)
    ensures HexDigits([c]) == if IsWhiteSpace(c) then Some([]) else if IsHexDigit(c) then Some([HexDigitValue(c)]) else None
  {
    assert [c][1..] == [];
    assert HexDigits([]) == Some([]);
    if !IsWhiteSpace(c) && IsHexDigit(c) {
      assert HexDigits([c]) == Some([HexDigitValue(c)] + []);
      assert [HexDigitValue(c)] + [] == [HexDigitValue(c)];
    }
  }

  function Pow16(n: nat): (p: nat)
    ensures p >= 1
  {
    if n == 0 then 1 else 16 * Pow16(n - 1)
  }

  /** The sum the second loop of TryParseHex accumulates: each digit weighted by
    * 16 to the power of the number of digits after it. */
  function DigitsValue(ds: seq<Digit>): nat {
    if ds == [] then 0 else ds[0] * Pow16(|ds| - 1) + DigitsValue(ds[1..])
  }

  /** DigitsValue is the positional base-16 value (Horner's rule). */
  lemma {:induction false} DigitsValueSnoc(ds: seq<Digit>, d: Digit)
    ensures DigitsValue(ds + [d]) == 16 * DigitsValue(ds) + d
  {
    if ds == [] {
      assert [] + [d] == [d];
      assert [d][1..] == [];
    } else {
      assert (ds + [d])[1..] == ds[1..] + [d];
      DigitsValueSnoc(ds[1..], d);
      var x, p := ds[0], Pow16(|ds| - 1);
      assert Pow16(|ds|) == 16 * p;
      assert DigitsValue(ds + [d]) == x * (16 * p) + DigitsValue(ds[1..] + [d]);
      assert x * (16 * p) == 16 * (x * p);
    }
  }

  /** A value of n digits is below 16 to the n. */
  lemma {:induction false} DigitsValueBound(ds: seq<Digit>)
    ensures DigitsValue(ds) < Pow16(|ds|)
  {
    if ds != [] {
      DigitsValueBound(ds[1..]);
      var x, p := ds[0], Pow16(|ds| - 1);
      assert x * p <= 15 * p by {
        assert (15 - x) * p >= 0;
      }
    }
  }

  /** The number TryParseHex(char[], out long) reports, or None when it fails. */
  function HexNumber(cs: seq<char>): Option<nat> {
    match HexDigits(cs)
    case None => None
    case Some(ds) => Some(DigitsValue(ds))
  }

  /** White space alone parses as 0. */
  lemma {:induction false} BlankIsZero(cs: seq<char>)
    requires IsBlank(cs)
    ensures HexNumber(cs) == Some(0)
  {
    if cs != [] {
      BlankIsZero(cs[1..]);
    }
  }

  /** Any character that is neither white space nor a digit makes the parse fail. */
  lemma InvalidCharFails(cs: seq<char>, i: nat)
    requires i < |cs| && !IsWhiteSpace(cs[i]) && !IsHexDigit(cs[i])
    ensures HexNumber(cs) == None
  {
    assert cs == cs[..i] + ([cs[i]] + cs[i + 1..]);
    HexDigitsConcat(cs[..i], [cs[i]] + cs[i + 1..]);
  }

  /** TryParseHex(char[], out long). Whitespace is skipped, any other non-digit
    * fails, and the digits are summed with their positional weights. */
  method TryParseHexLong(characters: array?<char>) returns (ok: bool, value: int)
    ensures characters == null ==> !ok && value == 0
    ensures characters != null ==> ok == HexNumber(characters[..]).Some?
    ensures characters != null ==> value == if ok then HexNumber(characters[..]).value else 0
  {
    value := 0;
    if characters == null {
      return false, 0;
    }
    var count := 0;
    var digits := new Digit[characters.Length];
    for j := 0 to characters.Length
      invariant count <= j
      invariant HexDigits(characters[..j]) == Some(digits[..count])
    {
      var character := characters[j];
      assert characters[..j + 1] == characters[..j] + [character];
      HexDigitsConcat(characters[..j], [character]);
      HexDigitsSingle(character);
      ghost var before := digits[..count];
      if IsWhiteSpace(character) {
        assert before + [] == before;
        continue;
      }
      if '0' <= character <= '9' {
        digits[count] := character as int - '0' as int;
      } else if 'A' <= character <= 'F' {
        digits[count] := character as int - 'A' as int + 10;
      } else if 'a' <= character <= 'f' {
        digits[count] := character as int - 'a' as int + 10;
      } else {
        InvalidCharFails(characters[..], j);
        return false, 0;
      }
      assert digits[count] == HexDigitValue(character);
      assert digits[..count] == before;
      count := count + 1;
      assert digits[..count] == before + [HexDigitValue(character)];
    }
    assert characters[..characters.Length] == characters[..];
    ghost var ds := digits[..count];
    var number := 0;
    for i := 0 to count
      invariant number + DigitsValue(ds[i..]) == DigitsValue(ds)
    {
      assert ds[i..][1..] == ds[i + 1..];
      number := number + digits[i] * Pow16(count - i - 1);
    }
    value := number;
    return true, value;
  }

  /** TryParseHex(char[], out byte): succeeds only for a value in 0..255; 0 on failure. */
  method TryParseHexByte(characters: array?<char>) returns (ok: bool, value: Byte)
    ensures ok <==> characters != null && HexNumber(characters[..]).Some? && HexNumber(characters[..]).value <= 255
    ensures value == if ok then HexNumber(characters[..]).value else 0
  {
    var parsed, number := TryParseHexLong(characters);
    if parsed && 0 <= number <= 255 {
      return true, number;
    }
    return false, 0;
  }

  /** TryParseHex(char[], out short): succeeds only within -32768..32767; 0 on failure. */
  method TryParseHexShort(characters: array?<char>) returns (ok: bool, value: int)
    ensures ok <==> characters != null && HexNumber(characters[..]).Some? && HexNumber(characters[..]).value <= 32767
    ensures value == if ok then HexNumber(characters[..]).value else 0
  {
    var parsed, number := TryParseHexLong(characters);
    if parsed && -32768 <= number <= 32767 {
      return true, number;
    }
    return false, 0;
  }

  /** TryParseHex(char[], out int): succeeds only within the 32-bit range; 0 on failure. */
  method TryParseHexInt(characters: array?<char>) returns (ok: bool, value: int)
    ensures ok <==> characters != null && HexNumber(characters[..]).Some? && HexNumber(characters[..]).value <= 0x7FFF_FFFF
    ensures value == if ok then HexNumber(characters[..]).value else 0
  {
    var parsed, number := TryParseHexLong(characters);
    if parsed && -0x8000_0000 <= number <= 0x7FFF_FFFF {
      return true, number;
    }
    return false, 0;
  }

  /** The byte TryParseHex(char[], out byte) makes of a two-character buffer. */
  function PairByte(a: char, b: char): Option<Byte> {
    match HexNumber([a, b])
    case Some(n) => if n <= 255 then Some(n) else None
    case None => None
  }

  /** Two non-white-space characters make a byte exactly when both are digits,
    * and the byte is 16 times the first digit plus the second. */
  lemma PairByteDigits(a: char, b: char)
    requires !IsWhiteSpace(a) && !IsWhiteSpace(b)
    ensures PairByte(a, b).Some? <==> IsHexDigit(a) && IsHexDigit(b)
    ensures PairByte(a, b).Some? ==> PairByte(a, b).value == 16 * HexDigitValue(a) + HexDigitValue(b)
  {
    assert [a, b][1..] == [b];
    HexDigitsSingle(b);
    if IsHexDigit(a) && IsHexDigit(b) {
      var da, db := HexDigitValue(a), HexDigitValue(b);
      var ds: seq<Digit> := [da, db];
      assert HexDigits([a, b]) == Some([da] + [db]);
      assert [da] + [db] == ds;
      assert ds[1..] == [db];
      assert [db][1..] == [];
      assert DigitsValue([db]) == db;
      assert Pow16(1) == 16;
      assert DigitsValue(ds) == da * Pow16(1) + DigitsValue([db]);
    } else if IsHexDigit(a) {
      assert HexDigits([b]) == None;
    }
  }

  /** The bytes that consecutive pairs of collected characters decode to; a
    * trailing unpaired character is ignored, and one invalid pair fails all. */
  function DecodePairs(cs: seq<char>): Option<seq<Byte>> {
    if |cs| < 2 then Some([])
    else match PairByte(cs[0], cs[1])
      case None => None
      case Some(b) =>
        match DecodePairs(cs[2..])
        case None => None
        case Some(rest) => Some([b] + rest)
  }

  /** What FromHexString decodes `text` to, or None for a format error: the
    * pairs of its collected code units. */
  function HexDecode(text: string, separator: char): Option<seq<Byte>> {
    DecodePairs(Significant(CodeUnits(text), separator))
  }

  lemma {:induction false} DecodePairsOdd(cs: seq<char>, c: char)
    requires |cs| % 2 == 0
    ensures DecodePairs(cs + [c]) == DecodePairs(cs)
    decreases |cs|
  {
    if |cs| >= 2 {
      assert (cs + [c])[2..] == cs[2..] + [c];
      DecodePairsOdd(cs[2..], c);
    }
  }

  lemma {:induction false} DecodePairsSnoc(cs: seq<char>, a: char, b: char)
    requires |cs| % 2 == 0
    ensures DecodePairs(cs + [a, b])
         == if DecodePairs(cs).Some? && PairByte(a, b).Some? then Some(DecodePairs(cs).value + [PairByte(a, b).value]) else None
    decreases |cs|
  {
    if |cs| >= 2 {
      assert (cs + [a, b])[2..] == cs[2..] + [a, b];
      assert (cs + [a, b])[0] == cs[0] && (cs + [a, b])[1] == cs[1];
      DecodePairsSnoc(cs[2..], a, b);
      if PairByte(cs[0], cs[1]).Some? && DecodePairs(cs[2..]).Some? && PairByte(a, b).Some? {
        var h, t, v := PairByte(cs[0], cs[1]).value, DecodePairs(cs[2..]).value, PairByte(a, b).value;
        assert DecodePairs(cs + [a, b]) == Some([h] + (t + [v]));
        assert [h] + (t + [v]) == ([h] + t) + [v];
      }
    } else {
      assert cs == [];
      assert cs + [a, b] == [a, b];
      assert [a, b][2..] == [];
      assert DecodePairs([]) == Some([]);
      if PairByte(a, b).Some? {
        var v := PairByte(a, b).value;
        assert DecodePairs([a, b]) == Some([v] + []);
        assert [v] + [] == [] + [v];
      }
    }
  }

  lemma {:induction false} DecodePairsFailed(cs: seq<char>, more: seq<char>)
    requires |cs| % 2 == 0 && DecodePairs(cs) == None
    ensures DecodePairs(cs + more) == None
    decreases |cs|
  {
    assert |cs| >= 2;
    assert (cs + more)[..2] == cs[..2];
    if PairByte(cs[0], cs[1]).Some? {
      assert (cs + more)[2..] == cs[2..] + more;
      DecodePairsFailed(cs[2..], more);
    }
  }

  /** Extending the text by one character extends the collected characters by
    * that character exactly when it is not skipped. */
  lemma SignificantPrefix(text: string, j: nat, separator: char)
    requires j < |text|
    ensures Significant(text[..j + 1], separator)
         == Significant(text[..j], separator) + if Skipped(text[j], separator) then [] else [text[j]]
  {
    assert text[..j + 1] == text[..j] + [text[j]];
    SignificantConcat(text[..j], [text[j]], separator);
    SignificantSingle(text[j], separator);
  }

  /** The step of FromHexString that completes a pair: the collected units
    * gains both characters, and a bad pair fails the whole units. */
  lemma PairCompleted(units: string, j: nat, separator: char, paired: seq<char>, result: seq<Byte>,
                      pair: seq<char>, ok: bool, value: Byte)
    requires j < |units| && !Skipped(units[j], separator)
    requires |paired| % 2 == 0 && DecodePairs(paired) == Some(result)
    requires |pair| == 2 && pair[1] == units[j]
    requires Significant(units[..j], separator) == paired + [pair[0]]
    requires ok <==> HexNumber(pair).Some? && HexNumber(pair).value <= 255
    requires value == if ok then HexNumber(pair).value else 0
    ensures Significant(units[..j + 1], separator) == paired + pair
    ensures |paired + pair| % 2 == 0
    ensures ok ==> DecodePairs(paired + pair) == Some(result + [value])
    ensures !ok ==> DecodePairs(Significant(units, separator)) == None
  {
    SignificantPrefix(units, j, separator);
    assert pair == [pair[0], pair[1]];
    assert paired + [pair[0]] + [units[j]] == paired + pair;
    DecodePairsSnoc(paired, pair[0], pair[1]);
    EvenPlusTwo(|paired|);
    if !ok {
      assert PairByte(pair[0], pair[1]).None?;
      assert DecodePairs(paired + pair) == None;
      assert |Significant(units[..j + 1], separator)| == |paired| + 2;
      PrefixFails(units, j + 1, separator);
    }
  }

  lemma EvenPlusTwo(n: nat)
    requires n % 2 == 0
    ensures (n + 2) % 2 == 0
  {
  }

  /** Once the collected prefix holds a bad pair, the whole units fails. */
  lemma PrefixFails(units: string, j: nat, separator: char)
    requires j <= |units|
    requires |Significant(units[..j], separator)| % 2 == 0 && DecodePairs(Significant(units[..j], separator)) == None
    ensures DecodePairs(Significant(units, separator)) == None
  {
    assert units == units[..j] + units[j..];
    SignificantConcat(units[..j], units[j..], separator);
    DecodePairsFailed(Significant(units[..j], separator), Significant(units[j..], separator));
  }

  /** The result of FromHexString: the bytes, or the FormatException it throws. */
  datatype HexResult = Bytes(bytes: seq<Byte>) | FormatError

  /** FromHexString(text, separator, throwExceptionOnFormat): decodes pairs of
    * characters through a two-character buffer, skipping white space and the
    * separator. A bad pair throws, or gives an empty array when throwing is off. */
  method FromHexString(text: string, separator: char, throwExceptionOnFormat: bool) returns (r: HexResult)
    ensures HexDecode(text, separator).Some? ==> r == Bytes(HexDecode(text, separator).value)
    ensures HexDecode(text, separator).None? ==> r == if throwExceptionOnFormat then FormatError else Bytes([])
  {
    if text == "" {
      return Bytes([]);
    }
    var units := CodeUnits(text);
    var index := 0;
    var buffer := new char[2];
    var result: seq<Byte> := [];
    ghost var paired: seq<char> := [];
    for j := 0 to |units|
      invariant |paired| % 2 == 0
      invariant DecodePairs(paired) == Some(result)
      invariant index == 0 || index == 1
      invariant Significant(units[..j], separator) == paired + if index == 1 then [buffer[0]] else []
    {
      var character := units[j];
      SignificantPrefix(units, j, separator);
      if IsWhiteSpace(character) || character == separator {
        continue;
      }
      buffer[index] := character;
      index := index + 1;
      if index == buffer.Length {
        index := 0;
        var ok, value := TryParseHexByte(buffer);
        ghost var pair := buffer[..];
        PairCompleted(units, j, separator, paired, result, pair, ok, value);
        paired := paired + pair;
        if ok {
          result := result + [value];
        } else {
          if throwExceptionOnFormat {
            return FormatError;
          } else {
            return Bytes([]);
          }
        }
      }
    }
    assert units[..|units|] == units;
    if index == 1 {
      DecodePairsOdd(paired, buffer[0]);
    } else {
      assert paired + [] == paired;
    }
    return Bytes(result);
  }

  /** FromHexString(text): no separator, throws on a bad pair. */
  method FromHexStringStrict(text: string) returns (r: HexResult)
    ensures r == if HexDecode(text, NUL).Some? then Bytes(HexDecode(text, NUL).value) else FormatError
  {
    r := FromHexString(text, '\0', true);
  }

  /** FromHexString(text, separator): throws on a bad pair. */
  method FromHexStringSeparated(text: string, separator: char) returns (r: HexResult)
    ensures r == if HexDecode(text, separator).Some? then Bytes(HexDecode(text, separator).value) else FormatError
  {
    r := FromHexString(text, separator, true);
  }

  /** The digits of all bytes, without separators. */
  function Digits(bytes: seq<Byte>, isLower: bool): string {
    if bytes == [] then [] else Pair(bytes[0], isLower) + Digits(bytes[1..], isLower)
  }

  lemma {:induction false} SignificantOfHexText(bytes: seq<Byte>, separator: char, isLower: bool)
    requires !IsHexDigit(separator)
    ensures Significant(HexText(bytes, separator, isLower), separator) == Digits(bytes, isLower)
  {
    if bytes != [] {
      var p := Pair(bytes[0], isLower);
      assert !Skipped(p[0], separator) && !Skipped(p[1], separator);
      assert p == [p[0]] + [p[1]];
      SignificantSingle(p[0], separator);
      SignificantSingle(p[1], separator);
      SignificantConcat([p[0]], [p[1]], separator);
      assert Significant(p, separator) == p;
      SignificantOfHexText(bytes[1..], separator, isLower);
      var rest := HexText(bytes[1..], separator, isLower);
      if |bytes| == 1 || separator == NUL {
        SignificantConcat(p, rest, separator);
      } else {
        SignificantConcat(p + [separator], rest, separator);
        SignificantConcat(p, [separator], separator);
      }
    }
  }

  lemma {:induction false} DecodeDigits(bytes: seq<Byte>, isLower: bool)
    ensures DecodePairs(Digits(bytes, isLower)) == Some(bytes)
  {
    if bytes != [] {
      var b := bytes[0];
      var p := Pair(b, isLower);
      assert HexDigitValue(p[0]) == High(b) && HexDigitValue(p[1]) == Low(b);
      PairByteDigits(p[0], p[1]);
      assert PairByte(p[0], p[1]) == Some(b);
      var cs := Digits(bytes, isLower);
      assert cs[0] == p[0] && cs[1] == p[1];
      assert cs[2..] == Digits(bytes[1..], isLower);
      DecodeDigits(bytes[1..], isLower);
      assert [b] + bytes[1..] == bytes;
    }
  }

  /** Round trip: decoding the encoding of any bytes with the same separator gives
    * the bytes back, whenever the separator is not itself a hexadecimal digit. */
  lemma RoundTrip(bytes: seq<Byte>, separator: char, isLower: bool)
    requires !IsHexDigit(separator)
    ensures HexDecode(HexText(bytes, separator, isLower), separator) == Some(bytes)
  {
    var s := HexText(bytes, separator, isLower);
    HexTextNarrow(bytes, separator, isLower);
    assert forall k :: 0 <= k < |s| ==> s[k] < '\U{10000}' || s[k] == separator by {
      forall k | 0 <= k < |s| ensures s[k] < '\U{10000}' || s[k] == separator {
        assert IsHexDigit(s[k]) || s[k] == separator;
      }
    }
    CodeUnitsNarrow(s, separator);
    SignificantOfHexText(bytes, separator, isLower);
    DecodeDigits(bytes, isLower);
  }

  /** An encoding holds only hexadecimal digits and the separator. */
  lemma {:induction false} HexTextNarrow(bytes: seq<Byte>, separator: char, isLower: bool)
    ensures forall k :: 0 <= k < |HexText(bytes, separator, isLower)| ==>
      IsHexDigit(HexText(bytes, separator, isLower)[k]) || HexText(bytes, separator, isLower)[k] == separator
  {
    if bytes != [] {
      HexTextNarrow(bytes[1..], separator, isLower);
      var p := Pair(bytes[0], isLower);
      var rest := HexText(bytes[1..], separator, isLower);
      var head := if |bytes| == 1 || separator == NUL then p else p + [separator];
      var s := HexText(bytes, separator, isLower);
      assert s == head + rest;
      forall k | 0 <= k < |s|
        ensures IsHexDigit(s[k]) || s[k] == separator
      {
        if k >= |head| {
          assert s[k] == rest[k - |head|];
        } else if k < 2 {
          assert s[k] == p[k];
          assert IsHexDigit(p[0]) && IsHexDigit(p[1]);
        } else {
          assert s[k] == separator;
        }
      }
    }
  }

  /** A trailing unpaired character of the Basic Multilingual Plane is
    * dropped silently. */
  lemma TrailingCharDropped(text: string, separator: char, c: char)
    requires |Significant(CodeUnits(text), separator)| % 2 == 0 && c < '\U{10000}'
    ensures HexDecode(text + [c], separator) == HexDecode(text, separator)
  {
    var units := CodeUnits(text);
    CodeUnitsConcat(text, [c]);
    CodeUnitsSingle(c);
    SignificantConcat(units, [c], separator);
    assert Significant([c], separator) == (if Skipped(c, separator) then [] else [c]);
    if !Skipped(c, separator) {
      DecodePairsOdd(Significant(units, separator), c);
    } else {
      assert Significant(units, separator) + [] == Significant(units, separator);
    }
  }

  /** A trailing character beyond the Basic Multilingual Plane is a surrogate
    * pair, which fills the buffer with two units that are not hexadecimal
    * digits, so the text fails to decode. */
  lemma AstralCharFails(text: string, separator: char, c: char)
    requires |Significant(CodeUnits(text), separator)| % 2 == 0 && c >= '\U{10000}' && c != separator
    ensures HexDecode(text + [c], separator) == None
  {
    AstralCollected(text, separator, c);
    PairByteDigits(c, c);
    DecodePairsSnoc(Significant(CodeUnits(text), separator), c, c);
  }

  /** "AB" followed by U+1F600 fails, although "AB" alone decodes to 0xAB. */
  lemma AstralExample()
    ensures HexDecode("AB", NUL) == Some([0xAB])
    ensures HexDecode("AB\U{1F600}", NUL) == None
  {
    RoundTrip([0xAB], NUL, false);
    assert HexText([0xAB], NUL, false) == "AB";
    CodeUnitsNarrow("AB", NUL);
    assert Significant("AB", NUL) == "AB";
    assert "AB" + ['\U{1F600}'] == "AB\U{1F600}";
    AstralCharFails("AB", NUL, '\U{1F600}');
  }

  /** Both halves of a surrogate pair are collected. */
  lemma AstralCollected(text: string, separator: char, c: char)
    requires c >= '\U{10000}' && c != separator
    ensures Significant(CodeUnits(text + [c]), separator) == Significant(CodeUnits(text), separator) + [c, c]
  {
    var units := CodeUnits(text);
    CodeUnitsConcat(text, [c]);
    CodeUnitsSingle(c);
    assert [c, c] == [c] + [c];
    SignificantConcat([c], [c], separator);
    SignificantSingle(c, separator);
    SignificantConcat(units, [c, c], separator);
  }
}
