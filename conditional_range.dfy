/** Zongsoft.Data.ConditionalRange: a range with an optional lower and upper
  * boundary, normalising setters, a condition builder, a printer for the
  * "(from~to)" syntax and its parser.
  *
  * The value conversion of TryParse<T> (Convert.TryConvertValue, driven by
  * reflection and type converters) is the parameter `convert`; the string
  * instantiation used by TryParse(text) and Parse is StringConvert.
  */
module Ranges {
  import opened Text
  import opened Results
  import opened Conditions

  /** A boundary after GetValue: never DBNull, never an enumerable, never a
    * blank string. */
  predicate Normalized(v: Value) {
    match v
    case DBNull => false
    case Items(_) => false
    case Str(s) => !IsBlank(s)
    case _ => true
  }

  /** GetValue: null, DBNull and blank strings become null, a string is kept
    * untrimmed, a non-string enumerable stands for its first element
    * (recursively) or for null when empty, anything else is kept. */
  function GetValue(v: Value): (r: Value)
    ensures Normalized(r)
  {
    match v
    case Null => Null
    case DBNull => Null
    case Str(s) => if IsBlank(s) then Null else v
    case Items(elems) => if elems == [] then Null else GetValue(elems[0])
    case Number(_) => v
  }

  /** GetValue changes exactly the values that are not yet normalised; in
    * particular it is idempotent. */
  lemma GetValueFixpoint(v: Value)
    ensures GetValue(v) == v <==> Normalized(v)
    ensures GetValue(GetValue(v)) == GetValue(v)
  {
  }

  /** A non-string enumerable is normalised through its first element only. */
  lemma {:induction false} GetValueFirst(elems: seq<Value>, rest: seq<Value>)
    requires elems != []
    ensures GetValue(Items(elems + rest)) == GetValue(elems[0])
  {
    assert (elems + rest)[0] == elems[0];
  }

  /** The two boundaries of a range, as TryParse reports them. */
  datatype Bounds = Bounds(from: Value, to: Value)

  /** The boundaries a condition built by ToCondition carries: the inverse of
    * ToCondition. */
  function ConditionBounds(c: ICondition): Bounds {
    match c
    case Cond(_, v, LessThanEqual) => Bounds(Null, v)
    case Cond(_, v, GreaterThanEqual) => Bounds(v, Null)
    case Cond(_, Items(vs), Between) => if |vs| == 2 then Bounds(vs[0], vs[1]) else Bounds(Null, Null)
    case _ => Bounds(Null, Null)
  }

  /** Text of a range: "", "(~to)", "(from)" or "(from~to)". */
  function RangeText(b: Bounds): string {
    if b.from == Null then
      if b.to == Null then "" else "(~" + Display(b.to) + ")"
    else
      if b.to == Null then "(" + Display(b.from) + ")" else "(" + Display(b.from) + "~" + Display(b.to) + ")"
  }

  class ConditionalRange {
    var from: Value
    var to: Value

    ghost predicate Valid()
      reads this
    {
      Normalized(from) && Normalized(to)
    }

    /** ConditionalRange(): both boundaries null. */
    constructor ()
      ensures from == Null && to == Null && Valid()
    {
      from := Null;
      to := Null;
    }

    /** ConditionalRange(from, to): both boundaries go through their setters. */
    constructor Init(f: Value, t: Value)
      ensures from == GetValue(f) && to == GetValue(t) && Valid()
    {
      from := Null;
      to := Null;
      new;
      SetFrom(f);
      SetTo(t);
    }

    /** The From setter. */
    method SetFrom(v: Value)
      modifies this
      ensures from == GetValue(v) && to == old(to)
      ensures old(Valid()) ==> Valid()
    {
      from := GetValue(v);
    }

    /** The To setter. */
    method SetTo(v: Value)
      modifies this
      ensures to == GetValue(v) && from == old(from)
      ensures old(Valid()) ==> Valid()
    {
      to := GetValue(v);
    }

    function Boundaries(): Bounds
      reads this
    {
      Bounds(from, to)
    }

    /** HasValue: a condition exists exactly when some boundary is set. */
    function HasValue(): (b: bool)
      reads this
      ensures b <==> ToCondition("").Some?
    {
      from != Null || to != Null
    }

    /** ToCondition(name): nothing without boundaries, `<= to`, `>= from`, or
      * Between over [from, to]; the condition carries back exactly the
      * boundaries and the member name. */
    function ToCondition(name: string): (c: Option<ICondition>)
      reads this
      ensures c.None? <==> from == Null && to == Null
      ensures c.Some? ==> c.value.Cond? && c.value.name == name
      ensures c.Some? ==> ConditionBounds(c.value) == Boundaries()
      ensures c.Some? ==> c.value.op == if from == Null then LessThanEqual else if to == Null then GreaterThanEqual else Between
    {
      if from == Null then
        if to == Null then None else Some(Cond(name, to, LessThanEqual))
      else
        if to == Null then Some(Cond(name, from, GreaterThanEqual))
        else Some(Cond(name, Items([from, to]), Between))
    }

    /** ToString: empty exactly when the range has no boundary; otherwise it
      * is parenthesised. */
    function ToString(): (s: string)
      reads this
      ensures s == [] <==> !HasValue()
      ensures s != [] ==> s[0] == '(' && s[|s| - 1] == ')'
    {
      RangeText(Boundaries())
    }
  }

  /** IsEmpty: a null range or one without boundaries. */
  function IsEmpty(r: ConditionalRange?): (b: bool)
    reads r
    ensures b <==> r == null || !r.HasValue()
  {
    r == null || (r.from == Null && r.to == Null)
  }

  /** The characters TryParse strips around the whole text and around each part. */
  const Parens: set<char> := {'(', ')'}
  const Wildcards: set<char> := {'?', '*'}

  /** text.Trim().Trim('(', ')') */
  function Inner(text: string): string {
    TrimChars(Trim(text), Parens)
  }

  /** p.Trim().Trim('?', '*') */
  function Part(p: string): string {
    TrimChars(Trim(p), Wildcards)
  }

  /** text.Split('~').Select(Part) */
  function Parts(text: string): seq<string> {
    var pieces := Split(text, '~');
    seq(|pieces|, i requires 0 <= i < |pieces| => Part(pieces[i]))
  }

  /** What TryParse<T> reports: whether it returned true, and the range
    * assigned to its out-parameter (None for null). */
  datatype ParseResult = ParseResult(ok: bool, range: Option<Bounds>)

  /** TryParse<T>(text, out result) as a function of the text and of the
    * conversion to T. Only the first two parts count. */
  function RangeParse(text: string, convert: string -> Option<Value>): ParseResult {
    if IsBlank(text) then ParseResult(false, None)
    else
      var inner := Inner(text);
      if IsBlank(inner) then ParseResult(false, None)
      else
        var parts := Parts(inner);
        PartsResult(parts[0], if |parts| > 1 then parts[1] else "", convert)
  }

  /** The boundaries TryParse<T> sets from its first two parts. A part that
    * fails conversion makes it return false; when that is the second part,
    * the range already holding the lower boundary stays in the out-parameter. */
  function PartsResult(first: string, second: string, convert: string -> Option<Value>): ParseResult {
    if !IsBlank(first) && convert(first).None? then ParseResult(false, None)
    else
      var lower := if IsBlank(first) then None else Some(Bounds(GetValue(convert(first).value), Null));
      if IsBlank(second) then ParseResult(true, lower)
      else if convert(second).None? then ParseResult(false, lower)
      else
        var f := if lower.Some? then lower.value.from else Null;
        ParseResult(true, Some(Bounds(f, GetValue(convert(second).value))))
  }

  /** TryConvertValue<string>: every string converts to itself. */
  function StringConvert(s: string): Option<Value> {
    Some(Str(s))
  }

  /** TryParse<T>(text, out result): the result is created lazily when the
    * first boundary is assigned. */
  method TryParse(text: string, convert: string -> Option<Value>) returns (ok: bool, result: ConditionalRange?)
    ensures ok == RangeParse(text, convert).ok
    ensures result == null <==> RangeParse(text, convert).range.None?
    ensures result != null ==> fresh(result) && result.Valid()
    ensures result != null ==> result.Boundaries() == RangeParse(text, convert).range.value
  {
    result := null;
    if IsBlank(text) {
      assert RangeParse(text, convert) == ParseResult(false, None);
      return false, result;
    }
    var inner := Inner(text);
    if IsBlank(inner) {
      assert RangeParse(text, convert) == ParseResult(false, None);
      return false, result;
    }
    var parts := Parts(inner);
    ghost var spec := PartsResult(parts[0], if |parts| > 1 then parts[1] else "", convert);
    assert RangeParse(text, convert) == spec;
    if !IsBlank(parts[0]) {
      var from := convert(parts[0]);
      if from.None? {
        assert spec == ParseResult(false, None);
        return false, result;
      }
      if result == null {
        result := new ConditionalRange();
      }
      result.SetFrom(from.value);
    }
    ghost var lower := if result == null then None else Some(result.Boundaries());
    assert result != null ==> lower.value.to == Null;
    if |parts| > 1 && !IsBlank(parts[1]) {
      var to := convert(parts[1]);
      if to.None? {
        assert spec == ParseResult(false, lower);
        return false, result;
      }
      if result == null {
        result := new ConditionalRange();
      }
      result.SetTo(to.value);
      assert result.Boundaries() == Bounds(if lower.Some? then lower.value.from else Null, GetValue(to.value));
      assert spec == ParseResult(true, Some(result.Boundaries()));
    } else {
      assert spec == ParseResult(true, lower);
    }
    return true, result;
  }

  /** TryParse(text): the string instantiation. */
  method TryParseString(text: string) returns (ok: bool, result: ConditionalRange?)
    ensures ok == RangeParse(text, StringConvert).ok
    ensures result == null <==> RangeParse(text, StringConvert).range.None?
    ensures result != null ==> fresh(result) && result.Boundaries() == RangeParse(text, StringConvert).range.value
  {
    ok, result := TryParse(text, StringConvert);
  }

  /** Parse(text): null for blank text and for a failed parse, otherwise the
    * parsed range (itself null for a range without boundaries). */
  method Parse(text: string) returns (result: ConditionalRange?)
    ensures var p := RangeParse(text, StringConvert);
      if !p.ok || p.range.None? then result == null
      else result != null && fresh(result) && result.Boundaries() == p.range.value
  {
    if IsBlank(text) {
      return null;
    }
    var ok, r := TryParseString(text);
    if ok {
      return r;
    }
    return null;
  }

  /** Blank text, and text that is blank once white space and the surrounding
    * parentheses are stripped, fail with a null result. */
  lemma ParseBlank(text: string)
    requires IsBlank(text) || IsBlank(Inner(text))
    ensures RangeParse(text, StringConvert) == ParseResult(false, None)
  {
  }

  /** "(~)" and "()" style texts whose two parts are blank succeed without a range. */
  lemma ParseEmptyParts(text: string, convert: string -> Option<Value>)
    requires !IsBlank(text) && !IsBlank(Inner(text))
    requires IsBlank(Parts(Inner(text))[0])
    requires |Parts(Inner(text))| > 1 ==> IsBlank(Parts(Inner(text))[1])
    ensures RangeParse(text, convert) == ParseResult(true, None)
  {
  }

  /** The text "(~)" parses to true with a null range. */
  lemma ParseTilde()
    ensures RangeParse("(~)", StringConvert) == ParseResult(true, None)
  {
    var text := "(~)";
    assert text[0] == '(' && text[1] == '~';
    NotBlank(text, 0);
    TrimIdentity(text);
    assert text == ['('] + "~" + [')'];
    TrimCharsWrapped('(', "~", ')', Parens);
    assert Inner(text) == "~";
    NotBlank("~", 0);
    assert "~" == "" + ['~'] + "";
    SplitCons("", '~', "");
    assert Split("~", '~') == ["", ""];
    assert Part("") == "";
  }

  /** A failed conversion of a non-blank part makes TryParse return false. */
  lemma ParseConversionFails(text: string, convert: string -> Option<Value>, i: nat)
    requires !IsBlank(text) && !IsBlank(Inner(text))
    requires i < 2 && i < |Parts(Inner(text))|
    requires !IsBlank(Parts(Inner(text))[i]) && convert(Parts(Inner(text))[i]).None?
    requires i == 1 ==> IsBlank(Parts(Inner(text))[0]) || convert(Parts(Inner(text))[0]).Some?
    ensures !RangeParse(text, convert).ok
  {
  }

  /** A boundary that prints and parses back to itself: null, or a string of
    * characters that are not '~', with no white space, parenthesis, '?' or
    * '*' at either end. */
  predicate Clean(v: Value) {
    match v
    case Null => true
    case Str(s) =>
      && s != [] && '~' !in s
      && !IsWhiteSpace(s[0]) && !IsWhiteSpace(s[|s| - 1])
      && s[0] !in Parens + Wildcards && s[|s| - 1] !in Parens + Wildcards
    case _ => false
  }

  /** A clean string is its own part. */
  lemma CleanPart(s: string)
    requires Clean(Str(s))
    ensures Part(s) == s && !IsBlank(s)
  {
    TrimIdentity(s);
    TrimCharsIdentity(s, Wildcards);
    NotBlank(s, 0);
  }

  /** The parser applied to parenthesised text: the inner text is what is split. */
  lemma {:induction false} InnerOfWrapped(x: string)
    requires x != [] && x[0] !in Parens && x[|x| - 1] !in Parens
    ensures Inner("(" + x + ")") == x
  {
    var w := "(" + x + ")";
    assert w == ['('] + x + [')'];
    assert w[0] == '(' && w[|w| - 1] == ')';
    TrimIdentity(w);
    TrimCharsWrapped('(', x, ')', Parens);
  }

  /** Parsing "(~to)" gives the upper boundary alone. */
  lemma RoundTripUpper(t: string)
    requires Clean(Str(t))
    ensures RangeParse("(~" + t + ")", StringConvert) == ParseResult(true, Some(Bounds(Null, Str(t))))
  {
    var text := "(~" + t + ")";
    CleanPart(t);
    var x := "~" + t;
    assert text == "(" + x + ")";
    NotBlank(text, 0);
    InnerOfWrapped(x);
    NotBlank(x, 0);
    assert x == "" + ['~'] + t;
    SplitCons("", '~', t);
    assert Split(x, '~') == ["", t];
    assert Part("") == "";
    assert Parts(x) == ["", t];
  }

  /** Parsing "(from)" gives the lower boundary alone. */
  lemma RoundTripLower(f: string)
    requires Clean(Str(f))
    ensures RangeParse("(" + f + ")", StringConvert) == ParseResult(true, Some(Bounds(Str(f), Null)))
  {
    var text := "(" + f + ")";
    CleanPart(f);
    NotBlank(text, 0);
    InnerOfWrapped(f);
    assert Split(f, '~') == [f];
    assert Parts(f) == [f];
  }

  /** The text "(from~to)" splits into the two clean boundaries. */
  lemma BothParts(f: string, t: string)
    requires Clean(Str(f)) && Clean(Str(t))
    ensures !IsBlank("(" + f + "~" + t + ")")
    ensures Inner("(" + f + "~" + t + ")") == f + "~" + t
    ensures !IsBlank(f + "~" + t)
    ensures Parts(f + "~" + t) == [f, t]
  {
    var text := "(" + f + "~" + t + ")";
    var x := f + "~" + t;
    assert x[0] == f[0] && x[|x| - 1] == t[|t| - 1];
    assert text == "(" + x + ")";
    NotBlank(text, 0);
    NotBlank(x, 0);
    InnerOfWrapped(x);
    assert x == f + ['~'] + t;
    SplitCons(f, '~', t);
    assert Split(x, '~') == [f, t];
    CleanPart(f);
    CleanPart(t);
  }

  /** Parsing "(from~to)" gives both boundaries. */
  lemma RoundTripBoth(f: string, t: string)
    requires Clean(Str(f)) && Clean(Str(t))
    ensures RangeParse("(" + f + "~" + t + ")", StringConvert) == ParseResult(true, Some(Bounds(Str(f), Str(t))))
  {
    BothParts(f, t);
    CleanPart(f);
    CleanPart(t);
  }

  /** Round trip: the text ToString prints for clean string boundaries parses
    * back, with TryParse(text), to the same boundaries; an empty range prints
    * "" which fails to parse. */
  lemma RoundTrip(b: Bounds)
    requires Clean(b.from) && Clean(b.to)
    ensures RangeParse(RangeText(b), StringConvert)
         == if b.from == Null && b.to == Null then ParseResult(false, None) else ParseResult(true, Some(b))
  {
    if b.from == Null && b.to != Null {
      RoundTripUpper(b.to.s);
    } else if b.from != Null && b.to == Null {
      RoundTripLower(b.from.s);
    } else if b.from != Null {
      RoundTripBoth(b.from.s, b.to.s);
    }
  }

  /** The same round trip stated on a ConditionalRange object. */
  lemma RangeRoundTrip(r: ConditionalRange)
    requires Clean(r.from) && Clean(r.to)
    ensures RangeParse(r.ToString(), StringConvert)
         == if r.HasValue() then ParseResult(true, Some(r.Boundaries())) else ParseResult(false, None)
  {
    RoundTrip(r.Boundaries());
  }
}
