/** DataService.DataSequence: the auto-increment key fields of a data
  * service. A DataSequenceAttribute names the sequence provider, the key
  * fields (the last one is the field to fill, the others qualify the
  * sequence key) and an optional prefix; Increments fills the field from the
  * provider when the inserted record leaves it null or zero.
  *
  * A DataDictionary is a map from member names to values; a member that is
  * absent reads as null. ISequence.Increment is the function `next` of the
  * call it receives, and each call is returned in order.
  */
module DataSequences {
  import opened Text
  import opened Results
  import opened Conditions
  import opened DataKeys

  /** A DataDictionary<TEntity>: the member values of one record. */
  type Record = map<string, Value>

  /** DataDictionary.Get: the value of a member, null when absent. */
  function Get(data: Record, key: string): Value {
    if key in data then data[key] else Null
  }

  /** DataSequenceAttribute: the sequence provider's name (blank for the
    * default provider), the key fields, the prefix and the seed. */
  datatype SequenceAttribute = SequenceAttribute(sequenceName: string, keys: seq<string>, prefix: string, seed: int)

  /** DataSequenceToken: the resolved provider and its attribute. */
  datatype Token = Token(sequence: nat, attribute: SequenceAttribute)

  /** One call of ISequence.Increment(key, interval, seed) on a provider. */
  datatype SequenceCall = SequenceCall(sequence: nat, key: string, interval: int, seed: int)

  const SequenceKeyPrefix: string := "Zongsoft.Data.Sequence"

  /** 2^64: the range of UInt64 is 0 .. 2^64 - 1. */
  const UInt64Range: int := 0x1_0000_0000_0000_0000

  /** The field an attribute fills: its last key. */
  function LastKey(attribute: SequenceAttribute): string
    requires |attribute.keys| >= 1
  {
    attribute.keys[|attribute.keys| - 1]
  }

  function PrefixPart(prefix: string): string {
    if IsBlank(prefix) then "" else ":" + prefix
  }

  /** The part of the sequence key a qualifying key contributes: nothing for
    * a null value, else a colon and the value's lower-cased text. */
  function KeyPart(data: Record, key: string): string {
    var value := Get(data, key);
    if value == Null then "" else ":" + ToLower(Display(value))
  }

  function LeadingParts(data: Record, keys: seq<string>): string {
    if keys == [] then "" else LeadingParts(data, keys[..|keys| - 1]) + KeyPart(data, keys[|keys| - 1])
  }

  /** The sequence key of a record: the constant prefix, the attribute's
    * prefix, the parts of the qualifying keys and the field name, lower-cased. */
  function SequenceKey(data: Record, attribute: SequenceAttribute): string
    requires |attribute.keys| >= 1
  {
    SequenceKeyPrefix + PrefixPart(attribute.prefix) + LeadingParts(data, attribute.keys[..|attribute.keys| - 1])
      + ":" + ToLower(LastKey(attribute))
  }

  lemma LeadingPartsStep(data: Record, keys: seq<string>, i: nat)
    requires i < |keys|
    ensures LeadingParts(data, keys[..i + 1]) == LeadingParts(data, keys[..i]) + KeyPart(data, keys[i])
  {
    assert keys[..i + 1][..i] == keys[..i];
  }

  lemma AppendAssoc(a: string, b: string, c: string)
    ensures (a + b) + c == a + (b + c)
  {
  }

  /** GetSequenceKey, appending part by part. */
  method GetSequenceKey(data: Record, attribute: SequenceAttribute) returns (result: string)
    requires |attribute.keys| >= 1
    ensures result == SequenceKey(data, attribute)
  {
    var keys := attribute.keys;
    result := SequenceKeyPrefix;
    if !IsBlank(attribute.prefix) {
      result := result + (":" + attribute.prefix);
    }
    ghost var head := result;
    assert head == SequenceKeyPrefix + PrefixPart(attribute.prefix);
    assert keys[..0] == [];
    for i := 0 to |keys| - 1
      invariant result == head + LeadingParts(data, keys[..i])
    {
      LeadingPartsStep(data, keys, i);
      AppendAssoc(head, LeadingParts(data, keys[..i]), KeyPart(data, keys[i]));
      var value := Get(data, keys[i]);
      if value != Null {
        result := result + (":" + ToLower(Display(value)));
      }
    }
    SequenceKeySplit(data, attribute);
    result := result + (":" + ToLower(keys[|keys| - 1]));
  }

  lemma SequenceKeySplit(data: Record, attribute: SequenceAttribute)
    requires |attribute.keys| >= 1
    ensures SequenceKey(data, attribute)
         == (SequenceKeyPrefix + PrefixPart(attribute.prefix) + LeadingParts(data, attribute.keys[..|attribute.keys| - 1]))
            + (":" + ToLower(LastKey(attribute)))
  {
  }

  /** The key starts with "Zongsoft.Data.Sequence" and always ends with a
    * colon and the lower-cased field name, so it is never empty. */
  lemma SequenceKeyShape(data: Record, attribute: SequenceAttribute)
    requires |attribute.keys| >= 1
    ensures var key := SequenceKey(data, attribute);
      var tail := ":" + ToLower(LastKey(attribute));
      && |key| > |SequenceKeyPrefix|
      && key[..|SequenceKeyPrefix|] == SequenceKeyPrefix
      && |key| >= |tail| && key[|key| - |tail|..] == tail
  {
    var key := SequenceKey(data, attribute);
    var tail := ":" + ToLower(LastKey(attribute));
    var head := SequenceKeyPrefix + PrefixPart(attribute.prefix) + LeadingParts(data, attribute.keys[..|attribute.keys| - 1]);
    assert key == head + tail;
    assert (SequenceKeyPrefix + PrefixPart(attribute.prefix)) + (LeadingParts(data, attribute.keys[..|attribute.keys| - 1]) + tail) == key;
  }

  lemma {:induction false} LeadingPartsAppend(data: Record, a: seq<string>, b: seq<string>)
    ensures LeadingParts(data, a + b) == LeadingParts(data, a) + LeadingParts(data, b)
    decreases |b|
  {
    if b == [] {
      assert a + b == a;
    } else {
      var front, last := b[..|b| - 1], b[|b| - 1];
      var ab := a + b;
      assert ab[..|ab| - 1] == a + front;
      assert ab[|ab| - 1] == last;
      assert LeadingParts(data, ab) == LeadingParts(data, a + front) + KeyPart(data, last);
      LeadingPartsAppend(data, a, front);
      AppendAssoc(LeadingParts(data, a), LeadingParts(data, front), KeyPart(data, last));
      assert LeadingParts(data, b) == LeadingParts(data, front) + KeyPart(data, last);
    }
  }

  /** A qualifying key whose value is null is skipped: the key is the same as
    * without it. */
  lemma NullKeySkipped(data: Record, a: seq<string>, k: string, b: seq<string>)
    requires Get(data, k) == Null
    ensures LeadingParts(data, a + [k] + b) == LeadingParts(data, a + b)
  {
    LeadingPartsAppend(data, a + [k], b);
    LeadingPartsAppend(data, a, b);
    assert (a + [k])[..|a|] == a;
  }

  predicate AllDigits(s: string) {
    forall i :: 0 <= i < |s| ==> '0' <= s[i] <= '9'
  }

  /** The guard of the fill: the value is null, or Convert.ChangeType(value,
    * typeof(ulong)) gives 0. A negative or too large number overflows, a
    * string that is not a plain decimal numeral is a format error and
    * DBNull or an array cannot be converted. */
  function IsUnset(v: Value): (r: Result<bool, DataError>)
    ensures r == Success(true) <==> v == Null || v == Number(0) || (v.Str? && v.s != [] && AllDigits(v.s) && DecimalValue(v.s) == 0)
    ensures r.Success? <==> v == Null || (v.Number? && 0 <= v.n < UInt64Range)
                            || (v.Str? && v.s != [] && AllDigits(v.s) && DecimalValue(v.s) < UInt64Range)
    ensures v.DBNull? || v.Items? ==> r == Failure(InvalidCast)
  {
    match v
    case Null => Success(true)
    case Number(n) => if n < 0 || n >= UInt64Range then Failure(Overflow) else Success(n == 0)
    case Str(s) =>
      if s == [] || !AllDigits(s) then Failure(Format)
      else if DecimalValue(s) >= UInt64Range then Failure(Overflow)
      else Success(DecimalValue(s) == 0)
    case DBNull => Failure(InvalidCast)
    case Items(_) => Failure(InvalidCast)
  }

  /** What a round of Increments did: the record or the exception, and the
    * provider calls made. */
  datatype Filled = Filled(outcome: Result<Record, DataError>, calls: seq<SequenceCall>)

  /** The fill of one token: an unset field receives the provider's next
    * value for the record's sequence key, with interval 1 and the seed. */
  function IncrementOne(token: Token, data: Record, next: SequenceCall -> int): Filled
    requires |token.attribute.keys| >= 1
  {
    var field := LastKey(token.attribute);
    match IsUnset(Get(data, field))
    case Failure(e) => Filled(Failure(e), [])
    case Success(unset) =>
      if !unset then Filled(Success(data), [])
      else
        var call := SequenceCall(token.sequence, SequenceKey(data, token.attribute), 1, token.attribute.seed);
        Filled(Success(data[field := Number(next(call))]), [call])
  }

  /** Every token names a field. */
  predicate WellFormed(tokens: seq<Token>) {
    forall i :: 0 <= i < |tokens| ==> |tokens[i].attribute.keys| >= 1
  }

  /** The fills of the tokens in order, each on the record the previous one
    * left; the first exception stops the round. */
  function IncrementAll(tokens: seq<Token>, data: Record, next: SequenceCall -> int): Filled
    requires WellFormed(tokens)
    decreases |tokens|
  {
    if tokens == [] then Filled(Success(data), [])
    else
      var first := IncrementOne(tokens[0], data, next);
      if first.outcome.Failure? then first
      else
        var rest := IncrementAll(tokens[1..], first.outcome.value, next);
        Filled(rest.outcome, first.calls + rest.calls)
  }

  /** Puts earlier provider calls in front of a round's own. */
  function Then(calls: seq<SequenceCall>, f: Filled): Filled {
    Filled(f.outcome, calls + f.calls)
  }

  lemma ThenTwice(a: seq<SequenceCall>, b: seq<SequenceCall>, f: Filled)
    ensures Then(a, Then(b, f)) == Then(a + b, f)
  {
    assert a + (b + f.calls) == (a + b) + f.calls;
  }

  /** The round from token i on: token i's fill, then the rest. */
  lemma IncrementAllCons(tokens: seq<Token>, i: nat, data: Record, next: SequenceCall -> int)
    requires WellFormed(tokens) && i < |tokens|
    ensures WellFormed(tokens[i..]) && WellFormed(tokens[i + 1..])
    ensures var first := IncrementOne(tokens[i], data, next);
      IncrementAll(tokens[i..], data, next)
        == if first.outcome.Failure? then first else Then(first.calls, IncrementAll(tokens[i + 1..], first.outcome.value, next))
  {
    assert tokens[i..][0] == tokens[i] && tokens[i..][1..] == tokens[i + 1..];
  }

  /** One fill calls the provider exactly when the field is null or zero,
    * stores the value it returns there, and changes no other member. */
  lemma IncrementOneSpec(token: Token, data: Record, next: SequenceCall -> int)
    requires |token.attribute.keys| >= 1
    ensures var f := IncrementOne(token, data, next);
      var field := LastKey(token.attribute);
      && (f.outcome.Failure? <==> IsUnset(Get(data, field)).Failure?)
      && (|f.calls| == 1 <==> IsUnset(Get(data, field)) == Success(true))
      && (|f.calls| == 1 ==> f.calls[0] == SequenceCall(token.sequence, SequenceKey(data, token.attribute), 1, token.attribute.seed))
      && (f.outcome.Success? ==> forall k :: k != field ==> Get(f.outcome.value, k) == Get(data, k))
      && (|f.calls| == 1 ==> Get(f.outcome.value, field) == Number(next(f.calls[0])))
      && (f.outcome.Success? && f.calls == [] ==> f.outcome.value == data)
  {
  }

  /** The fields the tokens fill. */
  function Fields(tokens: seq<Token>): set<string>
    requires WellFormed(tokens)
  {
    set i | 0 <= i < |tokens| :: LastKey(tokens[i].attribute)
  }

  /** Increments changes only the fields the tokens fill. */
  lemma {:induction false} IncrementAllKeepsOthers(tokens: seq<Token>, data: Record, next: SequenceCall -> int, k: string)
    requires WellFormed(tokens) && k !in Fields(tokens)
    requires IncrementAll(tokens, data, next).outcome.Success?
    ensures Get(IncrementAll(tokens, data, next).outcome.value, k) == Get(data, k)
    decreases |tokens|
  {
    if tokens != [] {
      assert LastKey(tokens[0].attribute) in Fields(tokens);
      IncrementOneSpec(tokens[0], data, next);
      var first := IncrementOne(tokens[0], data, next);
      assert Fields(tokens[1..]) <= Fields(tokens) by {
        forall f | f in Fields(tokens[1..])
          ensures f in Fields(tokens)
        {
          var i :| 0 <= i < |tokens[1..]| && f == LastKey(tokens[1..][i].attribute);
          assert tokens[1..][i] == tokens[i + 1];
        }
      }
      IncrementAllKeepsOthers(tokens[1..], first.outcome.value, next, k);
    }
  }

  /** A record whose filled fields all hold non-zero numbers is left as it is
    * and the provider is never called. */
  lemma {:induction false} IncrementAllSetFields(tokens: seq<Token>, data: Record, next: SequenceCall -> int)
    requires WellFormed(tokens)
    requires forall i :: 0 <= i < |tokens| ==> IsUnset(Get(data, LastKey(tokens[i].attribute))) == Success(false)
    ensures IncrementAll(tokens, data, next) == Filled(Success(data), [])
    decreases |tokens|
  {
    if tokens != [] {
      assert IsUnset(Get(data, LastKey(tokens[0].attribute))) == Success(false);
      IncrementAllSetFields(tokens[1..], data, next);
    }
  }

  /** The token list cached for a service. */
  function TokensOf(cache: map<nat, seq<Token>>, service: nat): seq<Token> {
    if service in cache then cache[service] else []
  }

  /** The provider a token uses: the default one for a blank name. */
  function Provider(attribute: SequenceAttribute, resolve: Option<string> -> Option<nat>): Option<nat> {
    resolve(if IsBlank(attribute.sequenceName) then None else Some(attribute.sequenceName))
  }

  /** Every attribute has its provider and names an existing numeric field. */
  predicate Registrable(attributes: seq<SequenceAttribute>, resolve: Option<string> -> Option<nat>, numeric: string -> Option<bool>)
    requires forall i :: 0 <= i < |attributes| ==> |attributes[i].keys| >= 1
  {
    forall i :: 0 <= i < |attributes| ==>
      Provider(attributes[i], resolve).Some? && numeric(LastKey(attributes[i])) == Some(true)
  }

  /** The tokens of registrable attributes, in order. */
  function TokensFor(attributes: seq<SequenceAttribute>, resolve: Option<string> -> Option<nat>, numeric: string -> Option<bool>): (tokens: seq<Token>)
    requires forall i :: 0 <= i < |attributes| ==> |attributes[i].keys| >= 1
    requires Registrable(attributes, resolve, numeric)
    ensures WellFormed(tokens)
  {
    seq(|attributes|, i requires 0 <= i < |attributes| => Token(Provider(attributes[i], resolve).value, attributes[i]))
  }

  /** The static ConcurrentDictionary of DataSequence: the tokens registered
    * for each service, the service identified by a number. */
  class SequenceCache {
    var cache: map<nat, seq<Token>>

    ghost predicate Valid()
      reads this
    {
      forall s :: s in cache ==> WellFormed(cache[s])
    }

    constructor ()
      ensures cache == map[] && Valid()
    {
      cache := map[];
    }

    /** Register: a service without attributes registers nothing; a missing
      * provider, a missing field or a non-numeric field is an
      * InvalidOperationException; otherwise the tokens are added unless the
      * service already has some, and the result says whether they were. */
    method Register(service: nat, attributes: seq<SequenceAttribute>,
                    resolve: Option<string> -> Option<nat>, numeric: string -> Option<bool>) returns (r: Result<bool, DataError>)
      requires Valid()
      requires forall i :: 0 <= i < |attributes| ==> |attributes[i].keys| >= 1
      modifies this
      ensures Valid()
      ensures |attributes| == 0 ==> r == Success(false) && cache == old(cache)
      ensures |attributes| > 0 && !Registrable(attributes, resolve, numeric) ==> r == Failure(InvalidOperation) && cache == old(cache)
      ensures |attributes| > 0 && Registrable(attributes, resolve, numeric) ==>
                && r == Success(service !in old(cache))
                && cache == if service in old(cache) then old(cache) else old(cache)[service := TokensFor(attributes, resolve, numeric)]
    {
      if |attributes| == 0 {
        return Success(false);
      }
      var tokens: seq<Token> := [];
      for i := 0 to |attributes|
        invariant Registrable(attributes[..i], resolve, numeric)
        invariant tokens == TokensFor(attributes[..i], resolve, numeric)
      {
        var attribute := attributes[i];
        var sequence := Provider(attribute, resolve);
        if sequence.None? {
          return Failure(InvalidOperation);
        }
        var property := numeric(LastKey(attribute));
        if property.None? || !property.value {
          return Failure(InvalidOperation);
        }
        assert attributes[..i + 1] == attributes[..i] + [attribute];
        tokens := tokens + [Token(sequence.value, attribute)];
      }
      assert attributes[..|attributes|] == attributes;
      if service in cache {
        return Success(false);
      }
      cache := cache[service := tokens];
      r := Success(true);
    }

    /** Increments: the fills of the tokens registered for the service. */
    method Increments(service: nat, data: Record, next: SequenceCall -> int) returns (r: Result<Record, DataError>, calls: seq<SequenceCall>)
      requires Valid()
      ensures WellFormed(TokensOf(cache, service))
      ensures Filled(r, calls) == IncrementAll(TokensOf(cache, service), data, next)
    {
      var tokens := TokensOf(cache, service);
      ghost var start := data;
      var current := data;
      calls := [];
      for i := 0 to |tokens|
        invariant IncrementAll(tokens, start, next) == Then(calls, IncrementAll(tokens[i..], current, next))
      {
        var token := tokens[i];
        IncrementAllCons(tokens, i, current, next);
        var sequenceKey := GetSequenceKey(current, token.attribute);
        var field := LastKey(token.attribute);
        var unset := IsUnset(Get(current, field));
        if unset.Failure? {
          return Failure(unset.error), calls;
        }
        if unset.value {
          var call := SequenceCall(token.sequence, sequenceKey, 1, token.attribute.seed);
          ThenTwice(calls, [call], IncrementAll(tokens[i + 1..], current[field := Number(next(call))], next));
          current := current[field := Number(next(call))];
          calls := calls + [call];
        } else {
          ThenTwice(calls, [], IncrementAll(tokens[i + 1..], current, next));
          assert calls + [] == calls;
        }
      }
      assert calls + [] == calls;
      r := Success(current);
    }
  }
}
