/** Key resolution of Zongsoft.Data.DataService: positional key values
  * checked against the entity's primary key, and a free-text keyword split
  * into the arguments of the search-key strategy.
  *
  * The primary key that the storage driver reports for the service
  * (IDataAccess.GetKey) and the DataSearchKeyAttribute strategy are
  * parameters; `None` stands for a null key array or a missing attribute.
  */
module DataKeys {
  import opened Text
  import opened Results
  import opened Conditions

  /** The exceptions the data service throws. */
  datatype DataError =
    | NotSupported   // NotSupportedException
    | Argument       // ArgumentException
    | ArgumentNull   // ArgumentNullException
    | InvalidOperation
    | InvalidCast
    | Overflow
    | Format

  /** The arguments handed to DataSearchKeyAttribute.GetSearchKey: the
    * keyword (null when a colon ends the text) and the tags (null when the
    * keyword carries none). */
  datatype SearchRequest = SearchRequest(keyword: Option<string>, tags: Option<seq<string>>)

  /** A resolved key: the condition (null when the key is invalid) and
    * whether it selects a single entity. */
  datatype KeyResult = KeyResult(condition: Option<ICondition>, singleton: bool)

  /** Splits a keyword at its first colon into a tag and a value. A keyword
    * with no colon, or one that starts with a colon, is passed whole with no
    * tags; a colon at the end leaves a null value. */
  function SearchArguments(keyword: string): SearchRequest {
    var index := IndexOf(keyword, ':');
    if index < 1 then SearchRequest(Some(keyword), None)
    else SearchRequest(if index < |keyword| - 1 then Some(keyword[index + 1..]) else None, Some([keyword[..index]]))
  }

  /** The split loses nothing: an untagged request carries the keyword
    * unchanged, and a tagged one has a single non-empty tag without a colon
    * that, followed by a colon and the value, gives the keyword back. */
  lemma SearchArgumentsSpec(keyword: string)
    ensures var r := SearchArguments(keyword);
      && (r.tags.None? <==> ':' !in keyword || keyword[0] == ':')
      && (r.tags.None? ==> r.keyword == Some(keyword))
      && (r.tags.Some? ==>
            && |r.tags.value| == 1 && r.tags.value[0] != [] && ':' !in r.tags.value[0]
            && (r.keyword.Some? ==> r.keyword.value != [])
            && keyword == r.tags.value[0] + [':'] + if r.keyword.Some? then r.keyword.value else [])
  {
    var index := IndexOf(keyword, ':');
    if ':' in keyword && keyword[0] == ':' {
      assert index == 0;
    }
    if index >= 1 {
      assert keyword == keyword[..index] + [':'] + keyword[index + 1..];
    }
  }

  /** GetKey(keyword): without a search-key strategy or with a blank keyword
    * the key is null and not single. Otherwise the strategy decides, given
    * the whole keyword and no tags when there is no colon after the first
    * character, and else the text before the first colon as the one tag and
    * the text after it (null when the colon ends the keyword) as the value. */
  function GetKeyword(searchKey: Option<SearchRequest -> KeyResult>, keyword: string): (r: KeyResult)
    ensures searchKey.None? || IsBlank(keyword) ==> r == KeyResult(None, false)
    ensures searchKey.Some? && !IsBlank(keyword) && (':' !in keyword || keyword[0] == ':') ==>
      r == searchKey.value(SearchRequest(Some(keyword), None))
    ensures searchKey.Some? && !IsBlank(keyword) ==>
      forall i :: 0 < i < |keyword| && keyword[i] == ':' && ':' !in keyword[..i] ==>
        r == searchKey.value(SearchRequest(if i == |keyword| - 1 then None else Some(keyword[i + 1..]), Some([keyword[..i]])))
  {
    if searchKey.None? || IsBlank(keyword) then KeyResult(None, false)
    else searchKey.value(SearchArguments(keyword))
  }

  /** The equality conditions pairing each key member with its value, in the
    * declared order. */
  function Equalities(primaryKey: seq<string>, values: seq<Value>): seq<ICondition>
    requires |primaryKey| == |values|
  {
    seq(|primaryKey|, i requires 0 <= i < |primaryKey| => Cond(primaryKey[i], values[i], Equal))
  }

  /** The values match the primary key: there are some, the key is declared
    * and non-empty, and it has as many members as there are values. */
  predicate KeyMatches(primaryKey: Option<seq<string>>, values: seq<Value>) {
    |values| > 0 && primaryKey.Some? && |primaryKey.value| == |values|
  }

  /** The key that GetKey(values) resolves: null and not single unless the
    * values match the primary key; then single, with one Equal condition for
    * a one-member key and an AND collection of Equal conditions otherwise. */
  function KeyOf(primaryKey: Option<seq<string>>, values: seq<Value>): KeyResult {
    if !KeyMatches(primaryKey, values) then KeyResult(None, false)
    else if |values| == 1 then KeyResult(Some(Cond(primaryKey.value[0], values[0], Equal)), true)
    else KeyResult(Some(Collection(And, Equalities(primaryKey.value, values))), true)
  }

  /** GetKey(values), building the AND collection member by member. */
  method GetKey(primaryKey: Option<seq<string>>, values: seq<Value>) returns (condition: Option<ICondition>, singleton: bool)
    ensures KeyResult(condition, singleton) == KeyOf(primaryKey, values)
    ensures singleton <==> condition.Some?
    ensures condition.Some? <==> KeyMatches(primaryKey, values)
  {
    singleton := false;
    if |values| == 0 {
      return None, singleton;
    }
    if primaryKey.None? || |primaryKey.value| == 0 || |primaryKey.value| != |values| {
      return None, singleton;
    }
    var key := primaryKey.value;
    singleton := true;
    if |key| == 1 {
      return Some(Cond(key[0], values[0], Equal)), singleton;
    }
    var members: seq<ICondition> := [];
    for i := 0 to |key|
      invariant |members| == i
      invariant forall k :: 0 <= k < i ==> members[k] == Cond(key[k], values[k], Equal)
    {
      members := members + [Cond(key[i], values[i], Equal)];
    }
    assert members == Equalities(key, values);
    condition := Some(Collection(And, members));
  }

  /** A collection of a single member stands for that member. */
  function Collapse(c: ICondition): ICondition {
    if c.Collection? && |c.members| == 1 then c.members[0] else c
  }

  /** The key GetKey resolves is never a collection of one member, so for
    * the primary-key resolution the collapse changes nothing; the key pairs
    * each value with the key member at the same position. */
  lemma KeyOfSpec(primaryKey: Option<seq<string>>, values: seq<Value>)
    requires KeyOf(primaryKey, values).condition.Some?
    ensures var c := KeyOf(primaryKey, values).condition.value;
      && Collapse(c) == c
      && (c.Cond? <==> |values| == 1)
      && (c.Collection? ==> c.combination == And && |c.members| == |values|)
      && (c.Collection? ==> forall i :: 0 <= i < |values| ==> c.members[i] == Cond(primaryKey.value[i], values[i], Equal))
  {
  }

  /** EnsureInquiryKey: more than three values are not supported, a key that
    * GetKey cannot resolve is an invalid argument, and a collection of a
    * single member is replaced by that member. `getKey` is the service's
    * GetKey(values), which derived services may replace. */
  method EnsureInquiryKey(getKey: seq<Value> -> KeyResult, values: seq<Value>) returns (r: Result<ICondition, DataError>, singleton: bool)
    ensures |values| > 3 ==> r == Failure(NotSupported)
    ensures |values| <= 3 && getKey(values).condition.None? ==> r == Failure(Argument)
    ensures |values| <= 3 && getKey(values).condition.Some? ==>
              r == Success(Collapse(getKey(values).condition.value)) && singleton == getKey(values).singleton
  {
    singleton := false;
    if |values| > 3 {
      return Failure(NotSupported), singleton;
    }
    var key := getKey(values);
    singleton := key.singleton;
    if key.condition.None? {
      return Failure(Argument), singleton;
    }
    var condition := key.condition.value;
    if condition.Collection? && |condition.members| == 1 {
      return Success(condition.members[0]), singleton;
    }
    r := Success(condition);
  }
}
