/** Zongsoft.Data.DataService<TEntity>: every operation raises a pre-event
  * whose handlers may cancel it or change its arguments, calls the storage
  * driver, raises a post-event and returns what the post-event handlers
  * leave as the result.
  *
  * The storage driver (IDataAccess), the event handlers, the sequence
  * provider and GetKey(values) are function-valued fields of the service.
  * Each operation returns, besides its result, the trace of what it did:
  * raised events, driver calls, sequence-provider calls and commits.
  */
module DataServices {
  import opened Text
  import opened Results
  import opened Conditions
  import opened DataKeys
  import opened DataSequences

  /** The operations, named after their pre-events (Existing, Counting, ...). */
  datatype Kind =
    | Existing | Counting | Incrementing | Decrementing | Getting | Selecting
    | Deleting | Inserting | ManyInserting | Updating | ManyUpdating

  /** The arguments an event carries; each operation fills the ones it has.
    * `shaping` stands for the grouping, paging and sortings of a query. */
  datatype Args = Args(condition: Option<ICondition>, includes: string, member: string, interval: int,
                       scope: string, shaping: seq<string>, cascades: seq<string>,
                       record: Option<Record>, records: Option<seq<Record>>)

  const NoArgs: Args := Args(None, "", "", 0, "", [], [], None, None)

  /** What the pre-event handlers leave: Cancel, Result (or Count) and the
    * arguments, which they may change. */
  datatype Pre<R> = Pre(cancel: bool, result: R, args: Args)

  /** The calls the service makes on its storage driver. */
  datatype DriverCall =
    | ExistsCall(condition: Option<ICondition>)
    | CountCall(condition: Option<ICondition>, includes: string)
    | IncrementCall(member: string, condition: Option<ICondition>, interval: int)
    | DecrementCall(member: string, condition: Option<ICondition>, interval: int)
    | SelectCall(condition: Option<ICondition>, scope: string, shaping: seq<string>)
    | DeleteCall(target: ICondition, cascades: seq<string>)
    | InsertCall(record: Record, scope: string)
    | UpdateCall(record: Record, condition: Option<ICondition>, scope: string)

  /** The observable steps of an operation. */
  datatype Event =
    | Raised(kind: Kind, args: Args)       // the pre-event
    | Called(call: DriverCall)
    | Sequenced(sequenceCall: SequenceCall)
    | Committed
    | Reported(kind: Kind, args: Args)     // the post-event

  /** What Search and Get return: one entity or a sequence of them. */
  datatype Found = One(entity: Value) | Many(entities: seq<Value>)

  function SequenceEvents(calls: seq<SequenceCall>): seq<Event> {
    seq(|calls|, i requires 0 <= i < |calls| => Sequenced(calls[i]))
  }

  function CallEvents(calls: seq<DriverCall>): seq<Event> {
    seq(|calls|, i requires 0 <= i < |calls| => Called(calls[i]))
  }

  /** The driver is never called. */
  predicate NoDriver(trace: seq<Event>) {
    forall k :: 0 <= k < |trace| ==> !trace[k].Called?
  }

  function InsertCalls(items: seq<Record>, scope: string): seq<DriverCall> {
    seq(|items|, i requires 0 <= i < |items| => InsertCall(items[i], scope))
  }

  function UpdateCalls(items: seq<Record>, condition: Option<ICondition>, scope: string): seq<DriverCall> {
    seq(|items|, i requires 0 <= i < |items| => UpdateCall(items[i], condition, scope))
  }

  /** What the sequence fills of a batch did: the records or the exception,
    * and the provider calls made. */
  datatype FilledMany = FilledMany(outcome: Result<seq<Record>, DataError>, calls: seq<SequenceCall>)

  /** The fills of every record of a batch in order; the first exception
    * stops the batch. */
  function IncrementBatch(tokens: seq<Token>, records: seq<Record>, next: SequenceCall -> int): FilledMany
    requires WellFormed(tokens)
  {
    if records == [] then FilledMany(Success([]), [])
    else
      var front := IncrementBatch(tokens, records[..|records| - 1], next);
      if front.outcome.Failure? then front
      else
        var last := IncrementAll(tokens, records[|records| - 1], next);
        if last.outcome.Failure? then FilledMany(Failure(last.outcome.error), front.calls + last.calls)
        else FilledMany(Success(front.outcome.value + [last.outcome.value]), front.calls + last.calls)
  }

  /** A batch fill keeps the number and order of the records, and each
    * record is filled as it would be alone when no sequence is registered. */
  lemma {:induction false} IncrementBatchLength(tokens: seq<Token>, records: seq<Record>, next: SequenceCall -> int)
    requires WellFormed(tokens)
    ensures var b := IncrementBatch(tokens, records, next);
      b.outcome.Success? ==> |b.outcome.value| == |records|
    ensures tokens == [] ==> IncrementBatch(tokens, records, next) == FilledMany(Success(records), [])
  {
    if records != [] {
      IncrementBatchLength(tokens, records[..|records| - 1], next);
      if tokens == [] {
        assert records[..|records| - 1] + [records[|records| - 1]] == records;
      }
    }
  }

  class DataService {
    /** The service's identity in the sequence cache. */
    const service: nat
    const sequences: SequenceCache
    /** ISequence.Increment of the registered providers. */
    const next: SequenceCall -> int
    /** GetKey(values); the base implementation is KeyOf with the primary key. */
    const getKey: seq<Value> -> KeyResult
    /** DataSearchKeyAttribute.GetSearchKey, if the service has the attribute. */
    const searchKey: Option<SearchRequest -> KeyResult>
    /** The storage driver: Exists, the calls that return a count, and Select. */
    const probe: DriverCall -> bool
    const access: DriverCall -> int
    const query: DriverCall -> seq<Value>
    /** The event handlers, pre and post, by the type of the result. */
    const existing: Args -> Pre<bool>
    const existed: (Args, bool) -> bool
    const before: (Kind, Args) -> Pre<int>
    const after: (Kind, Args, int) -> int
    const getting: Args -> Pre<Value>
    const getted: (Args, Value) -> Value
    const selecting: Args -> Pre<seq<Value>>
    const selected: (Args, seq<Value>) -> seq<Value>

    constructor (service: nat, sequences: SequenceCache, next: SequenceCall -> int,
                 getKey: seq<Value> -> KeyResult, searchKey: Option<SearchRequest -> KeyResult>,
                 probe: DriverCall -> bool, access: DriverCall -> int, query: DriverCall -> seq<Value>,
                 existing: Args -> Pre<bool>, existed: (Args, bool) -> bool,
                 before: (Kind, Args) -> Pre<int>, after: (Kind, Args, int) -> int,
                 getting: Args -> Pre<Value>, getted: (Args, Value) -> Value,
                 selecting: Args -> Pre<seq<Value>>, selected: (Args, seq<Value>) -> seq<Value>)
      ensures this.service == service && this.sequences == sequences && this.next == next
      ensures this.getKey == getKey && this.searchKey == searchKey
      ensures this.probe == probe && this.access == access && this.query == query
      ensures this.existing == existing && this.existed == existed && this.before == before && this.after == after
      ensures this.getting == getting && this.getted == getted && this.selecting == selecting && this.selected == selected
    {
      this.service := service;
      this.sequences := sequences;
      this.next := next;
      this.getKey := getKey;
      this.searchKey := searchKey;
      this.probe := probe;
      this.access := access;
      this.query := query;
      this.existing := existing;
      this.existed := existed;
      this.before := before;
      this.after := after;
      this.getting := getting;
      this.getted := getted;
      this.selecting := selecting;
      this.selected := selected;
    }

    /** Exists(condition). The driver receives the condition the caller gave,
      * the Existed handlers the arguments the Existing handlers left. */
    method Exists(condition: Option<ICondition>) returns (r: bool, trace: seq<Event>)
      ensures var a := NoArgs.(condition := condition);
        existing(a).cancel ==> r == existing(a).result && trace == [Raised(Existing, a)]
      ensures var a := NoArgs.(condition := condition); var pre := existing(a);
        !pre.cancel ==> (r == existed(pre.args, probe(ExistsCall(condition)))
          && trace == [Raised(Existing, a), Called(ExistsCall(condition)), Reported(Existing, pre.args)])
      ensures NoDriver(trace) <==> existing(NoArgs.(condition := condition)).cancel
    {
      var args := NoArgs.(condition := condition);
      var pre := existing(args);
      trace := [Raised(Existing, args)];
      if pre.cancel {
        return pre.result, trace;
      }
      var result := probe(ExistsCall(condition));
      trace := trace + [Called(ExistsCall(condition))];
      r := existed(pre.args, result);
      trace := trace + [Reported(Existing, pre.args)];
      assert trace[1].Called?;
    }

    /** Exists(key...): the key is resolved first; an invalid key throws
      * before any event. */
    method ExistsByKey(keys: seq<Value>) returns (r: Result<bool, DataError>, trace: seq<Event>)
      ensures |keys| > 3 ==> r == Failure(NotSupported) && trace == []
      ensures |keys| <= 3 && getKey(keys).condition.None? ==> r == Failure(Argument) && trace == []
      ensures |keys| <= 3 && getKey(keys).condition.Some? ==> r.Success?
      ensures |keys| <= 3 && getKey(keys).condition.Some? ==>
        var a := NoArgs.(condition := Some(Collapse(getKey(keys).condition.value)));
        existing(a).cancel ==> r == Success(existing(a).result) && trace == [Raised(Existing, a)]
      ensures |keys| <= 3 && getKey(keys).condition.Some? ==>
        var condition := Some(Collapse(getKey(keys).condition.value));
        var a := NoArgs.(condition := condition); var pre := existing(a);
        !pre.cancel ==> (r == Success(existed(pre.args, probe(ExistsCall(condition))))
          && trace == [Raised(Existing, a), Called(ExistsCall(condition)), Reported(Existing, pre.args)])
    {
      var condition, singleton := EnsureInquiryKey(getKey, keys);
      if condition.Failure? {
        return Failure(condition.error), [];
      }
      var found;
      found, trace := Exists(Some(condition.value));
      r := Success(found);
    }

    /** Count(condition, includes); the driver receives the arguments the
      * Counting handlers left. */
    method Count(condition: Option<ICondition>, includes: string) returns (r: int, trace: seq<Event>)
      ensures var a := NoArgs.(condition := condition, includes := includes);
        before(Counting, a).cancel ==> r == before(Counting, a).result && trace == [Raised(Counting, a)]
      ensures var a := NoArgs.(condition := condition, includes := includes); var pre := before(Counting, a);
        var call := CountCall(pre.args.condition, pre.args.includes);
        !pre.cancel ==> (r == after(Counting, pre.args, access(call))
          && trace == [Raised(Counting, a), Called(call), Reported(Counting, pre.args)])
    {
      var args := NoArgs.(condition := condition, includes := includes);
      var pre := before(Counting, args);
      trace := [Raised(Counting, args)];
      if pre.cancel {
        return pre.result, trace;
      }
      var call := CountCall(pre.args.condition, pre.args.includes);
      var result := access(call);
      trace := trace + [Called(call)];
      r := after(Counting, pre.args, result);
      trace := trace + [Reported(Counting, pre.args)];
    }

    /** Increment and Decrement: a blank member throws before any event; the
      * driver receives the member, condition and interval the caller gave. */
    method Step(kind: Kind, member: string, condition: Option<ICondition>, interval: int) returns (r: Result<int, DataError>, trace: seq<Event>)
      requires kind == Incrementing || kind == Decrementing
      ensures IsBlank(member) ==> r == Failure(ArgumentNull) && trace == []
      ensures var a := NoArgs.(member := member, condition := condition, interval := interval);
        !IsBlank(member) && before(kind, a).cancel ==> r == Success(before(kind, a).result) && trace == [Raised(kind, a)]
      ensures var a := NoArgs.(member := member, condition := condition, interval := interval); var pre := before(kind, a);
        var call := if kind == Incrementing then IncrementCall(member, condition, interval) else DecrementCall(member, condition, interval);
        !IsBlank(member) && !pre.cancel ==> (r == Success(after(kind, pre.args, access(call)))
          && trace == [Raised(kind, a), Called(call), Reported(kind, pre.args)])
    {
      if IsBlank(member) {
        return Failure(ArgumentNull), [];
      }
      var args := NoArgs.(member := member, condition := condition, interval := interval);
      var pre := before(kind, args);
      trace := [Raised(kind, args)];
      if pre.cancel {
        return Success(pre.result), trace;
      }
      var call := if kind == Incrementing then IncrementCall(member, condition, interval) else DecrementCall(member, condition, interval);
      var result := access(call);
      trace := trace + [Called(call)];
      r := Success(after(kind, pre.args, result));
      trace := trace + [Reported(kind, pre.args)];
    }

    /** OnGet: the first entity the driver selects, or null. */
    function FirstOrNull(rows: seq<Value>): (r: Value)
      ensures rows != [] ==> r == rows[0]
      ensures r == Null <==> rows == [] || rows[0] == Null
    {
      if rows == [] then Null else rows[0]
    }

    /** GetSingle(condition, scope): OnGet with the arguments the Getting
      * handlers left. */
    method GetSingle(condition: Option<ICondition>, scope: string) returns (r: Value, trace: seq<Event>)
      ensures var a := NoArgs.(condition := condition, scope := scope);
        getting(a).cancel ==> r == getting(a).result && trace == [Raised(Getting, a)]
      ensures var a := NoArgs.(condition := condition, scope := scope); var pre := getting(a);
        var call := SelectCall(pre.args.condition, pre.args.scope, []);
        !pre.cancel ==> (r == getted(pre.args, FirstOrNull(query(call)))
          && trace == [Raised(Getting, a), Called(call), Reported(Getting, pre.args)])
    {
      var args := NoArgs.(condition := condition, scope := scope);
      var pre := getting(args);
      trace := [Raised(Getting, args)];
      if pre.cancel {
        return pre.result, trace;
      }
      var call := SelectCall(pre.args.condition, pre.args.scope, []);
      var rows := query(call);
      var result := if |rows| == 0 then Null else rows[0];
      trace := trace + [Called(call)];
      r := getted(pre.args, result);
      trace := trace + [Reported(Getting, pre.args)];
    }

    /** Select(condition, scope, grouping, paging, sortings). */
    method Select(condition: Option<ICondition>, scope: string, shaping: seq<string>) returns (r: seq<Value>, trace: seq<Event>)
      ensures var a := NoArgs.(condition := condition, scope := scope, shaping := shaping);
        selecting(a).cancel ==> r == selecting(a).result && trace == [Raised(Selecting, a)]
      ensures var a := NoArgs.(condition := condition, scope := scope, shaping := shaping); var pre := selecting(a);
        var call := SelectCall(pre.args.condition, pre.args.scope, pre.args.shaping);
        !pre.cancel ==> (r == selected(pre.args, query(call))
          && trace == [Raised(Selecting, a), Called(call), Reported(Selecting, pre.args)])
    {
      var args := NoArgs.(condition := condition, scope := scope, shaping := shaping);
      var pre := selecting(args);
      trace := [Raised(Selecting, args)];
      if pre.cancel {
        return pre.result, trace;
      }
      var call := SelectCall(pre.args.condition, pre.args.scope, pre.args.shaping);
      var rows := query(call);
      trace := trace + [Called(call)];
      r := selected(pre.args, rows);
      trace := trace + [Reported(Selecting, pre.args)];
    }

    /** Search(keyword, ...): a keyword the search key cannot resolve is an
      * invalid argument; a single-entity key goes to GetSingle (without
      * paging and sortings), any other to Select. */
    method Search(keyword: string, scope: string, shaping: seq<string>) returns (r: Result<Found, DataError>, trace: seq<Event>)
      ensures GetKeyword(searchKey, keyword).condition.None? ==> r == Failure(Argument) && trace == []
      ensures searchKey.None? || IsBlank(keyword) ==> r == Failure(Argument) && trace == []
      ensures var key := GetKeyword(searchKey, keyword);
        key.condition.Some? ==> (r.Success? && (r.value.One? <==> key.singleton)
          && |trace| > 0 && trace[0] == Raised(if key.singleton then Getting else Selecting,
                                NoArgs.(condition := key.condition, scope := scope, shaping := if key.singleton then [] else shaping)))
      ensures var key := GetKeyword(searchKey, keyword);
        key.condition.Some? && key.singleton ==>
          var a := NoArgs.(condition := key.condition, scope := scope); var pre := getting(a);
          var call := SelectCall(pre.args.condition, pre.args.scope, []);
          && (pre.cancel ==> r == Success(One(pre.result)) && trace == [Raised(Getting, a)])
          && (!pre.cancel ==> (r == Success(One(getted(pre.args, FirstOrNull(query(call)))))
                && trace == [Raised(Getting, a), Called(call), Reported(Getting, pre.args)]))
      ensures var key := GetKeyword(searchKey, keyword);
        key.condition.Some? && !key.singleton ==>
          var a := NoArgs.(condition := key.condition, scope := scope, shaping := shaping); var pre := selecting(a);
          var call := SelectCall(pre.args.condition, pre.args.scope, pre.args.shaping);
          && (pre.cancel ==> r == Success(Many(pre.result)) && trace == [Raised(Selecting, a)])
          && (!pre.cancel ==> (r == Success(Many(selected(pre.args, query(call))))
                && trace == [Raised(Selecting, a), Called(call), Reported(Selecting, pre.args)]))
    {
      var key := GetKeyword(searchKey, keyword);
      if key.condition.None? {
        return Failure(Argument), [];
      }
      if key.singleton {
        var entity;
        entity, trace := GetSingle(key.condition, scope);
        r := Success(One(entity));
      } else {
        var entities;
        entities, trace := Select(key.condition, scope, shaping);
        r := Success(Many(entities));
      }
    }

    /** Get(key..., ...): the key is resolved first; a single-entity key goes
      * to GetSingle, any other to Select. */
    method Get(keys: seq<Value>, scope: string, shaping: seq<string>) returns (r: Result<Found, DataError>, trace: seq<Event>)
      ensures |keys| > 3 ==> r == Failure(NotSupported) && trace == []
      ensures |keys| <= 3 && getKey(keys).condition.None? ==> r == Failure(Argument) && trace == []
      ensures |keys| <= 3 && getKey(keys).condition.Some? ==> r.Success? && (r.value.One? <==> getKey(keys).singleton)
      ensures |keys| <= 3 && getKey(keys).condition.Some? ==>
        var singleton := getKey(keys).singleton;
        |trace| > 0 && trace[0] == Raised(if singleton then Getting else Selecting,
                                   NoArgs.(condition := Some(Collapse(getKey(keys).condition.value)), scope := scope,
                                           shaping := if singleton then [] else shaping))
      ensures |keys| <= 3 && getKey(keys).condition.Some? && getKey(keys).singleton ==>
        var a := NoArgs.(condition := Some(Collapse(getKey(keys).condition.value)), scope := scope); var pre := getting(a);
        var call := SelectCall(pre.args.condition, pre.args.scope, []);
        && (pre.cancel ==> r == Success(One(pre.result)) && trace == [Raised(Getting, a)])
        && (!pre.cancel ==> (r == Success(One(getted(pre.args, FirstOrNull(query(call)))))
              && trace == [Raised(Getting, a), Called(call), Reported(Getting, pre.args)]))
      ensures |keys| <= 3 && getKey(keys).condition.Some? && !getKey(keys).singleton ==>
        var a := NoArgs.(condition := Some(Collapse(getKey(keys).condition.value)), scope := scope, shaping := shaping);
        var pre := selecting(a);
        var call := SelectCall(pre.args.condition, pre.args.scope, pre.args.shaping);
        && (pre.cancel ==> r == Success(Many(pre.result)) && trace == [Raised(Selecting, a)])
        && (!pre.cancel ==> (r == Success(Many(selected(pre.args, query(call))))
              && trace == [Raised(Selecting, a), Called(call), Reported(Selecting, pre.args)]))
    {
      var condition, singleton := EnsureInquiryKey(getKey, keys);
      if condition.Failure? {
        return Failure(condition.error), [];
      }
      if singleton {
        var entity;
        entity, trace := GetSingle(Some(condition.value), scope);
        r := Success(One(entity));
      } else {
        var entities;
        entities, trace := Select(Some(condition.value), scope, shaping);
        r := Success(Many(entities));
      }
    }

    /** OnDelete: a null condition is not supported; otherwise the driver
      * deletes. */
    method OnDelete(condition: Option<ICondition>, cascades: seq<string>) returns (r: Result<int, DataError>, trace: seq<Event>)
      ensures condition.None? ==> r == Failure(NotSupported) && trace == []
      ensures condition.Some? ==> (r == Success(access(DeleteCall(condition.value, cascades)))
        && trace == [Called(DeleteCall(condition.value, cascades))])
    {
      if condition.None? {
        return Failure(NotSupported), [];
      }
      r := Success(access(DeleteCall(condition.value, cascades)));
      trace := [Called(DeleteCall(condition.value, cascades))];
    }

    /** Delete(condition, cascades): the Deleting event comes first, so a
      * null condition throws only when the handlers neither cancel nor
      * supply one, and never reaches the driver. */
    method Delete(condition: Option<ICondition>, cascades: seq<string>) returns (r: Result<int, DataError>, trace: seq<Event>)
      ensures var a := NoArgs.(condition := condition, cascades := cascades);
        before(Deleting, a).cancel ==> r == Success(before(Deleting, a).result) && trace == [Raised(Deleting, a)]
      ensures var a := NoArgs.(condition := condition, cascades := cascades); var pre := before(Deleting, a);
        !pre.cancel && pre.args.condition.None? ==> r == Failure(NotSupported) && trace == [Raised(Deleting, a)]
      ensures var a := NoArgs.(condition := condition, cascades := cascades); var pre := before(Deleting, a);
        !pre.cancel && pre.args.condition.Some? ==>
          var call := DeleteCall(pre.args.condition.value, pre.args.cascades);
          (r == Success(after(Deleting, pre.args, access(call)))
           && trace == [Raised(Deleting, a), Called(call), Reported(Deleting, pre.args)])
      ensures r.Failure? ==> NoDriver(trace)
    {
      var args := NoArgs.(condition := condition, cascades := cascades);
      var pre := before(Deleting, args);
      trace := [Raised(Deleting, args)];
      if pre.cancel {
        return Success(pre.result), trace;
      }
      var count, steps := OnDelete(pre.args.condition, pre.args.cascades);
      trace := trace + steps;
      if count.Failure? {
        return Failure(count.error), trace;
      }
      r := Success(after(Deleting, pre.args, count.value));
      trace := trace + [Reported(Deleting, pre.args)];
    }

    /** Delete(key..., cascades): the key is resolved first. */
    method DeleteByKey(keys: seq<Value>, cascades: seq<string>) returns (r: Result<int, DataError>, trace: seq<Event>)
      ensures |keys| > 3 ==> r == Failure(NotSupported) && trace == []
      ensures |keys| <= 3 && getKey(keys).condition.None? ==> r == Failure(Argument) && trace == []
      ensures |keys| <= 3 && getKey(keys).condition.Some? ==>
        |trace| > 0 && trace[0] == Raised(Deleting, NoArgs.(condition := Some(Collapse(getKey(keys).condition.value)), cascades := cascades))
      ensures |keys| <= 3 && getKey(keys).condition.Some? ==>
        var a := NoArgs.(condition := Some(Collapse(getKey(keys).condition.value)), cascades := cascades);
        var pre := before(Deleting, a);
        && (pre.cancel ==> r == Success(pre.result) && trace == [Raised(Deleting, a)])
        && (!pre.cancel && pre.args.condition.None? ==> r == Failure(NotSupported) && trace == [Raised(Deleting, a)])
        && (!pre.cancel && pre.args.condition.Some? ==>
              var call := DeleteCall(pre.args.condition.value, pre.args.cascades);
              r == Success(after(Deleting, pre.args, access(call)))
              && trace == [Raised(Deleting, a), Called(call), Reported(Deleting, pre.args)])
    {
      var condition, singleton := EnsureInquiryKey(getKey, keys);
      if condition.Failure? {
        return Failure(condition.error), [];
      }
      r, trace := Delete(Some(condition.value), cascades);
    }

    /** What OnInsert returns: nothing is inserted without a record. */
    function InsertCount(record: Option<Record>, scope: string): int {
      if record.None? then 0 else access(InsertCall(record.value, scope))
    }

    /** OnInsert(data, scope). */
    method OnInsert(record: Option<Record>, scope: string) returns (r: int, trace: seq<Event>)
      ensures r == InsertCount(record, scope)
      ensures record.None? ==> r == 0 && trace == []
      ensures record.Some? ==> trace == [Called(InsertCall(record.value, scope))]
    {
      if record.None? {
        return 0, [];
      }
      r := access(InsertCall(record.value, scope));
      trace := [Called(InsertCall(record.value, scope))];
    }

    /** Insert(data, scope): null data is 0 with no event. Otherwise the
      * registered sequences fill the record before the Inserting event
      * sees it; a fill that throws stops the insert before any event. */
    method Insert(data: Option<Record>, scope: string) returns (r: Result<int, DataError>, trace: seq<Event>)
      requires sequences.Valid()
      ensures data.None? ==> r == Success(0) && trace == []
      ensures WellFormed(TokensOf(sequences.cache, service))
      ensures data.Some? ==> var filled := IncrementAll(TokensOf(sequences.cache, service), data.value, next);
        filled.outcome.Failure? ==> r == Failure(filled.outcome.error) && trace == SequenceEvents(filled.calls)
      ensures data.Some? ==> var filled := IncrementAll(TokensOf(sequences.cache, service), data.value, next);
        filled.outcome.Success? ==>
          var a := NoArgs.(record := Some(filled.outcome.value), scope := scope); var pre := before(Inserting, a);
          && (pre.cancel ==> r == Success(pre.result) && trace == SequenceEvents(filled.calls) + [Raised(Inserting, a)])
          && (!pre.cancel ==> (r == Success(after(Inserting, pre.args, InsertCount(pre.args.record, pre.args.scope)))
                && trace == SequenceEvents(filled.calls) + [Raised(Inserting, a)]
                            + (if pre.args.record.Some? then [Called(InsertCall(pre.args.record.value, pre.args.scope))] else [])
                            + [Reported(Inserting, pre.args)]))
    {
      if data.None? {
        return Success(0), [];
      }
      var filled, calls := sequences.Increments(service, data.value, next);
      trace := SequenceEvents(calls);
      if filled.Failure? {
        return Failure(filled.error), trace;
      }
      var args := NoArgs.(record := Some(filled.value), scope := scope);
      var pre := before(Inserting, args);
      trace := trace + [Raised(Inserting, args)];
      if pre.cancel {
        return Success(pre.result), trace;
      }
      var count, steps := OnInsert(pre.args.record, pre.args.scope);
      trace := trace + steps;
      r := Success(after(Inserting, pre.args, count));
      trace := trace + [Reported(Inserting, pre.args)];
    }

    /** The sum of the counts the driver returns for the calls. */
    function Total(calls: seq<DriverCall>): int {
      if calls == [] then 0 else Total(calls[..|calls| - 1]) + access(calls[|calls| - 1])
    }

    lemma TotalSnoc(calls: seq<DriverCall>, c: DriverCall)
      ensures Total(calls + [c]) == Total(calls) + access(c)
    {
      assert (calls + [c])[..|calls|] == calls;
    }

    /** OnInsertMany(items, scope): no items is 0 and nothing happens;
      * otherwise each item is inserted in order, the count is the sum of
      * the per-item counts, and the transaction commits once, after the
      * last item. */
    method OnInsertMany(items: Option<seq<Record>>, scope: string) returns (count: int, trace: seq<Event>)
      ensures items.None? ==> count == 0 && trace == []
      ensures items.Some? ==> (count == Total(InsertCalls(items.value, scope))
        && trace == CallEvents(InsertCalls(items.value, scope)) + [Committed])
    {
      if items.None? {
        return 0, [];
      }
      var list := items.value;
      count := 0;
      trace := [];
      for i := 0 to |list|
        invariant count == Total(InsertCalls(list[..i], scope))
        invariant trace == CallEvents(InsertCalls(list[..i], scope))
      {
        assert InsertCalls(list[..i + 1], scope) == InsertCalls(list[..i], scope) + [InsertCall(list[i], scope)];
        assert CallEvents(InsertCalls(list[..i + 1], scope)) == CallEvents(InsertCalls(list[..i], scope)) + [Called(InsertCall(list[i], scope))];
        TotalSnoc(InsertCalls(list[..i], scope), InsertCall(list[i], scope));
        var n, steps := OnInsert(Some(list[i]), scope);
        count := count + n;
        trace := trace + steps;
      }
      assert list[..|list|] == list;
      trace := trace + [Committed];
    }

    /** The fill loop of the ManyInserting raiser: every record in order,
      * stopping at the first exception. */
    method FillMany(records: seq<Record>) returns (r: Result<seq<Record>, DataError>, calls: seq<SequenceCall>)
      requires sequences.Valid()
      ensures WellFormed(TokensOf(sequences.cache, service))
      ensures FilledMany(r, calls) == IncrementBatch(TokensOf(sequences.cache, service), records, next)
    {
      ghost var tokens := TokensOf(sequences.cache, service);
      var filled: seq<Record> := [];
      calls := [];
      for i := 0 to |records|
        invariant WellFormed(tokens)
        invariant IncrementBatch(tokens, records[..i], next) == FilledMany(Success(filled), calls)
      {
        assert records[..i + 1][..i] == records[..i] && records[..i + 1][i] == records[i];
        var one, oneCalls := sequences.Increments(service, records[i], next);
        if one.Failure? {
          BatchStops(tokens, records, i, next);
          return Failure(one.error), calls + oneCalls;
        }
        filled := filled + [one.value];
        calls := calls + oneCalls;
      }
      assert records[..|records|] == records;
      r := Success(filled);
    }

    /** InsertMany(data, scope): null data is 0 with no event. Otherwise
      * every record is filled by the registered sequences, in order, before
      * the ManyInserting event sees the batch. */
    method InsertMany(data: Option<seq<Record>>, scope: string) returns (r: Result<int, DataError>, trace: seq<Event>)
      requires sequences.Valid()
      ensures data.None? ==> r == Success(0) && trace == []
      ensures WellFormed(TokensOf(sequences.cache, service))
      ensures data.Some? ==> var filled := IncrementBatch(TokensOf(sequences.cache, service), data.value, next);
        filled.outcome.Failure? ==> r == Failure(filled.outcome.error) && trace == SequenceEvents(filled.calls)
      ensures data.Some? ==> var filled := IncrementBatch(TokensOf(sequences.cache, service), data.value, next);
        filled.outcome.Success? ==>
          var a := NoArgs.(records := Some(filled.outcome.value), scope := scope); var pre := before(ManyInserting, a);
          && (pre.cancel ==> r == Success(pre.result) && trace == SequenceEvents(filled.calls) + [Raised(ManyInserting, a)])
          && (!pre.cancel && pre.args.records.None? ==>
                r == Success(after(ManyInserting, pre.args, 0))
                && trace == SequenceEvents(filled.calls) + [Raised(ManyInserting, a), Reported(ManyInserting, pre.args)])
          && (!pre.cancel && pre.args.records.Some? ==>
                r == Success(after(ManyInserting, pre.args, Total(InsertCalls(pre.args.records.value, pre.args.scope))))
                && trace == SequenceEvents(filled.calls) + [Raised(ManyInserting, a)]
                            + CallEvents(InsertCalls(pre.args.records.value, pre.args.scope))
                            + [Committed, Reported(ManyInserting, pre.args)])
    {
      if data.None? {
        return Success(0), [];
      }
      var filling, calls := FillMany(data.value);
      if filling.Failure? {
        return Failure(filling.error), SequenceEvents(calls);
      }
      var filled := filling.value;
      trace := SequenceEvents(calls);
      var args := NoArgs.(records := Some(filled), scope := scope);
      var pre := before(ManyInserting, args);
      trace := trace + [Raised(ManyInserting, args)];
      if pre.cancel {
        return Success(pre.result), trace;
      }
      var count, steps := OnInsertMany(pre.args.records, pre.args.scope);
      trace := trace + steps;
      r := Success(after(ManyInserting, pre.args, count));
      trace := trace + [Reported(ManyInserting, pre.args)];
    }

    /** A batch whose item i fails to fill fails with that exception. */
    lemma BatchStops(tokens: seq<Token>, records: seq<Record>, i: nat, next: SequenceCall -> int)
      requires WellFormed(tokens) && i < |records|
      requires IncrementBatch(tokens, records[..i], next).outcome.Success?
      requires IncrementAll(tokens, records[i], next).outcome.Failure?
      ensures IncrementBatch(tokens, records, next) ==
        FilledMany(Failure(IncrementAll(tokens, records[i], next).outcome.error),
                   IncrementBatch(tokens, records[..i], next).calls + IncrementAll(tokens, records[i], next).calls)
    {
      assert records[..i + 1][..i] == records[..i];
      BatchFailureKept(tokens, records, i + 1, next);
    }

    /** Once a prefix of the batch fails, the whole batch fails the same way. */
    lemma {:induction false} BatchFailureKept(tokens: seq<Token>, records: seq<Record>, n: nat, next: SequenceCall -> int)
      requires WellFormed(tokens) && n <= |records|
      requires IncrementBatch(tokens, records[..n], next).outcome.Failure?
      ensures IncrementBatch(tokens, records, next) == IncrementBatch(tokens, records[..n], next)
      decreases |records| - n
    {
      if n < |records| {
        assert records[..n + 1][..n] == records[..n];
        BatchFailureKept(tokens, records, n + 1, next);
      } else {
        assert records[..n] == records;
      }
    }

    /** What OnUpdate returns: nothing is updated without a record. */
    function UpdateCount(record: Option<Record>, condition: Option<ICondition>, scope: string): int {
      if record.None? then 0 else access(UpdateCall(record.value, condition, scope))
    }

    /** OnUpdate(data, condition, scope). */
    method OnUpdate(record: Option<Record>, condition: Option<ICondition>, scope: string) returns (r: int, trace: seq<Event>)
      ensures r == UpdateCount(record, condition, scope)
      ensures record.None? ==> r == 0 && trace == []
      ensures record.Some? ==> trace == [Called(UpdateCall(record.value, condition, scope))]
    {
      if record.None? {
        return 0, [];
      }
      r := access(UpdateCall(record.value, condition, scope));
      trace := [Called(UpdateCall(record.value, condition, scope))];
    }

    /** Update(data, condition, scope): null data is 0 with no event. */
    method Update(data: Option<Record>, condition: Option<ICondition>, scope: string) returns (r: int, trace: seq<Event>)
      ensures data.None? ==> r == 0 && trace == []
      ensures var a := NoArgs.(record := data, condition := condition, scope := scope);
        data.Some? && before(Updating, a).cancel ==> r == before(Updating, a).result && trace == [Raised(Updating, a)]
      ensures var a := NoArgs.(record := data, condition := condition, scope := scope); var pre := before(Updating, a);
        data.Some? && !pre.cancel ==>
          && r == after(Updating, pre.args, UpdateCount(pre.args.record, pre.args.condition, pre.args.scope))
          && trace == [Raised(Updating, a)]
                      + (if pre.args.record.Some? then [Called(UpdateCall(pre.args.record.value, pre.args.condition, pre.args.scope))] else [])
                      + [Reported(Updating, pre.args)]
    {
      if data.None? {
        return 0, [];
      }
      var args := NoArgs.(record := data, condition := condition, scope := scope);
      var pre := before(Updating, args);
      trace := [Raised(Updating, args)];
      if pre.cancel {
        return pre.result, trace;
      }
      var count, steps := OnUpdate(pre.args.record, pre.args.condition, pre.args.scope);
      trace := trace + steps;
      r := after(Updating, pre.args, count);
      trace := trace + [Reported(Updating, pre.args)];
    }

    /** Update(data, key..., scope): the key is resolved before the null
      * check on the data, so an invalid key throws even for null data. */
    method UpdateByKey(data: Option<Record>, keys: seq<Value>, scope: string) returns (r: Result<int, DataError>, trace: seq<Event>)
      ensures |keys| > 3 ==> r == Failure(NotSupported) && trace == []
      ensures |keys| <= 3 && getKey(keys).condition.None? ==> r == Failure(Argument) && trace == []
      ensures |keys| <= 3 && getKey(keys).condition.Some? && data.None? ==> r == Success(0) && trace == []
      ensures |keys| <= 3 && getKey(keys).condition.Some? && data.Some? ==>
        && r.Success?
        && |trace| > 0 && trace[0] == Raised(Updating, NoArgs.(record := data, condition := Some(Collapse(getKey(keys).condition.value)), scope := scope))
      ensures |keys| <= 3 && getKey(keys).condition.Some? && data.Some? ==>
        var a := NoArgs.(record := data, condition := Some(Collapse(getKey(keys).condition.value)), scope := scope);
        var pre := before(Updating, a);
        && (pre.cancel ==> r == Success(pre.result) && trace == [Raised(Updating, a)])
        && (!pre.cancel ==>
              r == Success(after(Updating, pre.args, UpdateCount(pre.args.record, pre.args.condition, pre.args.scope)))
              && trace == [Raised(Updating, a)]
                          + (if pre.args.record.Some? then [Called(UpdateCall(pre.args.record.value, pre.args.condition, pre.args.scope))] else [])
                          + [Reported(Updating, pre.args)])
    {
      var condition, singleton := EnsureInquiryKey(getKey, keys);
      if condition.Failure? {
        return Failure(condition.error), [];
      }
      var count;
      count, trace := Update(data, Some(condition.value), scope);
      r := Success(count);
    }

    /** OnUpdateMany(items, condition, scope): each item is updated in order
      * with the same condition, the count is the sum, and the transaction
      * commits once, after the last item. */
    method OnUpdateMany(items: Option<seq<Record>>, condition: Option<ICondition>, scope: string) returns (count: int, trace: seq<Event>)
      ensures items.None? ==> count == 0 && trace == []
      ensures items.Some? ==> (count == Total(UpdateCalls(items.value, condition, scope))
        && trace == CallEvents(UpdateCalls(items.value, condition, scope)) + [Committed])
    {
      if items.None? {
        return 0, [];
      }
      var list := items.value;
      count := 0;
      trace := [];
      for i := 0 to |list|
        invariant count == Total(UpdateCalls(list[..i], condition, scope))
        invariant trace == CallEvents(UpdateCalls(list[..i], condition, scope))
      {
        assert UpdateCalls(list[..i + 1], condition, scope) == UpdateCalls(list[..i], condition, scope) + [UpdateCall(list[i], condition, scope)];
        assert CallEvents(UpdateCalls(list[..i + 1], condition, scope))
            == CallEvents(UpdateCalls(list[..i], condition, scope)) + [Called(UpdateCall(list[i], condition, scope))];
        TotalSnoc(UpdateCalls(list[..i], condition, scope), UpdateCall(list[i], condition, scope));
        var n, steps := OnUpdate(Some(list[i]), condition, scope);
        count := count + n;
        trace := trace + steps;
      }
      assert list[..|list|] == list;
      trace := trace + [Committed];
    }

    /** UpdateMany(data, condition, scope): null data is 0 with no event. */
    method UpdateMany(data: Option<seq<Record>>, condition: Option<ICondition>, scope: string) returns (r: int, trace: seq<Event>)
      ensures data.None? ==> r == 0 && trace == []
      ensures var a := NoArgs.(records := data, condition := condition, scope := scope);
        data.Some? && before(ManyUpdating, a).cancel ==> r == before(ManyUpdating, a).result && trace == [Raised(ManyUpdating, a)]
      ensures var a := NoArgs.(records := data, condition := condition, scope := scope); var pre := before(ManyUpdating, a);
        data.Some? && !pre.cancel && pre.args.records.None? ==>
          r == after(ManyUpdating, pre.args, 0) && trace == [Raised(ManyUpdating, a), Reported(ManyUpdating, pre.args)]
      ensures var a := NoArgs.(records := data, condition := condition, scope := scope); var pre := before(ManyUpdating, a);
        data.Some? && !pre.cancel && pre.args.records.Some? ==>
          && r == after(ManyUpdating, pre.args, Total(UpdateCalls(pre.args.records.value, pre.args.condition, pre.args.scope)))
          && trace == [Raised(ManyUpdating, a)] + CallEvents(UpdateCalls(pre.args.records.value, pre.args.condition, pre.args.scope))
                      + [Committed, Reported(ManyUpdating, pre.args)]
    {
      if data.None? {
        return 0, [];
      }
      var args := NoArgs.(records := data, condition := condition, scope := scope);
      var pre := before(ManyUpdating, args);
      trace := [Raised(ManyUpdating, args)];
      if pre.cancel {
        return pre.result, trace;
      }
      var count, steps := OnUpdateMany(pre.args.records, pre.args.condition, pre.args.scope);
      trace := trace + steps;
      r := after(ManyUpdating, pre.args, count);
      trace := trace + [Reported(ManyUpdating, pre.args)];
    }

    /** UpdateMany(data, key..., scope): the key is resolved first. */
    method UpdateManyByKey(data: Option<seq<Record>>, keys: seq<Value>, scope: string) returns (r: Result<int, DataError>, trace: seq<Event>)
      ensures |keys| > 3 ==> r == Failure(NotSupported) && trace == []
      ensures |keys| <= 3 && getKey(keys).condition.None? ==> r == Failure(Argument) && trace == []
      ensures |keys| <= 3 && getKey(keys).condition.Some? && data.None? ==> r == Success(0) && trace == []
      ensures |keys| <= 3 && getKey(keys).condition.Some? && data.Some? ==>
        && r.Success?
        && |trace| > 0 && trace[0] == Raised(ManyUpdating, NoArgs.(records := data, condition := Some(Collapse(getKey(keys).condition.value)), scope := scope))
      ensures |keys| <= 3 && getKey(keys).condition.Some? && data.Some? ==>
        var a := NoArgs.(records := data, condition := Some(Collapse(getKey(keys).condition.value)), scope := scope);
        var pre := before(ManyUpdating, a);
        && (pre.cancel ==> r == Success(pre.result) && trace == [Raised(ManyUpdating, a)])
        && (!pre.cancel && pre.args.records.None? ==>
              r == Success(after(ManyUpdating, pre.args, 0)) && trace == [Raised(ManyUpdating, a), Reported(ManyUpdating, pre.args)])
        && (!pre.cancel && pre.args.records.Some? ==>
              r == Success(after(ManyUpdating, pre.args, Total(UpdateCalls(pre.args.records.value, pre.args.condition, pre.args.scope))))
              && trace == [Raised(ManyUpdating, a)] + CallEvents(UpdateCalls(pre.args.records.value, pre.args.condition, pre.args.scope))
                          + [Committed, Reported(ManyUpdating, pre.args)])
    {
      var condition, singleton := EnsureInquiryKey(getKey, keys);
      if condition.Failure? {
        return Failure(condition.error), [];
      }
      var count;
      count, trace := UpdateMany(data, Some(condition.value), scope);
      r := Success(count);
    }
  }
}
