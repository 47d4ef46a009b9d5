/** Zongsoft.Services.CommandExecutor: runs a chained command expression.
  *
  * The parser, the command tree lookup, the commands, the completion
  * callbacks and the Executing, Executed and Failed event handlers are
  * function-valued fields of the executor. A thrown exception is a Failure
  * outcome, and each method returns, besides its result, the trace of what
  * it did that the caller or the outside world sees: raised events, command
  * runs, completion callbacks and error output.
  */
module Commands {
  import opened Text
  import opened Results
  import opened Conditions

  /** The exceptions the executor throws or passes on. `Thrown` stands for an
    * exception raised by a parser, a command or a completion callback. */
  datatype Exn =
    | ArgumentNull
    | InvalidOperation
    | CommandNotFound(path: string)
    | Thrown(code: int)

  /** One expression of a chain; the chain of CommandExpression.Next links is
    * a sequence, and an empty sequence is a null expression. */
  datatype Expr = Expr(fullPath: string)

  /** A command; `completion` says whether it implements ICommandCompletion. */
  datatype Command = Command(id: nat, completion: bool)

  /** A CommandTreeNode, with or without a command. */
  datatype Node = Node(command: Option<Command>)

  /** CommandExecutorContext: the parsed chain and the initial parameter. */
  datatype Context = Context(expression: seq<Expr>, parameter: Value)

  /** CommandCompleterDescriptor: a completion command and its own result. */
  datatype Descriptor = Descriptor(command: Command, result: Value)

  /** What the Executing handlers leave in the event arguments. */
  datatype ExecutingArgs = ExecutingArgs(cancel: bool, result: Value)

  /** What the Failed handlers leave in the event arguments. */
  datatype FailureArgs = FailureArgs(handled: bool, exception: Option<Exn>)

  /** The observable steps of an execution. */
  datatype Step =
    | FailedRaised(failure: Exn)
    | ErrorWritten(written: Exn)
    | ExecutingRaised
    | Ran(command: Command, input: Value)
    | CompletionStarted(passed: Option<Exn>)
    | CompletionCalled(command: Command, result: Value, passed: Option<Exn>)
    | CompletionLogged(logged: Exn)
    | ExecutedRaised(result: Value)

  /** The result of running a resolved chain. */
  datatype ChainRun = ChainRun(outcome: Result<Value, Exn>, descriptors: seq<Descriptor>, ran: seq<Step>)

  /** The lookup of every expression of the chain, in order; the first path
    * without a node fails the whole lookup. */
  function Resolve(find: string -> Option<Node>, chain: seq<Expr>): Result<seq<(Expr, Node)>, Exn> {
    if chain == [] then Success([])
    else match find(chain[0].fullPath)
      case None => Failure(CommandNotFound(chain[0].fullPath))
      case Some(node) =>
        match Resolve(find, chain[1..])
        case Failure(e) => Failure(e)
        case Success(rest) => Success([(chain[0], node)] + rest)
  }

  /** Each expression of the chain paired with the node found for it. */
  function Paired(find: string -> Option<Node>, chain: seq<Expr>): seq<(Expr, Node)>
    requires forall k :: 0 <= k < |chain| ==> find(chain[k].fullPath).Some?
  {
    seq(|chain|, k requires 0 <= k < |chain| => (chain[k], find(chain[k].fullPath).value))
  }

  /** When every path has a node, the lookup pairs each expression with it. */
  lemma {:induction false} ResolveAll(find: string -> Option<Node>, chain: seq<Expr>)
    requires forall k :: 0 <= k < |chain| ==> find(chain[k].fullPath).Some?
    ensures Resolve(find, chain) == Success(Paired(find, chain))
  {
    if chain != [] {
      var rest := chain[1..];
      assert forall k :: 0 <= k < |rest| ==> rest[k] == chain[k + 1];
      ResolveAll(find, rest);
      var all := Paired(find, chain);
      var tail := Paired(find, rest);
      assert forall k :: 0 <= k < |tail| ==> tail[k] == all[k + 1];
      assert all == [all[0]] + tail;
    }
  }

  /** The first path without a node is the one reported. */
  lemma {:induction false} ResolveMissing(find: string -> Option<Node>, chain: seq<Expr>, i: nat)
    requires i < |chain| && find(chain[i].fullPath).None?
    requires forall k :: 0 <= k < i ==> find(chain[k].fullPath).Some?
    ensures Resolve(find, chain) == Failure(CommandNotFound(chain[i].fullPath))
  {
    if i > 0 {
      ResolveMissing(find, chain[1..], i - 1);
    }
  }

  /** Runs resolved entries in order, each receiving the previous result; a
    * node without a command yields null, and a completion command adds a
    * descriptor with its own result. A throwing command stops the chain, and
    * the descriptors collected before it are kept. */
  function RunFrom(run: (Command, Expr, Value) -> Result<Value, Exn>, entries: seq<(Expr, Node)>, parameter: Value): ChainRun
    decreases |entries|
  {
    if entries == [] then ChainRun(Success(parameter), [], [])
    else if entries[0].1.command.None? then RunFrom(run, entries[1..], Null)
    else
      var c := entries[0].1.command.value;
      var r := run(c, entries[0].0, parameter);
      if r.Failure? then ChainRun(Failure(r.error), [], [Ran(c, parameter)])
      else Prepend(if c.completion then [Descriptor(c, r.value)] else [], [Ran(c, parameter)], RunFrom(run, entries[1..], r.value))
  }

  /** Puts descriptors and steps in front of those of a later run. */
  function Prepend(ds: seq<Descriptor>, steps: seq<Step>, r: ChainRun): ChainRun {
    ChainRun(r.outcome, ds + r.descriptors, steps + r.ran)
  }

  lemma PrependTwice(ds: seq<Descriptor>, steps: seq<Step>, ds2: seq<Descriptor>, steps2: seq<Step>, r: ChainRun)
    ensures Prepend(ds, steps, Prepend(ds2, steps2, r)) == Prepend(ds + ds2, steps + steps2, r)
  {
    assert ds + (ds2 + r.descriptors) == (ds + ds2) + r.descriptors;
    assert steps + (steps2 + r.ran) == (steps + steps2) + r.ran;
  }

  /** The first step of a chain run: the first entry's command, or null for
    * a node without one, and then the rest of the chain on its result. */
  lemma RunFromCons(run: (Command, Expr, Value) -> Result<Value, Exn>, entries: seq<(Expr, Node)>, parameter: Value)
    requires entries != []
    ensures var c := entries[0].1.command;
      var r := if c.None? then Success(Null) else run(c.value, entries[0].0, parameter);
      var steps := if c.None? then [] else [Ran(c.value, parameter)];
      var added := if c.Some? && c.value.completion && r.Success? then [Descriptor(c.value, r.value)] else [];
      RunFrom(run, entries, parameter)
        == if r.Failure? then ChainRun(Failure(r.error), [], steps) else Prepend(added, steps, RunFrom(run, entries[1..], r.value))
  {
    if entries[0].1.command.None? {
      var rest := RunFrom(run, entries[1..], Null);
      assert [] + rest.descriptors == rest.descriptors && [] + rest.ran == rest.ran;
    }
  }

  /** The run of one entry: its command gets the parameter, a missing command
    * gives null, and a descriptor exists exactly for a completion command
    * that returned, carrying the value it returned. */
  lemma RunOne(run: (Command, Expr, Value) -> Result<Value, Exn>, e: Expr, n: Node, parameter: Value)
    ensures var r := RunFrom(run, [(e, n)], parameter);
      && (n.command.None? ==> r == ChainRun(Success(Null), [], []))
      && (n.command.Some? ==> r.ran == [Ran(n.command.value, parameter)] && r.outcome == run(n.command.value, e, parameter))
      && (n.command.Some? ==> r.descriptors == if n.command.value.completion && r.outcome.Success? then [Descriptor(n.command.value, r.outcome.value)] else [])
  {
    assert [(e, n)][1..] == [];
  }

  /** Chaining: running `a + b` runs `a`, then runs `b` on a's result,
    * unless `a` threw. */
  lemma {:induction false} RunFromAppend(run: (Command, Expr, Value) -> Result<Value, Exn>, a: seq<(Expr, Node)>, b: seq<(Expr, Node)>, parameter: Value)
    ensures var ra := RunFrom(run, a, parameter);
      RunFrom(run, a + b, parameter)
        == if ra.outcome.Failure? then ra else Prepend(ra.descriptors, ra.ran, RunFrom(run, b, ra.outcome.value))
    decreases |a|
  {
    if a == [] {
      assert a + b == b;
      var rb := RunFrom(run, b, parameter);
      assert [] + rb.descriptors == rb.descriptors && [] + rb.ran == rb.ran;
    } else {
      assert (a + b)[0] == a[0];
      assert (a + b)[1..] == a[1..] + b;
      if a[0].1.command.None? {
        RunFromAppend(run, a[1..], b, Null);
      } else {
        var c := a[0].1.command.value;
        var r := run(c, a[0].0, parameter);
        if r.Success? {
          RunFromAppend(run, a[1..], b, r.value);
          var rest := RunFrom(run, a[1..], r.value);
          if rest.outcome.Success? {
            PrependTwice(if c.completion then [Descriptor(c, r.value)] else [], [Ran(c, parameter)],
                         rest.descriptors, rest.ran, RunFrom(run, b, rest.outcome.value));
          }
        }
      }
    }
  }

  /** Every step of a chain run is a command run, and the run has at most
    * one step per entry. */
  lemma {:induction false} RunFromSteps(run: (Command, Expr, Value) -> Result<Value, Exn>, entries: seq<(Expr, Node)>, parameter: Value)
    ensures var r := RunFrom(run, entries, parameter);
      && |r.ran| <= |entries|
      && (forall k :: 0 <= k < |r.ran| ==> r.ran[k].Ran?)
      && (forall k :: 0 <= k < |r.descriptors| ==> r.descriptors[k].command.completion)
    decreases |entries|
  {
    if entries != [] {
      if entries[0].1.command.None? {
        RunFromSteps(run, entries[1..], Null);
      } else {
        var r := run(entries[0].1.command.value, entries[0].0, parameter);
        if r.Success? {
          RunFromSteps(run, entries[1..], r.value);
        }
      }
    }
  }

  /** The steps of OnCompleted for descriptors `ds`: each callback is called
    * with its descriptor's result and the exception, and one that throws is
    * logged before the next is called. */
  function CompletionSteps(ds: seq<Descriptor>, error: Option<Exn>, complete: (Command, Value, Option<Exn>) -> Option<Exn>): seq<Step> {
    if ds == [] then []
    else
      var d := ds[|ds| - 1];
      var thrown := complete(d.command, d.result, error);
      CompletionSteps(ds[..|ds| - 1], error, complete)
        + [CompletionCalled(d.command, d.result, error)]
        + (if thrown.Some? then [CompletionLogged(thrown.value)] else [])
  }

  /** The callbacks called, in the order called. */
  function Calls(steps: seq<Step>): seq<Step> {
    if steps == [] then []
    else Calls(steps[..|steps| - 1]) + if steps[|steps| - 1].CompletionCalled? then [steps[|steps| - 1]] else []
  }

  lemma CallsSnoc(steps: seq<Step>, x: Step)
    ensures Calls(steps + [x]) == Calls(steps) + if x.CompletionCalled? then [x] else []
  {
    assert (steps + [x])[..|steps|] == steps;
  }

  /** Every descriptor's callback is called exactly once, in order, with the
    * same exception, whatever the others throw. */
  lemma {:induction false} CompletionCallsAll(ds: seq<Descriptor>, error: Option<Exn>, complete: (Command, Value, Option<Exn>) -> Option<Exn>)
    ensures Calls(CompletionSteps(ds, error, complete))
         == seq(|ds|, i requires 0 <= i < |ds| => CompletionCalled(ds[i].command, ds[i].result, error))
  {
    if ds != [] {
      var front := ds[..|ds| - 1];
      var d := ds[|ds| - 1];
      var thrown := complete(d.command, d.result, error);
      var fs := CompletionSteps(front, error, complete);
      var call := CompletionCalled(d.command, d.result, error);
      CompletionCallsAll(front, error, complete);
      CallsSnoc(fs, call);
      if thrown.Some? {
        CallsSnoc(fs + [call], CompletionLogged(thrown.value));
      } else {
        assert fs + [call] + [] == fs + [call];
      }
      var want := seq(|ds|, i requires 0 <= i < |ds| => CompletionCalled(ds[i].command, ds[i].result, error));
      var wantFront := seq(|front|, i requires 0 <= i < |front| => CompletionCalled(front[i].command, front[i].result, error));
      assert want == wantFront + [call];
    }
  }

  /** OnCompleted produces only callback calls and logged callback failures. */
  lemma {:induction false} CompletionStepKinds(ds: seq<Descriptor>, error: Option<Exn>, complete: (Command, Value, Option<Exn>) -> Option<Exn>)
    ensures forall k :: 0 <= k < |CompletionSteps(ds, error, complete)| ==>
              CompletionSteps(ds, error, complete)[k].CompletionCalled? || CompletionSteps(ds, error, complete)[k].CompletionLogged?
  {
    if ds != [] {
      CompletionStepKinds(ds[..|ds| - 1], error, complete);
    }
  }

  /** The number of steps that start a completion round. */
  function CountStarted(steps: seq<Step>): nat {
    if steps == [] then 0
    else CountStarted(steps[1..]) + if steps[0].CompletionStarted? then 1 else 0
  }

  lemma {:induction false} CountStartedAppend(a: seq<Step>, b: seq<Step>)
    ensures CountStarted(a + b) == CountStarted(a) + CountStarted(b)
  {
    if a == [] {
      assert a + b == b;
    } else {
      assert (a + b)[1..] == a[1..] + b;
      CountStartedAppend(a[1..], b);
    }
  }

  lemma {:induction false} CountStartedNone(steps: seq<Step>)
    requires forall k :: 0 <= k < |steps| ==> !steps[k].CompletionStarted?
    ensures CountStarted(steps) == 0
  {
    if steps != [] {
      CountStartedNone(steps[1..]);
    }
  }

  /** No command ran in these steps. */
  predicate NoneRan(steps: seq<Step>) {
    forall k :: 0 <= k < |steps| ==> !steps[k].Ran?
  }

  /** The steps of OnFailed(context, ex): the Failed event, then the error
    * output of the exception the handlers left, unless they handled it. */
  function FailureSteps(ex: Exn, args: FailureArgs): seq<Step> {
    [FailedRaised(ex)] + if !args.handled && args.exception.Some? then [ErrorWritten(args.exception.value)] else []
  }

  /** The Failed event comes first; the error output appears exactly when
    * the handlers left the exception unhandled and non-null, and it shows
    * the exception they left, which may differ from the one thrown. */
  lemma FailureStepsSpec(ex: Exn, args: FailureArgs)
    ensures var steps := FailureSteps(ex, args);
      && 1 <= |steps| <= 2 && steps[0] == FailedRaised(ex)
      && (forall k :: 0 < k < |steps| ==> steps[k] == ErrorWritten(args.exception.value))
      && (|steps| == 2 <==> !args.handled && args.exception.Some?)
  {
  }

  /** Calls of a concatenation. */
  lemma {:induction false} CallsAppend(a: seq<Step>, b: seq<Step>)
    ensures Calls(a + b) == Calls(a) + Calls(b)
    decreases |b|
  {
    if b == [] {
      assert a + b == a;
    } else {
      var front := b[..|b| - 1];
      var x := b[|b| - 1];
      assert b == front + [x];
      assert a + b == (a + front) + [x];
      CallsAppend(a, front);
      CallsSnoc(a + front, x);
      CallsSnoc(front, x);
    }
  }

  /** Steps with no callback call contribute no calls. */
  lemma {:induction false} CallsNone(steps: seq<Step>)
    requires forall k :: 0 <= k < |steps| ==> !steps[k].CompletionCalled?
    ensures Calls(steps) == []
  {
    if steps != [] {
      CallsNone(steps[..|steps| - 1]);
    }
  }

  /** The exception a completion round is told about: the one OnExecute
    * threw, or none. */
  function PassedError(outcome: Result<Value, Exn>): Option<Exn> {
    if outcome.Failure? then Some(outcome.error) else None
  }

  class CommandExecutor {
    const parse: string -> Result<seq<Expr>, Exn>
    const find: string -> Option<Node>
    const run: (Command, Expr, Value) -> Result<Value, Exn>
    const complete: (Command, Value, Option<Exn>) -> Option<Exn>
    const executing: Context -> ExecutingArgs
    const executed: (Context, Value) -> Value
    const failed: (Option<Context>, Exn) -> FailureArgs

    constructor (parse: string -> Result<seq<Expr>, Exn>, find: string -> Option<Node>,
                 run: (Command, Expr, Value) -> Result<Value, Exn>,
                 complete: (Command, Value, Option<Exn>) -> Option<Exn>,
                 executing: Context -> ExecutingArgs, executed: (Context, Value) -> Value,
                 failed: (Option<Context>, Exn) -> FailureArgs)
      ensures this.parse == parse && this.find == find && this.run == run && this.complete == complete
      ensures this.executing == executing && this.executed == executed && this.failed == failed
    {
      this.parse := parse;
      this.find := find;
      this.run := run;
      this.complete := complete;
      this.executing := executing;
      this.executed := executed;
      this.failed := failed;
    }

    /** CreateExecutorContext: the parsed chain with the parameter; a parser
      * exception passes through, and a null expression is an
      * InvalidOperationException. */
    function CreateExecutorContext(commandText: string, parameter: Value): (r: Result<Context, Exn>)
      ensures parse(commandText).Failure? ==> r == Failure(parse(commandText).error)
      ensures parse(commandText) == Success([]) ==> r == Failure(InvalidOperation)
      ensures r.Success? <==> parse(commandText).Success? && parse(commandText).value != []
      ensures r.Success? ==> r.value == Context(parse(commandText).value, parameter)
    {
      match parse(commandText)
      case Failure(e) => Failure(e)
      case Success(chain) => if chain == [] then Failure(InvalidOperation) else Success(Context(chain, parameter))
    }

    /** What OnExecute hands back for a context. */
    function Chain(context: Context): ChainRun {
      match Resolve(find, context.expression)
      case Failure(e) => ChainRun(Failure(e), [], [])
      case Success(queue) => if queue == [] then ChainRun(Success(Null), [], []) else RunFrom(run, queue, context.parameter)
    }

    /** Execute's steps after the completion round: on success the Executed
      * event with the chain's result; on failure the Failed event, then the
      * Executed event with null if the handlers handled it. */
    function AfterSteps(context: Context, outcome: Result<Value, Exn>): seq<Step> {
      match outcome
      case Success(v) => [ExecutedRaised(v)]
      case Failure(e) =>
        var args := failed(Some(context), e);
        FailureSteps(e, args) + if args.handled then [ExecutedRaised(Null)] else []
    }

    /** Execute's steps for a context whose Executing event did not cancel. */
    function ExecutionSteps(context: Context): seq<Step> {
      var ch := Chain(context);
      var error := PassedError(ch.outcome);
      [ExecutingRaised] + ch.ran + [CompletionStarted(error)] + CompletionSteps(ch.descriptors, error, complete)
        + AfterSteps(context, ch.outcome)
    }

    /** Execute's result for a context whose Executing event did not cancel:
      * what the Executed handlers make of the chain's result, or of null
      * after a handled failure; an unhandled failure rethrows the original
      * exception. */
    function ExecutionOutcome(context: Context): Result<Value, Exn> {
      match Chain(context).outcome
      case Success(v) => Success(executed(context, v))
      case Failure(e) => if failed(Some(context), e).handled then Success(executed(context, Null)) else Failure(e)
    }

    /** The chain's own steps are command runs. */
    lemma ChainSteps(context: Context)
      ensures forall k :: 0 <= k < |Chain(context).ran| ==> Chain(context).ran[k].Ran?
      ensures Resolve(find, context.expression).Failure? ==> Chain(context).ran == []
    {
      if Resolve(find, context.expression).Success? && Resolve(find, context.expression).value != [] {
        RunFromSteps(run, Resolve(find, context.expression).value, context.parameter);
      }
    }

    /** The steps after the completion round are events and error output. */
    lemma AfterStepsKinds(context: Context, outcome: Result<Value, Exn>)
      ensures forall k :: 0 <= k < |AfterSteps(context, outcome)| ==>
        AfterSteps(context, outcome)[k].FailedRaised? || AfterSteps(context, outcome)[k].ErrorWritten? || AfterSteps(context, outcome)[k].ExecutedRaised?
    {
      if outcome.Failure? {
        FailureStepsSpec(outcome.error, failed(Some(context), outcome.error));
      }
    }

    /** The completion round runs exactly once per execution that was not
      * cancelled, whether the chain returned or threw. */
    lemma ExecutionCompletesOnce(context: Context)
      ensures CountStarted(ExecutionSteps(context)) == 1
    {
      var ch := Chain(context);
      var error := PassedError(ch.outcome);
      var cs := CompletionSteps(ch.descriptors, error, complete);
      var after := AfterSteps(context, ch.outcome);
      var front := [ExecutingRaised] + ch.ran;
      ChainSteps(context);
      CompletionStepKinds(ch.descriptors, error, complete);
      AfterStepsKinds(context, ch.outcome);
      assert ExecutionSteps(context) == front + ([CompletionStarted(error)] + (cs + after));
      CountStartedAppend(front, [CompletionStarted(error)] + (cs + after));
      CountStartedAppend(cs, after);
      CountStartedNone(front);
      CountStartedNone(cs);
      CountStartedNone(after);
      assert ([CompletionStarted(error)] + (cs + after))[1..] == cs + after;
    }

    /** Every collected descriptor's callback is called once, in order, with
      * the exception OnExecute threw, and nothing else is a callback call. */
    lemma ExecutionCallsAll(context: Context)
      ensures Calls(ExecutionSteps(context))
           == seq(|Chain(context).descriptors|, i requires 0 <= i < |Chain(context).descriptors| =>
                CompletionCalled(Chain(context).descriptors[i].command, Chain(context).descriptors[i].result, PassedError(Chain(context).outcome)))
    {
      var ch := Chain(context);
      var error := PassedError(ch.outcome);
      var cs := CompletionSteps(ch.descriptors, error, complete);
      var after := AfterSteps(context, ch.outcome);
      var head := [ExecutingRaised] + ch.ran + [CompletionStarted(error)];
      ChainSteps(context);
      AfterStepsKinds(context, ch.outcome);
      assert forall k :: 0 <= k < |head| ==> !head[k].CompletionCalled?;
      CallsAppend(head + cs, after);
      CallsAppend(head, cs);
      CallsNone(head);
      CallsNone(after);
      CompletionCallsAll(ch.descriptors, error, complete);
      assert [] + Calls(cs) + [] == Calls(cs);
    }

    /** A path that is not in the tree stops the execution before any
      * command runs. */
    lemma ExecutionNotFound(context: Context)
      requires Resolve(find, context.expression).Failure?
      ensures NoneRan(ExecutionSteps(context))
      ensures Chain(context).outcome == Failure(Resolve(find, context.expression).error)
    {
      var ch := Chain(context);
      var error := PassedError(ch.outcome);
      var cs := CompletionSteps(ch.descriptors, error, complete);
      var after := AfterSteps(context, ch.outcome);
      ChainSteps(context);
      CompletionStepKinds(ch.descriptors, error, complete);
      AfterStepsKinds(context, ch.outcome);
      assert ExecutionSteps(context) == [ExecutingRaised, CompletionStarted(error)] + cs + after;
    }

    /** ExecuteCommand: null for a node without a command, else the command's
      * result for the parameter. */
    method ExecuteCommand(expression: Expr, node: Node, parameter: Value) returns (r: Result<Value, Exn>, steps: seq<Step>)
      ensures node.command.None? ==> r == Success(Null) && steps == []
      ensures node.command.Some? ==> r == run(node.command.value, expression, parameter)
      ensures node.command.Some? ==> steps == [Ran(node.command.value, parameter)]
    {
      if node.command.None? {
        return Success(Null), [];
      }
      r := run(node.command.value, expression, parameter);
      steps := [Ran(node.command.value, parameter)];
    }

    /** OnExecute: looks up every expression of the chain first, then runs
      * the queued commands in order. An unknown path throws before anything
      * runs; an empty chain gives null. On a throwing command the descriptors
      * collected so far are still handed back, as the out-parameter is. */
    method OnExecute(context: Context) returns (outcome: Result<Value, Exn>, descriptors: seq<Descriptor>, ran: seq<Step>)
      ensures Resolve(find, context.expression).Failure? ==>
                outcome == Failure(Resolve(find, context.expression).error) && descriptors == [] && ran == []
      ensures context.expression == [] ==> outcome == Success(Null) && descriptors == [] && ran == []
      ensures Resolve(find, context.expression).Success? && context.expression != [] ==>
                ChainRun(outcome, descriptors, ran) == RunFrom(run, Resolve(find, context.expression).value, context.parameter)
      ensures ChainRun(outcome, descriptors, ran) == Chain(context)
    {
      var expression := context.expression;
      var queue: seq<(Expr, Node)> := [];
      descriptors := [];
      ran := [];
      for i := 0 to |expression|
        invariant forall k :: 0 <= k < i ==> find(expression[k].fullPath).Some?
        invariant queue == Paired(find, expression[..i])
      {
        var node := find(expression[i].fullPath);
        if node.None? {
          ResolveMissing(find, expression, i);
          return Failure(CommandNotFound(expression[i].fullPath)), descriptors, ran;
        }
        queue := queue + [(expression[i], node.value)];
      }
      assert expression[..|expression|] == expression;
      ResolveAll(find, expression);
      if |queue| < 1 {
        return Success(Null), descriptors, ran;
      }
      ghost var entries := queue;
      var parameter := context.parameter;
      while |queue| > 0
        invariant Prepend(descriptors, ran, RunFrom(run, queue, parameter)) == RunFrom(run, entries, context.parameter)
        decreases |queue|
      {
        var entry := queue[0];
        RunFromCons(run, queue, parameter);
        var r, steps := ExecuteCommand(entry.0, entry.1, parameter);
        if r.Failure? {
          assert descriptors + [] == descriptors;
          return Failure(r.error), descriptors, ran + steps;
        }
        var added := if entry.1.command.Some? && entry.1.command.value.completion then [Descriptor(entry.1.command.value, r.value)] else [];
        PrependTwice(descriptors, ran, added, steps, RunFrom(run, queue[1..], r.value));
        queue := queue[1..];
        parameter := r.value;
        descriptors := descriptors + added;
        ran := ran + steps;
      }
      assert descriptors + [] == descriptors && ran + [] == ran;
      return Success(parameter), descriptors, ran;
    }

    /** OnFailed(context, ex): raises Failed, writes the exception the
      * handlers left unless they handled it, and reports whether they did. */
    method OnFailed(context: Option<Context>, ex: Exn) returns (handled: bool, steps: seq<Step>)
      ensures handled == failed(context, ex).handled
      ensures steps == FailureSteps(ex, failed(context, ex))
    {
      var args := failed(context, ex);
      steps := [FailedRaised(ex)];
      if !args.handled && args.exception.Some? {
        steps := steps + [ErrorWritten(args.exception.value)];
      }
      handled := args.handled;
    }

    /** OnCompleted: calls every descriptor's callback in order with the
      * same exception; an exception a callback throws is logged and the
      * round goes on. */
    method OnCompleted(descriptors: seq<Descriptor>, error: Option<Exn>) returns (steps: seq<Step>)
      ensures steps == [CompletionStarted(error)] + CompletionSteps(descriptors, error, complete)
    {
      steps := [CompletionStarted(error)];
      for i := 0 to |descriptors|
        invariant steps == [CompletionStarted(error)] + CompletionSteps(descriptors[..i], error, complete)
      {
        var d := descriptors[i];
        assert descriptors[..i + 1][..i] == descriptors[..i];
        steps := steps + [CompletionCalled(d.command, d.result, error)];
        var thrown := complete(d.command, d.result, error);
        if thrown.Some? {
          steps := steps + [CompletionLogged(thrown.value)];
        }
      }
      assert descriptors[..|descriptors|] == descriptors;
    }

    /** Execute(commandText, parameter). Blank text throws before anything
      * happens. A context that cannot be created goes to the Failed handlers
      * with a null context: handled gives null, unhandled rethrows. A
      * cancelling Executing handler's result is returned before anything
      * runs. Otherwise the chain runs, the completion round follows once,
      * with the chain's exception if it threw, then the Failed handlers see
      * that exception, and Executed is raised unless it is rethrown. */
    method Execute(commandText: string, parameter: Value) returns (outcome: Result<Value, Exn>, trace: seq<Step>)
      ensures IsBlank(commandText) ==> outcome == Failure(ArgumentNull) && trace == []
      ensures !IsBlank(commandText) && CreateExecutorContext(commandText, parameter).Failure? ==>
                var ex := CreateExecutorContext(commandText, parameter).error;
                && trace == FailureSteps(ex, failed(None, ex))
                && outcome == if failed(None, ex).handled then Success(Null) else Failure(ex)
      ensures !IsBlank(commandText) && CreateExecutorContext(commandText, parameter).Success? ==>
                var context := CreateExecutorContext(commandText, parameter).value;
                executing(context).cancel ==> outcome == Success(executing(context).result) && trace == [ExecutingRaised]
      ensures !IsBlank(commandText) && CreateExecutorContext(commandText, parameter).Success? ==>
                var context := CreateExecutorContext(commandText, parameter).value;
                !executing(context).cancel ==> outcome == ExecutionOutcome(context) && trace == ExecutionSteps(context)
      ensures !IsBlank(commandText) && CreateExecutorContext(commandText, parameter).Success? ==>
                var context := CreateExecutorContext(commandText, parameter).value;
                !executing(context).cancel ==> CountStarted(trace) == 1
    {
      if IsBlank(commandText) {
        return Failure(ArgumentNull), [];
      }
      var created := CreateExecutorContext(commandText, parameter);
      if created.Failure? {
        var handled, steps := OnFailed(None, created.error);
        if !handled {
          return Failure(created.error), steps;
        }
        return Success(Null), steps;
      }
      var context := created.value;
      var executingArgs := executing(context);
      trace := [ExecutingRaised];
      if executingArgs.cancel {
        return Success(executingArgs.result), trace;
      }
      var result := Null;
      var chainOutcome, descriptors, ran := OnExecute(context);
      var error := PassedError(chainOutcome);
      var completed := OnCompleted(descriptors, error);
      var before := [ExecutingRaised] + ran + completed;
      assert before == [ExecutingRaised] + ran + [CompletionStarted(error)] + CompletionSteps(descriptors, error, complete);
      trace := before;
      ExecutionCompletesOnce(context);
      if chainOutcome.Failure? {
        var handled, steps := OnFailed(Some(context), chainOutcome.error);
        if !handled {
          assert AfterSteps(context, chainOutcome) == steps + [];
          assert ExecutionSteps(context) == before + steps;
          return Failure(chainOutcome.error), before + steps;
        }
        assert AfterSteps(context, chainOutcome) == steps + [ExecutedRaised(Null)];
        assert ExecutionSteps(context) == before + steps + [ExecutedRaised(Null)];
        trace := before + steps;
      } else {
        result := chainOutcome.value;
        assert ExecutionSteps(context) == before + [ExecutedRaised(result)];
      }
      var executedResult := executed(context, result);
      trace := trace + [ExecutedRaised(result)];
      return Success(executedResult), trace;
    }
  }
}
