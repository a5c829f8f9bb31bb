/**
 * The asynchronous dispatcher: contexts, the invocation of commands and groups (one child or a chain),
 * and the top-level handling of one message, which drains the deferred-task queue at its checkpoints
 * and turns what was raised into a reply.
 */
module Dispatch {
  import opened Outcomes
  import opened Commands
  import opened DeferredTasks

  /** A click context, one per resolved command; the dispatcher overwrites its leftover words and invoked_subcommand. */
  class Context {
    const command: Command
    const infoName: string
    const parent: Context?
    const settings: Settings  // the extra arguments after make_context merged context_settings into them
    const mode: Mode
    var params: Params
    var protectedArgs: seq<string>
    var args: seq<string>
    var invokedSubcommand: Option<string>

    constructor (command: Command, infoName: string, parent: Context?, settings: Settings)
      ensures this.command == command && this.infoName == infoName && this.parent == parent
      ensures this.settings == settings && mode == ModeFor(command, settings)
      ensures params == map[] && protectedArgs == [] && args == [] && invokedSubcommand == None
    {
      this.command := command;
      this.infoName := infoName;
      this.parent := parent;
      this.settings := settings;
      this.mode := ModeFor(command, settings);
      params := map[];
      protectedArgs := [];
      args := [];
      invokedSubcommand := None;
    }
  }

  /**
   * What one step shows the outside world, the help reply it queued if it asked for help, and how it
   * ends. Help is queued only by parse_args, and always together with ExitCode(0).
   */
  datatype Run = Run(events: seq<Event>, help: Option<string>, outcome: Outcome<Value>)

  /** A run queues help only while it raises ExitCode(0). */
  predicate Exits(r: Run)
  {
    r.help.Some? ==> r.outcome == Raise(Exit())
  }

  /** The queue after a run that may have queued its help under the next id. */
  function HelpQueued(q: seq<Task>, id: nat, help: Option<string>): seq<Task>
  {
    if help.Some? then q + [Task(id, help.value)] else q
  }

  /** The next id after a run that may have queued its help. */
  function NextAfter(id: nat, help: Option<string>): nat
  {
    if help.Some? then id + 1 else id
  }

  /** Context.async_invoke of a command's own callback: it sees the parameters and invoked_subcommand; None returns None. */
  function OwnRun(c: Command, name: string, call: Call): (r: Run)
    ensures r.help == None
    ensures c.callback.None? ==> r == Run([], None, Return(Nothing))
    ensures c.callback.Some? ==>
              && |r.events| >= 1 && r.events[0] == Called(name)
              && r.events[1..] == Replies(c.callback.value(call).replies)
              && r.outcome == c.callback.value(call).outcome
  {
    match c.callback
    case None => Run([], None, Return(Nothing))
    case Some(cb) =>
      var e := cb(call);
      Run([Called(name)] + Replies(e.replies), None, e.outcome)
  }

  /** The run of a context's own callback. */
  function CallbackRun(ctx: Context): Run
    reads ctx
  {
    OwnRun(ctx.command, ctx.infoName, Call(ctx.params, ctx.invokedSubcommand))
  }

  /** _process_result, awaited: a group's result callback, if any, receives the value and the group's parameters. */
  function ResultRun(g: Command, name: string, params: Params, value: Value): (r: Run)
    requires g.Group?
    ensures r.help == None
    ensures g.resultCallback.None? ==> r == Run([], None, Return(value))
    ensures g.resultCallback.Some? ==>
              && |r.events| >= 1 && r.events[0] == ResultCalled(name)
              && r.events[1..] == Replies(g.resultCallback.value(value, params).replies)
              && r.outcome == g.resultCallback.value(value, params).outcome
  {
    match g.resultCallback
    case None => Run([], None, Return(value))
    case Some(rc) =>
      var e := rc(value, params);
      Run([ResultCalled(name)] + Replies(e.replies), None, e.outcome)
  }

  /** What the chain branch's last statement, `return _process_result(rv)` without await, does: it returns the coroutine object. */
  function ChainReturnAsWritten(rv: seq<Value>): Run
  {
    Run([], None, Return(Unawaited(Items(rv))))
  }

  /** The chain branch as written never runs the result callback, where awaiting it runs it first thing. */
  lemma AsWrittenChainSkipsResultCallback(g: Command, name: string, params: Params, rv: seq<Value>)
    requires g.Group? && g.resultCallback.Some?
    ensures ChainReturnAsWritten(rv).events == []
    ensures ResultCalled(name) !in ChainReturnAsWritten(rv).events
    ensures ResultRun(g, name, params, Items(rv)).events[0] == ResultCalled(name)
  {
  }

  /** The extra arguments make_context receives for every child of a chain. */
  const ChainExtra: Settings := map["allow_extra_args" := Flag(true), "allow_interspersed_args" := Flag(false)]

  /** One child of a chain, resolved and parsed, with what its context holds. */
  datatype Step = Step(name: string, command: Command, params: Params, protectedArgs: seq<string>)

  function Then(done: seq<Step>, r: Outcome<seq<Step>>): Outcome<seq<Step>>
  {
    match r
    case Raise(e) => Raise(e)
    case Return(steps) => Return(done + steps)
  }

  /**
   * The resolve loop of a chain as a function of the words: resolve a name, parse the child's context
   * (extra words allowed), continue with its leftover words, and stop at the first error or when no
   * words remain. Help asked for by a child ends the loop with ExitCode(0).
   */
  function ChainPlan(g: Command, mode: Mode, words: seq<string>): Outcome<seq<Step>>
    requires g.Group?
    decreases |words|
  {
    if words == [] then Return([])
    else
      match Resolve(g, mode, words)
      case Raise(e) => Raise(e)
      case Return(Resolved(name, child, rest)) =>
        match ParseStep(child, ModeFor(child, child.settings + ChainExtra), rest)
        case Store(p, pa, a) => Then([Step(name, child, p, pa)], ChainPlan(g, mode, a))
        case Fail(m) => Raise(ClickException(m))
        case _ => Raise(Exit())
  }

  /** A chain resolves at most one child per word. */
  lemma {:induction false} ChainPlanLength(g: Command, mode: Mode, words: seq<string>)
    requires g.Group?
    ensures var r := ChainPlan(g, mode, words); r.Return? ==> |r.value| <= |words|
    decreases |words|
  {
    if words != [] && words[0] in g.children {
      ChainPlanKnown(g, mode, words);
      var child := g.children[words[0]];
      var v := ParseStep(child, ModeFor(child, child.settings + ChainExtra), words[1..]);
      if v.Store? {
        ChainPlanLength(g, mode, v.args);
      }
    }
  }

  /** Every step of a chain names a genuine child of the group. */
  lemma {:induction false} ChainPlanChildren(g: Command, mode: Mode, words: seq<string>)
    requires g.Group?
    ensures var r := ChainPlan(g, mode, words);
            r.Return? ==> forall i :: 0 <= i < |r.value| ==>
              r.value[i].name in g.children && r.value[i].command == g.children[r.value[i].name]
    decreases |words|
  {
    if words != [] && words[0] in g.children {
      ChainPlanKnown(g, mode, words);
      var child := g.children[words[0]];
      var v := ParseStep(child, ModeFor(child, child.settings + ChainExtra), words[1..]);
      if v.Store? {
        ChainPlanChildren(g, mode, v.args);
        var more := ChainPlan(g, mode, v.args);
        if more.Return? {
          var steps := [Step(words[0], child, v.params, v.protectedArgs)] + more.value;
          assert ChainPlan(g, mode, words) == Return(steps);
          assert forall i :: 0 < i < |steps| ==> steps[i] == more.value[i - 1];
        }
      }
    }
  }

  /** Only resilient parsing lets a foreign exception out of the resolve loop. */
  lemma {:induction false} ChainPlanRaises(g: Command, mode: Mode, words: seq<string>)
    requires g.Group?
    ensures var r := ChainPlan(g, mode, words);
            r.Raise? ==> !r.exc.Foreign? || mode.resilientParsing
    decreases |words|
  {
    if words != [] && words[0] in g.children {
      ChainPlanKnown(g, mode, words);
      var child := g.children[words[0]];
      var v := ParseStep(child, ModeFor(child, child.settings + ChainExtra), words[1..]);
      if v.Store? {
        ChainPlanRaises(g, mode, v.args);
      }
    } else if words != [] {
      ChainPlanUnknown(g, mode, words);
    }
  }

  /**
   * A chain resolves at most one child per word, every step names a genuine child, the first step is the
   * first word, and only resilient parsing lets a foreign exception out of the resolve loop.
   */
  lemma ChainPlanShape(g: Command, mode: Mode, words: seq<string>)
    requires g.Group?
    ensures var r := ChainPlan(g, mode, words);
            && (r.Return? ==> |r.value| <= |words|)
            && (r.Return? ==> forall i :: 0 <= i < |r.value| ==>
                  r.value[i].name in g.children && r.value[i].command == g.children[r.value[i].name])
            && (r.Return? && words != [] ==> |r.value| > 0 && r.value[0].name == words[0])
            && (r.Raise? ==> !r.exc.Foreign? || mode.resilientParsing)
  {
    ChainPlanLength(g, mode, words);
    ChainPlanChildren(g, mode, words);
    ChainPlanRaises(g, mode, words);
    if words != [] && words[0] in g.children {
      ChainPlanKnown(g, mode, words);
    }
  }

  /** One round of the resolve loop, for a known name. */
  lemma ChainPlanKnown(g: Command, mode: Mode, words: seq<string>)
    requires g.Group? && words != [] && words[0] in g.children
    ensures var child := g.children[words[0]];
            var v := ParseStep(child, ModeFor(child, child.settings + ChainExtra), words[1..]);
            ChainPlan(g, mode, words) ==
              if v.Store? then Then([Step(words[0], child, v.params, v.protectedArgs)], ChainPlan(g, mode, v.args))
              else if v.Fail? then Raise(ClickException(v.message))
              else Raise(Exit())
  {
  }

  /** One round of the resolve loop, for an unknown name. */
  lemma ChainPlanUnknown(g: Command, mode: Mode, words: seq<string>)
    requires g.Group? && words != [] && words[0] !in g.children
    ensures Resolve(g, mode, words).Raise? && ChainPlan(g, mode, words) == Raise(Resolve(g, mode, words).exc)
  {
  }

  /** The help the resolve loop queues: that of the child whose parse asks for it, if the loop gets that far. */
  function ChainHelp(g: Command, mode: Mode, words: seq<string>): Option<string>
    requires g.Group?
    decreases |words|
  {
    if words == [] || words[0] !in g.children then None
    else
      var child := g.children[words[0]];
      match ParseStep(child, ModeFor(child, child.settings + ChainExtra), words[1..])
      case Store(_, _, a) => ChainHelp(g, mode, a)
      case Fail(_) => None
      case _ => Some(child.help)
  }

  /** The resolve loop queues a help reply exactly when it ends with ExitCode(0). */
  lemma {:induction false} ChainHelpExits(g: Command, mode: Mode, words: seq<string>)
    requires g.Group?
    ensures ChainHelp(g, mode, words).Some? <==> ChainPlan(g, mode, words) == Raise(Exit())
    decreases |words|
  {
    if words != [] && words[0] in g.children {
      ChainPlanKnown(g, mode, words);
      var child := g.children[words[0]];
      var v := ParseStep(child, ModeFor(child, child.settings + ChainExtra), words[1..]);
      if v.Store? {
        ChainHelpExits(g, mode, v.args);
      }
    } else if words != [] {
      ChainPlanUnknown(g, mode, words);
    }
  }

  lemma ThenThen(done: seq<Step>, more: seq<Step>, r: Outcome<seq<Step>>)
    ensures Then(done, Then(more, r)) == Then(done + more, r)
  {
    match r {
      case Raise(_) =>
      case Return(steps) => assert done + (more + steps) == (done + more) + steps;
    }
  }

  /** How the context built for a chain child matches its step. */
  ghost predicate Matches(c: Context, s: Step, parent: Context)
    reads c
  {
    && c.infoName == s.name && c.command == s.command && c.parent == parent
    && c.settings == s.command.settings + ChainExtra && c.mode == ModeFor(s.command, s.command.settings + ChainExtra)
    && c.params == s.params && c.protectedArgs == s.protectedArgs && c.args == [] && c.invokedSubcommand == None
  }

  /** Each of these contexts matches its step. */
  ghost predicate AllMatch(cs: seq<Context>, steps: seq<Step>, parent: Context)
    reads cs
  {
    |cs| == |steps| && forall i :: 0 <= i < |cs| ==> Matches(cs[i], steps[i], parent)
  }

  /** Every one of these contexts was allocated after the earlier state. */
  twostate predicate AllFresh(new cs: seq<Context>)
  {
    forall i :: 0 <= i < |cs| ==> fresh(cs[i])
  }

  twostate lemma AllFreshPush(new cs: seq<Context>, new c: Context)
    requires AllFresh(cs) && fresh(c)
    ensures AllFresh(cs + [c])
  {
    assert forall i :: 0 <= i < |cs| ==> (cs + [c])[i] == cs[i];
  }

  lemma AllMatchPush(cs: seq<Context>, steps: seq<Step>, parent: Context, c: Context, s: Step)
    requires AllMatch(cs, steps, parent) && Matches(c, s, parent)
    ensures AllMatch(cs + [c], steps + [s], parent)
  {
    assert forall i :: 0 <= i < |cs| ==> (cs + [c])[i] == cs[i] && (steps + [s])[i] == steps[i];
  }

  /** The outcome of a chain's children: events, the help the raising child queued, and results in order. */
  datatype Chain = Chain(events: seq<Event>, help: Option<string>, outcome: Outcome<seq<Value>>)

  /** Running children left to right; the first one that raises ends the chain. */
  function ChainOf(runs: seq<Run>): (c: Chain)
    ensures (forall j :: 0 <= j < |runs| ==> Exits(runs[j])) ==> c.help.Some? ==> c.outcome == Raise(Exit())
    decreases |runs|
  {
    if runs == [] then Chain([], None, Return([]))
    else
      var before := ChainOf(runs[..|runs| - 1]);
      if before.outcome.Raise? then before
      else
        var run := runs[|runs| - 1];
        match run.outcome
        case Raise(e) => Chain(before.events + run.events, run.help, Raise(e))
        case Return(v) => Chain(before.events + run.events, None, Return(before.outcome.value + [v]))
  }

  /** The events of every run, in order. */
  function AllEvents(runs: seq<Run>): seq<Event>
    decreases |runs|
  {
    if runs == [] then [] else AllEvents(runs[..|runs| - 1]) + runs[|runs| - 1].events
  }

  /** A chain that returned has one result per run, and its events are those of every run, in order. */
  lemma {:induction false} ChainOfReturns(runs: seq<Run>)
    requires ChainOf(runs).outcome.Return?
    ensures |ChainOf(runs).outcome.value| == |runs|
    ensures forall j :: 0 <= j < |runs| ==> runs[j].outcome == Return(ChainOf(runs).outcome.value[j])
    ensures ChainOf(runs).events == AllEvents(runs)
    decreases |runs|
  {
    if runs != [] {
      var init := runs[..|runs| - 1];
      ChainOfReturns(init);
      assert forall j :: 0 <= j < |init| ==> runs[j] == init[j];
    }
  }

  /** One more run of a chain whose prefix returned. */
  lemma ChainOfNext(runs: seq<Run>, i: nat)
    requires i < |runs| && ChainOf(runs[..i]).outcome.Return?
    ensures var before := ChainOf(runs[..i]);
            ChainOf(runs[..i + 1]) ==
              if runs[i].outcome.Raise? then Chain(before.events + runs[i].events, runs[i].help, Raise(runs[i].outcome.exc))
              else Chain(before.events + runs[i].events, None, Return(before.outcome.value + [runs[i].outcome.value]))
  {
    assert runs[..i + 1][..i] == runs[..i];
  }

  /** The run loop's step: the next run either extends the results or ends the whole chain with its raise. */
  lemma ChainOfAdvance(runs: seq<Run>, i: nat, shown: seq<Event>, rv: seq<Value>)
    requires i < |runs| && ChainOf(runs[..i]) == Chain(shown, None, Return(rv))
    ensures runs[i].outcome.Return? ==>
              ChainOf(runs[..i + 1]) == Chain(shown + runs[i].events, None, Return(rv + [runs[i].outcome.value]))
    ensures runs[i].outcome.Raise? ==>
              ChainOf(runs) == Chain(shown + runs[i].events, runs[i].help, Raise(runs[i].outcome.exc))
  {
    ChainOfNext(runs, i);
    if runs[i].outcome.Raise? {
      ChainOfStops(runs, i + 1);
    }
  }

  /** Once a prefix of a chain has raised, the later runs do not happen. */
  lemma {:induction false} ChainOfStops(runs: seq<Run>, i: nat)
    requires i <= |runs| && ChainOf(runs[..i]).outcome.Raise?
    ensures ChainOf(runs) == ChainOf(runs[..i])
    decreases |runs| - i
  {
    if i < |runs| {
      assert runs[..i + 1][..i] == runs[..i];
      ChainOfStops(runs, i + 1);
    } else {
      assert runs[..i] == runs;
    }
  }

  /** The verdict for the context of a subcommand of a plain group: make_context with no extra arguments. */
  function SubVerdict(child: Command, words: seq<string>): Verdict
  {
    ParseStep(child, ModeFor(child, child.settings), words)
  }

  /**
   * sub_ctx.command.async_invoke(sub_ctx) as a function of what the context holds: a leaf runs its
   * callback; a group takes its no-subcommand path, runs one subcommand, or runs a chain.
   */
  function InvokeRun(c: Command, name: string, mode: Mode, params: Params, protectedArgs: seq<string>,
                     args: seq<string>, invoked: Option<string>): (r: Run)
    ensures Exits(r)
    decreases c, 4
  {
    if c.Leaf? then OwnRun(c, name, Call(params, invoked))
    else GroupRun(c, name, mode, params, protectedArgs, args, invoked)
  }

  /** What invoked_subcommand holds after a group's invocation. */
  function InvokedAfter(g: Command, mode: Mode, protectedArgs: seq<string>, invoked: Option<string>): Option<string>
    requires g.Group?
  {
    if protectedArgs == [] then invoked
    else if g.chain then Some("*")
    else if protectedArgs[0] in g.children || mode.resilientParsing then Some(protectedArgs[0])
    else invoked
  }

  /**
   * AsyncMultiCommandMixin.async_invoke: with no protected words the no-subcommand path; otherwise the
   * protected words and the arguments, in that order, go to one subcommand or to a chain. The group's
   * own callback runs first whenever it runs, and sees the invoked_subcommand the group records.
   */
  function GroupRun(g: Command, name: string, mode: Mode, params: Params, protectedArgs: seq<string>,
                    args: seq<string>, invoked: Option<string>): (r: Run)
    requires g.Group?
    ensures Exits(r)
    ensures protectedArgs == [] ==> r.help == None
    ensures protectedArgs == [] && !g.invokeWithoutCommand ==>
              r == Run([], None, Raise(ClickException(MissingCommandMessage)))
    ensures protectedArgs != [] && !g.chain && protectedArgs[0] !in g.children && !mode.resilientParsing ==>
              r == Run([], None, Raise(ClickException(NoSuchCommand(protectedArgs[0]))))
    ensures protectedArgs != [] && (g.chain || protectedArgs[0] in g.children || mode.resilientParsing) ==>
              OwnRun(g, name, Call(params, InvokedAfter(g, mode, protectedArgs, invoked))).events <= r.events
    decreases g, 3
  {
    if protectedArgs == [] then NoArgsRun(g, name, params, invoked)
    else if !g.chain then SubcommandRun(g, name, mode, params, protectedArgs + args)
    else ChainBranchRun(g, name, mode, params, protectedArgs + args)
  }

  /**
   * A group given no protected words runs its own callback alone with invoked_subcommand untouched, or,
   * for a chain, it and then the result callback on [].
   */
  lemma GroupRunNoArgs(g: Command, name: string, mode: Mode, params: Params, args: seq<string>, invoked: Option<string>)
    requires g.Group? && g.invokeWithoutCommand
    ensures var r := GroupRun(g, name, mode, params, [], args, invoked);
            var own := OwnRun(g, name, Call(params, invoked));
            var result := ResultRun(g, name, params, Items([]));
            && (!g.chain ==> r == own)
            && (g.chain && own.outcome.Raise? ==> r == own)
            && (g.chain && own.outcome.Return? ==> r.events == own.events + result.events && r.outcome == result.outcome)
  {
  }

  /**
   * A plain group given words: its callback sees the first word as invoked_subcommand, and the child named
   * by it then gets the remaining protected words followed by the arguments.
   */
  lemma GroupRunOne(g: Command, name: string, mode: Mode, params: Params, protectedArgs: seq<string>,
                    args: seq<string>, invoked: Option<string>)
    requires g.Group? && !g.chain && protectedArgs != [] && protectedArgs[0] in g.children
    ensures var r := GroupRun(g, name, mode, params, protectedArgs, args, invoked);
            var own := OwnRun(g, name, Call(params, Some(protectedArgs[0])));
            var child := ChildRun(g, name, params, protectedArgs[0], protectedArgs[1..] + args);
            && (own.outcome.Raise? ==> r == own)
            && (own.outcome.Return? ==> r == Run(own.events + child.events, child.help, child.outcome))
  {
    var words := protectedArgs + args;
    assert words[0] == protectedArgs[0] && words[1..] == protectedArgs[1..] + args;
    var r := GroupRun(g, name, mode, params, protectedArgs, args, invoked);
    var own := OwnRun(g, name, Call(params, Some(protectedArgs[0])));
    if own.outcome.Return? {
      assert r.events == own.events + r.events[|own.events|..];
    }
  }

  /**
   * A chain given words: its callback sees '*' as invoked_subcommand and, once the protected words and the
   * arguments resolve, the chain they plan follows.
   */
  lemma GroupRunChain(g: Command, name: string, mode: Mode, params: Params, protectedArgs: seq<string>,
                      args: seq<string>, invoked: Option<string>)
    requires g.Group? && g.chain && protectedArgs != []
    ensures var r := GroupRun(g, name, mode, params, protectedArgs, args, invoked);
            var own := OwnRun(g, name, Call(params, Some("*")));
            var plan := ChainPlan(g, mode, protectedArgs + args);
            own.outcome.Return? && plan.Return? ==>
              && (forall i :: 0 <= i < |plan.value| ==>
                    plan.value[i].name in g.children && plan.value[i].command == g.children[plan.value[i].name])
              && var chain := ChainRun(g, name, params, plan.value);
                 r == Run(own.events + chain.events, chain.help, chain.outcome)
  {
    var r := ChainBranchRun(g, name, mode, params, protectedArgs + args);
    assert GroupRun(g, name, mode, params, protectedArgs, args, invoked) == r;
    var own := OwnRun(g, name, Call(params, Some("*")));
    assert own.events <= r.events;
    assert r.events == own.events + r.events[|own.events|..];
  }

  /**
   * A group given no subcommand: it runs its own callback alone (invoke_without_command), runs it and
   * hands [] to the result callback (a chain), or fails with "Missing command." before anything runs.
   */
  function NoArgsRun(g: Command, name: string, params: Params, invoked: Option<string>): (r: Run)
    requires g.Group?
    ensures r.help == None
    ensures match NoArgsPlanFor(g.invokeWithoutCommand, g.chain)
            case OwnCallbackOnly => r == OwnRun(g, name, Call(params, invoked))
            case OwnCallbackThenEmptyChain =>
              var own := OwnRun(g, name, Call(params, invoked));
              var result := ResultRun(g, name, params, Items([]));
              if own.outcome.Raise? then r == own
              else r.events == own.events + result.events && r.outcome == result.outcome
            case MissingCommand => r == Run([], None, Raise(ClickException(MissingCommandMessage)))
  {
    match NoArgsPlanFor(g.invokeWithoutCommand, g.chain)
    case OwnCallbackOnly => OwnRun(g, name, Call(params, invoked))
    case OwnCallbackThenEmptyChain =>
      var own := OwnRun(g, name, Call(params, invoked));
      if own.outcome.Raise? then own
      else
        var result := ResultRun(g, name, params, Items([]));
        Run(own.events + result.events, None, result.outcome)
    case MissingCommand => Run([], None, Raise(ClickException(MissingCommandMessage)))
  }

  /**
   * A plain group given words: resolve the first one; outside resilient parsing an unknown name raises
   * before anything runs. Otherwise the name becomes invoked_subcommand and the group's callback runs;
   * its raise ends the run. Under resilient parsing an unknown name then raises, as cmd is None; a known
   * one is followed by the child's part.
   */
  function SubcommandRun(g: Command, name: string, mode: Mode, params: Params, words: seq<string>): (r: Run)
    requires g.Group? && words != []
    ensures Exits(r)
    ensures words[0] !in g.children && !mode.resilientParsing ==>
              r == Run([], None, Raise(ClickException(NoSuchCommand(words[0]))))
    ensures var own := OwnRun(g, name, Call(params, Some(words[0])));
            (words[0] in g.children || mode.resilientParsing) ==>
              && own.events <= r.events
              && (own.outcome.Raise? ==> r == own)
    ensures var own := OwnRun(g, name, Call(params, Some(words[0])));
            words[0] !in g.children && mode.resilientParsing && own.outcome.Return? ==>
              && r.events == own.events && r.help == None
              && r.outcome.Raise? && r.outcome.exc.Foreign?
    ensures var own := OwnRun(g, name, Call(params, Some(words[0])));
            words[0] in g.children && own.outcome.Return? ==>
              var child := ChildRun(g, name, params, words[0], words[1..]);
              r.events[|own.events|..] == child.events && r.help == child.help && r.outcome == child.outcome
    decreases g, 2
  {
    var own := OwnRun(g, name, Call(params, Some(words[0])));
    match Resolve(g, mode, words)
    case Raise(e) =>
      if !mode.resilientParsing then Run([], None, Raise(e))
      else if own.outcome.Raise? then own
      else Run(own.events, None, Raise(e))
    case Return(Resolved(childName, _, rest)) =>
      if own.outcome.Raise? then own
      else
        var child := ChildRun(g, name, params, childName, rest);
        assert (own.events + child.events)[|own.events|..] == child.events;
        Run(own.events + child.events, child.help, child.outcome)
  }

  /**
   * The subcommand part of a plain group's run: the child's context is parsed; if the words are stored,
   * the child is invoked with no invoked subcommand and, if it returns, the group's result callback
   * receives its value. A parse that does not store raises before the child runs, queueing the child's
   * help when it asked for help.
   */
  function ChildRun(g: Command, name: string, params: Params, childName: string, rest: seq<string>): (r: Run)
    requires g.Group? && childName in g.children
    ensures Exits(r)
    ensures var v := SubVerdict(g.children[childName], rest);
            && (!v.Store? ==> r.events == [] && r.outcome.Raise?)
            && (v.Fail? ==> r.outcome == Raise(ClickException(v.message)) && r.help == None)
            && (v.IsHelp() ==> r.outcome == Raise(Exit()) && r.help == Some(g.children[childName].help))
    ensures var child := g.children[childName];
            var v := SubVerdict(child, rest);
            v.Store? ==>
              var run := InvokeRun(child, childName, ModeFor(child, child.settings), v.params, v.protectedArgs, v.args, None);
              && run.events <= r.events
              && (run.outcome.Raise? ==> r == run)
              && (run.outcome.Return? ==>
                    var result := ResultRun(g, name, params, run.outcome.value);
                    r.events[|run.events|..] == result.events && r.help == None && r.outcome == result.outcome)
    decreases g, 1
  {
    var child := g.children[childName];
    match SubVerdict(child, rest)
    case Store(p, pa, a) =>
      var run := InvokeRun(child, childName, ModeFor(child, child.settings), p, pa, a, None);
      if run.outcome.Raise? then run
      else
        var result := ResultRun(g, name, params, run.outcome.value);
        assert (run.events + result.events)[|run.events|..] == result.events;
        Run(run.events + result.events, None, result.outcome)
    case Fail(m) => Run([], None, Raise(ClickException(m)))
    case _ => Run([], Some(child.help), Raise(Exit()))
  }

  /**
   * A chain given words: '*' becomes invoked_subcommand and the group's callback runs; its raise ends the
   * run. Then every child is resolved and parsed before any runs; an error there raises with no child
   * run, queueing a help reply exactly when a child asked for help. Otherwise the children run.
   */
  function ChainBranchRun(g: Command, name: string, mode: Mode, params: Params, words: seq<string>): (r: Run)
    requires g.Group? && words != []
    ensures Exits(r)
    ensures var own := OwnRun(g, name, Call(params, Some("*")));
            && own.events <= r.events
            && (own.outcome.Raise? ==> r == own)
    ensures var own := OwnRun(g, name, Call(params, Some("*")));
            var plan := ChainPlan(g, mode, words);
            own.outcome.Return? && plan.Raise? ==>
              && r.events == own.events && r.outcome == Raise(plan.exc)
              && (r.help.Some? <==> plan.exc == Exit())
              && r.help == ChainHelp(g, mode, words)
    ensures var own := OwnRun(g, name, Call(params, Some("*")));
            var plan := ChainPlan(g, mode, words);
            own.outcome.Return? && plan.Return? ==>
              && (forall i :: 0 <= i < |plan.value| ==>
                    plan.value[i].name in g.children && plan.value[i].command == g.children[plan.value[i].name])
              && var chain := ChainRun(g, name, params, plan.value);
                 r.events[|own.events|..] == chain.events && r.help == chain.help && r.outcome == chain.outcome
    decreases g, 2
  {
    var own := OwnRun(g, name, Call(params, Some("*")));
    if own.outcome.Raise? then own
    else
      match ChainPlan(g, mode, words)
      case Raise(e) =>
        ChainHelpExits(g, mode, words);
        Run(own.events, ChainHelp(g, mode, words), Raise(e))
      case Return(steps) =>
        ChainPlanChildren(g, mode, words);
        var chain := ChainRun(g, name, params, steps);
        assert (own.events + chain.events)[|own.events|..] == chain.events;
        Run(own.events + chain.events, chain.help, chain.outcome)
  }

  /**
   * The run loop of a chain and _process_result awaited: the children run left to right; if none raises,
   * the result callback receives their results in that order.
   */
  function ChainRun(g: Command, name: string, params: Params, steps: seq<Step>): (r: Run)
    requires g.Group?
    requires forall i :: 0 <= i < |steps| ==> steps[i].name in g.children && steps[i].command == g.children[steps[i].name]
    ensures Exits(r)
    ensures var c := ChainOf(StepRuns(g, steps));
            && c.events <= r.events
            && (c.outcome.Raise? ==> r == Run(c.events, c.help, Raise(c.outcome.exc)))
            && (c.outcome.Return? ==>
                  var result := ResultRun(g, name, params, Items(c.outcome.value));
                  r == Run(c.events + result.events, None, result.outcome))
    decreases g, 1
  {
    var c := ChainOf(StepRuns(g, steps));
    match c.outcome
    case Raise(e) => Run(c.events, c.help, Raise(e))
    case Return(values) =>
      var result := ResultRun(g, name, params, Items(values));
      Run(c.events + result.events, None, result.outcome)
  }

  /** The run of each resolved chain step: its context was made with the chain's extra arguments and invokes no subcommand. */
  function StepRuns(g: Command, steps: seq<Step>): (runs: seq<Run>)
    requires g.Group?
    requires forall i :: 0 <= i < |steps| ==> steps[i].name in g.children && steps[i].command == g.children[steps[i].name]
    ensures |runs| == |steps|
    ensures forall j :: 0 <= j < |steps| ==>
              runs[j] == InvokeRun(steps[j].command, steps[j].name, ModeFor(steps[j].command, steps[j].command.settings + ChainExtra),
                                   steps[j].params, steps[j].protectedArgs, [], None)
    ensures forall j :: 0 <= j < |steps| ==> Exits(runs[j])
    decreases g, 0
  {
    seq(|steps|, j requires 0 <= j < |steps| =>
      InvokeRun(steps[j].command, steps[j].name, ModeFor(steps[j].command, steps[j].command.settings + ChainExtra),
                steps[j].params, steps[j].protectedArgs, [], None))
  }

  /** The run that invoking this context makes, as a function of what it holds. */
  function ContextRun(ctx: Context): Run
    reads ctx
  {
    InvokeRun(ctx.command, ctx.infoName, ctx.mode, ctx.params, ctx.protectedArgs, ctx.args, ctx.invokedSubcommand)
  }

  /** The runs these contexts would make, in order. */
  function RunsOf(cs: seq<Context>): (runs: seq<Run>)
    reads cs
    ensures |runs| == |cs| && forall j :: 0 <= j < |cs| ==> runs[j] == ContextRun(cs[j])
  {
    seq(|cs|, j requires 0 <= j < |cs| reads cs => ContextRun(cs[j]))
  }

  /** How parse_args leaves the context and the queue for a verdict. */
  ghost predicate ParsedAs(ctx: Context, v: Verdict, q0: seq<Task>, id0: nat, q: seq<Task>, id: nat, o: Outcome<()>)
    reads ctx
  {
    match v
    case Store(p, pa, a) =>
      o == Return(()) && q == q0 && id == id0 && ctx.params == p && ctx.protectedArgs == pa && ctx.args == a
    case Fail(m) => o == Raise(ClickException(m)) && q == q0 && id == id0
    case _ => o == Raise(Exit()) && q == q0 + [Task(id0, ctx.command.help)] && id == id0 + 1
  }

  const Aborted: string := "Aborted!"
  const InternalError: string := "Exception happened, contact developers"
  const MissingCommandMessage: string := "Missing command."

  /** The reply async_message gives to what it caught; ExitCode(0) is the only handled outcome without one. */
  function ReplyTo(e: Raised): (r: seq<Event>)
    ensures |r| <= 1
    ensures r == [] <==> e == ExitCode(0) || e.Foreign?
    ensures e.ClickException? ==> r == [Sent(e.message)]
    ensures e == Abort ==> r == [Sent(Aborted)]
    ensures e.ExitCode? && e.code != 0 ==> r == [Requested(InternalError)]
  {
    match e
    case ClickException(m) => [Sent(m)]
    case Abort => [Sent(Aborted)]
    case ExitCode(c) => if c != 0 then [Requested(InternalError)] else []
    case Foreign(_) => []
  }

  /** No context occurs twice. */
  predicate Unaliased(cs: seq<Context>)
  {
    forall a, b :: 0 <= a < b < |cs| ==> cs[a] != cs[b]
  }

  lemma UnaliasedPush(cs: seq<Context>, c: Context)
    requires Unaliased(cs) && c !in cs
    ensures Unaliased(cs + [c])
  {
  }

  /** What async_message's handlers leave: the events they add, the queue, and what escapes. */
  datatype Handled = Handled(events: seq<Event>, live: seq<Task>, escaped: Option<Raised>)

  /**
   * The handlers of async_message for an outcome over the queue q: a return passes silently (there is no
   * checkpoint after the root returns) and a foreign exception escapes untouched; any other exception
   * drains the queue and, if the checkpoint completes, replies as ReplyTo says; a failing checkpoint
   * escapes with its failure.
   */
  function Handle(o: Outcome<Value>, q: seq<Task>, outage: set<nat>): (h: Handled)
    ensures h.escaped.Some? ==> h.escaped.value.Foreign?
    ensures o.Return? ==> h == Handled([], q, None)
    ensures o.Raise? && o.exc.Foreign? ==> h == Handled([], q, Some(o.exc))
    ensures o.Raise? && !o.exc.Foreign? ==>
              var k := Completed(q, outage);
              && h.live == q[k..]
              && (k == |q| ==> h.escaped == None && h.events == Deliveries(q) + ReplyTo(o.exc))
              && (k < |q| ==> h.escaped == Some(ReplyFailure) && h.events == Deliveries(q[..k]))
  {
    match o
    case Return(_) => Handled([], q, None)
    case Raise(e) =>
      if e.Foreign? then Handled([], q, Some(e))
      else
        var d := Walk(q, q, outage);
        WalkKeepsFifo(q, [], outage);
        assert q + [] == q && q[..|q|] == q;
        if d.error.Some? then Handled(d.events, d.live, d.error) else Handled(d.events + ReplyTo(e), d.live, None)
  }

  /**
   * async_message as a function of the queue before it, the next task id and the words: no words is a
   * no-op; a root parse that raises goes to the handlers, with the root's help queued if it asked for
   * help; otherwise the queue is drained, the root is invoked, and its outcome goes to the handlers over
   * the queue the root leaves.
   */
  function MessageRun(root: Command, outage: set<nat>, q: seq<Task>, id: nat, words: seq<string>): Handled
    requires root.Group?
  {
    if words == [] then Handled([], q, None)
    else
      var mode := ModeFor(root, root.settings);
      match ParseStep(root, mode, words[1..])
      case Store(p, pa, a) =>
        var d := Walk(q, q, outage);
        if d.error.Some? then Handled(d.events, d.live, d.error)
        else
          var r := InvokeRun(root, words[0], mode, p, pa, a, None);
          var h := Handle(r.outcome, HelpQueued(d.live, id, r.help), outage);
          Handled(d.events + r.events + h.events, h.live, h.escaped)
      case Fail(m) => Handle(Raise(ClickException(m)), q, outage)
      case _ => Handle(Raise(Exit()), q + [Task(id, root.help)], outage)
  }

  /**
   * The next task id after async_message: one more exactly when a help reply was queued, by the root
   * parse or by the root's run; a failing first checkpoint, a parse failure and no words queue nothing.
   */
  function MessageNext(root: Command, outage: set<nat>, q: seq<Task>, id: nat, words: seq<string>): (n: nat)
    requires root.Group?
    ensures n == id || n == id + 1
    ensures words == [] ==> n == id
    ensures words != [] && ParseStep(root, ModeFor(root, root.settings), words[1..]).Fail? ==> n == id
    ensures words != [] && ParseStep(root, ModeFor(root, root.settings), words[1..]).IsHelp() ==> n == id + 1
  {
    if words == [] then id
    else
      var mode := ModeFor(root, root.settings);
      match ParseStep(root, mode, words[1..])
      case Store(p, pa, a) =>
        if Walk(q, q, outage).error.Some? then id
        else NextAfter(id, InvokeRun(root, words[0], mode, p, pa, a, None).help)
      case Fail(_) => id
      case _ => id + 1
  }

  /** MessageRun and MessageNext of a message whose root parse raises: the handlers see that raise. */
  lemma MessageRunParseRaised(root: Command, outage: set<nat>, q: seq<Task>, id: nat, words: seq<string>)
    requires root.Group? && words != [] && !ParseStep(root, ModeFor(root, root.settings), words[1..]).Store?
    ensures var v := ParseStep(root, ModeFor(root, root.settings), words[1..]);
            var m := MessageRun(root, outage, q, id, words);
            var n := MessageNext(root, outage, q, id, words);
            && (v.Fail? ==> m == Handle(Raise(ClickException(v.message)), q, outage) && n == id)
            && (!v.Fail? ==> m == Handle(Raise(Exit()), q + [Task(id, root.help)], outage) && n == id + 1)
  {
  }

  /** MessageRun and MessageNext of a message whose root parse stores, in terms of the first checkpoint's Walk. */
  lemma MessageRunParseStored(root: Command, outage: set<nat>, q: seq<Task>, id: nat, words: seq<string>)
    requires root.Group? && words != [] && ParseStep(root, ModeFor(root, root.settings), words[1..]).Store?
    ensures var mode := ModeFor(root, root.settings);
            var v := ParseStep(root, mode, words[1..]);
            var m := MessageRun(root, outage, q, id, words);
            var n := MessageNext(root, outage, q, id, words);
            var d := Walk(q, q, outage);
            && (d.error.Some? ==> m == Handled(d.events, d.live, d.error) && n == id)
            && (d.error.None? ==>
                  var r := InvokeRun(root, words[0], mode, v.params, v.protectedArgs, v.args, None);
                  var h := Handle(r.outcome, HelpQueued(d.live, id, r.help), outage);
                  m == Handled(d.events + r.events + h.events, h.live, h.escaped) && n == NextAfter(id, r.help))
  {
  }

  /**
   * The checkpoint of a message whose root parse stores its words: a failing checkpoint ends the message
   * with what it delivered; otherwise every queued reply is delivered before the root runs, and the
   * handlers work on the queue the root leaves.
   */
  lemma MessageRunStored(root: Command, outage: set<nat>, q: seq<Task>, id: nat, words: seq<string>)
    requires root.Group? && words != []
    requires ParseStep(root, ModeFor(root, root.settings), words[1..]).Store?
    ensures var v := ParseStep(root, ModeFor(root, root.settings), words[1..]);
            var k := Completed(q, outage);
            var m := MessageRun(root, outage, q, id, words);
            && (k < |q| ==> m == Handled(Deliveries(q[..k]), q[k..], Some(ReplyFailure)))
            && (k == |q| ==>
                  var r := InvokeRun(root, words[0], ModeFor(root, root.settings), v.params, v.protectedArgs, v.args, None);
                  var h := Handle(r.outcome, HelpQueued([], id, r.help), outage);
                  m == Handled(Deliveries(q) + r.events + h.events, h.live, h.escaped))
  {
    WalkClosed(q, outage);
    assert q[..|q|] == q;
  }

  /**
   * A message whose root parse stores and whose first checkpoint delivers everything: the root runs after
   * those deliveries; a return ends the message silently; a foreign raise escapes; any other raise is
   * turned into its reply after the root's help, if it queued any, has been delivered.
   */
  lemma MessageRunRoot(root: Command, outage: set<nat>, q: seq<Task>, id: nat, words: seq<string>)
    requires root.Group? && words != [] && Completed(q, outage) == |q|
    requires ParseStep(root, ModeFor(root, root.settings), words[1..]).Store?
    ensures var v := ParseStep(root, ModeFor(root, root.settings), words[1..]);
            var r := InvokeRun(root, words[0], ModeFor(root, root.settings), v.params, v.protectedArgs, v.args, None);
            var m := MessageRun(root, outage, q, id, words);
            && (r.outcome.Return? ==> m == Handled(Deliveries(q) + r.events, [], None))
            && (r.outcome.Raise? && r.outcome.exc.Foreign? ==> m == Handled(Deliveries(q) + r.events, [], Some(r.outcome.exc)))
            && (r.outcome.Raise? && !r.outcome.exc.Foreign? && (r.help.None? || id !in outage) ==>
                  m == Handled(Deliveries(q) + r.events + Deliveries(HelpQueued([], id, r.help)) + ReplyTo(r.outcome.exc), [], None))
  {
    MessageRunStored(root, outage, q, id, words);
    var v := ParseStep(root, ModeFor(root, root.settings), words[1..]);
    var r := InvokeRun(root, words[0], ModeFor(root, root.settings), v.params, v.protectedArgs, v.args, None);
    var hq := HelpQueued([], id, r.help);
    assert hq[..|hq|] == hq;
    if r.outcome.Raise? {
      AppendAssoc(Deliveries(q), r.events, Deliveries(hq) + ReplyTo(r.outcome.exc));
    }
  }

  /**
   * What one message guarantees: no words is a no-op; only foreign exceptions escape; a dispatch that
   * does not escape leaves the queue empty.
   */
  lemma MessageRunEnds(root: Command, outage: set<nat>, q: seq<Task>, id: nat, words: seq<string>)
    requires root.Group?
    ensures var m := MessageRun(root, outage, q, id, words);
            && (words == [] ==> m == Handled([], q, None))
            && (m.escaped.Some? ==> m.escaped.value.Foreign?)
            && (words != [] && m.escaped.None? ==> m.live == [])
  {
    if words != [] {
      var mode := ModeFor(root, root.settings);
      var v := ParseStep(root, mode, words[1..]);
      if v.Store? {
        MessageRunStored(root, outage, q, id, words);
      }
    }
  }

  /** Replies queued before a message go out first whenever its first checkpoint can deliver them all. */
  lemma MessageRunFifo(root: Command, outage: set<nat>, q: seq<Task>, id: nat, words: seq<string>)
    requires root.Group? && words != [] && Completed(q, outage) == |q|
    ensures Deliveries(q) <= MessageRun(root, outage, q, id, words).events
  {
    var mode := ModeFor(root, root.settings);
    var v := ParseStep(root, mode, words[1..]);
    assert q[..|q|] == q;
    if v.Store? {
      MessageRunStored(root, outage, q, id, words);
    } else if v.IsHelp() {
      DeliveriesPrefix(q, [Task(id, root.help)], outage);
    }
  }

  /**
   * A root parse that raises: root help is delivered after the replies queued before it, and nothing else
   * is said; a root parse failure is replied after them.
   */
  lemma MessageRunRootRaised(root: Command, outage: set<nat>, q: seq<Task>, id: nat, words: seq<string>)
    requires root.Group? && words != []
    ensures var v := ParseStep(root, ModeFor(root, root.settings), words[1..]);
            var q1 := q + [Task(id, root.help)];
            v.IsHelp() && Completed(q1, outage) == |q1| ==> MessageRun(root, outage, q, id, words) == Handled(Deliveries(q1), [], None)
    ensures var v := ParseStep(root, ModeFor(root, root.settings), words[1..]);
            v.Fail? && Completed(q, outage) == |q| ==>
              MessageRun(root, outage, q, id, words) == Handled(Deliveries(q) + [Sent(v.message)], [], None)
  {
    var q1 := q + [Task(id, root.help)];
    assert q[..|q|] == q && q1[..|q1|] == q1;
  }

  /**
   * The dispatcher of one bot: the command collection it serves, the module-level queue tbd_tasks,
   * and the transcript of what the transport saw. outage names the queued replies whose await raises.
   */
  class Dispatcher {
    const root: Command
    const outage: set<nat>
    var queue: seq<Task>
    var nextId: nat
    var trace: seq<Event>

    predicate Valid()
      reads this
    {
      root.Group? && WellNumbered(queue, nextId)
    }

    constructor (root: Command, outage: set<nat>)
      requires root.Group?
      ensures Valid() && this.root == root && this.outage == outage
      ensures queue == [] && nextId == 0 && trace == []
    {
      this.root := root;
      this.outage := outage;
      queue := [];
      nextId := 0;
      trace := [];
    }

    /** The mode of the root context: make_context with no extra arguments keeps the root's own settings. */
    function RootMode(): Mode
      reads this
    {
      ModeFor(root, root.settings)
    }

    /**
     * parse_args: help (no words for a no_args_is_help group, or the help flag) appends exactly one
     * reply of the command's help and raises ExitCode(0) before anything is stored; an error raises; else
     * the leftover words are stored.
     */
    method ParseArgs(ctx: Context, words: seq<string>) returns (o: Outcome<()>)
      requires Valid()
      modifies this`queue, this`nextId, ctx`params, ctx`protectedArgs, ctx`args
      ensures Valid()
      ensures ParsedAs(ctx, ParseStep(ctx.command, ctx.mode, words), old(queue), old(nextId), queue, nextId, o)
      ensures !ParseStep(ctx.command, ctx.mode, words).Store? ==>
                ctx.params == old(ctx.params) && ctx.protectedArgs == old(ctx.protectedArgs) && ctx.args == old(ctx.args)
    {
      var v := ParseStep(ctx.command, ctx.mode, words);
      match v
      case Store(p, pa, a) =>
        ctx.params, ctx.protectedArgs, ctx.args := p, pa, a;
        o := Return(());
      case Fail(m) =>
        o := Raise(ClickException(m));
      case _ =>
        WellNumberedPush(queue, nextId, ctx.command.help);
        queue := queue + [Task(nextId, ctx.command.help)];
        nextId := nextId + 1;
        o := Raise(Exit());
    }

    /** make_context: merge the settings (explicit arguments win), build the context, parse the words into it. */
    method MakeContext(command: Command, infoName: string, words: seq<string>, parent: Context?, extra: Settings)
      returns (ctx: Context, o: Outcome<()>)
      requires Valid()
      modifies this`queue, this`nextId
      ensures Valid() && fresh(ctx)
      ensures ctx.command == command && ctx.infoName == infoName && ctx.parent == parent
      ensures ctx.settings == command.settings + extra && ctx.mode == ModeFor(command, command.settings + extra)
      ensures ctx.invokedSubcommand == None
      ensures ParsedAs(ctx, ParseStep(command, ctx.mode, words), old(queue), old(nextId), queue, nextId, o)
      ensures !ParseStep(command, ctx.mode, words).Store? ==> ctx.params == map[] && ctx.protectedArgs == [] && ctx.args == []
    {
      var merged := MergeSettings(command.settings, extra);
      ctx := new Context(command, infoName, parent, merged);
      o := ParseArgs(ctx, words);
    }

    /** A command's own callback through Context.async_invoke. */
    method InvokeCallback(ctx: Context) returns (o: Outcome<Value>)
      modifies this`trace
      ensures trace == old(trace) + CallbackRun(ctx).events && o == CallbackRun(ctx).outcome
    {
      match ctx.command.callback
      case None =>
        o := Return(Nothing);
      case Some(cb) =>
        var e := cb(Call(ctx.params, ctx.invokedSubcommand));
        trace := trace + [Called(ctx.infoName)] + Replies(e.replies);
        o := e.outcome;
    }

    /** _process_result, awaited: the group's result callback, if any, transforms the value. */
    method ProcessResult(ctx: Context, value: Value) returns (o: Outcome<Value>)
      requires ctx.command.Group?
      modifies this`trace
      ensures var r := ResultRun(ctx.command, ctx.infoName, ctx.params, value);
              trace == old(trace) + r.events && o == r.outcome
    {
      match ctx.command.resultCallback
      case None =>
        o := Return(value);
      case Some(rc) =>
        var e := rc(value, ctx.params);
        trace := trace + [ResultCalled(ctx.infoName)] + Replies(e.replies);
        o := e.outcome;
    }


    /** The transcript, the queue and the next task id are what run r leaves from these starting values. */
    ghost predicate Shows(r: Run, t0: seq<Event>, q0: seq<Task>, id0: nat)
      reads this
    {
      trace == t0 + r.events && queue == HelpQueued(q0, id0, r.help) && nextId == NextAfter(id0, r.help)
    }

    /** sub_ctx.command.async_invoke(sub_ctx): a leaf runs its callback, a group resolves and runs its children. */
    method Invoke(ctx: Context) returns (o: Outcome<Value>)
      requires Valid()
      modifies this`queue, this`nextId, this`trace, ctx`protectedArgs, ctx`args, ctx`invokedSubcommand
      ensures Valid()
      ensures var r := InvokeRun(ctx.command, ctx.infoName, ctx.mode, ctx.params,
                                 old(ctx.protectedArgs), old(ctx.args), old(ctx.invokedSubcommand));
              Shows(r, old(trace), old(queue), old(nextId)) && o == r.outcome
      ensures ctx.command.Leaf? ==>
                && unchanged(ctx) && queue == old(queue)
                && trace == old(trace) + CallbackRun(ctx).events && o == CallbackRun(ctx).outcome
      ensures ctx.command.Group? ==>
                && ctx.invokedSubcommand == InvokedAfter(ctx.command, ctx.mode, old(ctx.protectedArgs), old(ctx.invokedSubcommand))
                && ctx.protectedArgs == [] && ctx.args == (if old(ctx.protectedArgs) == [] then old(ctx.args) else [])
      decreases ctx.command, 4
    {
      if ctx.command.Leaf? {
        o := InvokeCallback(ctx);
      } else {
        o := InvokeGroup(ctx);
      }
    }

    /**
     * AsyncMultiCommandMixin.async_invoke: with no protected words a group takes its no-subcommand path;
     * otherwise its words are taken out of the context and it runs one subcommand or a chain.
     */
    method InvokeGroup(ctx: Context) returns (o: Outcome<Value>)
      requires Valid() && ctx.command.Group?
      modifies this`queue, this`nextId, this`trace, ctx`protectedArgs, ctx`args, ctx`invokedSubcommand
      ensures Valid()
      ensures var r := GroupRun(ctx.command, ctx.infoName, ctx.mode, ctx.params,
                                old(ctx.protectedArgs), old(ctx.args), old(ctx.invokedSubcommand));
              Shows(r, old(trace), old(queue), old(nextId)) && o == r.outcome
      ensures ctx.invokedSubcommand == InvokedAfter(ctx.command, ctx.mode, old(ctx.protectedArgs), old(ctx.invokedSubcommand))
      ensures old(ctx.protectedArgs) == [] ==> unchanged(ctx)
      ensures old(ctx.protectedArgs) != [] ==> ctx.protectedArgs == [] && ctx.args == []
      decreases ctx.command, 3
    {
      if ctx.protectedArgs == [] {
        o := InvokeNoArgs(ctx);
        return;
      }
      var words := ctx.protectedArgs + ctx.args;
      ctx.args := [];
      ctx.protectedArgs := [];
      if !ctx.command.chain {
        o := InvokeOne(ctx, words);
      } else {
        o := InvokeChain(ctx, words);
      }
    }

    /**
     * A group given no subcommand: it runs its own callback alone (invoke_without_command), runs it and
     * hands [] to the result callback (a chain), or fails with "Missing command.".
     */
    method InvokeNoArgs(ctx: Context) returns (o: Outcome<Value>)
      requires ctx.command.Group?
      modifies this`trace
      ensures var r := NoArgsRun(ctx.command, ctx.infoName, ctx.params, ctx.invokedSubcommand);
              trace == old(trace) + r.events && o == r.outcome
    {
      match NoArgsPlanFor(ctx.command.invokeWithoutCommand, ctx.command.chain) {
        case OwnCallbackOnly =>
          o := InvokeCallback(ctx);
        case OwnCallbackThenEmptyChain =>
          o := InvokeCallback(ctx);
          if o.Return? {
            o := ProcessResult(ctx, Items([]));
          }
        case MissingCommand =>
          o := Raise(ClickException(MissingCommandMessage));
      }
    }

    /**
     * A plain group with words: resolve the first word (outside resilient parsing an unknown name raises
     * here), record it as invoked_subcommand, run the group's own callback, then build and parse the
     * child's context, run the child and hand its value to the result callback. Under resilient parsing
     * an unknown name has no command, and making its context raises.
     */
    method InvokeOne(ctx: Context, words: seq<string>) returns (o: Outcome<Value>)
      requires Valid() && ctx.command.Group? && !ctx.command.chain && words != []
      modifies this`queue, this`nextId, this`trace, ctx`invokedSubcommand
      ensures Valid()
      ensures var r := SubcommandRun(ctx.command, ctx.infoName, ctx.mode, ctx.params, words);
              Shows(r, old(trace), old(queue), old(nextId)) && o == r.outcome
      ensures ctx.invokedSubcommand ==
                if words[0] in ctx.command.children || ctx.mode.resilientParsing then Some(words[0])
                else old(ctx.invokedSubcommand)
      decreases ctx.command, 2
    {
      var g := ctx.command;
      var r := Resolve(g, ctx.mode, words);
      if r.Raise? && !ctx.mode.resilientParsing {
        return Raise(r.exc);
      }
      var name := words[0];
      ctx.invokedSubcommand := Some(name);
      var own := InvokeCallback(ctx);
      ghost var ownRun := OwnRun(g, ctx.infoName, Call(ctx.params, Some(name)));
      assert CallbackRun(ctx) == ownRun;
      if own.Raise? {
        return Raise(own.exc);
      }
      if r.Raise? {
        return Raise(r.exc);
      }
      var child, rest := r.value.command, r.value.rest;
      o := RunSubcommand(ctx, name, child, rest);
      ghost var c := ChildRun(g, ctx.infoName, ctx.params, name, rest);
      assert SubcommandRun(g, ctx.infoName, ctx.mode, ctx.params, words) == Run(ownRun.events + c.events, c.help, c.outcome);
      AppendAssoc(old(trace), ownRun.events, c.events);
    }

    /** make_context for the resolved child with no extra arguments, then the child's invoke and _process_result. */
    method RunSubcommand(ctx: Context, name: string, child: Command, rest: seq<string>) returns (o: Outcome<Value>)
      requires Valid() && ctx.command.Group? && name in ctx.command.children && child == ctx.command.children[name]
      modifies this`queue, this`nextId, this`trace
      ensures Valid()
      ensures var r := ChildRun(ctx.command, ctx.infoName, ctx.params, name, rest);
              Shows(r, old(trace), old(queue), old(nextId)) && o == r.outcome
      decreases ctx.command, 1
    {
      var sub, parsed := MakeContext(child, name, rest, ctx, map[]);
      assert child.settings + map[] == child.settings;
      ghost var verdict := SubVerdict(child, rest);
      assert verdict == ParseStep(child, sub.mode, rest);
      if parsed.Raise? {
        assert trace == old(trace) + [];
        return Raise(parsed.exc);
      }
      ghost var run := InvokeRun(child, name, sub.mode, verdict.params, verdict.protectedArgs, verdict.args, None);
      var v := Invoke(sub);
      if v.Raise? {
        return Raise(v.exc);
      }
      o := ProcessResult(ctx, v.value);
      ghost var result := ResultRun(ctx.command, ctx.infoName, ctx.params, v.value);
      assert ChildRun(ctx.command, ctx.infoName, ctx.params, name, rest) == Run(run.events + result.events, None, result.outcome);
      AppendAssoc(old(trace), run.events, result.events);
    }

    /**
     * A chain with words: record '*' as invoked_subcommand, run the group's own callback, resolve and parse
     * every child before any runs, run them left to right and hand their results to the result callback.
     */
    method InvokeChain(ctx: Context, words: seq<string>) returns (o: Outcome<Value>)
      requires Valid() && ctx.command.Group? && ctx.command.chain && words != []
      modifies this`queue, this`nextId, this`trace, ctx`invokedSubcommand
      ensures Valid()
      ensures var r := ChainBranchRun(ctx.command, ctx.infoName, ctx.mode, ctx.params, words);
              Shows(r, old(trace), old(queue), old(nextId)) && o == r.outcome
      ensures ctx.invokedSubcommand == Some("*")
      decreases ctx.command, 2
    {
      ctx.invokedSubcommand := if words != [] then Some("*") else None;
      var own := InvokeCallback(ctx);
      ghost var ownRun := CallbackRun(ctx);
      if own.Raise? {
        return Raise(own.exc);
      }
      ghost var t1 := trace;
      assert t1 == old(trace) + ownRun.events;
      var contexts, resolved := ResolveChain(ctx, words);
      if resolved.Raise? {
        ChainHelpExits(ctx.command, ctx.mode, words);
        return Raise(resolved.exc);
      }
      ghost var plan := ChainPlan(ctx.command, ctx.mode, words).value;
      ChainPlanChildren(ctx.command, ctx.mode, words);
      assert ctx !in contexts;
      o := RunResolved(ctx, contexts, plan);
      ghost var chain := ChainRun(ctx.command, ctx.infoName, ctx.params, plan);
      assert ChainBranchRun(ctx.command, ctx.infoName, ctx.mode, ctx.params, words) ==
             Run(ownRun.events + chain.events, chain.help, chain.outcome);
      AppendAssoc(old(trace), ownRun.events, chain.events);
    }

    /** The run loop of a chain over its resolved children, then _process_result awaited on the results. */
    method RunResolved(ctx: Context, contexts: seq<Context>, ghost steps: seq<Step>) returns (o: Outcome<Value>)
      requires Valid() && ctx.command.Group?
      requires AllMatch(contexts, steps, ctx) && ctx !in contexts
      requires Unaliased(contexts)
      requires forall j :: 0 <= j < |steps| ==>
                 steps[j].name in ctx.command.children && steps[j].command == ctx.command.children[steps[j].name]
      modifies this`queue, this`nextId, this`trace, contexts
      ensures Valid()
      ensures var r := ChainRun(ctx.command, ctx.infoName, ctx.params, steps);
              Shows(r, old(trace), old(queue), old(nextId)) && o == r.outcome
      decreases ctx.command, 1
    {
      ghost var runs := StepRuns(ctx.command, steps);
      assert RunsOf(contexts) == runs;
      var rv := RunChain(ctx, contexts);
      ghost var chain := ChainOf(runs);
      if rv.Raise? {
        return Raise(rv.exc);
      }
      o := ProcessResult(ctx, Items(rv.value));
      ghost var result := ResultRun(ctx.command, ctx.infoName, ctx.params, Items(rv.value));
      AppendAssoc(old(trace), chain.events, result.events);
    }

    /**
     * The resolve loop of a chain: every child is resolved and its context parsed before any child runs,
     * so nothing reaches the transport; it ends when no words remain or at the first error, and queues
     * the help of a child that asks for it.
     */
    method ResolveChain(ctx: Context, words: seq<string>) returns (contexts: seq<Context>, o: Outcome<()>)
      requires Valid() && ctx.command.Group?
      modifies this`queue, this`nextId
      ensures Valid()
      ensures var plan := ChainPlan(ctx.command, ctx.mode, words);
              && (o.Raise? <==> plan.Raise?)
              && (o.Raise? ==> o.exc == plan.exc)
              && (o.Return? ==> AllMatch(contexts, plan.value, ctx))
      ensures o.Raise? ==>
                var help := ChainHelp(ctx.command, ctx.mode, words);
                queue == HelpQueued(old(queue), old(nextId), help) && nextId == NextAfter(old(nextId), help)
      ensures o.Return? ==> queue == old(queue) && nextId == old(nextId)
      ensures forall i :: 0 <= i < |contexts| ==> fresh(contexts[i])
      ensures Unaliased(contexts)
    {
      ghost var built: seq<Step> := [];
      contexts := [];
      var rest := words;
      assert Resolving(ctx, words, contexts, built, rest) by {
        match ChainPlan(ctx.command, ctx.mode, words) {
          case Raise(_) =>
          case Return(steps) => assert built + steps == steps;
        }
      }
      while rest != []
        invariant Valid() && nextId == old(nextId) && queue == old(queue)
        invariant Resolving(ctx, words, contexts, built, rest)
        invariant AllFresh(contexts)
        decreases |rest|
      {
        var made, next, step;
        ghost var grown;
        made, grown, next, step := ResolveInto(ctx, words, contexts, built, rest);
        if step.Raise? {
          return contexts, Raise(step.exc);
        }
        AllFreshPush(contexts, made);
        contexts, built, rest := contexts + [made], grown, next;
      }
      assert built + [] == built;
      o := Return(());
    }

    /**
     * What the resolve loop keeps: the plan of all the words is the steps built so far followed by the
     * plan of the words left, the help they would ask for is the same, and each context made matches its step.
     */
    ghost predicate Resolving(ctx: Context, words: seq<string>, contexts: seq<Context>, built: seq<Step>, rest: seq<string>)
      reads ctx, contexts
      requires ctx.command.Group?
    {
      && ChainPlan(ctx.command, ctx.mode, words) == Then(built, ChainPlan(ctx.command, ctx.mode, rest))
      && ChainHelp(ctx.command, ctx.mode, words) == ChainHelp(ctx.command, ctx.mode, rest)
      && AllMatch(contexts, built, ctx) && Unaliased(contexts)
    }

    /** One round of the resolve loop, with what it adds to the contexts made so far and to their steps. */
    method ResolveInto(ctx: Context, ghost words: seq<string>, contexts: seq<Context>, ghost built: seq<Step>, rest: seq<string>)
      returns (made: Context, ghost built': seq<Step>, next: seq<string>, o: Outcome<()>)
      requires Valid() && ctx.command.Group? && rest != []
      requires Resolving(ctx, words, contexts, built, rest)
      modifies this`queue, this`nextId
      ensures Valid()
      ensures o.Raise? ==>
                && ChainPlan(ctx.command, ctx.mode, words) == Raise(o.exc)
                && var help := ChainHelp(ctx.command, ctx.mode, words);
                   queue == HelpQueued(old(queue), old(nextId), help) && nextId == NextAfter(old(nextId), help)
      ensures o.Return? ==>
                && queue == old(queue) && nextId == old(nextId) && |next| < |rest| && fresh(made)
                && Resolving(ctx, words, contexts + [made], built', next)
    {
      var sub, step;
      sub, next, step := ResolveNext(ctx, rest);
      if step.Raise? {
        return ctx, built, next, step;  // no context joins the chain; ctx only fills the out-parameter
      }
      made := sub;
      ghost var s := Step(made.infoName, made.command, made.params, made.protectedArgs);
      ThenThen(built, [s], ChainPlan(ctx.command, ctx.mode, next));
      UnaliasedPush(contexts, made);
      AllMatchPush(contexts, built, ctx, made, s);
      built' := built + [s];
      o := Return(());
    }

    /**
     * One round of the resolve loop: resolve the first word, make the child's context with extra words
     * allowed and interspersed ones forbidden, and hand its leftover words back to the loop.
     */
    method ResolveNext(ctx: Context, rest: seq<string>) returns (sub: Context?, next: seq<string>, o: Outcome<()>)
      requires Valid() && ctx.command.Group? && rest != []
      modifies this`queue, this`nextId
      ensures Valid()
      ensures o.Raise? ==>
                && ChainPlan(ctx.command, ctx.mode, rest) == Raise(o.exc)
                && var help := ChainHelp(ctx.command, ctx.mode, rest);
                   queue == HelpQueued(old(queue), old(nextId), help) && nextId == NextAfter(old(nextId), help)
      ensures o.Return? ==>
                && sub != null && fresh(sub) && queue == old(queue) && nextId == old(nextId) && |next| < |rest|
                && ChainHelp(ctx.command, ctx.mode, rest) == ChainHelp(ctx.command, ctx.mode, next)
                && var s := Step(sub.infoName, sub.command, sub.params, sub.protectedArgs);
                   && ChainPlan(ctx.command, ctx.mode, rest) == Then([s], ChainPlan(ctx.command, ctx.mode, next))
                   && Matches(sub, s, ctx)
    {
      if rest[0] !in ctx.command.children {
        ChainPlanUnknown(ctx.command, ctx.mode, rest);
        var r := Resolve(ctx.command, ctx.mode, rest);
        return null, [], Raise(r.exc);
      }
      ChainPlanKnown(ctx.command, ctx.mode, rest);
      var name, child, tail := rest[0], ctx.command.children[rest[0]], rest[1..];
      var parsed;
      sub, parsed := MakeContext(child, name, tail, ctx, ChainExtra);
      ghost var v := ParseStep(child, sub.mode, tail);
      if parsed.Raise? {
        return sub, [], parsed;
      }
      assert v.Store?;
      next, sub.args := sub.args, [];
      o := Return(());
    }

    /** The run loop of a chain: children run left to right and their results are collected in that order. */
    method RunChain(ctx: Context, contexts: seq<Context>) returns (o: Outcome<seq<Value>>)
      requires Valid() && ctx.command.Group?
      requires forall i :: 0 <= i < |contexts| ==>
                 contexts[i].infoName in ctx.command.children &&
                 contexts[i].command == ctx.command.children[contexts[i].infoName]
      requires Unaliased(contexts)
      modifies this`queue, this`nextId, this`trace, contexts
      ensures Valid()
      ensures var chain := ChainOf(old(RunsOf(contexts)));
              && trace == old(trace) + chain.events && o == chain.outcome
              && queue == HelpQueued(old(queue), old(nextId), chain.help) && nextId == NextAfter(old(nextId), chain.help)
      decreases ctx.command, 0
    {
      var rv: seq<Value> := [];
      var i := 0;
      ghost var runs := RunsOf(contexts);
      ghost var shown: seq<Event> := [];
      while i < |contexts|
        invariant 0 <= i <= |contexts|
        invariant Valid() && nextId == old(nextId) && queue == old(queue)
        invariant |rv| == i
        invariant forall j :: i <= j < |contexts| ==> ContextRun(contexts[j]) == runs[j]
        invariant trace == old(trace) + shown
        invariant ChainOf(runs[..i]) == Chain(shown, None, Return(rv))
      {
        ChainOfAdvance(runs, i, shown, rv);
        var v := Invoke(contexts[i]);
        AppendAssoc(old(trace), shown, runs[i].events);
        shown := shown + runs[i].events;
        if v.Raise? {
          return Raise(v.exc);
        }
        rv := rv + [v.value];
        i := i + 1;
      }
      assert runs[..i] == runs;
      o := Return(rv);
    }

    /**
     * One drain checkpoint over the queue: the tasks are delivered in enqueue order up to the first whose
     * await raises; each delivered task leaves the queue, the failing one and those after it stay.
     */
    method Drain() returns (error: Option<Raised>)
      requires Valid()
      modifies this`queue, this`trace
      ensures Valid()
      ensures var d := Walk(old(queue), old(queue), outage);
              queue == d.live && trace == old(trace) + d.events && error == d.error
      ensures var k := Completed(old(queue), outage);
              && queue == old(queue)[k..]
              && trace == old(trace) + Deliveries(old(queue)[..k])
              && (error == None <==> k == |old(queue)|)
              && (error != None ==> error == Some(ReplyFailure))
    {
      var snapshot := queue;
      var i := 0;
      while i < |snapshot|
        invariant 0 <= i <= |snapshot|
        invariant Valid() && queue == snapshot[i..]
        invariant trace == old(trace) + Deliveries(snapshot[..i])
        invariant forall j :: 0 <= j < i ==> snapshot[j].id !in outage
      {
        var task := snapshot[i];
        if task.id in outage {
          CompletedAt(snapshot, i, outage);
          WalkClosed(snapshot, outage);
          return Some(ReplyFailure);
        }
        DeliverNext(snapshot, i);
        WellNumberedSuffix(snapshot, i + 1, nextId);
        trace := trace + [Sent(task.text)];
        queue := Remove(queue, task).value;
        i := i + 1;
      }
      CompletedAt(snapshot, i, outage);
      WalkClosed(snapshot, outage);
      assert snapshot[..i] == snapshot;
      error := None;
    }

    /**
     * The handlers of async_message: a ClickException replies with its message, Abort with "Aborted!",
     * ExitCode with a nonzero code requests the fixed internal-error reply, ExitCode(0) stays silent;
     * each handler drains the queue first, so replies queued earlier go out before it. Any other exception,
     * and a failing drain, escape.
     */
    method Conclude(outcome: Outcome<Value>) returns (escaped: Option<Raised>)
      requires Valid()
      modifies this`queue, this`trace
      ensures Valid()
      ensures var h := Handle(outcome, old(queue), outage);
              trace == old(trace) + h.events && queue == h.live && escaped == h.escaped
    {
      if outcome.Return? {
        return None;
      }
      var e := outcome.exc;
      if e.Foreign? {
        return Some(e);
      }
      var failed := Drain();
      if failed.Some? {
        return failed;
      }
      match e {
        case ClickException(m) =>
          trace := trace + [Sent(m)];
        case Abort =>
          trace := trace + [Sent(Aborted)];
        case ExitCode(c) =>
          if c != 0 {
            trace := trace + [Requested(InternalError)];
          }
      }
      escaped := None;
    }

    /** async_message once the root context is parsed: drain the queue, invoke the root, handle what it raised. */
    method RunRoot(ctx: Context) returns (escaped: Option<Raised>)
      requires Valid()
      modifies this`queue, this`nextId, this`trace, ctx`protectedArgs, ctx`args, ctx`invokedSubcommand
      ensures Valid()
      ensures var d := Walk(old(queue), old(queue), outage);
              d.error.Some? ==> trace == old(trace) + d.events && queue == d.live && escaped == d.error && nextId == old(nextId)
      ensures var d := Walk(old(queue), old(queue), outage);
              var r := InvokeRun(ctx.command, ctx.infoName, ctx.mode, ctx.params,
                                 old(ctx.protectedArgs), old(ctx.args), old(ctx.invokedSubcommand));
              var h := Handle(r.outcome, HelpQueued(d.live, old(nextId), r.help), outage);
              d.error.None? ==>
                && trace == old(trace) + d.events + r.events + h.events && queue == h.live && escaped == h.escaped
                && nextId == NextAfter(old(nextId), r.help)
      ensures var k := Completed(old(queue), outage);
              && (k < |old(queue)| ==> escaped == Some(ReplyFailure) && unchanged(ctx))
              && (k == |old(queue)| ==> old(trace) + Deliveries(old(queue)) <= trace)
    {
      var failed := Drain();
      assert old(queue)[..|old(queue)|] == old(queue);
      if failed.Some? {
        return failed;
      }
      var outcome := Invoke(ctx);
      escaped := Conclude(outcome);
    }

    /**
     * async_message: no words is a no-op; otherwise the first word names the program, the root context is
     * built from the rest, the queue is drained, the root is invoked, and what it raised becomes a reply.
     */
    method Message(words: seq<string>) returns (escaped: Option<Raised>)
      requires Valid()
      modifies this`queue, this`nextId, this`trace
      ensures Valid()
      ensures var m := MessageRun(root, outage, old(queue), old(nextId), words);
              trace == old(trace) + m.events && queue == m.live && escaped == m.escaped
      ensures nextId == MessageNext(root, outage, old(queue), old(nextId), words)
    {
      if words == [] {
        return None;
      }
      var progName, args := words[0], words[1..];
      ghost var v := ParseStep(root, RootMode(), args);
      var ctx, parsed := MakeContext(root, progName, args, null, map[]);
      assert root.settings + map[] == root.settings;
      assert ctx.mode == RootMode();
      if parsed.Raise? {
        MessageRunParseRaised(root, outage, old(queue), old(nextId), words);
        escaped := Conclude(Raise(parsed.exc));
      } else {
        MessageRunParseStored(root, outage, old(queue), old(nextId), words);
        ghost var d := Walk(old(queue), old(queue), outage);
        ghost var r := InvokeRun(root, progName, RootMode(), v.params, v.protectedArgs, v.args, None);
        ghost var h := Handle(r.outcome, HelpQueued(d.live, old(nextId), r.help), outage);
        escaped := RunRoot(ctx);
        if d.error.None? {
          AppendAssoc(old(trace), d.events + r.events, h.events);
          AppendAssoc(old(trace), d.events, r.events);
        }
      }
    }
  }
}
