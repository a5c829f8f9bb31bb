# abot's asynchronous command dispatcher, modelled in Dafny

abot (`abot/cli.py`) puts an asynchronous dispatcher on top of click. A chat message is split into words. The first word names the program and the rest are parsed into the root context of a command collection. The root is then invoked, which resolves and runs one subcommand or a chain of subcommands. A `ClickException` or `Abort` the run raises becomes the reply, a nonzero `ExitCode` requests one that is never awaited, `ExitCode(0)` replies nothing, and any other exception escapes. Help is not printed. Instead, a reply coroutine is appended to the module-level list `tbd_tasks` and `Context.exit()` raises `ExitCode(0)`. The list is awaited and emptied as a FIFO at fixed checkpoints: after parsing and before the root runs, and at the start of every handler of `async_message`.

The model has four modules:

- `Outcomes` (`outcomes.dfy`) holds the exceptions that cross the dispatcher (`ClickException`, `Abort`, `ExitCode`, anything else as `Foreign`), the values callbacks return, and the events the transport observes: a callback ran, a result callback ran, a reply was sent, a reply coroutine was created but never awaited.
- `Commands` (`commands.dfy`) holds the command tree (`Leaf` and `Group`, with click's option grammar as a function value of each command), the settings merge of `make_context`, and the verdict of `parse_args`. The verdict covers help on no words, the help flag, bad values, extra words, and where the leftover words go. It also holds resolution by exact name and the three no-subcommand behaviours.
- `DeferredTasks` (`deferred_tasks.dfy`) models `tbd_tasks` as a sequence of reply tasks. It defines one checkpoint as a function on values (`Walk`, which mirrors `for task in list(tbd_tasks): await task; tbd_tasks.remove(task)`) and its closed form (`Completed`, `Deliveries`), with the lemmas that connect the two.
- `Dispatch` (`dispatch.dfy`) holds `Context`, a class whose leftover words and `invoked_subcommand` the dispatcher overwrites. It also holds `Dispatcher`, a class that owns the command collection, the queue and the transcript of events. Its methods follow the source's methods one by one. Each method that changes state is specified against pure functions of the same module:
  - `InvokeRun`, `GroupRun`, `NoArgsRun`, `SubcommandRun`, `ChildRun`, `ChainBranchRun` and `ChainRun` give the run of any command, leaf or group, as a recursion over the command tree: the events it shows, the help reply it queues and how it ends;
  - `ChainPlan` and `ChainHelp` give the chain's resolve loop and the help it queues;
  - `ChainOf` gives its run loop;
  - `Handle` gives the handlers of `async_message`, with `ReplyTo` for the reply to each exception;
  - `MessageRun` gives one whole message: the root parse, the first checkpoint, the root's run and the handlers.

Inputs the dispatcher cannot see are parameters of the model:

- callbacks and result callbacks are functions from what they observe (parameters, `invoked_subcommand`, the value handed on) to the replies they await and how they end;
- click's option grammar is a function from words and parsing switches to a parse;
- whether awaiting a queued reply raises is the set `outage` of task ids whose await fails.

The events in `trace` are what the transport sees, in order.

## Model

| member | source | states |
|---|---|---|
| Outcomes.Exit | abot/cli.py:43-44 | Context.exit raises ExitCode with the given code, 0 by default; no ensures of its own |
| Commands.MergeSettings | abot/cli.py:60-63 | the merged settings have the keys of both; an explicit extra argument always wins; a context setting is copied only where its key is absent; so the result is `settings + extra` |
| Commands.StoreRest | abot/cli.py:157 | the words left by the grammar are stored in full and in order as protected words plus arguments; a leaf protects none; a chain protects all of them and keeps no arguments; a plain group protects at most the first; a group without protected words has no words left |
| Commands.ParseStep | abot/cli.py:151-157 | help is the verdict exactly when help is requested: a group given no words with no_args_is_help, or the help flag of a command with a help option, both only outside resilient parsing; the no-words help takes priority; stored words never outnumber the input; a context that forbids extra words stores none; under resilient parsing the words are always stored, since the grammar then never rejects them |
| Commands.Resolve | abot/cli.py:125-128 | a name resolves exactly when it is a child, giving that child and the remaining words; an unknown name raises "No such command" outside resilient parsing, and a foreign error exactly under it |
| Commands.NoArgsPlanFor | abot/cli.py:109-116 | a group without protected words fails with "Missing command." exactly when invoke_without_command is unset; it runs its callback and hands [] to the result callback exactly when it is also a chain; otherwise it runs only its callback |
| DeferredTasks.Completed | abot/cli.py:193-195 | the tasks a checkpoint completes are the longest prefix whose awaits do not raise; the next task, if any, is one that raises |
| DeferredTasks.Remove | abot/cli.py:195 | list.remove succeeds exactly when the task is queued, and its result is then one task shorter; otherwise it raises a foreign ValueError; RemoveFirst and RemoveHead say which task goes |
| DeferredTasks.RemoveFirst | abot/cli.py:195 | list.remove drops the first copy of a queued task and keeps every other task, in order |
| DeferredTasks.Walk | abot/cli.py:193-195 | one checkpoint over a snapshot of the live queue, as the source loops over it; no ensures of its own: WalkHead, WalkKeepsFifo and WalkClosed state what it does |
| DeferredTasks.IndexOf | abot/cli.py:195 | list.remove targets the first occurrence of the task |
| DeferredTasks.RemoveHead | abot/cli.py:195 | removing the head of the queue leaves exactly its tail |
| DeferredTasks.WellNumberedPush | abot/cli.py:79 | appending a fresh reply task keeps every queued task distinct |
| DeferredTasks.WellNumberedSuffix | abot/cli.py:193-195 | what a checkpoint leaves is still a queue of distinct tasks |
| DeferredTasks.WalkHead | abot/cli.py:193-195 | a checkpoint whose first task completes delivers it, removes it from the live queue and goes on with the rest of the snapshot |
| DeferredTasks.CompletedHead | abot/cli.py:193-195 | the completed prefix of a queue whose head completes is that head followed by the completed prefix of the tail |
| DeferredTasks.WalkKeepsFifo | abot/cli.py:193-195 | the literal checkpoint over a snapshot delivers the snapshot's tasks in enqueue order up to the first failing one; it leaves that task, the tasks after it and every task queued behind the snapshot, in order; its error is the failure exactly when the snapshot was not finished |
| DeferredTasks.WalkClosed | abot/cli.py:193-195 | a checkpoint over the whole queue delivers its completed prefix, leaves the rest, and fails exactly when that prefix is not the whole queue |
| DeferredTasks.FailedTaskBlocksNextDrain | abot/cli.py:193-200 | a task that fails at one checkpoint heads the queue at the next one, which then delivers nothing and fails again |
| DeferredTasks.CompletedAfter | abot/cli.py:193-195 | behind a prefix that completes entirely, a checkpoint completes as many more as it would without that prefix |
| DeferredTasks.CompletedAppend | abot/cli.py:193-195 | the deliveries of a queue whose first part completes are that part's deliveries followed by the rest's |
| DeferredTasks.CompletedAt | abot/cli.py:193-195 | a checkpoint stops exactly at the first task whose await raises |
| DeferredTasks.DeliverNext | abot/cli.py:194-195 | one iteration delivers the next snapshot task and removes it from the front of what is left |
| DeferredTasks.DeliveriesPrefix | abot/cli.py:192-200 | tasks that were queued first and all complete are delivered before anything queued after them |
| Dispatch.Context.constructor | abot/cli.py:64 | a new context carries its command, info name, parent and merged settings, with parsing switches derived from these settings and nothing parsed or invoked yet |
| Dispatch.OwnRun | abot/cli.py:56-58 | a command without a callback returns None silently; one with a callback records its run first, then the replies the callback awaits, and ends as the callback ends; it never queues help |
| Dispatch.ResultRun | abot/cli.py:103-107 | without a result callback the value is passed on unchanged; with one, the result callback runs first thing on the value and the group's parameters, its replies follow, and its outcome is the result |
| Dispatch.ChainReturnAsWritten | abot/cli.py:149 | the chain's `return _process_result(rv)` as written: the caller gets an unawaited coroutine and nothing runs; no ensures of its own: AsWrittenChainSkipsResultCallback states it |
| Dispatch.AsWrittenChainSkipsResultCallback | abot/cli.py:149 | the chain's return as written runs nothing, while the awaited _process_result starts with the result callback |
| Dispatch.ChainPlan | abot/cli.py:136-143 | the chain's resolve loop over the words; no ensures of its own: the ChainPlan lemmas state what it does |
| Dispatch.ChainHelp | abot/cli.py:136-143 | the help the resolve loop queues, through the child's parse_args (abot/cli.py:155); no ensures of its own: ChainHelpExits states it |
| Dispatch.ChainPlanLength | abot/cli.py:136-143 | the resolve loop makes at most one context per word |
| Dispatch.ChainPlanChildren | abot/cli.py:136-143 | every resolved chain step names a genuine child of the group |
| Dispatch.ChainPlanRaises | abot/cli.py:136-143 | only resilient parsing lets a foreign exception out of the resolve loop |
| Dispatch.ChainPlanShape | abot/cli.py:136-143 | all of the above, and the first step is the first word |
| Dispatch.ChainPlanKnown | abot/cli.py:138-143 | one round for a known name either stores the child's context and goes on with its leftover words, or raises the parse failure or ExitCode(0) |
| Dispatch.ChainPlanUnknown | abot/cli.py:138 | one round for an unknown name raises the resolution error, which ends the loop |
| Dispatch.ChainHelpExits | abot/cli.py:136-143 | the resolve loop queues a help reply, namely that of the child whose parse asked for it, exactly when the loop ends with ExitCode(0) |
| Dispatch.ChainOf | abot/cli.py:145-148 | if no child queues help except while raising ExitCode(0), neither does the chain |
| Dispatch.ChainOfReturns | abot/cli.py:145-148 | a chain that returned has one result per child, each the value that child returned, in order, and its events are those of every child, in order |
| Dispatch.ChainOfAdvance | abot/cli.py:146-148 | the next child either appends its result and events, or its raise ends the whole chain with the events so far and that child's help |
| Dispatch.ChainOfStops | abot/cli.py:146-148 | after a child raises, no later child runs |
| Dispatch.InvokeRun | abot/cli.py:102-149 | the invocation of any command queues at most the help of one context, and only while raising ExitCode(0) |
| Dispatch.GroupRun | abot/cli.py:109-149 | a group with no protected words queues nothing and fails with "Missing command." before anything runs unless invoke_without_command is set; outside resilient parsing a plain group's unknown first word raises "No such command" before anything runs; otherwise the group's own callback, seeing the invoked_subcommand the group records, runs first |
| Dispatch.GroupRunNoArgs | abot/cli.py:109-115 | with no protected words and invoke_without_command, the callback runs alone with invoked_subcommand untouched, or, for a chain, is followed by the result callback on [] unless it raised |
| Dispatch.GroupRunOne | abot/cli.py:119-130 | a plain group's callback sees the first word as invoked_subcommand; unless it raises, the named child follows over the remaining protected words and then the arguments |
| Dispatch.GroupRunChain | abot/cli.py:119-149 | a chain's callback sees '*'; unless it raises, the chain that the protected words and arguments plan follows, with its events, help and outcome |
| Dispatch.NoArgsRun | abot/cli.py:109-116 | the three no-subcommand behaviours with their exact runs; none queues help |
| Dispatch.SubcommandRun | abot/cli.py:123-130 | outside resilient parsing an unknown name raises "No such command" before anything runs; otherwise the group's callback runs first with the name as invoked_subcommand and its raise ends the run; under resilient parsing an unknown name then raises a foreign error; a known name's child part follows |
| Dispatch.ChildRun | abot/cli.py:128-130 | a child whose parse does not store raises before anything runs: a parse failure with its message, help with ExitCode(0) and exactly the child's help queued; otherwise the child, leaf or group, is invoked with no invoked subcommand and, if it returns, the group's result callback follows with its value |
| Dispatch.ChainBranchRun | abot/cli.py:132-149 | the chain's callback runs first with '*'; its raise ends the run; a resolve or parse error then raises with no child run, queueing exactly the help that ChainHelp names; otherwise the children are genuine and ChainRun follows |
| Dispatch.ChainRun | abot/cli.py:145-149 | the children run left to right; a raise ends the chain with the raising child's help; otherwise the result callback receives their results in order |
| Dispatch.ReplyTo | abot/cli.py:197-213 | at most one reply: a ClickException replies with its message; Abort replies "Aborted!"; a nonzero ExitCode requests the fixed internal-error reply; ExitCode(0) and foreign exceptions reply nothing |
| Dispatch.Handle | abot/cli.py:196-213 | only a foreign exception escapes; a return adds nothing; a foreign raise escapes untouched; any other raise drains the queue and, if the whole queue is delivered, replies as ReplyTo says, otherwise escapes with the failed await |
| Dispatch.MessageRun | abot/cli.py:185-213 | one whole async_message over values; no ensures of its own: the MessageRun lemmas state what it does |
| Dispatch.MessageNext | abot/cli.py:185-213 | a message hands out at most one task id: none for no words or a root parse failure, one for root help; MessageRunParseStored gives the case of a stored root parse |
| Dispatch.MessageRunParseRaised | abot/cli.py:192 | a root parse that raises goes straight to the handlers, with the root's help queued under the next id when it asked for help |
| Dispatch.MessageRunParseStored | abot/cli.py:192-196 | a root parse that stores leads to the first checkpoint; a failing one ends the message and hands out no id; otherwise the root runs and the id advances only by the root's help |
| Dispatch.MessageRunStored | abot/cli.py:192-196 | when the root parse stores, a failing first checkpoint ends the message with what it delivered; otherwise every queued reply is delivered, and then the root runs and the handlers see its outcome |
| Dispatch.MessageRunRoot | abot/cli.py:192-213 | after a complete first checkpoint the parsed root is invoked; its return ends the message silently, a foreign raise escapes, and any other raise is replied to as ReplyTo says after the root's help, if queued, is delivered |
| Dispatch.MessageRunEnds | abot/cli.py:185-213 | no words is a no-op; only foreign exceptions escape; a message that does not escape leaves the queue empty |
| Dispatch.MessageRunFifo | abot/cli.py:192-200 | replies queued before a message go out first whenever its first checkpoint can deliver them all |
| Dispatch.MessageRunRootRaised | abot/cli.py:192-213 | a root parse that asks for help has its help delivered after the earlier replies and nothing else said; a root parse failure is replied after them |
| Dispatch.Dispatcher.constructor | abot/cli.py:19 | the queue starts empty |
| Dispatch.Dispatcher.ParseArgs | abot/cli.py:151-157 | for every verdict: storing leaves the queue alone and fills the context; a failure raises its message; help appends exactly one task with the command's help and raises ExitCode(0), storing nothing |
| Dispatch.Dispatcher.MakeContext | abot/cli.py:60-67 | the new context's settings are the merged settings and its parse follows ParseArgs |
| Dispatch.Dispatcher.InvokeCallback | abot/cli.py:32-41 | the context's own callback as given by OwnRun, with its parameters and invoked_subcommand |
| Dispatch.Dispatcher.ProcessResult | abot/cli.py:103-107 | the result callback's run as given by ResultRun |
| Dispatch.Dispatcher.Invoke | abot/cli.py:56-58 | the transcript, queue and outcome are exactly InvokeRun of what the context holds; a leaf leaves the context alone; a group records invoked_subcommand and takes its words out of the context |
| Dispatch.Dispatcher.InvokeGroup | abot/cli.py:109-133 | the transcript, queue and outcome are exactly GroupRun's; without protected words the context is untouched; otherwise its words are emptied and invoked_subcommand becomes the first word or '*' |
| Dispatch.Dispatcher.InvokeNoArgs | abot/cli.py:109-116 | the transcript and outcome are exactly NoArgsRun's |
| Dispatch.Dispatcher.InvokeOne | abot/cli.py:123-130 | the transcript, queue and outcome are exactly SubcommandRun's; invoked_subcommand becomes the first word when it names a child or under resilient parsing |
| Dispatch.Dispatcher.RunSubcommand | abot/cli.py:128-130 | the child's context is made with no extra arguments, and the transcript, queue and outcome are exactly ChildRun's |
| Dispatch.Dispatcher.InvokeChain | abot/cli.py:132-149 | invoked_subcommand is '*', and the transcript, queue and outcome are exactly ChainBranchRun's |
| Dispatch.Dispatcher.RunResolved | abot/cli.py:145-149 | the run loop over contexts matching the resolved steps, then the awaited _process_result, give exactly ChainRun |
| Dispatch.Dispatcher.ResolveChain | abot/cli.py:136-143 | the loop raises exactly when ChainPlan does, with its exception and the help ChainHelp names queued; otherwise it leaves the queue alone and makes one fresh, distinct context per planned step, in order, each matching its step |
| Dispatch.Dispatcher.ResolveInto | abot/cli.py:137-143 | one round either raises as the plan of the remaining words does, or adds one fresh context matching the next step and hands back fewer words with the same plan and help |
| Dispatch.Dispatcher.ResolveNext | abot/cli.py:138-143 | one round makes the child's context with extra words allowed and hands back fewer words, as ChainPlanKnown states, or raises with the help ChainHelp names |
| Dispatch.Dispatcher.RunChain | abot/cli.py:145-148 | the transcript, queue and results are exactly ChainOf of the contexts' runs |
| Dispatch.Dispatcher.Drain | abot/cli.py:193-195 | one checkpoint is exactly Walk over the queue: it delivers the completed prefix in order, leaves the rest queued, and fails exactly when a task's await raised |
| Dispatch.Dispatcher.Conclude | abot/cli.py:197-213 | the transcript, queue and escape are exactly Handle's |
| Dispatch.Dispatcher.RunRoot | abot/cli.py:192-213 | the queue is drained before the root is invoked; a failing drain escapes with the root not invoked and the next id unchanged; otherwise the transcript is the drain's deliveries, then InvokeRun of the root, then Handle of its outcome over the queue the root leaves, and the next id advances only by the root's help |
| Dispatch.Dispatcher.Message | abot/cli.py:185-213 | the transcript, queue and escape are exactly MessageRun's and the next id is MessageNext's, so the MessageRun lemmas hold of every message |

## Left out

- click's internals are left out: the option grammar is a function value of each command, and `get_help` rendering is the command's help text. `format_message` is the message the exception carries. `augment_usage_errors` is not modelled.
- `shlex.split` is left out: `Message` receives the words.
- The synchronous `invoke` paths (`asyncio.get_event_loop().run_until_complete`) are left out. Their event-loop plumbing has no effect on dispatch.
- The `with ctx` and `with sub_ctx` scopes and `ctx.scope(cleanup=False)` are left out. Their close callbacks are click's and are not visible here.
- Logging is left out.
- The decorator factories `command` and `group` are left out. They only set the command class.
- `abot.bot.current_event` and the transport are parameters. A reply is an event in `trace`, and whether awaiting a queued reply raises is the set `outage`.
- Direct replies from handlers that fail are not modelled. Only awaits of queued tasks can fail.
- A leaf's `no_args_is_help` (click 7.1) is not modelled. click echoes that help to stdout rather than through `tbd_tasks`, and `ctx.exit()` then raises `ExitCode(0)`, so the message ends without a reply.
- Callbacks that append to `tbd_tasks` themselves are not modelled. A callback's effect is the replies it awaits and how it ends, so only `parse_args` queues tasks.
- Concurrent dispatches sharing the module-level `tbd_tasks` are left out. Dispatches are sequential calls on one `Dispatcher`, which keeps the queue between them.
- `resolve_command` beyond exact-name lookup is left out: the re-parse of an option-like unknown name through `split_opt`, and `token_normalize_func`.
- A `CommandCollection` merges its sources into one child map: the first source with a name wins. The merge itself is not modelled.
- Dispatch.ChainRun: the chain branch is modelled with `_process_result` awaited, which is the corrected abot/cli.py:149 of the Findings table; the code as written is `ChainReturnAsWritten`.
- Dispatch.Dispatcher.RunResolved: runs the result callback through the awaited `_process_result`, as ChainRun does, unlike abot/cli.py:149 as written.
- Dispatch.Dispatcher.InvokeChain: its run is ChainBranchRun, so for a chain with a result callback it shows the result callback's run, where the code as written returns an unawaited coroutine.
- Dispatch.Dispatcher.Message: a chain root or a chain child inherits the same corrected chain branch.

The code differs from a plain reading of the source's intent in these ways, and the model follows the code:

- On success there is no final drain. `MessageRunEnds` proves this is unnecessary in the model: the queue is empty whenever nothing escapes. This rests on the model's callbacks, whose effects are only the replies they await: only `parse_args` appends to `tbd_tasks`. A source callback that appends to the module-level `tbd_tasks` itself would leave that task queued after a successful message, until the next message's first checkpoint.
- Exceptions outside click's `ClickException`, `Abort` and abot's `ExitCode` are not turned into a reply. They escape `async_message`, and so does a queued reply whose await fails.
- A nonzero `ExitCode` calls `message.reply(...)` without `await` (abot/cli.py:213). The model records this as a `Requested` event: the reply coroutine is created and never awaited, so it is never shown as sent.
- A chain resolves and parses every child before any child runs. A parse error or help in a later child raises before any child's callback runs.
- Under resilient parsing click's `resolve_command` returns no command for an unknown name instead of failing (click 7, which the source does not pin). A plain group then records the name, runs its own callback and only then fails at `cmd.make_context` with an `AttributeError` (abot/cli.py:126-128). A chain fails at the same call before making any child context (abot/cli.py:139).
- Under resilient parsing a value that fails conversion is not an error: the parameter is left without a value. click's option parser also swallows its usage errors then, so a grammar never rejects words under resilient parsing.

## Findings

| source | as written | input that shows it | evidently intended | confidence | as-written member | corrected member |
|---|---|---|---|---|---|---|
| abot/cli.py:149 | the chain branch returns `_process_result(rv)` without `await`, so the result callback does not run and the caller receives an unawaited coroutine object | a chain group with a result callback, given one child word whose callback returns | the result callback receives the children's results, as in the non-chain branch (abot/cli.py:130) and the empty chain (abot/cli.py:115) | not executed | Dispatch.AsWrittenChainSkipsResultCallback | Dispatch.ChainRun |
