/**
 * The command tree and the parsing and resolution steps the dispatcher takes on it.
 * click's option grammar is a function value of each command; everything this repository
 * decides on top of it (help on no arguments, the help flag, exact-name resolution,
 * the merge of context settings) is written out here.
 */
module Commands {
  import opened Outcomes

  /** A value given in context_settings or as an extra keyword argument of make_context. */
  datatype Setting = Flag(on: bool) | Other(repr: string)
  type Settings = map<string, Setting>

  /** Parsed parameter values, by parameter name. */
  type Params = map<string, string>

  /** The parsing switches a click context carries. */
  datatype Mode = Mode(allowExtraArgs: bool, allowInterspersedArgs: bool, resilientParsing: bool)

  /** What click's option grammar makes of a command's words. */
  datatype Parse =
    | Rejected(message: string)  // the option parser refused the words (an unknown option, a missing value)
    | Parsed(help: bool, params: Params, badParameter: Option<string>, rest: seq<string>)
      // help: the help flag was given; badParameter: a value that failed conversion, which resilient
      // parsing ignores (the parameter then has no value); rest: words left over

  /**
   * click's option grammar; it only consumes words, so what it leaves over is never longer than its input,
   * and under resilient parsing the option parser swallows its usage errors, so it never rejects.
   */
  type Grammar = g: (seq<string>, Mode) -> Parse
    | forall words: seq<string>, mode: Mode ::
        && (g(words, mode).Parsed? ==> |g(words, mode).rest| <= |words|)
        && (mode.resilientParsing ==> g(words, mode).Parsed?)
    witness (words: seq<string>, mode: Mode) => Parsed(false, map[], None, [])

  /** What a callback can observe of its context: the parsed parameters and ctx.invoked_subcommand. */
  datatype Call = Call(params: Params, invokedSubcommand: Option<string>)

  /** What a callback does: the replies it awaits, in order, and how it ends. */
  datatype Effect = Effect(replies: seq<string>, outcome: Outcome<Value>)

  type Callback = Call -> Effect
  type ResultCallback = (Value, Params) -> Effect

  /**
   * A command: help is the text ctx.get_help() renders, helpOption says that get_help_option
   * returns an option. A Group owns its children by name (the merged view of a CommandCollection's sources).
   */
  datatype Command =
    | Leaf(help: string, helpOption: bool, grammar: Grammar, callback: Option<Callback>, settings: Settings)
    | Group(help: string, helpOption: bool, grammar: Grammar, callback: Option<Callback>, settings: Settings,
            children: map<string, Command>, invokeWithoutCommand: bool, chain: bool, noArgsIsHelp: bool,
            resultCallback: Option<ResultCallback>)

  function FlagOr(settings: Settings, key: string, default: bool): bool
  {
    if key in settings && settings[key].Flag? then settings[key].on else default
  }

  /** A context's switches: explicit settings win, otherwise the command class's defaults (a multi-command
      allows extra arguments and forbids interspersed ones, a plain command the other way round). */
  function ModeFor(c: Command, settings: Settings): Mode
  {
    Mode(FlagOr(settings, "allow_extra_args", c.Group?),
         FlagOr(settings, "allow_interspersed_args", c.Leaf?),
         FlagOr(settings, "resilient_parsing", false))
  }

  /**
   * make_context's first loop: every context_settings entry whose key is not among the explicit
   * extra arguments is copied into them, so explicit arguments override the settings.
   */
  method MergeSettings(settings: Settings, extra: Settings) returns (merged: Settings)
    ensures merged.Keys == settings.Keys + extra.Keys
    ensures forall k :: k in extra ==> merged[k] == extra[k]
    ensures forall k :: k in settings && k !in extra ==> merged[k] == settings[k]
    ensures merged == settings + extra
  {
    merged := extra;
    var todo := settings.Keys;
    while todo != {}
      invariant todo <= settings.Keys
      invariant merged.Keys == extra.Keys + (settings.Keys - todo)
      invariant forall k :: k in extra ==> merged[k] == extra[k]
      invariant forall k :: k in settings.Keys - todo && k !in extra ==> merged[k] == settings[k]
      decreases todo
    {
      var key :| key in todo;
      if key !in merged {
        merged := merged[key := settings[key]];
      }
      todo := todo - {key};
    }
  }

  /** What parse_args decides about a context. */
  datatype Verdict =
    | NoArgsHelp   // a group given no words with no_args_is_help set
    | FlagHelp     // the help flag was given
    | Fail(message: string)
    | Store(params: Params, protectedArgs: seq<string>, args: seq<string>)
  {
    predicate IsHelp() { NoArgsHelp? || FlagHelp? }
  }

  function Join(words: seq<string>, sep: string): string
  {
    if words == [] then "" else if |words| == 1 then words[0] else words[0] + sep + Join(words[1..], sep)
  }

  function ExtraArgsMessage(rest: seq<string>): string
  {
    "Got unexpected extra argument" + (if |rest| == 1 then "" else "s") + " (" + Join(rest, " ") + ")"
  }

  /** Where a multi-command keeps its leftover words: a chain keeps them all protected, a plain group only the first. */
  function StoreRest(c: Command, params: Params, rest: seq<string>): (v: Verdict)
    ensures v.Store? && v.params == params && v.protectedArgs + v.args == rest
    ensures c.Leaf? ==> v.protectedArgs == []
    ensures c.Group? && v.protectedArgs == [] ==> rest == []
    ensures c.Group? && !c.chain ==> |v.protectedArgs| <= 1
    ensures c.Group? && c.chain ==> v.protectedArgs == rest && v.args == []
  {
    if c.Leaf? then Store(params, [], rest)
    else if c.chain then Store(params, rest, [])
    else if rest != [] then Store(params, rest[..1], rest[1..])
    else Store(params, [], [])
  }

  /** The help the parse of these words asks for, before any other outcome. */
  predicate HelpRequested(c: Command, mode: Mode, words: seq<string>)
  {
    || (c.Group? && words == [] && c.noArgsIsHelp && !mode.resilientParsing)
    || (c.grammar(words, mode).Parsed? && c.grammar(words, mode).help && c.helpOption && !mode.resilientParsing)
  }

  /**
   * parse_args for a context of command c: the group override asks for help on no words before the
   * grammar runs; the help flag's callback asks for help during it; click then rejects bad values and,
   * where the context forbids them, extra words; otherwise the leftover words are stored.
   */
  function ParseStep(c: Command, mode: Mode, words: seq<string>): (v: Verdict)
    ensures v.IsHelp() <==> HelpRequested(c, mode, words)
    ensures v.NoArgsHelp? <==> c.Group? && words == [] && c.noArgsIsHelp && !mode.resilientParsing
    ensures v.Store? ==> |v.protectedArgs| + |v.args| <= |words|
    ensures v.Store? && c.Leaf? ==> v.protectedArgs == []
    ensures v.Store? && c.Group? && v.protectedArgs == [] ==> v.args == []
    ensures v.Store? && !mode.allowExtraArgs && !mode.resilientParsing ==> v.protectedArgs + v.args == []
    ensures mode.resilientParsing ==> (v.Store? <==> c.grammar(words, mode).Parsed?)
    ensures mode.resilientParsing ==> v.Store?
  {
    if c.Group? && words == [] && c.noArgsIsHelp && !mode.resilientParsing then NoArgsHelp
    else
      match c.grammar(words, mode)
      case Rejected(m) => Fail(m)
      case Parsed(help, params, bad, rest) =>
        if help && c.helpOption && !mode.resilientParsing then FlagHelp
        else if bad.Some? && !mode.resilientParsing then Fail(bad.value)
        else if rest != [] && !mode.allowExtraArgs && !mode.resilientParsing then Fail(ExtraArgsMessage(rest))
        else StoreRest(c, params, rest)
  }

  /** A child found by its exact name, with the words after the name. */
  datatype Resolved = Resolved(name: string, command: Command, rest: seq<string>)

  function NoSuchCommand(name: string): string
  {
    "No such command \"" + name + "\"."
  }

  /**
   * resolve_command by exact name. Outside resilient parsing an unknown name fails; under resilient
   * parsing click returns no command and the caller's cmd.make_context raises AttributeError.
   */
  function Resolve(g: Command, mode: Mode, words: seq<string>): (r: Outcome<Resolved>)
    requires g.Group? && words != []
    ensures r.Return? <==> words[0] in g.children
    ensures r.Return? ==> r.value.name == words[0] && r.value.command == g.children[words[0]] && r.value.rest == words[1..]
    ensures r.Raise? ==> (r.exc.Foreign? <==> mode.resilientParsing)
    ensures r.Raise? && !mode.resilientParsing ==> r.exc == ClickException(NoSuchCommand(words[0]))
  {
    if words[0] in g.children then Return(Resolved(words[0], g.children[words[0]], words[1..]))
    else if mode.resilientParsing then Raise(Foreign("AttributeError: 'NoneType' object has no attribute 'make_context'"))
    else Raise(ClickException(NoSuchCommand(words[0])))
  }

  /** The three behaviours of a group that is given no subcommand. */
  datatype NoArgsPlan = OwnCallbackOnly | OwnCallbackThenEmptyChain | MissingCommand

  function NoArgsPlanFor(invokeWithoutCommand: bool, chain: bool): (p: NoArgsPlan)
    ensures p.MissingCommand? <==> !invokeWithoutCommand
    ensures p.OwnCallbackThenEmptyChain? <==> invokeWithoutCommand && chain
    ensures p.OwnCallbackOnly? <==> invokeWithoutCommand && !chain
  {
    if !invokeWithoutCommand then MissingCommand
    else if chain then OwnCallbackThenEmptyChain
    else OwnCallbackOnly
  }
}
