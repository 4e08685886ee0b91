/**
 * The command-line application base (`CliApp`): how a command about to be run is shown with
 * secrets masked, how an application exception is rendered and turned into an exit code, the
 * exit code for a missing action, and the `action` decorator's bookkeeping.
 */
module CliApp {

  import opened Wrappers
  import opened ShellQuote
  import opened PyBytes
  import Decimal
  import TypedCliArgument

  /** An argument of a command: text, bytes, or a path (held as its normalised text). */
  datatype CommandArg = Text(s: string) | Bytes(b: seq<byte>) | FsPath(path: string)

  /** `str(arg)`. */
  function ArgText(arg: CommandArg): string
  {
    match arg
    case Text(s) => s
    case Bytes(b) => Repr(b)
    case FsPath(p) => p
  }

  /**
   * An obfuscation pattern, by the kind the source tells apart: an exact `str`, `bytes` or
   * `Path` value; a compiled regular expression (`matchesAtStart(t)` is `pattern.match(t) is
   * not None`); any callable (its result, taken as a truth value); anything else.
   */
  datatype ObfuscationPattern =
    | ExactText(text: string)
    | ExactBytes(bytes: seq<byte>)
    | ExactPath(path: string)
    | Regex(matchesAtStart: string -> bool)
    | Callable(test: CommandArg -> bool)
    | Unsupported

  /** `ValueError: Invalid obfuscation pattern …`. */
  datatype ObfuscationError = InvalidObfuscationPattern

  /** `8 * '*'`. */
  const Mask: string := seq(8, _ => '*')

  /** One pattern examined against one argument: equality for exact values (a value of another
      type never equals), a prefix match of `str(arg)` for a regex, the result for a callable. */
  function PatternMatches(p: ObfuscationPattern, arg: CommandArg): (r: Result<bool, ObfuscationError>)
    ensures r.Err? <==> p.Unsupported?
  {
    match p
    case Regex(matchesAtStart) => Ok(matchesAtStart(ArgText(arg)))
    case Callable(test) => Ok(test(arg))
    case ExactText(text) => Ok(arg == Text(text))
    case ExactBytes(bytes) => Ok(arg == Bytes(bytes))
    case ExactPath(path) => Ok(arg == FsPath(path))
    case Unsupported => Err(InvalidObfuscationPattern)
  }

  predicate Matches(p: ObfuscationPattern, arg: CommandArg)
  {
    PatternMatches(p, arg) == Ok(true)
  }

  predicate AllValid(patterns: seq<ObfuscationPattern>)
  {
    forall i :: 0 <= i < |patterns| ==> !patterns[i].Unsupported?
  }

  predicate SomeMatch(patterns: seq<ObfuscationPattern>, arg: CommandArg)
  {
    exists i :: 0 <= i < |patterns| && Matches(patterns[i], arg)
  }

  /**
   * `should_obfuscate`: the patterns are examined in turn and the first match answers; an
   * unsupported pattern raises when it is reached. Which pattern comes first is unspecified in
   * the source (it iterates a set), so the contract states only what holds in every order.
   */
  function ShouldObfuscate(patterns: seq<ObfuscationPattern>, arg: CommandArg): (r: Result<bool, ObfuscationError>)
    ensures r.Ok? ==> r.value == SomeMatch(patterns, arg)
    ensures AllValid(patterns) ==> r == Ok(SomeMatch(patterns, arg))
    ensures !SomeMatch(patterns, arg) && !AllValid(patterns) ==> r.Err?
  {
    if patterns == [] then Ok(false)
    else
      var rest := ShouldObfuscate(patterns[1..], arg);
      assert SomeMatch(patterns[1..], arg) ==> SomeMatch(patterns, arg) by {
        if SomeMatch(patterns[1..], arg) {
          var i :| 0 <= i < |patterns[1..]| && Matches(patterns[1..][i], arg);
          assert Matches(patterns[i + 1], arg);
        }
      }
      assert !AllValid(patterns) && !patterns[0].Unsupported? ==> !AllValid(patterns[1..]) by {
        if !AllValid(patterns) && !patterns[0].Unsupported? {
          var i :| 0 <= i < |patterns| && patterns[i].Unsupported?;
          assert patterns[1..][i - 1].Unsupported?;
        }
      }
      assert !SomeMatch(patterns, arg) ==> !SomeMatch(patterns[1..], arg) by {
        if SomeMatch(patterns[1..], arg) {
          var i :| 0 <= i < |patterns[1..]| && Matches(patterns[1..][i], arg);
          assert Matches(patterns[i + 1], arg);
        }
      }
      match PatternMatches(patterns[0], arg)
      case Err(e) => Err(e)
      case Ok(m) => if m then Ok(true) else rest
  }

  /** What an argument reads as in the displayed command: the mask when it is obfuscated,
      otherwise its own text. */
  function Shown(mask: string, patterns: seq<ObfuscationPattern>, arg: CommandArg): string
  {
    if ShouldObfuscate(patterns, arg) == Ok(true) then mask else ArgText(arg)
  }

  /** What every argument reads as, in order. */
  function ShownAll(mask: string, patterns: seq<ObfuscationPattern>, args: seq<CommandArg>): (r: seq<string>)
    ensures |r| == |args| && forall i :: 0 <= i < |args| ==> r[i] == Shown(mask, patterns, args[i])
  {
    seq(|args|, i requires 0 <= i < |args| => Shown(mask, patterns, args[i]))
  }

  /** `obfuscate_arg` over every argument: one rendering per argument, in order; the first
      argument whose decision raises makes the whole call raise. */
  function RenderArgs(mask: string, patterns: seq<ObfuscationPattern>, args: seq<CommandArg>)
    : (r: Result<seq<string>, ObfuscationError>)
    ensures r.Ok? <==> forall i :: 0 <= i < |args| ==> ShouldObfuscate(patterns, args[i]).Ok?
    ensures r.Ok? ==> |r.value| == |args|
    ensures r.Ok? ==> forall i :: 0 <= i < |args| ==>
              r.value[i] == if ShouldObfuscate(patterns, args[i]).value then mask else Quote(ArgText(args[i]))
  {
    if args == [] then Ok([])
    else
      match ShouldObfuscate(patterns, args[0])
      case Err(e) => Err(e)
      case Ok(masked) =>
        match RenderArgs(mask, patterns, args[1..])
        case Err(e) => Err(e)
        case Ok(rest) =>
          assert forall i :: 1 <= i < |args| ==> args[i] == args[1..][i - 1];
          Ok([if masked then mask else Quote(ArgText(args[0]))] + rest)
  }

  /** The displayed command: the renderings joined by single spaces; it exists exactly when
      every argument's decision does. */
  function DisplayCommand(mask: string, patterns: seq<ObfuscationPattern>, args: seq<CommandArg>)
    : (r: Result<string, ObfuscationError>)
    ensures r.Ok? <==> forall i :: 0 <= i < |args| ==> ShouldObfuscate(patterns, args[i]).Ok?
  {
    match RenderArgs(mask, patterns, args)
    case Err(e) => Err(e)
    case Ok(words) =>
      Ok(JoinSpaces(words))
  }

  /** Read back by a POSIX shell, the displayed command gives one word per argument, in order:
      the mask for an obfuscated argument and the argument's own text for every other. */
  lemma DisplayReadsBack(patterns: seq<ObfuscationPattern>, args: seq<CommandArg>)
    ensures DisplayCommand(Mask, patterns, args).Ok? ==>
              Split(DisplayCommand(Mask, patterns, args).value) == Some(ShownAll(Mask, patterns, args))
  {
    if DisplayCommand(Mask, patterns, args).Ok? {
      var words := RenderArgs(Mask, patterns, args).value;
      var texts := ShownAll(Mask, patterns, args);
      forall i | 0 <= i < |words| ensures ReadsAs(words[i], texts[i]) {
        if ShouldObfuscate(patterns, args[i]).value {
          PlainReadsAs(Mask);
        } else {
          QuoteReadsAs(ArgText(args[i]));
        }
      }
      SplitJoin(words, texts);
    }
  }

  /** With only supported patterns, an argument is shown as the mask exactly when some
      pattern matches it; an argument no pattern matches is never the mask. */
  lemma MaskedIffMatched(patterns: seq<ObfuscationPattern>, args: seq<CommandArg>, i: nat)
    requires AllValid(patterns)
    requires i < |args|
    ensures RenderArgs(Mask, patterns, args).Ok?
    ensures RenderArgs(Mask, patterns, args).value[i] == Mask <==> SomeMatch(patterns, args[i])
  {
    if !SomeMatch(patterns, args[i]) {
      QuoteIsNeverStars(ArgText(args[i]), 8);
    }
  }

  /** An unsupported pattern makes the display fail for an argument no pattern matches. */
  lemma UnsupportedPatternRaises(patterns: seq<ObfuscationPattern>, args: seq<CommandArg>, i: nat)
    requires !AllValid(patterns)
    requires i < |args| && !SomeMatch(patterns, args[i])
    ensures DisplayCommand(Mask, patterns, args).Err?
  {
  }

  /** `obfuscate_patterns or []`. */
  function Given(patterns: Option<seq<ObfuscationPattern>>): seq<ObfuscationPattern>
  {
    if patterns.Some? then patterns.value else []
  }

  /** Matching and support over two pattern lists put together. */
  lemma PatternsUnion(a: seq<ObfuscationPattern>, b: seq<ObfuscationPattern>)
    ensures forall arg :: SomeMatch(a + b, arg) <==> SomeMatch(a, arg) || SomeMatch(b, arg)
    ensures AllValid(a + b) <==> AllValid(a) && AllValid(b)
  {
    forall arg ensures SomeMatch(a + b, arg) <==> SomeMatch(a, arg) || SomeMatch(b, arg) {
      if SomeMatch(a + b, arg) {
        var i :| 0 <= i < |a + b| && Matches((a + b)[i], arg);
        if i < |a| {
          assert Matches(a[i], arg);
        } else {
          assert Matches(b[i - |a|], arg);
        }
      }
      if SomeMatch(a, arg) {
        var i :| 0 <= i < |a| && Matches(a[i], arg);
        assert Matches((a + b)[i], arg);
      }
      if SomeMatch(b, arg) {
        var i :| 0 <= i < |b| && Matches(b[i], arg);
        assert Matches((a + b)[|a| + i], arg);
      }
    }
    if AllValid(a) && AllValid(b) {
      forall i | 0 <= i < |a + b| ensures !(a + b)[i].Unsupported? {
        if i >= |a| {
          assert (a + b)[i] == b[i - |a|];
        }
      }
    }
    if AllValid(a + b) {
      forall i | 0 <= i < |a| ensures !a[i].Unsupported? {
        assert (a + b)[i] == a[i];
      }
      forall i | 0 <= i < |b| ensures !b[i].Unsupported? {
        assert (a + b)[|a| + i] == b[i];
      }
    }
  }

  /** A process run on behalf of the application: its arguments, the safe (obfuscated) form
      shown for it, and what it ran with and returned. */
  datatype CliProcess = CliProcess(
    commandArgs: seq<CommandArg>,
    safeForm: string,
    dry: bool,
    printStreams: bool,
    returncode: int)

  class CliApp {
    var dryRun: bool
    var defaultObfuscation: seq<ObfuscationPattern>
    var obfuscation: string

    constructor (dry: bool := false)
      ensures dryRun == dry && defaultObfuscation == [] && obfuscation == Mask
    {
      dryRun := dry;
      defaultObfuscation := [];
      obfuscation := Mask;
    }

    /** The call's patterns (none when absent) together with the application's defaults: an
        argument matches the union exactly when it matches one of the two, and the union is
        supported exactly when both are. */
    function AllPatterns(patterns: Option<seq<ObfuscationPattern>>): (r: seq<ObfuscationPattern>)
      reads this
      ensures forall arg :: SomeMatch(r, arg) <==> (patterns.Some? && SomeMatch(patterns.value, arg))
                                                    || SomeMatch(defaultObfuscation, arg)
      ensures AllValid(r) <==> (patterns.None? || AllValid(patterns.value)) && AllValid(defaultObfuscation)
    {
      PatternsUnion(Given(patterns), defaultObfuscation);
      Given(patterns) + defaultObfuscation
    }

    /** `_obfuscate_command`. */
    function ObfuscateCommand(args: seq<CommandArg>, patterns: Option<seq<ObfuscationPattern>> := None)
      : (r: Result<string, ObfuscationError>)
      reads this
      ensures r.Ok? <==> forall i :: 0 <= i < |args| ==> ShouldObfuscate(AllPatterns(patterns), args[i]).Ok?
      ensures r.Ok? && obfuscation == Mask ==>
                Split(r.value) == Some(ShownAll(Mask, AllPatterns(patterns), args))
    {
      DisplayReadsBack(AllPatterns(patterns), args);
      DisplayCommand(obfuscation, AllPatterns(patterns), args)
    }

    /** `execute`: the process carries the arguments and their obfuscated form; running it is
        outside this model, so the return code it produces is an input. */
    function Execute(args: seq<CommandArg>, returncode: int,
                     patterns: Option<seq<ObfuscationPattern>> := None, showOutput: bool := true)
      : (r: Result<CliProcess, ObfuscationError>)
      reads this
      ensures r.Ok? <==> ObfuscateCommand(args, patterns).Ok?
      ensures r.Ok? ==> && r.value.commandArgs == args
                        && r.value.safeForm == ObfuscateCommand(args, patterns).value
                        && r.value.dry == dryRun && r.value.printStreams == showOutput
                        && r.value.returncode == returncode
    {
      match ObfuscateCommand(args, patterns)
      case Err(e) => Err(e)
      case Ok(safeForm) => Ok(CliProcess(args, safeForm, dryRun, showOutput, returncode))
    }
  }

  /** `CliAppException`: a message and, optionally, the process that failed. */
  datatype CliAppException = CliAppException(message: string, process: Option<CliProcess>)

  const RunningPrefix := "Running "
  const FailedInfix := " failed with exit code "

  /** `CliAppException.__str__`: the bare message without a process; with one, the process's
      safe form and return code, then the message. */
  function ExceptionText(e: CliAppException): (r: string)
    ensures e.process.None? ==> r == e.message
    ensures e.process.Some? ==>
              var head := RunningPrefix + e.process.value.safeForm + FailedInfix;
              && head <= r
              && |head| + 2 + |e.message| <= |r|
              && r[|r| - |e.message| - 2..] == ": " + e.message
              && Decimal.ParseInt(r[|head|..|r| - |e.message| - 2]) == Some(e.process.value.returncode)
  {
    match e.process
    case None => e.message
    case Some(p) =>
      var head := RunningPrefix + p.safeForm + FailedInfix;
      var code := Decimal.IntToString(p.returncode);
      var r := head + code + ": " + e.message;
      assert r[|head|..|r| - |e.message| - 2] == code;
      Decimal.IntRoundTrip(p.returncode);
      r
  }

  /** How the process ends: what it writes to standard error and its exit code. */
  datatype Exit = Exit(stderr: string, code: int)

  /** `_handle_cli_exception`: the message goes to standard error; the exit code is the failed
      process's return code when there is one and 1 otherwise. */
  function HandleCliException(e: CliAppException): (r: Exit)
    ensures r.stderr == e.message + "\n"
    ensures e.process.Some? ==> r.code == e.process.value.returncode
    ensures e.process.None? ==> r.code == 1
  {
    Exit(e.message + "\n", if e.process.Some? then e.process.value.returncode else 1)
  }

  /** Handling an application exception reports success only for an attached process that
      itself returned 0. */
  lemma ExitCodeZeroOnlyFromProcess(e: CliAppException)
    ensures HandleCliException(e).code == 0 <==> e.process.Some? && e.process.value.returncode == 0
  {
  }

  /** What `_setup_cli_options` ends in. */
  datatype CliSetup =
    | NotDocumented(appName: string)  // RuntimeError: the application class has no docstring
    | HelpAndExit(code: int)          // help printed, then sys.exit
    | Parsed(action: string)          // the selected action

  /** `_setup_cli_options`, with parsing done: an undocumented application is refused; no
      action, or an empty one, prints help and exits with code 2. */
  function SetupCliOptions(appName: string, appDoc: Option<string>, parsedAction: Option<string>): (r: CliSetup)
    ensures r.NotDocumented? <==> appDoc.None?
    ensures r.NotDocumented? ==> r.appName == appName
    ensures r.HelpAndExit? <==> appDoc.Some? && (parsedAction.None? || parsedAction.value == "")
    ensures r.HelpAndExit? ==> r.code == 2
    ensures r.Parsed? ==> parsedAction == Some(r.action) && r.action != ""
  {
    if appDoc.None? then NotDocumented(appName)
    else if parsedAction.None? || parsedAction.value == "" then HelpAndExit(2)
    else Parsed(parsedAction.value)
  }

  /** A function object as the `action` decorator sees it: its docstring and the attributes the
      decorator sets on it. */
  class ActionFunction {
    const doc: Option<string>
    var isCliAction: bool
    var actionName: Option<string>
    var requiredArguments: seq<TypedCliArgument.ArgumentProperties>
    var optionals: seq<TypedCliArgument.ArgumentProperties>

    constructor (doc: Option<string>)
      ensures this.doc == doc && !isCliAction && actionName.None?
      ensures requiredArguments == [] && optionals == []
    {
      this.doc := doc;
      isCliAction := false;
      actionName := None;
      requiredArguments := [];
      optionals := [];
    }
  }

  /** `RuntimeError: Action … is not documented`. */
  datatype ActionError = UndocumentedAction(actionName: string)

  /**
   * `action(action_name, *arguments, optional_arguments)(func)`: refuses a function without a
   * docstring and leaves it untouched; otherwise marks it as an action, records the name and
   * both argument lists unchanged, and returns a new wrapper that `functools.wraps` gives the
   * same docstring and attributes.
   */
  method Action(actionName: string, arguments: seq<TypedCliArgument.ArgumentProperties>,
                optionalArguments: seq<TypedCliArgument.ArgumentProperties>, func: ActionFunction)
    returns (r: Result<ActionFunction, ActionError>)
    modifies func
    ensures func.doc.None? ==> r == Err(UndocumentedAction(actionName)) && unchanged(func)
    ensures func.doc.Some? ==>
              && func.isCliAction && func.actionName == Some(actionName)
              && func.requiredArguments == arguments && func.optionals == optionalArguments
              && r.Ok? && fresh(r.value) && r.value.doc == func.doc
              && r.value.isCliAction && r.value.actionName == Some(actionName)
              && r.value.requiredArguments == arguments && r.value.optionals == optionalArguments
  {
    if func.doc.None? {
      return Err(UndocumentedAction(actionName));
    }
    func.isCliAction := true;
    func.actionName := Some(actionName);
    func.requiredArguments := arguments;
    func.optionals := optionalArguments;
    var wrapper := new ActionFunction(func.doc);
    wrapper.isCliAction := func.isCliAction;
    wrapper.actionName := func.actionName;
    wrapper.requiredArguments := func.requiredArguments;
    wrapper.optionals := func.optionals;
    return Ok(wrapper);
  }
}
