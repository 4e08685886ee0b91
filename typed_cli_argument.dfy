/**
 * Typed command-line argument values (`TypedCliArgument` and its `EnvironmentArgumentValue`
 * subclass): converting and validating a raw string, resolving `@env:` and `@file:` references,
 * rendering the value back, and the help and error texts built for an argument.
 *
 * The process environment and the file system are passed in as values; text styling
 * (`Colors`) and default-value formatting (`ArgumentFormatter`) are passed in as functions.
 */
module TypedCliArgument {

  import opened Wrappers

  /** What the source reads from `ArgumentProperties`: the key, the flags, the description
      and, when `argparse_kwargs` has one, the default value (as the text the formatter gets). */
  datatype ArgumentProperties = ArgumentProperties(
    key: string,
    flags: seq<string>,
    description: string,
    defaultValue: Option<string>)

  /** `Colors.CYAN`, `Colors.BRIGHT_BLUE` and `ArgumentFormatter.format_default_value`. */
  datatype Styling = Styling(
    cyan: string -> string,
    brightBlue: string -> string,
    formatDefault: string -> string)

  /**
   * What a subclass fixes at class level: `argument_type` (an `Err` is the converter raising,
   * with its message), `_is_valid` (`bool(value)` unless overridden), `environment_variable_key`,
   * and whether the class is an `EnvironmentArgumentValue`, which reads `@env:` and `@file:`
   * references.
   */
  datatype ArgumentClass<!T> = ArgumentClass(
    argumentType: string -> Result<T, string>,
    isValid: T -> bool,
    environmentVariableKey: Option<string>,
    readsReferences: bool)

  /** The exceptions raised while a value is resolved. */
  datatype ArgumentError =
    | ConversionFailed(reason: string)         // raised by argument_type
    | InvalidValue                             // ValueError: Provided value ... is not valid
    | EnvironmentVariableUndefined(key: string) // ArgumentTypeError
    | FileDoesNotExist(path: string)           // ArgumentTypeError
    | NotAFile(path: string)                   // ArgumentTypeError

  datatype FsEntry = RegularFile(content: string) | Directory

  /** Paths that exist, and what is at each; a path is its text. */
  type FileSystem = map<string, FsEntry>

  /** `os.environ`. */
  type Environment = map<string, string>

  /** The default `argument_type = str`, with `_is_valid` being `bool(value)`: non-empty. */
  function StrArgumentClass(key: Option<string>, readsReferences: bool): ArgumentClass<string>
  {
    ArgumentClass(s => Ok(s), s => s != "", key, readsReferences)
  }

  /** `s[n:]`, which is empty when `s` is shorter than `n`. */
  function Drop(s: string, n: nat): string
  {
    if |s| <= n then [] else s[n..]
  }

  /** `_apply_type`: converts, then returns the converted value unchanged unless `_is_valid`
      calls it invalid. */
  function ApplyType<T>(cls: ArgumentClass<T>, nonTypedValue: string): (r: Result<T, ArgumentError>)
    ensures r.Ok? <==> cls.argumentType(nonTypedValue).Ok? && cls.isValid(cls.argumentType(nonTypedValue).value)
    ensures r.Ok? ==> r.value == cls.argumentType(nonTypedValue).value && cls.isValid(r.value)
    ensures cls.argumentType(nonTypedValue).Err? ==> r.Err? && r.error == ConversionFailed(cls.argumentType(nonTypedValue).error)
    ensures cls.argumentType(nonTypedValue).Ok? && !cls.isValid(cls.argumentType(nonTypedValue).value) ==> r.Err? && r.error == InvalidValue
  {
    match cls.argumentType(nonTypedValue)
    case Err(reason) => Err(ConversionFailed(reason))
    case Ok(value) => if cls.isValid(value) then Ok(value) else Err(InvalidValue)
  }

  /** `_get_from_environment`: the key is what follows the 5-character `@env:`. */
  function GetFromEnvironment<T>(cls: ArgumentClass<T>, rawValue: string, env: Environment): (r: Result<T, ArgumentError>)
    ensures Drop(rawValue, 5) !in env ==> r == Err(EnvironmentVariableUndefined(Drop(rawValue, 5)))
    ensures r.Ok? ==> Drop(rawValue, 5) in env && cls.isValid(r.value)
    ensures r.Err? && !r.error.EnvironmentVariableUndefined? ==> Drop(rawValue, 5) in env
  {
    var key := Drop(rawValue, 5);
    if key in env then ApplyType(cls, env[key]) else Err(EnvironmentVariableUndefined(key))
  }

  /** `_get_from_file`: the path is what follows the 6-character `@file:`. */
  function GetFromFile<T>(cls: ArgumentClass<T>, rawValue: string, fs: FileSystem): (r: Result<T, ArgumentError>)
    ensures Drop(rawValue, 6) !in fs ==> r == Err(FileDoesNotExist(Drop(rawValue, 6)))
    ensures Drop(rawValue, 6) in fs && fs[Drop(rawValue, 6)].Directory? ==> r == Err(NotAFile(Drop(rawValue, 6)))
    ensures r.Ok? ==> Drop(rawValue, 6) in fs && fs[Drop(rawValue, 6)].RegularFile? && cls.isValid(r.value)
  {
    var path := Drop(rawValue, 6);
    if path !in fs then Err(FileDoesNotExist(path))
    else match fs[path]
      case Directory => Err(NotAFile(path))
      case RegularFile(content) => ApplyType(cls, content)
  }

  /** `_parse_value`: `@env:` first, then `@file:`, else the raw value itself; only an
      `EnvironmentArgumentValue` looks at the prefixes. */
  function ParseValue<T>(cls: ArgumentClass<T>, rawValue: string, env: Environment, fs: FileSystem): (r: Result<T, ArgumentError>)
    ensures r.Ok? ==> cls.isValid(r.value)
    ensures !cls.readsReferences ==> r == ApplyType(cls, rawValue)
  {
    if cls.readsReferences && "@env:" <= rawValue then GetFromEnvironment(cls, rawValue, env)
    else if cls.readsReferences && "@file:" <= rawValue then GetFromFile(cls, rawValue, fs)
    else ApplyType(cls, rawValue)
  }

  /** An instance: the raw value, the value resolved from it once at construction, and whether
      it was built from the environment-variable default. */
  datatype TypedArgument<!T> = TypedArgument(
    cls: ArgumentClass<T>,
    rawValue: string,
    value: T,
    fromEnvironment: bool)

  /** The constructor: raises whatever resolving the raw value raises. */
  function New<T>(cls: ArgumentClass<T>, rawValue: string, env: Environment, fs: FileSystem, fromEnvironment: bool := false)
    : (r: Result<TypedArgument<T>, ArgumentError>)
    ensures r.Ok? <==> ParseValue(cls, rawValue, env, fs).Ok?
    ensures r.Err? ==> r.error == ParseValue(cls, rawValue, env, fs).error
    ensures r.Ok? ==> && r.value.cls == cls
                      && r.value.rawValue == rawValue && r.value.fromEnvironment == fromEnvironment
                      && r.value.value == ParseValue(cls, rawValue, env, fs).value
                      && cls.isValid(r.value.value)
  {
    match ParseValue(cls, rawValue, env, fs)
    case Err(e) => Err(e)
    case Ok(value) => Ok(TypedArgument(cls, rawValue, value, fromEnvironment))
  }

  /** `from_environment_variable_default`: nothing without a configured key or when the key is
      unset; otherwise an instance built from the variable's value, flagged as from-environment. */
  function FromEnvironmentVariableDefault<T>(cls: ArgumentClass<T>, env: Environment, fs: FileSystem)
    : (r: Result<Option<TypedArgument<T>>, ArgumentError>)
    ensures cls.environmentVariableKey.None? ==> r.Ok? && r.value.None?
    ensures cls.environmentVariableKey.Some? && cls.environmentVariableKey.value !in env ==> r.Ok? && r.value.None?
    ensures r.Ok? && r.value.Some? ==>
              && cls.environmentVariableKey.Some? && cls.environmentVariableKey.value in env
              && r.value.value.fromEnvironment
              && r.value.value.rawValue == env[cls.environmentVariableKey.value]
    ensures r.Err? ==> cls.environmentVariableKey.Some? && cls.environmentVariableKey.value in env
    ensures cls.environmentVariableKey.Some? && cls.environmentVariableKey.value in env ==>
              var resolved := ParseValue(cls, env[cls.environmentVariableKey.value], env, fs);
              && (r.Ok? <==> resolved.Ok?)
              && (r.Ok? ==> r.value.Some? && r.value.value.fromEnvironment && r.value.value.value == resolved.value)
              && (r.Err? ==> r.error == resolved.error)
  {
    match cls.environmentVariableKey
    case None => Ok(None)
    case Some(key) =>
      if key !in env then Ok(None)
      else match New(cls, env[key], env, fs, fromEnvironment := true)
        case Err(e) => Err(e)
        case Ok(instance) => Ok(Some(instance))
  }

  /** An f-string renders a missing key as `None`. */
  function KeyText(key: Option<string>): string
  {
    match key
    case None => "None"
    case Some(k) => k
  }

  /** `__str__`: an `EnvironmentArgumentValue` is always its raw value; the base class shows
      `@env:<KEY>` for a value taken from the environment default. */
  function Text<T>(a: TypedArgument<T>): (r: string)
    ensures a.cls.readsReferences || !a.fromEnvironment ==> r == a.rawValue
    ensures !a.cls.readsReferences && a.fromEnvironment ==> "@env:" <= r
  {
    if !a.cls.readsReferences && a.fromEnvironment then "@env:" + KeyText(a.cls.environmentVariableKey)
    else a.rawValue
  }

  // ---------------------------------------------------------------------------------------
  // Help and error texts.

  /** `s.rstrip('.')`. */
  function RStripDots(s: string): (r: string)
    ensures |r| <= |s| && r == s[..|r|]
    ensures r == [] || r[|r| - 1] != '.'
    ensures forall i :: |r| <= i < |s| ==> s[i] == '.'
    decreases |s|
  {
    if s != [] && s[|s| - 1] == '.' then RStripDots(s[..|s| - 1]) else s
  }

  /** `str.upper()` on ASCII letters. */
  function Upper(s: string): (r: string)
    ensures |r| == |s|
  {
    if s == [] then []
    else [if 'a' <= s[0] <= 'z' then (s[0] as int - 32) as char else s[0]] + Upper(s[1..])
  }

  /** `sep.join(parts)`. */
  function Join(sep: string, parts: seq<string>): string
  {
    if parts == [] then []
    else if |parts| == 1 then parts[0]
    else parts[0] + sep + Join(sep, parts[1..])
  }

  function EnvironmentSentence(key: string, style: Styling): string
  {
    "\nIf not given, the value will be checked from environment variable " + style.cyan(key) + "."
  }

  /** `get_description`: the description without its trailing periods, exactly one period, and
      the environment-variable sentence when a key is configured. */
  function GetDescription<T>(cls: ArgumentClass<T>, properties: ArgumentProperties, style: Styling): (r: string)
    ensures var d := RStripDots(properties.description);
            && d + "." <= r
            && properties.description == d + properties.description[|d|..]
            && (forall i :: |d| <= i < |properties.description| ==> properties.description[i] == '.')
            && (d == [] || d[|d| - 1] != '.')
    ensures |r| > |RStripDots(properties.description)| + 1 <==> cls.environmentVariableKey.Some?
    ensures cls.environmentVariableKey.None? ==> r == RStripDots(properties.description) + "."
    ensures cls.environmentVariableKey.Some? ==>
              r == RStripDots(properties.description) + "." + EnvironmentSentence(cls.environmentVariableKey.value, style)
  {
    var description := RStripDots(properties.description) + ".";
    match cls.environmentVariableKey
    case None => description
    case Some(key) => description + EnvironmentSentence(key, style)
  }

  function ReferenceUsage(properties: ArgumentProperties, style: Styling): string
  {
    "Alternatively to entering " + style.cyan(Upper(properties.key)) + " in plaintext, "
    + "it may also be specified using a \"@env:\" prefix followed by a environment variable name, "
    + "or \"@file:\" prefix followed by a path to the file containing the value."
  }

  const ReferenceExample: string :=
    "Example: \"@env:<variable>\" uses the value in the environment variable named \"<variable>\", "
    + "and \"@file:<file_path>\" uses the value from file at \"<file_path>\"."

  /** `b` is what ends `a + b`. */
  lemma EndsWith(a: string, b: string)
    ensures (a + b)[|a + b| - |b|..] == b
  {
  }

  /** `EnvironmentArgumentValue.get_description`: the base description, the usage and example
      lines, and the formatted default when the properties have one, joined by newlines. */
  function GetReferenceDescription<T>(cls: ArgumentClass<T>, properties: ArgumentProperties, style: Styling): (r: string)
    ensures GetDescription(cls, properties, style) + "\n" <= r
    ensures properties.defaultValue.Some? ==>
              var d := "\n" + style.formatDefault(properties.defaultValue.value);
              |d| <= |r| && r[|r| - |d|..] == d
  {
    var head := GetDescription(cls, properties, style) + "\n";
    var lines := ReferenceUsage(properties, style) + "\n" + ReferenceExample;
    match properties.defaultValue
    case None => head + lines
    case Some(value) =>
      var d := "\n" + style.formatDefault(value);
      EndsWith(head + lines, d);
      head + lines + d
  }

  /** The environment clause appears only for a non-empty key: the check is on truthiness. */
  predicate HasEnvironmentKey<T>(cls: ArgumentClass<T>)
  {
    cls.environmentVariableKey.Some? && cls.environmentVariableKey.value != ""
  }

  function MissingValuePrefix(properties: ArgumentProperties, style: Styling): string
  {
    "Missing value " + style.cyan(Upper(properties.key)) + ". Provide it"
  }

  function FlagsClause(properties: ArgumentProperties, style: Styling): string
  {
    " with argument " + style.brightBlue(Join(",", properties.flags))
  }

  function EnvironmentClause(key: string, style: Styling): string
  {
    ", or set environment variable " + style.cyan(key)
  }

  /** `get_missing_value_error_message`. */
  function GetMissingValueErrorMessage<T>(cls: ArgumentClass<T>, properties: ArgumentProperties, style: Styling): (r: string)
    ensures MissingValuePrefix(properties, style) <= r
    ensures properties.flags != [] ==> MissingValuePrefix(properties, style) + FlagsClause(properties, style) <= r
    ensures HasEnvironmentKey(cls) ==>
              var clause := EnvironmentClause(cls.environmentVariableKey.value, style);
              |clause| <= |r| && r[|r| - |clause|..] == clause
    ensures properties.flags == [] && !HasEnvironmentKey(cls) ==> r == MissingValuePrefix(properties, style)
    ensures properties.flags != [] && !HasEnvironmentKey(cls) ==>
              r == MissingValuePrefix(properties, style) + FlagsClause(properties, style)
    ensures properties.flags == [] && HasEnvironmentKey(cls) ==>
              r == MissingValuePrefix(properties, style) + EnvironmentClause(cls.environmentVariableKey.value, style)
    ensures properties.flags != [] && HasEnvironmentKey(cls) ==>
              r == MissingValuePrefix(properties, style) + FlagsClause(properties, style)
                   + EnvironmentClause(cls.environmentVariableKey.value, style)
  {
    var message := MissingValuePrefix(properties, style);
    var message := if properties.flags != [] then message + FlagsClause(properties, style) else message;
    if HasEnvironmentKey(cls) then message + EnvironmentClause(cls.environmentVariableKey.value, style) else message
  }

  // ---------------------------------------------------------------------------------------
  // Properties of resolution.

  /** A value is never accepted when `_is_valid` rejects it; for the default `str` type that
      means the empty string is refused and every other string is taken as it is. */
  lemma StrValues(s: string)
    ensures ApplyType(StrArgumentClass(None, false), s) == if s == "" then Err(InvalidValue) else Ok(s)
  {
  }

  /** `@env:KEY` resolves to the typed value of variable KEY, and to an error naming KEY when
      the variable is not defined. */
  lemma {:induction false} EnvironmentReference<T>(cls: ArgumentClass<T>, key: string, env: Environment, fs: FileSystem)
    requires cls.readsReferences
    ensures ParseValue(cls, "@env:" + key, env, fs)
         == if key in env then ApplyType(cls, env[key]) else Err(EnvironmentVariableUndefined(key))
  {
    var raw := "@env:" + key;
    assert "@env:" <= raw;
    assert |raw| > 5 ==> raw[5..] == key;
    assert Drop(raw, 5) == key;
  }

  /** `@file:PATH` is an error for a missing path, a different error for a path that is not a
      file, and otherwise the typed value of the file's content. */
  lemma {:induction false} FileReference<T>(cls: ArgumentClass<T>, path: string, env: Environment, fs: FileSystem)
    requires cls.readsReferences
    ensures ParseValue(cls, "@file:" + path, env, fs)
         == if path !in fs then Err(FileDoesNotExist(path))
            else if fs[path].Directory? then Err(NotAFile(path))
            else ApplyType(cls, fs[path].content)
  {
    var raw := "@file:" + path;
    assert !("@env:" <= raw) by { assert raw[1] != "@env:"[1]; }
    assert "@file:" <= raw;
    assert Drop(raw, 6) == path;
  }

  /** A raw value with neither prefix is converted as it is. */
  lemma PlainValue<T>(cls: ArgumentClass<T>, raw: string, env: Environment, fs: FileSystem)
    requires !("@env:" <= raw) && !("@file:" <= raw)
    ensures ParseValue(cls, raw, env, fs) == ApplyType(cls, raw)
  {
  }

  /** What an instance shows is what it was given: read again under the same environment and
      files, an `EnvironmentArgumentValue`'s text, or any instance not taken from the
      environment default, resolves to the same value. */
  lemma TextResolvesAgain<T>(cls: ArgumentClass<T>, raw: string, fromEnvironment: bool, env: Environment, fs: FileSystem)
    requires New(cls, raw, env, fs, fromEnvironment).Ok?
    requires cls.readsReferences || !fromEnvironment
    ensures var a := New(cls, raw, env, fs, fromEnvironment).value;
            ParseValue(cls, Text(a), env, fs) == Ok(a.value)
  {
  }

  /** An instance built from the environment default shows `@env:<KEY>`, and that text, read
      as a reference, resolves to the same value. */
  lemma {:induction false} EnvironmentDefaultText<T>(cls: ArgumentClass<T>, env: Environment, fs: FileSystem)
    requires !cls.readsReferences
    requires FromEnvironmentVariableDefault(cls, env, fs).Ok?
    requires FromEnvironmentVariableDefault(cls, env, fs).value.Some?
    ensures var a := FromEnvironmentVariableDefault(cls, env, fs).value.value;
            var reader := ArgumentClass(cls.argumentType, cls.isValid, cls.environmentVariableKey, true);
            && Text(a) == "@env:" + cls.environmentVariableKey.value
            && ParseValue(reader, Text(a), env, fs) == Ok(a.value)
  {
    var key := cls.environmentVariableKey.value;
    var reader := ArgumentClass(cls.argumentType, cls.isValid, cls.environmentVariableKey, true);
    EnvironmentReference(reader, key, env, fs);
  }
}
