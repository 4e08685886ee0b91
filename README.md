# Codemagic CLI tools: a verified model of the core

Codemagic CLI tools are command-line utilities for iOS code signing and for App Store Connect.
This project models in Dafny the deterministic core underneath their I/O:

- **Command display and exit codes** (`CliApp`):
  - how a command that is about to run is shown, with every argument either masked as
    `********` (by exact value, regex prefix or predicate patterns) or shell-quoted;
  - how an application exception is rendered and turned into an exit code;
  - the exit code for a missing action;
  - what the `action` decorator records on a function.
- **Typed argument values** (`TypedCliArgument`):
  - converting and validating a raw string;
  - resolving `@env:` and `@file:` references;
  - how a value renders back;
  - the help and missing-value texts.
- **App Store Connect requests** (`Profiles`, `BundleIds`, `CertificateOperations`, over the
  shared shapes in `AppStoreConnect`):
  - each operation is modelled by the request it issues or the page request it hands to the
    paginator: verb, URL, query parameters, JSON:API attributes and relationships;
  - a relationship URL is either built from a bare id or read from a resource's embedded links.
- **Code signing** (`CodeSigning`):
  - choosing each profile's certificate common name (the most common, with ties going to the
    first met);
  - serialising the profiles;
  - the signing-script command line;
  - the report fallback and the return-code check;
  - the existing-file check on `--profiles`.

Two supporting modules:

- `ShellQuote` defines `shlex.quote`. It also defines a reader for the quoting forms that
  `shlex.quote` emits, in the manner of POSIX `shlex.split`. The reader gives the displayed
  command a partner property: the command splits back into exactly the words that were displayed.
- `Decimal` and `PyBytes` model `str()` of integers and of `bytes`.

Where an input comes from outside the core, it is a parameter:

- the HTTP client's paginator is a function from a page request to the items it yields;
- the process environment and the file system are maps;
- `Colors`, `ArgumentFormatter`, `Ordering.as_param`, `_get_attribute_data` and
  `bytes.decode()` are functions;
- the signing script's return code and its report are values.

## Model

| member | source | states |
|---|---|---|
| CliApp.PatternMatches | src/codemagic/cli/cli_app.py:141-148 | Examining a pattern fails (ValueError) exactly for a pattern of an unsupported kind. How each supported kind matches (equality, a regex prefix match of `str(arg)`, a callable's result) is fixed by the definition, not by this contract. |
| CliApp.ShouldObfuscate | src/codemagic/cli/cli_app.py:139-151 | Whenever it answers, the answer is exactly "some pattern matches". With only supported patterns it always answers. With no match and an unsupported pattern, the call raises. |
| CliApp.RenderArgs | src/codemagic/cli/cli_app.py:153-156 | There is one rendering per argument, in order: the mask for an obfuscated argument, `shlex.quote(str(arg))` otherwise. The call succeeds exactly when every argument's decision succeeds. |
| CliApp.DisplayCommand | src/codemagic/cli/cli_app.py:153-156 | The displayed command exists exactly when every argument's decision succeeds. |
| CliApp.DisplayReadsBack | src/codemagic/cli/cli_app.py:153-156 | The space-joined display splits back into one word per argument, in order: the mask for a masked argument and the argument's own text for every other. |
| CliApp.MaskedIffMatched | src/codemagic/cli/cli_app.py:137-154 | With supported patterns, an argument is shown as the mask if and only if some pattern (call or default) matches it. An unmatched argument is never the mask. |
| CliApp.UnsupportedPatternRaises | src/codemagic/cli/cli_app.py:147-148 | An unsupported pattern makes the display raise whenever an argument matches no pattern. |
| CliApp.PatternsUnion | src/codemagic/cli/cli_app.py:137 | An argument matches two pattern lists put together iff it matches one of them. The union is supported iff both lists are. |
| CliApp.CliApp.AllPatterns | src/codemagic/cli/cli_app.py:137 | An argument matches the combined patterns iff it matches one of the call's patterns or one of the defaults. The combination is supported iff both parts are. |
| CliApp.CliApp.constructor | src/codemagic/cli/cli_app.py:37-41 | The new app has the given dry-run flag, no default patterns, and the 8-asterisk mask. |
| CliApp.CliApp.ObfuscateCommand | src/codemagic/cli/cli_app.py:134-156 | Uses the call's patterns (none when absent) and then the defaults. It succeeds iff every argument's decision does. With the mask, the result splits back into the shown words. |
| CliApp.CliApp.Execute | src/codemagic/cli/cli_app.py:168-176 | The process carries the arguments, their obfuscated form, the app's dry-run flag and the show-output flag. It exists exactly when obfuscation succeeds. |
| CliApp.ExceptionText | src/codemagic/cli/cli_app.py:28-31 | Without a process the text is the bare message. Otherwise it is `Running <safe form> failed with exit code `, then the return code, then `: <message>`. The middle parses back to exactly that code, and only `str(returncode)` parses so (`Decimal.ParsedIsWritten`). |
| CliApp.HandleCliException | src/codemagic/cli/cli_app.py:49-54 | The message and a newline go to stderr. The exit code is the process's return code when there is one, and 1 otherwise. |
| CliApp.ExitCodeZeroOnlyFromProcess | src/codemagic/cli/cli_app.py:49-54 | Handling an exception exits 0 if and only if an attached process returned 0. |
| CliApp.SetupCliOptions | src/codemagic/cli/cli_app.py:107-132 | An undocumented app is refused. A missing or empty action prints help and exits with 2, and only then. Otherwise the parsed action is selected. |
| CliApp.Action | src/codemagic/cli/cli_app.py:179-201 | An undocumented function raises and is left unchanged. Otherwise the function is marked as an action with its name and both argument lists as given. The returned fresh wrapper carries the same docstring and attributes. |
| ShellQuote.Quote | src/codemagic/cli/cli_app.py:154 | `shlex.quote` leaves its input unchanged exactly when it is non-empty and all safe characters. Otherwise the result begins and ends with a single quote. |
| ShellQuote.QuoteReadsBack | src/codemagic/cli/cli_app.py:154 | Whatever `shlex.quote` returns is read, up to the next whitespace, as exactly one word, the original string, spanning all of the quoted text. |
| ShellQuote.QuoteReadsAs | src/codemagic/cli/cli_app.py:154 | A quoted argument is a complete word that reads back as the original string, whatever whitespace follows it. |
| ShellQuote.PlainReadsAs | src/codemagic/cli/cli_app.py:40 | A non-empty run of plain characters, such as the mask, is a complete word that reads back as itself. |
| ShellQuote.SplitJoin | src/codemagic/cli/cli_app.py:156 | Complete words joined by single spaces split back into exactly their texts, in order. |
| ShellQuote.QuoteStartsWord | src/codemagic/cli/cli_app.py:154 | A quoted argument is non-empty and does not begin with whitespace. |
| ShellQuote.QuoteIsNeverStars | src/codemagic/cli/cli_app.py:153-154 | No quoted string is a run of asterisks, so a displayed mask always comes from obfuscation. |
| PyBytes.Repr | src/codemagic/cli/cli_app.py:142 | `str(b)` of bytes starts with `b` and a quote and ends with the same quote. |
| Decimal.IntToString | src/codemagic/cli/cli_app.py:31 | `str(i)` is non-empty and starts with `-` iff `i` is negative. The digits are canonical: no leading zero, and never `-0`. |
| Decimal.ParsedIsWritten | src/codemagic/cli/cli_app.py:31 | Any text the reader accepts is exactly the rendering of the integer it reads as. |
| Decimal.IntRoundTrip | src/codemagic/cli/cli_app.py:31 | The rendered return code parses back to exactly that integer, so distinct codes render differently. |
| TypedCliArgument.ApplyType | src/codemagic/cli/argument/typed_cli_argument.py:46-51 | The result is Ok if and only if conversion succeeds and `_is_valid` accepts the converted value, and then it is that value unchanged. A conversion failure raises its own error, and a rejected value raises ValueError. |
| TypedCliArgument.ParseValue | src/codemagic/cli/argument/typed_cli_argument.py:110-116 | A resolved value always satisfies `_is_valid`. A class that does not read references converts the raw value itself. |
| TypedCliArgument.New | src/codemagic/cli/argument/typed_cli_argument.py:29-32 | Construction succeeds exactly when resolving the raw value does, and fails with that resolution's error. The instance keeps the class, the raw value and the from-environment flag (false unless given). Its value is the resolved value, which is valid. |
| TypedCliArgument.FromEnvironmentVariableDefault | src/codemagic/cli/argument/typed_cli_argument.py:34-40 | Nothing without a key or when the key is unset. When the variable is set, an instance exists iff its value resolves. The instance is flagged as from-environment, its raw value is the variable's value, and its value is the resolved one. Otherwise the error is the resolution's error. |
| TypedCliArgument.Text | src/codemagic/cli/argument/typed_cli_argument.py:77-80 | The raw value, except that a base-class instance from the environment default shows an `@env:` text. An `EnvironmentArgumentValue` always shows its raw value (lines 133-134). |
| TypedCliArgument.RStripDots | src/codemagic/cli/argument/typed_cli_argument.py:59 | The result is a prefix of the input, does not end in `.`, and only dots were removed. |
| TypedCliArgument.GetDescription | src/codemagic/cli/argument/typed_cli_argument.py:57-63 | The description with its trailing periods removed, then exactly one period. Without an environment key that is the whole text. With a key, the environment sentence naming the styled key follows. |
| TypedCliArgument.GetReferenceDescription | src/codemagic/cli/argument/typed_cli_argument.py:118-131 | Starts with the base description and a newline, and ends with a newline and the formatted default when the properties have one. |
| TypedCliArgument.GetMissingValueErrorMessage | src/codemagic/cli/argument/typed_cli_argument.py:65-75 | Always starts `Missing value <KEY>. Provide it`. The flags clause appears iff flags are given, then the environment clause iff the key is non-empty. The message is given exactly in all four combinations of flags and key. |
| TypedCliArgument.StrValues | src/codemagic/cli/argument/typed_cli_argument.py:42-51 | For the default `str` type, the empty string is rejected and every other string is taken as it is. |
| TypedCliArgument.GetFromEnvironment | src/codemagic/cli/argument/typed_cli_argument.py:94-99 | An unset variable is the error naming its key. A value comes only from a set variable and is valid. Any other error also means the variable is set. |
| TypedCliArgument.GetFromFile | src/codemagic/cli/argument/typed_cli_argument.py:101-108 | A missing path is one error and a directory another. A value comes only from a regular file and is valid. |
| TypedCliArgument.EnvironmentReference | src/codemagic/cli/argument/typed_cli_argument.py:94-99 | `@env:KEY` resolves to the typed value of variable KEY. An undefined KEY is an error naming KEY. |
| TypedCliArgument.FileReference | src/codemagic/cli/argument/typed_cli_argument.py:101-108 | `@file:PATH` is one error for a missing path and another for a path that is not a file. Otherwise it is the typed value of the file's content. |
| TypedCliArgument.PlainValue | src/codemagic/cli/argument/typed_cli_argument.py:110-116 | A raw value with neither prefix is converted as it is. |
| TypedCliArgument.TextResolvesAgain | src/codemagic/cli/argument/typed_cli_argument.py:133-134 | The text an instance shows resolves again to the same value, for any instance not taken from the environment default. |
| TypedCliArgument.EnvironmentDefaultText | src/codemagic/cli/argument/typed_cli_argument.py:77-80 | An instance from the environment default shows `@env:<KEY>`, and that text, read as a reference, resolves to the same value. |
| AppStoreConnect.WrapAll | src/codemagic_cli_tools/apple/app_store_connect/provisioning/profiles.py:89 | There is one wrapper of the given kind per item, holding that item, in order. |
| AppStoreConnect.UnwrapWrapAll | src/codemagic_cli_tools/apple/app_store_connect/provisioning/profiles.py:89 | Unwrapping the wrapped items gives back the paginated items. |
| AppStoreConnect.Listing | src/codemagic_cli_tools/apple/app_store_connect/provisioning/profiles.py:88-89 | A listing has exactly one wrapped resource per paginated item, in order. |
| AppStoreConnect.ResourceUrlSegments | src/codemagic_cli_tools/apple/app_store_connect/provisioning/bundle_ids.py:64 | A resource URL built from slash-free segments splits back, under the API base, into exactly those segments. |
| AppStoreConnect.ResourceUrlSegmentsOf | src/codemagic_cli_tools/apple/app_store_connect/provisioning/bundle_ids.py:64 | `{collection}/{id}` splits back into those two segments when neither holds a slash. |
| AppStoreConnect.RelationshipLink | src/codemagic_cli_tools/apple/app_store_connect/provisioning/bundle_ids.py:87 | The link is found iff the path `relationships.<name>.links.<kind>` exists and ends in a string, and then it is that string. A failure names one of the four steps of the path. |
| AppStoreConnect.EndpointUrlSegments | src/codemagic_cli_tools/apple/app_store_connect/provisioning/bundle_ids.py:89 | A relationship endpoint URL splits back into its segments when none holds a slash. |
| AppStoreConnect.LinkRead | src/codemagic_cli_tools/apple/app_store_connect/provisioning/bundle_ids.py:87 | Reading `relationships.<name>.links.<kind>` finds the URL the resource embeds there. |
| AppStoreConnect.RelationshipUrl | src/codemagic_cli_tools/apple/app_store_connect/provisioning/bundle_ids.py:86-89 | A resource object yields its embedded link, with a missing attribute as an error. A bare id yields the conventional endpoint URL. |
| AppStoreConnect.BothRoutesAgree | src/codemagic_cli_tools/apple/app_store_connect/provisioning/bundle_ids.py:86-89 | A resource that embeds the conventional URL gives the same URL as its bare id. |
| AppStoreConnect.AttributeDataList | src/codemagic_cli_tools/apple/app_store_connect/provisioning/profiles.py:50 | There is one linkage per reference, in order. |
| AppStoreConnect.ListAt | src/codemagic_cli_tools/apple/app_store_connect/provisioning/bundle_ids.py:90 | A URL gives a listing of the paginated items at it, without query parameters and at the given page size. A missing link gives the error. |
| AppStoreConnect.GetAt | src/codemagic_cli_tools/apple/app_store_connect/provisioning/profiles.py:107 | A URL gives a body-less GET of it. A missing link gives the error. |
| Profiles.Create | src/codemagic_cli_tools/apple/app_store_connect/provisioning/profiles.py:30-59 | POST `/profiles` with exactly the `name` and `profileType` attributes and exactly the three relationships. The certificate and device data lists match the inputs in length and order, and a missing device list is empty. |
| Profiles.Delete | src/codemagic_cli_tools/apple/app_store_connect/provisioning/profiles.py:61-66 | A body-less DELETE whose URL splits into `profiles/{id}`. |
| Profiles.Read | src/codemagic_cli_tools/apple/app_store_connect/provisioning/profiles.py:91-97 | A body-less GET of `profiles/{id}`, the URL `delete` uses. |
| Profiles.List | src/codemagic_cli_tools/apple/app_store_connect/provisioning/profiles.py:68-89 | `sort` always. Each of the four filters is present iff its argument is given, with its value, and there are no other keys. One `Profile` per paginated item, in order. |
| Profiles.ProfileRelationshipUrl | src/codemagic_cli_tools/apple/app_store_connect/provisioning/profiles.py:103-158 | Corrected selection. A bare id gives `profiles/{id}/<relationship>` or `profiles/{id}/relationships/<relationship>`. A `Profile` gives the link it embeds for that same relationship. |
| Profiles.ProfileRelationshipUrlAsWritten | src/codemagic_cli_tools/apple/app_store_connect/provisioning/profiles.py:121-159 | As written. It agrees with the corrected selection for bare ids, but for a `Profile` the certificate and device endpoints read the `profiles` relationship. |
| Profiles.AsWrittenMissesProfileLinks | src/codemagic_cli_tools/apple/app_store_connect/provisioning/profiles.py:126 | On a profile that embeds both links of its certificates and devices, the as-written selection fails on `profiles` where the corrected one finds the link. |
| Profiles.ReadBundleId | src/codemagic_cli_tools/apple/app_store_connect/provisioning/profiles.py:99-108 | A GET of `profiles/{id}/bundleId` for an id, or of the embedded related link for a `Profile`. |
| Profiles.GetBundleIdResourceId | src/codemagic_cli_tools/apple/app_store_connect/provisioning/profiles.py:110-119 | A GET of `profiles/{id}/relationships/bundleId` for an id, or of the embedded self link for a `Profile`. |
| Profiles.ListCertificates | src/codemagic_cli_tools/apple/app_store_connect/provisioning/profiles.py:121-129 | Lists `profiles/{id}/certificates` for an id, or the `certificates` related link of a `Profile` (corrected), as one `Certificate` per item. |
| Profiles.ListCertificateIds | src/codemagic_cli_tools/apple/app_store_connect/provisioning/profiles.py:131-139 | Lists `profiles/{id}/relationships/certificates`, or the `certificates` self link (corrected), as one linkage per item. |
| Profiles.ListDevices | src/codemagic_cli_tools/apple/app_store_connect/provisioning/profiles.py:141-149 | Lists `profiles/{id}/devices`, or the `devices` related link (corrected), as one `Device` per item. |
| Profiles.ListDeviceIds | src/codemagic_cli_tools/apple/app_store_connect/provisioning/profiles.py:151-159 | Lists `profiles/{id}/relationships/devices`, or the `devices` self link (corrected), as one linkage per item. |
| BundleIds.Register | src/codemagic_cli_tools/apple/app_store_connect/provisioning/bundle_ids.py:28-47 | POST `/bundleIds` with `name`, `identifier` and `platform`, plus `seedId` exactly when a non-empty seed id is given. |
| BundleIds.BundleIdUrl | src/codemagic_cli_tools/apple/app_store_connect/provisioning/bundle_ids.py:56 | The URL splits back into `bundleIds/{id}` when the id holds no slash. |
| BundleIds.Modify | src/codemagic_cli_tools/apple/app_store_connect/provisioning/bundle_ids.py:49-57 | A PATCH of `/bundleIds/{id}` whose update payload carries that id and only the new name. |
| BundleIds.Delete | src/codemagic_cli_tools/apple/app_store_connect/provisioning/bundle_ids.py:59-64 | A body-less DELETE whose URL splits into `bundleIds/{id}`. |
| BundleIds.Read | src/codemagic_cli_tools/apple/app_store_connect/provisioning/bundle_ids.py:74-80 | A body-less GET of `bundleIds/{id}`, the same URL `delete` and `modify` use. |
| BundleIds.List | src/codemagic_cli_tools/apple/app_store_connect/provisioning/bundle_ids.py:66-72 | `sort` is the only parameter. One `BundleId` per paginated item, in order. |
| BundleIds.ListProfileIds | src/codemagic_cli_tools/apple/app_store_connect/provisioning/bundle_ids.py:82-90 | `bundleIds/{id}/relationships/profiles`, or the embedded `profiles` self link, at the default page size. |
| BundleIds.ListProfiles | src/codemagic_cli_tools/apple/app_store_connect/provisioning/bundle_ids.py:92-100 | `bundleIds/{id}/profiles`, or the embedded `profiles` related link, at the default page size. |
| BundleIds.ListCapabilityIds | src/codemagic_cli_tools/apple/app_store_connect/provisioning/bundle_ids.py:102-110 | `bundleIds/{id}/relationships/bundleIdCapabilities`, or the embedded self link, unpaged. |
| BundleIds.ListCapabilities | src/codemagic_cli_tools/apple/app_store_connect/provisioning/bundle_ids.py:112-120 | `bundleIds/{id}/bundleIdCapabilities`, or the embedded related link, unpaged. |
| CertificateOperations.CsrContent | src/codemagic_cli_tools/apple/app_store_connect_operations/certificate_operations.py:31-32 | A text CSR is used unchanged. A bytes CSR is decoded, and a decoding failure is the error. |
| CertificateOperations.Create | src/codemagic_cli_tools/apple/app_store_connect_operations/certificate_operations.py:27-41 | POST `/certificates` with exactly `certificateType` (the type's value) and `csrContent`. It fails exactly when decoding does. |
| CertificateOperations.List | src/codemagic_cli_tools/apple/app_store_connect_operations/certificate_operations.py:43-58 | `sort` always, by display name ascending by default. Each filter is present iff given, and there are no other keys. One `Certificate` per item, in order. |
| CertificateOperations.ResourceIdOf | src/codemagic_cli_tools/apple/app_store_connect_operations/certificate_operations.py:64-67 | The linkage's id for a `LinkedResourceData`, the value itself otherwise. |
| CertificateOperations.CertificateUrl | src/codemagic_cli_tools/apple/app_store_connect_operations/certificate_operations.py:68 | The URL splits back into `certificates/{id}` for the id meant, when it holds no slash. |
| CertificateOperations.Read | src/codemagic_cli_tools/apple/app_store_connect_operations/certificate_operations.py:60-69 | A body-less GET whose URL splits into `certificates/{id}`. |
| CertificateOperations.Revoke | src/codemagic_cli_tools/apple/app_store_connect_operations/certificate_operations.py:71-79 | A body-less DELETE whose URL splits into `certificates/{id}`. |
| CertificateOperations.LinkedAndBareIdAgree | src/codemagic_cli_tools/apple/app_store_connect_operations/certificate_operations.py:60-79 | A linkage and its bare id are read and revoked at the same URL. |
| CodeSigning.ExistingFile | src/codemagic_cli_tools/tools/code_signing.py:19-25 | The path is accepted iff it exists and is a regular file. A missing path and a non-file path give distinct errors. |
| CodeSigning.Tally | src/codemagic_cli_tools/tools/code_signing.py:102 | The `Counter`: every name with its count, each once, in first-met order. |
| CodeSigning.FirstOfHighestCount | src/codemagic_cli_tools/tools/code_signing.py:103 | The first item of highest count: no later count is higher and every earlier count is lower. |
| CodeSigning.MostCommonName | src/codemagic_cli_tools/tools/code_signing.py:102-104 | `''` for no names. Otherwise a name of highest count, the first met among those with that count. |
| CodeSigning.MostCommonIsUnique | src/codemagic_cli_tools/tools/code_signing.py:102-104 | The tie-break settles the choice: at most one name is the most common. |
| CodeSigning.Record | src/codemagic_cli_tools/tools/code_signing.py:105 | The record's keys are the profile's plus `certificate_common_name`. The profile's own entries win a collision. |
| CodeSigning.SerializeProfiles | src/codemagic_cli_tools/tools/code_signing.py:95-105 | Exactly one record per profile, in order, each built from that profile's most common name. The first failed load ends it with that load's error. |
| CodeSigning.UseProfiles | src/codemagic_cli_tools/tools/code_signing.py:107-125 | Runs the fixed eight-argument command. A non-zero return code raises `CodeSigningException` carrying the process. Otherwise it returns the report, or `{}` when the report does not parse. |
| CodeSigning.FailedRunExitsWithScriptStatus | src/codemagic_cli_tools/tools/code_signing.py:122-124 | A failed run ends the tool with the script's own non-zero status and the failure message on stderr, and its text shows the displayed command. |
| CodeSigning.SigningCommand | src/codemagic_cli_tools/tools/code_signing.py:109-115 | Eight arguments: the manager first, then `--xcode-project`, `--used-profiles` and `--profiles` in that order, each followed by its value, and `--verbose` last. Read as `--name value` pairs, the three options carry the project, the output path and the JSON. |
| CodeSigning.SigningCommandReadsBack | src/codemagic_cli_tools/tools/code_signing.py:109-116 | The displayed command splits back into manager, `--xcode-project`, project, `--used-profiles`, path, `--profiles`, JSON, `--verbose`, in that order. |

## Left out

- HTTP and pagination: `client.session` calls are returned as `Request` values and responses are not parsed. `client.paginate` is a function parameter of the client, so page-following is not modelled.
- Helpers defined outside these files are parameters or records of their inputs, not definitions: `Ordering.as_param`, `_get_create_payload`, `_get_update_payload`, `_get_attribute_data` and `_get_resource_id`. The sort-direction text is therefore not fixed.
- The resource wrapper classes (`Profile`, `BundleId`, `Certificate`, `Device`, `LinkedResourceData`, `BundleIdCapability`) are a kind tag around the item's JSON. Attribute access on them is read as the same path in that JSON.
- `invoke_cli`, `get_cli_actions`, argparse parser construction, `_setup_default_cli_options`, logging setup and `sys.exit`: exits are returned as values. `CliApp.SetupCliOptions` takes the parse result as an input.
- `_expand_variables`, `CliProcess.execute`, `shutil.which` (`_code_signing_manager`), the Keychain, `ProvisioningProfile.from_path`, `get_usable_certificates`, `NamedTemporaryFile` and `json.load`/`json.dumps`: their results are parameters. The manager path, the report, the return code and the serialised JSON are passed in.
- `use_profiles` (the `cli.action` method): globbing the default profile location, `_find_paths` and logging are file-system glue around `SerializeProfiles` and `UseProfiles`, so it is not modelled on its own.
- `Colors.*` and `ArgumentFormatter.format_default_value` are functions passed in. `str.upper()` is modelled on ASCII letters only.
- `pathlib.Path` normalisation is not modelled: a path is its text.
- The order of iteration over a Python `set` is unspecified. `CliApp.ShouldObfuscate` examines the patterns in chain order (the call's, then the defaults).
- CliApp.ShouldObfuscate: the contract states only outcomes that hold in every iteration order. When both a matching pattern and an unsupported one are present, it says the call either raises or masks (never answers False), but not which.
- `set(...)` of the patterns raises `TypeError` for an unhashable pattern before any argument is examined. Patterns are taken to be hashable.
- CliApp.ExceptionText: a `CliProcess` is taken to be truthy whenever it is present, since its `__bool__` is not part of this model. The same holds for `CliApp.HandleCliException`.
- CliApp.Action: `functools.wraps` is modelled as copying the docstring and the four recorded attributes. The wrapper's call-through is not modelled.
- TypedCliArgument.GetReferenceDescription: the contract fixes the head and, when there is a default, the tail. The middle usage and example lines are fixed by the definition only.
- TypedCliArgument.GetFromEnvironment: the `except KeyError` also catches a `KeyError` raised inside `argument_type` or `_is_valid`, and reports it as an undefined variable. The model keeps conversion errors as conversion errors.
- TypedCliArgument.GetFromFile: `read_text()` failures (permissions, undecodable content) are not modelled. A regular file always yields its content.
- A default value is present when `argparse_kwargs` holds a `default` key. A missing `argparse_kwargs` counts as no default.
- UTF-8 decoding of a bytes CSR is the `decode` parameter of `CertificateOperations.CsrContent`.
- The `ResourceId` and `ProfileType`/`ProfileState`/`CertificateType`/`BundleIdPlatform` enums are represented by their string values.
- The reader in `ShellQuote` covers the quoting forms `shlex.quote` produces and plain words. A backslash makes it fail rather than being read as an escape. `#` is an ordinary character, as in `shlex.split` without comments.

## Findings

| source | as written | input that shows it | evidently intended | confidence | as-written member | corrected member |
|---|---|---|---|---|---|---|
| src/codemagic_cli_tools/apple/app_store_connect/provisioning/profiles.py:126 | For a `Profile` object, `list_certificates` reads `profile.relationships.profiles.links.related`. Lines 136, 146 and 156 do the same in `list_certificate_ids`, `list_devices` and `list_device_ids`. | A profile whose relationships are `bundleId`, `certificates` and `devices`, each with `self` and `related` links, and no `profiles` relationship. The lookup fails on `profiles`. | Read the `certificates` or `devices` relationship's link, as the bare-id branches' URLs do. | medium, not executed | Profiles.ProfileRelationshipUrlAsWritten, Profiles.AsWrittenMissesProfileLinks | Profiles.ProfileRelationshipUrl |
