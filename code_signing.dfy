/**
 * The code-signing tool: choosing each profile's certificate common name, serialising the
 * profiles, running the signing-settings script on a project and handling its outcome, and the
 * existing-file check of its `--profiles` argument.
 *
 * The keychain, profile loading, the temporary file, the script and the file system are
 * inputs: their results are parameters.
 */
module CodeSigning {

  import opened Wrappers
  import opened Json
  import opened ShellQuote
  import opened CliApp
  import TypedCliArgument

  // ---------------------------------------------------------------------------------------
  // `_existing_file`

  /** `ArgumentTypeError`: the path does not exist, or is not a file. */
  datatype PathError = PathDoesNotExist(path: string) | PathIsNotAFile(path: string)

  /** `_existing_file`: a missing path and a path that is not a regular file are refused with
      different errors; otherwise the path is returned. */
  function ExistingFile(pathStr: string, fs: TypedCliArgument.FileSystem): (r: Result<string, PathError>)
    ensures r.Ok? <==> pathStr in fs && fs[pathStr].RegularFile?
    ensures r.Ok? ==> r.value == pathStr
    ensures pathStr !in fs ==> r == Err(PathDoesNotExist(pathStr))
    ensures pathStr in fs && fs[pathStr].Directory? ==> r == Err(PathIsNotAFile(pathStr))
  {
    if pathStr !in fs then Err(PathDoesNotExist(pathStr))
    else if !fs[pathStr].RegularFile? then Err(PathIsNotAFile(pathStr))
    else Ok(pathStr)
  }

  // ---------------------------------------------------------------------------------------
  // The certificate common name: `Counter(...).most_common(1)`.

  function Count(names: seq<string>, name: string): nat
  {
    multiset(names)[name]
  }

  /** Where `name` first occurs in `names`. */
  function FirstIndex(names: seq<string>, name: string): (r: nat)
    requires name in names
    ensures r < |names| && names[r] == name
    ensures forall j :: 0 <= j < r ==> names[j] != name
  {
    if names[0] == name then 0 else 1 + FirstIndex(names[1..], name)
  }

  /**
   * The common name `most_common(1)` yields: none (`''`) for no certificates; otherwise a name
   * with the highest count, the first encountered among those with that count (the counter
   * keeps first-occurrence order and `max` keeps the first maximal item).
   */
  ghost predicate IsMostCommon(names: seq<string>, name: string)
  {
    if names == [] then name == ""
    else
      && name in names
      && (forall n :: n in names ==> Count(names, n) <= Count(names, name))
      && (forall n :: n in names && Count(names, n) == Count(names, name) ==> FirstIndex(names, name) <= FirstIndex(names, n))
  }

  /** The tie-break settles it: at most one name is the most common one. */
  lemma MostCommonIsUnique(names: seq<string>, a: string, b: string)
    requires IsMostCommon(names, a) && IsMostCommon(names, b)
    ensures a == b
  {
    if names != [] {
      assert FirstIndex(names, a) == FirstIndex(names, b);
    }
  }

  /** `counts` and `order` are the counter after the first `i` names: every name met so far
      with its count, each once, in first-met order. */
  ghost predicate Tallied(names: seq<string>, i: nat, counts: map<string, nat>, order: seq<string>)
    requires i <= |names|
  {
    && (forall n :: n in counts <==> n in names[..i])
    && (forall n :: n in counts ==> counts[n] == Count(names[..i], n))
    && (forall k :: 0 <= k < |order| ==> order[k] in counts)
    && (forall n :: n in counts ==> n in order)
    && (forall a, b :: 0 <= a < b < |order| ==> FirstIndex(names, order[a]) < FirstIndex(names, order[b]))
    && (forall k :: 0 <= k < |order| ==> FirstIndex(names, order[k]) < i)
  }

  /** Counting one more name: a new name is appended with count 1, a known one counted up. */
  method CountNext(names: seq<string>, i: nat, counts: map<string, nat>, order: seq<string>)
    returns (counts': map<string, nat>, order': seq<string>)
    requires i < |names| && Tallied(names, i, counts, order)
    ensures Tallied(names, i + 1, counts', order')
  {
    var n := names[i];
    assert names[..i + 1] == names[..i] + [n];
    if n !in counts {
      FirstMeetingAt(names, i);
      order' := order + [n];
      counts' := counts[n := 1];
    } else {
      order' := order;
      counts' := counts[n := counts[n] + 1];
    }
  }

  /** `Counter(names)`: the count of every name, and the names in the order they were first
      met. */
  method Tally(names: seq<string>) returns (counts: map<string, nat>, order: seq<string>)
    ensures Tallied(names, |names|, counts, order)
  {
    counts := map[];
    order := [];
    var i := 0;
    while i < |names|
      invariant 0 <= i <= |names|
      invariant Tallied(names, i, counts, order)
    {
      counts, order := CountNext(names, i, counts, order);
      i := i + 1;
    }
  }

  /** A name not met before position `i` is first met at `i`. */
  lemma FirstMeetingAt(names: seq<string>, i: nat)
    requires i < |names| && names[i] !in names[..i]
    ensures FirstIndex(names, names[i]) == i
  {
  }

  /** `max` over the counter's items by count: the first item of highest count. */
  method FirstOfHighestCount(counts: map<string, nat>, order: seq<string>) returns (best: nat)
    requires order != []
    requires forall k :: 0 <= k < |order| ==> order[k] in counts
    ensures best < |order|
    ensures forall k :: 0 <= k < |order| ==> counts[order[k]] <= counts[order[best]]
    ensures forall k :: 0 <= k < best ==> counts[order[k]] < counts[order[best]]
  {
    best := 0;
    var j := 1;
    while j < |order|
      invariant 0 <= best < j <= |order|
      invariant forall k :: 0 <= k < j ==> counts[order[k]] <= counts[order[best]]
      invariant forall k :: 0 <= k < best ==> counts[order[k]] < counts[order[best]]
    {
      if counts[order[j]] > counts[order[best]] {
        best := j;
      }
      j := j + 1;
    }
  }

  /** `most_common(1)`, read as a single name: counts the names as `Counter` does, then takes
      the first name of highest count, or `''` when there is none. */
  method MostCommonName(names: seq<string>) returns (name: string)
    ensures IsMostCommon(names, name)
  {
    var counts, order := Tally(names);
    assert names[..|names|] == names;
    if names == [] {
      return "";
    }
    assert names[0] in counts;
    var best := FirstOfHighestCount(counts, order);
    name := order[best];
    forall n | n in names
      ensures Count(names, n) <= Count(names, name)
      ensures Count(names, n) == Count(names, name) ==> FirstIndex(names, name) <= FirstIndex(names, n)
    {
      var k :| 0 <= k < |order| && order[k] == n;
      if Count(names, n) == Count(names, name) && best < k {
        assert FirstIndex(names, order[best]) < FirstIndex(names, order[k]);
      }
    }
  }

  // ---------------------------------------------------------------------------------------
  // `_serialize_profiles`

  /** A loaded provisioning profile, as far as serialisation reads it: the common names of its
      usable certificates (in the order the certificates are listed) and `profile.dict()`. */
  datatype LoadedProfile = LoadedProfile(usableCommonNames: seq<string>, fields: map<string, Json>)

  /** `{'certificate_common_name': name, **fields}`: the profile's own entries win. */
  function Record(commonName: string, fields: map<string, Json>): (r: map<string, Json>)
    ensures r.Keys == fields.Keys + {"certificate_common_name"}
    ensures forall k :: k in fields ==> r[k] == fields[k]
    ensures "certificate_common_name" !in fields ==> r["certificate_common_name"] == JString(commonName)
  {
    map["certificate_common_name" := JString(commonName)] + fields
  }

  /** `record` is what serialisation yields for `profile`. */
  ghost predicate IsRecordOf(profile: LoadedProfile, record: map<string, Json>)
  {
    exists name :: IsMostCommon(profile.usableCommonNames, name) && record == Record(name, profile.fields)
  }

  /** The first failed load, if any. */
  function FirstFailure(loaded: seq<Result<LoadedProfile, string>>): (r: Option<nat>)
    ensures r.Some? ==> r.value < |loaded| && loaded[r.value].Err?
                        && forall k :: 0 <= k < r.value ==> loaded[k].Ok?
    ensures r.None? ==> forall k :: 0 <= k < |loaded| ==> loaded[k].Ok?
  {
    if loaded == [] then None
    else if loaded[0].Err? then Some(0)
    else match FirstFailure(loaded[1..])
      case None => None
      case Some(k) => Some(k + 1)
  }

  /**
   * `list(_serialize_profiles(paths))`: one record per profile, in order. Loading a profile
   * (`ProvisioningProfile.from_path`) is outside this model: `loaded` holds its outcome per
   * path, an `Err` carrying the message of the error it raised, which ends the generator.
   */
  method SerializeProfiles(loaded: seq<Result<LoadedProfile, string>>)
    returns (r: Result<seq<map<string, Json>>, string>)
    ensures FirstFailure(loaded).Some? ==> r == Err(loaded[FirstFailure(loaded).value].error)
    ensures FirstFailure(loaded).None? ==> r.Ok?
    ensures r.Ok? ==> |r.value| == |loaded|
    ensures r.Ok? ==> forall k :: 0 <= k < |loaded| ==> loaded[k].Ok? && IsRecordOf(loaded[k].value, r.value[k])
  {
    var records: seq<map<string, Json>> := [];
    var i := 0;
    while i < |loaded|
      invariant 0 <= i <= |loaded|
      invariant |records| == i
      invariant forall k :: 0 <= k < i ==> loaded[k].Ok? && IsRecordOf(loaded[k].value, records[k])
    {
      match loaded[i]
      case Err(message) =>
        return Err(message);
      case Ok(profile) =>
        var name := MostCommonName(profile.usableCommonNames);
        records := records + [Record(name, profile.fields)];
        assert IsRecordOf(loaded[i].value, records[i]);
      i := i + 1;
    }
    return Ok(records);
  }

  // ---------------------------------------------------------------------------------------
  // `_use_profiles`

  /** The value given to `flag` in a run of `--name value` pairs: the argument after the first
      pair whose name it is. */
  function FlagValue(pairs: seq<CommandArg>, flag: string): Option<string>
    decreases |pairs|
  {
    if |pairs| < 2 then None
    else if pairs[0] == Text(flag) then Some(ArgText(pairs[1]))
    else FlagValue(pairs[2..], flag)
  }

  /** The signing-settings script's arguments: the script, then the project, the output path
      and the profiles each under its own option, then `--verbose`. */
  function SigningCommand(manager: string, xcodeProject: string, usedProfilesPath: string, profilesJson: string)
    : (r: seq<CommandArg>)
    ensures |r| == 8 && r[0] == Text(manager) && r[|r| - 1] == Text("--verbose")
    ensures r[1] == Text("--xcode-project") && r[3] == Text("--used-profiles") && r[5] == Text("--profiles")
    ensures FlagValue(r[1..], "--xcode-project") == Some(xcodeProject)
    ensures FlagValue(r[1..], "--used-profiles") == Some(usedProfilesPath)
    ensures FlagValue(r[1..], "--profiles") == Some(profilesJson)
    ensures FlagValue(r[1..], "--verbose") == None
  {
    var profiles := [Text("--profiles"), Text(profilesJson), Text("--verbose")];
    var used := [Text("--used-profiles"), Text(usedProfilesPath)] + profiles;
    var r := [Text(manager), Text("--xcode-project"), FsPath(xcodeProject)] + used;
    assert r[1..][2..] == used && used[2..] == profiles && profiles[2..] == [Text("--verbose")];
    assert FlagValue(used, "--profiles") == FlagValue(profiles, "--profiles") == Some(profilesJson);
    assert FlagValue(used, "--verbose") == FlagValue(profiles, "--verbose") == None;
    r
  }

  /** What `_use_profiles` raises: `CodeSigningException` carrying the failed process, or the
      `ValueError` of an unsupported obfuscation pattern. */
  datatype UseProfilesError = CodeSigningException(exception: CliAppException) | ObfuscationFailed(error: ObfuscationError)

  function FailureMessage(xcodeProject: string): string
  {
    "Failed to set code signing settings for " + xcodeProject
  }

  /**
   * `_use_profiles`: runs the script and reads back the report it wrote to the temporary file,
   * taking an unreadable report as `{}`; a non-zero return code raises with the process. The
   * script's return code and the report (`None` when it does not parse) are inputs.
   */
  method UseProfiles(app: CliApp, manager: string, xcodeProject: string, usedProfilesPath: string,
                     profilesJson: string, returncode: int, report: Option<Json>)
    returns (r: Result<Json, UseProfilesError>)
    ensures var process := app.Execute(SigningCommand(manager, xcodeProject, usedProfilesPath, profilesJson), returncode);
            && (process.Err? ==> r == Err(ObfuscationFailed(process.error)))
            && (process.Ok? && returncode != 0 ==>
                  r == Err(CodeSigningException(CliAppException(FailureMessage(xcodeProject), Some(process.value)))))
            && (process.Ok? && returncode == 0 ==> r == Ok(if report.Some? then report.value else JObject(map[])))
  {
    var command := SigningCommand(manager, xcodeProject, usedProfilesPath, profilesJson);
    var process := app.Execute(command, returncode);
    if process.Err? {
      return Err(ObfuscationFailed(process.error));
    }
    var usedProfilesInfo := JObject(map[]);
    if report.Some? {
      usedProfilesInfo := report.value;
    }
    if process.value.returncode != 0 {
      return Err(CodeSigningException(CliAppException(FailureMessage(xcodeProject), Some(process.value))));
    }
    return Ok(usedProfilesInfo);
  }

  /**
   * A failed run ends the tool with the script's own exit status, reports the failure message
   * on standard error, and shows the script's command (as the app displays it) in the
   * exception's text.
   */
  lemma FailedRunExitsWithScriptStatus(app: CliApp, manager: string, xcodeProject: string, usedProfilesPath: string,
                                       profilesJson: string, returncode: int, process: CliProcess)
    requires returncode != 0
    requires app.Execute(SigningCommand(manager, xcodeProject, usedProfilesPath, profilesJson), returncode) == Ok(process)
    ensures var e := CliAppException(FailureMessage(xcodeProject), Some(process));
            && HandleCliException(e).code == returncode != 0
            && HandleCliException(e).stderr == FailureMessage(xcodeProject) + "\n"
            && RunningPrefix + process.safeForm + FailedInfix <= ExceptionText(e)
  {
  }

  /** With the application's own obfuscation (the mask, no default patterns), the command the
      run shows reads back, word for word, as the eight arguments of the script call. */
  lemma SigningCommandReadsBack(app: CliApp, manager: string, xcodeProject: string, usedProfilesPath: string,
                                profilesJson: string, returncode: int)
    requires app.obfuscation == Mask && app.defaultObfuscation == []
    ensures var process := app.Execute(SigningCommand(manager, xcodeProject, usedProfilesPath, profilesJson), returncode);
            && process.Ok?
            && Split(process.value.safeForm)
               == Some([manager, "--xcode-project", xcodeProject, "--used-profiles", usedProfilesPath,
                        "--profiles", profilesJson, "--verbose"])
  {
    var command := SigningCommand(manager, xcodeProject, usedProfilesPath, profilesJson);
    assert app.AllPatterns(None) == [];
    var shown := ShownAll(Mask, [], command);
    assert shown == [manager, "--xcode-project", xcodeProject, "--used-profiles", usedProfilesPath,
                     "--profiles", profilesJson, "--verbose"];
  }
}
