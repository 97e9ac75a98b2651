/** The three tool handlers (src/server.ts:77-174): package-name resolution,
    the npm argument vectors, and the order in which each handler checks its
    inputs, makes its credential scope, runs npm and cleans up.

    Every call into the file system or a child process is an input (a
    World), and each handler reports, besides its result, the effects it
    performs in order, so that what happens on each path can be stated. */
module Handlers {
  import opened Wrappers
  import opened JsString
  import opened JsValue
  import opened Arguments
  import opened Command

  /** The directory handed to `path.resolve`: the caller's packagePath, or
      the server's working directory (`args.packagePath ?? process.cwd()`). */
  datatype PackageDir = WorkingDirectory | PackagePath(path: string)

  function PackageDirOf(packagePath: Option<string>): PackageDir {
    match packagePath
    case None => WorkingDirectory
    case Some(p) => PackagePath(p)
  }

  /** One child process: program, argument vector, working directory. */
  datatype Invocation = Invocation(command: string, args: seq<string>, cwd: PackageDir)

  /** What `mkdtemp` and then `writeFile` of the `.npmrc` do on this call. */
  datatype Scratch =
    | MkdtempFails(error: string)
    | TempDir(dir: string, writeError: Option<string>)

  /** The outside world for one call: `readFile` + `JSON.parse` of each
      directory's package.json (the parsed value, or the message it throws),
      the scratch directory, and how npm ends for each invocation. */
  datatype World = World(
    descriptor: PackageDir -> Result<Value, string>,
    scratch: Scratch,
    npm: Invocation -> ProcessEnd)

  /** The observable steps of a call, in order. */
  datatype Effect =
    | ReadDescriptor(dir: PackageDir)
    | MakeTempDir
    | WriteConfig(path: string, contents: string)
    | Spawn(invocation: Invocation)
    | RemoveTempDir(tempDir: string)

  /** A handler's result (the text it returns, or the message it throws)
      and its effects. */
  datatype Handled = Handled(result: Result<string, string>, effects: seq<Effect>)

  datatype PublishArgs = PublishArgs(
    packagePath: Option<string>, tag: Option<string>, access: Option<string>, otp: Option<string>)

  datatype UnpublishArgs = UnpublishArgs(
    packagePath: Option<string>, packageName: Option<string>, version: Option<string>, otp: Option<string>)

  datatype ViewArgs = ViewArgs(
    packagePath: Option<string>, packageName: Option<string>, version: Option<string>,
    field: Option<string>, json: Option<bool>)

  const NoTokenMessage := "npm token is not set. Provide NPM_ACCESS_TOKEN or NPM_TOKEN in server env."
  const NoNameMessage := "package name is required. Provide packageName or ensure package.json has a valid name field."
  const NoVersionMessage := "version is required for npm_unpublish."

  /** The invocations among the effects, in order. */
  function Spawns(effects: seq<Effect>): seq<Invocation> {
    if effects == [] then []
    else (if effects[0].Spawn? then [effects[0].invocation] else []) + Spawns(effects[1..])
  }

  lemma {:induction false} SpawnsAppend(x: seq<Effect>, y: seq<Effect>)
    ensures Spawns(x + y) == Spawns(x) + Spawns(y)
  {
    if x == [] {
      assert x + y == y;
    } else {
      assert (x + y)[0] == x[0];
      assert (x + y)[1..] == x[1..] + y;
      SpawnsAppend(x[1..], y);
    }
  }

  lemma SpawnsOne(e: Effect)
    ensures Spawns([e]) == if e.Spawn? then [e.invocation] else []
  {
    assert [e][1..] == [];
  }

  // ---------------------------------------------------------------------
  // Package name

  /** `parsed.name`: reading a property of null or undefined throws a
      TypeError; any other non-object has no `name`. */
  function NameProperty(parsed: Value): (r: Result<Value, string>)
    ensures r.Failure? <==> parsed.Null? || parsed.Undefined?
    ensures parsed.Object? ==> r == Success(Lookup(parsed.fields, "name"))
    ensures !parsed.Object? && r.Success? ==> r.value == Undefined
  {
    match parsed
    case Null => Failure("Cannot read properties of null (reading 'name')")
    case Undefined => Failure("Cannot read properties of undefined (reading 'name')")
    case Object(fields) => Success(Lookup(fields, "name"))
    case _ => Success(Undefined)
  }

  /** The descriptor parsed to an object whose `name` is a string with some
      code point `trim` keeps. */
  predicate NamesPackage(descriptor: Result<Value, string>) {
    && descriptor.Success?
    && descriptor.value.Object?
    && HasText(descriptor.value.fields, "name")
  }

  /** `resolvePackageName`: a truthy provided name is returned as it is, and
      nothing is read; otherwise package.json is read and its trimmed `name`
      is returned if non-empty. A read or parse error propagates; a missing,
      non-string or blank name raises NoNameMessage. */
  function ResolvePackageName(dir: PackageDir, providedName: Option<string>,
                              descriptor: PackageDir -> Result<Value, string>): (h: Handled)
    ensures Filled(providedName) ==> h == Handled(Success(providedName.value), [])
    ensures !Filled(providedName) ==> h.effects == [ReadDescriptor(dir)]
    ensures !Filled(providedName) ==> (h.result.Success? <==> NamesPackage(descriptor(dir)))
    ensures !Filled(providedName) && NamesPackage(descriptor(dir)) ==>
              h.result.value == Trim(Lookup(descriptor(dir).value.fields, "name").s)
    ensures !Filled(providedName) && descriptor(dir).Failure? ==> h.result == Failure(descriptor(dir).error)
    ensures !Filled(providedName) && descriptor(dir).Success? && !descriptor(dir).value.Null?
            && !descriptor(dir).value.Undefined? && !NamesPackage(descriptor(dir)) ==>
              h.result == Failure(NoNameMessage)
    ensures h.result.Success? ==> h.result.value != ""
    ensures Spawns(h.effects) == [] && MakeTempDir !in h.effects
  {
    if Filled(providedName) then Handled(Success(providedName.value), [])
    else
      var read := [ReadDescriptor(dir)];
      SpawnsOne(ReadDescriptor(dir));
      match descriptor(dir)
      case Failure(e) => Handled(Failure(e), read)
      case Success(parsed) =>
        match NameProperty(parsed)
        case Failure(e) => Handled(Failure(e), read)
        case Success(nameValue) => Handled(DescriptorName(nameValue), read)
  }

  /** The trimmed `name` when it is a string (`typeof` "string"), else "";
      an empty result raises NoNameMessage. */
  function DescriptorName(nameValue: Value): (r: Result<string, string>)
    ensures r.Success? <==> nameValue.Str? && !AllTrimmable(nameValue.s)
    ensures r.Success? ==> r.value == Trim(nameValue.s) && r.value != ""
    ensures r.Failure? ==> r.error == NoNameMessage
  {
    match nameValue
    case Str(s) =>
      var name := Trim(s);
      TrimBlank(s);
      if name == "" then Failure(NoNameMessage) else Success(name)
    case _ => Failure(NoNameMessage)
  }

  // ---------------------------------------------------------------------
  // Argument vectors

  /** The `--otp` pair, pushed when the otp is truthy. */
  function OtpFlags(otp: Option<string>): seq<string> {
    if Filled(otp) then ["--otp", otp.value] else []
  }

  function PublishArgv(tag: string, access: string, userConfigPath: string, otp: Option<string>): seq<string> {
    ["publish", "--tag", tag, "--access", access, "--userconfig", userConfigPath] + OtpFlags(otp)
  }

  function UnpublishArgv(packageSpec: string, userConfigPath: string, otp: Option<string>): seq<string> {
    ["unpublish", packageSpec, "--userconfig", userConfigPath] + OtpFlags(otp)
  }

  function ViewArgv(packageSpec: string, field: Option<string>, json: Option<bool>): seq<string> {
    ["view", packageSpec]
      + (if Filled(field) then [field.value] else [])
      + (if json == Some(true) then ["--json"] else [])
  }

  // The handlers use the vector functions above; the three methods below
  // build the same vectors by `push`, as the source does, and are proved
  // equal to them.

  /** Builds the publish vector as the source does: the fixed part, then the
      otp pair pushed onto it. */
  method BuildPublishArgs(tag: string, access: string, userConfigPath: string, otp: Option<string>)
    returns (publishArgs: seq<string>)
    ensures publishArgs == PublishArgv(tag, access, userConfigPath, otp)
  {
    publishArgs := ["publish", "--tag", tag, "--access", access, "--userconfig", userConfigPath];
    if Filled(otp) {
      publishArgs := publishArgs + ["--otp", otp.value];
    }
  }

  method BuildUnpublishArgs(packageSpec: string, userConfigPath: string, otp: Option<string>)
    returns (unpublishArgs: seq<string>)
    ensures unpublishArgs == UnpublishArgv(packageSpec, userConfigPath, otp)
  {
    unpublishArgs := ["unpublish", packageSpec, "--userconfig", userConfigPath];
    if Filled(otp) {
      unpublishArgs := unpublishArgs + ["--otp", otp.value];
    }
  }

  method BuildViewArgs(packageSpec: string, field: Option<string>, json: Option<bool>)
    returns (viewArgs: seq<string>)
    ensures viewArgs == ViewArgv(packageSpec, field, json)
  {
    viewArgs := ["view", packageSpec];
    if Filled(field) {
      viewArgs := viewArgs + [field.value];
    }
    if json == Some(true) {
      viewArgs := viewArgs + ["--json"];
    }
  }

  /** Reads a vector of `--flag value` pairs: the value after the first pair
      whose flag is `flag`. */
  function FlagValue(pairs: seq<string>, flag: string): Option<string>
    decreases |pairs|
  {
    if |pairs| < 2 then None
    else if pairs[0] == flag then Some(pairs[1])
    else FlagValue(pairs[2..], flag)
  }

  /** Read back as flag/value pairs after the subcommand, the publish vector
      carries the tag, the access level and the config path, and an otp
      exactly when one was truthy. */
  lemma PublishArgvReadsBack(tag: string, access: string, cfg: string, otp: Option<string>)
    ensures |PublishArgv(tag, access, cfg, otp)| == if Filled(otp) then 9 else 7
    ensures PublishArgv(tag, access, cfg, otp)[0] == "publish"
    ensures FlagValue(PublishArgv(tag, access, cfg, otp)[1..], "--tag") == Some(tag)
    ensures FlagValue(PublishArgv(tag, access, cfg, otp)[1..], "--access") == Some(access)
    ensures FlagValue(PublishArgv(tag, access, cfg, otp)[1..], "--userconfig") == Some(cfg)
    ensures FlagValue(PublishArgv(tag, access, cfg, otp)[1..], "--otp") == if Filled(otp) then otp else None
  {
    var pairs := PublishArgv(tag, access, cfg, otp)[1..];
    assert pairs[2..][2..] == pairs[4..];
    assert pairs[4..][2..] == pairs[6..];
    assert pairs[6..] == OtpFlags(otp);
    assert FlagValue(pairs, "--userconfig") == FlagValue(pairs[2..], "--userconfig") == FlagValue(pairs[4..], "--userconfig");
    assert FlagValue(pairs, "--otp") == FlagValue(pairs[2..], "--otp") == FlagValue(pairs[4..], "--otp")
        == FlagValue(pairs[6..], "--otp");
  }

  /** The unpublish vector: the spec in second position, then the config
      path, and an otp exactly when one was truthy. */
  lemma UnpublishArgvReadsBack(spec: string, cfg: string, otp: Option<string>)
    ensures |UnpublishArgv(spec, cfg, otp)| == if Filled(otp) then 6 else 4
    ensures UnpublishArgv(spec, cfg, otp)[..2] == ["unpublish", spec]
    ensures FlagValue(UnpublishArgv(spec, cfg, otp)[2..], "--userconfig") == Some(cfg)
    ensures FlagValue(UnpublishArgv(spec, cfg, otp)[2..], "--otp") == if Filled(otp) then otp else None
  {
    var pairs := UnpublishArgv(spec, cfg, otp)[2..];
    assert pairs[2..] == OtpFlags(otp);
  }

  /** The view vector: the spec, then the field when truthy, then "--json"
      when json is true, and nothing else. */
  lemma ViewArgvShape(spec: string, field: Option<string>, json: Option<bool>)
    ensures var argv := ViewArgv(spec, field, json);
      && argv[..2] == ["view", spec]
      && |argv| == 2 + (if Filled(field) then 1 else 0) + (if json == Some(true) then 1 else 0)
      && (Filled(field) ==> argv[2] == field.value)
      && (json == Some(true) ==> argv[|argv| - 1] == "--json")
  {
  }

  // ---------------------------------------------------------------------
  // Package specs

  /** The last position of '@' after the first code point (a scoped name
      starts with '@'). */
  function LastAt(s: string): (r: Option<nat>)
    ensures r.Some? ==> 0 < r.value < |s| && s[r.value] == '@' && '@' !in s[r.value + 1..]
    ensures r.None? ==> |s| == 0 || '@' !in s[1..]
  {
    if |s| <= 1 then None
    else if s[|s| - 1] == '@' then Some(|s| - 1)
    else
      var r := LastAt(s[..|s| - 1]);
      assert s[1..] == s[..|s| - 1][1..] + [s[|s| - 1]];
      if r.Some? then
        assert s[r.value + 1..] == s[..|s| - 1][r.value + 1..] + [s[|s| - 1]];
        r
      else r
  }

  /** `name@version` when the handler has a version, else `name`. */
  function PackageSpec(name: string, version: Option<string>): (r: string)
    ensures |r| >= |name| && r[..|name|] == name
    ensures |r| > |name| <==> Filled(version)
    ensures Filled(version) ==> r[|name|] == '@' && r[|name| + 1..] == version.value
  {
    if Filled(version) then name + "@" + version.value else name
  }

  /** Splits a spec back into name and version at its last '@'. */
  function SplitSpec(spec: string): (string, Option<string>) {
    match LastAt(spec)
    case None => (spec, None)
    case Some(i) => (spec[..i], Some(spec[i + 1..]))
  }

  /** A package name as npm allows it: non-empty, '@' only at the start. */
  predicate NameWithoutInnerAt(name: string) {
    name != "" && '@' !in name[1..]
  }

  /** The spec loses nothing: it splits back into the name and the version
      it was made from, for names and versions npm accepts. */
  lemma SpecRoundTrip(name: string, version: Option<string>)
    requires NameWithoutInnerAt(name)
    requires Filled(version) ==> '@' !in version.value
    ensures SplitSpec(PackageSpec(name, version)) == (name, if Filled(version) then version else None)
  {
    if Filled(version) {
      var spec := name + "@" + version.value;
      var r := LastAt(spec);
      assert spec[|name|] == '@';
      assert spec[|name| + 1..] == version.value;
      assert spec[1..] == name[1..] + "@" + version.value;
      assert spec[1..][|name| - 1] == '@';
      assert spec[..|name|] == name;
    }
  }

  // ---------------------------------------------------------------------
  // Handlers

  /** The `.npmrc` written into the scratch directory. */
  const AuthTokenKey := "//registry.npmjs.org/:_authToken="

  /** One line: the registry's token key, the token, a newline. */
  function NpmrcContents(token: string): (r: string)
    ensures |r| == |AuthTokenKey| + |token| + 1
    ensures r[..|AuthTokenKey|] == AuthTokenKey
    ensures r[|AuthTokenKey|..|r| - 1] == token && r[|r| - 1] == '\n'
  {
    AuthTokenKey + token + "\n"
  }

  /** `join(tmpBase, ".npmrc")`. */
  function UserConfigPath(dir: string): string {
    dir + "/.npmrc"
  }

  /** The npm command run inside a credential scope, before the config path
      is known. */
  datatype ScopedCommand =
    | PublishCommand(tag: string, access: string, otp: Option<string>)
    | UnpublishCommand(packageSpec: string, otp: Option<string>)

  function ScopedArgv(c: ScopedCommand, userConfigPath: string): seq<string> {
    match c
    case PublishCommand(tag, access, otp) => PublishArgv(tag, access, userConfigPath, otp)
    case UnpublishCommand(spec, otp) => UnpublishArgv(spec, userConfigPath, otp)
  }

  /** The scratch directory was made and the `.npmrc` written, so npm runs. */
  predicate ScopeReady(scratch: Scratch) {
    scratch.TempDir? && scratch.writeError.None?
  }

  /** The invocation a credential scope runs when it is ready. */
  function ScopedInvocation(c: ScopedCommand, cwd: PackageDir, scratch: Scratch): Invocation
    requires scratch.TempDir?
  {
    Invocation("npm", ScopedArgv(c, UserConfigPath(scratch.dir)), cwd)
  }

  /** Every made scratch directory is removed as the last effect. */
  predicate RemovesScratch(effects: seq<Effect>, scratch: Scratch) {
    MakeTempDir in effects && scratch.TempDir? ==>
      effects != [] && effects[|effects| - 1] == RemoveTempDir(scratch.dir)
  }

  /** `mkdtemp`, then inside `try` the `.npmrc` write and the npm run, and in
      `finally` the `rm` of the directory. A failing `mkdtemp` throws before
      the `try`, so there is nothing to remove. */
  function WithCredentialScope(token: string, c: ScopedCommand, cwd: PackageDir, world: World): (h: Handled)
    ensures h.effects != [] && h.effects[0] == MakeTempDir
    ensures world.scratch.MkdtempFails? ==> h == Handled(Failure(world.scratch.error), [MakeTempDir])
    ensures world.scratch.TempDir? ==>
              && |h.effects| >= 3
              && h.effects[1] == WriteConfig(UserConfigPath(world.scratch.dir), NpmrcContents(token))
              && h.effects[|h.effects| - 1] == RemoveTempDir(world.scratch.dir)
    ensures world.scratch.TempDir? && world.scratch.writeError.Some? ==>
              h.result == Failure(world.scratch.writeError.value)
    ensures Spawns(h.effects) ==
              if ScopeReady(world.scratch) then [ScopedInvocation(c, cwd, world.scratch)] else []
    ensures ScopeReady(world.scratch) ==> h.result == RunCommand(world.npm(ScopedInvocation(c, cwd, world.scratch)))
    ensures RemovesScratch(h.effects, world.scratch)
  {
    match world.scratch
    case MkdtempFails(e) => Handled(Failure(e), [MakeTempDir])
    case TempDir(tmpBase, writeError) =>
      var userConfigPath := UserConfigPath(tmpBase);
      var written := [MakeTempDir, WriteConfig(userConfigPath, NpmrcContents(token))];
      match writeError
      case Some(e) =>
        var effects := written + [RemoveTempDir(tmpBase)];
        assert Spawns(effects) == [] by {
          SpawnsAppend([MakeTempDir], [WriteConfig(userConfigPath, NpmrcContents(token))]);
          SpawnsAppend(written, [RemoveTempDir(tmpBase)]);
          SpawnsOne(MakeTempDir);
          SpawnsOne(WriteConfig(userConfigPath, NpmrcContents(token)));
          SpawnsOne(RemoveTempDir(tmpBase));
        }
        Handled(Failure(e), effects)
      case None =>
        var run := Invocation("npm", ScopedArgv(c, userConfigPath), cwd);
        var effects := written + [Spawn(run), RemoveTempDir(tmpBase)];
        assert Spawns(effects) == [run] by {
          SpawnsAppend([MakeTempDir], [WriteConfig(userConfigPath, NpmrcContents(token))]);
          SpawnsAppend(written, [Spawn(run), RemoveTempDir(tmpBase)]);
          SpawnsAppend([Spawn(run)], [RemoveTempDir(tmpBase)]);
          SpawnsOne(MakeTempDir);
          SpawnsOne(WriteConfig(userConfigPath, NpmrcContents(token)));
          SpawnsOne(Spawn(run));
          SpawnsOne(RemoveTempDir(tmpBase));
        }
        Handled(RunCommand(world.npm(run)), effects)
  }

  /** `runNpmPublish`: without a token it fails before anything else
      happens; otherwise the tag defaults to "latest" and the access level to
      "public" (passed on unchecked), and npm publish runs inside a
      credential scope. */
  function RunNpmPublish(env: Env, args: PublishArgs, world: World): (h: Handled)
    ensures !Filled(GetNpmTokenFromEnv(env)) ==> h == Handled(Failure(NoTokenMessage), [])
    ensures Filled(GetNpmTokenFromEnv(env)) ==> h.effects != [] && h.effects[0] == MakeTempDir
    ensures RemovesScratch(h.effects, world.scratch)
    ensures Spawns(h.effects) ==
              if Filled(GetNpmTokenFromEnv(env)) && ScopeReady(world.scratch) then
                [Invocation("npm",
                            PublishArgv(args.tag.GetOr("latest"), args.access.GetOr("public"),
                                        UserConfigPath(world.scratch.dir), args.otp),
                            PackageDirOf(args.packagePath))]
              else []
    ensures Spawns(h.effects) != [] ==> h.result == RunCommand(world.npm(Spawns(h.effects)[0]))
  {
    var npmToken := GetNpmTokenFromEnv(env);
    if !Filled(npmToken) then Handled(Failure(NoTokenMessage), [])
    else
      var packagePath := PackageDirOf(args.packagePath);
      var tag := args.tag.GetOr("latest");
      var access := args.access.GetOr("public");
      WithCredentialScope(npmToken.value, PublishCommand(tag, access, args.otp), packagePath, world)
  }

  /** `runNpmUnpublish`: the token check comes first, then name resolution,
      then the version check; only then is the credential scope made and
      `npm unpublish name@version` run. */
  function RunNpmUnpublish(env: Env, args: UnpublishArgs, world: World): (h: Handled)
    ensures !Filled(GetNpmTokenFromEnv(env)) ==> h == Handled(Failure(NoTokenMessage), [])
    ensures Filled(GetNpmTokenFromEnv(env)) ==>
              var named := ResolvePackageName(PackageDirOf(args.packagePath), args.packageName, world.descriptor);
              && (named.result.Failure? ==> h == Handled(named.result, named.effects))
              && (named.result.Success? && !Filled(args.version) ==>
                    h == Handled(Failure(NoVersionMessage), named.effects))
              && (named.result.Success? && Filled(args.version) ==>
                    && |h.effects| > |named.effects|
                    && h.effects[..|named.effects|] == named.effects
                    && h.effects[|named.effects|] == MakeTempDir
                    && Spawns(h.effects) ==
                         if ScopeReady(world.scratch) then
                           [Invocation("npm",
                                       UnpublishArgv(named.result.value + "@" + args.version.value,
                                                     UserConfigPath(world.scratch.dir), args.otp),
                                       PackageDirOf(args.packagePath))]
                         else [])
    ensures RemovesScratch(h.effects, world.scratch)
    ensures Spawns(h.effects) != [] ==> h.result == RunCommand(world.npm(Spawns(h.effects)[0]))
  {
    var npmToken := GetNpmTokenFromEnv(env);
    if !Filled(npmToken) then Handled(Failure(NoTokenMessage), [])
    else
      var packagePath := PackageDirOf(args.packagePath);
      var named := ResolvePackageName(packagePath, args.packageName, world.descriptor);
      if named.result.Failure? then Handled(named.result, named.effects)
      else if !Filled(args.version) then Handled(Failure(NoVersionMessage), named.effects)
      else UnpublishNamed(npmToken.value, named, args, world)
  }

  /** The last step of `runNpmUnpublish`: with the name resolved and a
      version given, `npm unpublish name@version` runs in a credential scope
      that follows the name resolution's reads. */
  function UnpublishNamed(token: string, named: Handled, args: UnpublishArgs, world: World): (h: Handled)
    requires named.result.Success? && Filled(args.version)
    requires |named.effects| <= 1 && (named.effects != [] ==> !named.effects[0].Spawn?)
    ensures |h.effects| > |named.effects|
    ensures h.effects[..|named.effects|] == named.effects && h.effects[|named.effects|] == MakeTempDir
    ensures Spawns(h.effects) ==
              if ScopeReady(world.scratch) then
                [Invocation("npm",
                            UnpublishArgv(named.result.value + "@" + args.version.value,
                                          UserConfigPath(world.scratch.dir), args.otp),
                            PackageDirOf(args.packagePath))]
              else []
    ensures RemovesScratch(h.effects, world.scratch)
    ensures Spawns(h.effects) != [] ==> h.result == RunCommand(world.npm(Spawns(h.effects)[0]))
  {
    var packageSpec := named.result.value + "@" + args.version.value;
    var scoped := WithCredentialScope(token, UnpublishCommand(packageSpec, args.otp), PackageDirOf(args.packagePath), world);
    assert ScopeReady(world.scratch) ==>
      ScopedInvocation(UnpublishCommand(packageSpec, args.otp), PackageDirOf(args.packagePath), world.scratch)
        == Invocation("npm", UnpublishArgv(packageSpec, UserConfigPath(world.scratch.dir), args.otp),
                      PackageDirOf(args.packagePath));
    ScopeAfterReading(named.effects, scoped.effects, world.scratch);
    Handled(scoped.result, named.effects + scoped.effects)
  }

  /** A credential scope after reads that run nothing: the combined trace
      keeps the scope's invocations and still ends with its cleanup. */
  lemma ScopeAfterReading(prefix: seq<Effect>, scoped: seq<Effect>, scratch: Scratch)
    requires |prefix| <= 1 && (prefix != [] ==> !prefix[0].Spawn?)
    requires scoped != [] && scoped[0] == MakeTempDir && RemovesScratch(scoped, scratch)
    ensures Spawns(prefix + scoped) == Spawns(scoped)
    ensures RemovesScratch(prefix + scoped, scratch)
    ensures |prefix + scoped| > |prefix|
    ensures (prefix + scoped)[..|prefix|] == prefix && (prefix + scoped)[|prefix|] == MakeTempDir
  {
    assert Spawns(prefix) == [] by {
      if prefix != [] {
        SpawnsOne(prefix[0]);
        assert prefix == [prefix[0]];
      }
    }
    SpawnsAppend(prefix, scoped);
    ScopeLast(prefix, scoped, scratch);
  }

  lemma ScopeLast(prefix: seq<Effect>, scoped: seq<Effect>, scratch: Scratch)
    requires scoped != [] && scoped[0] == MakeTempDir && RemovesScratch(scoped, scratch)
    ensures RemovesScratch(prefix + scoped, scratch)
    ensures (prefix + scoped)[..|prefix|] == prefix && (prefix + scoped)[|prefix|] == MakeTempDir
  {
    var all := prefix + scoped;
    assert all[..|prefix|] == prefix;
    assert MakeTempDir in scoped;
    assert all[|all| - 1] == scoped[|scoped| - 1];
  }

  /** `runNpmView`: no token and no credential scope; name resolution, then
      `npm view spec [field] [--json]`. */
  function RunNpmView(args: ViewArgs, world: World): (h: Handled)
    ensures var named := ResolvePackageName(PackageDirOf(args.packagePath), args.packageName, world.descriptor);
      && (named.result.Failure? ==> h == Handled(named.result, named.effects))
      && (named.result.Success? ==>
            var run := Invocation("npm", ViewArgv(PackageSpec(named.result.value, args.version), args.field, args.json),
                                  PackageDirOf(args.packagePath));
            h == Handled(RunCommand(world.npm(run)), named.effects + [Spawn(run)]))
    ensures MakeTempDir !in h.effects
    ensures |Spawns(h.effects)| <= 1
    ensures Spawns(h.effects) != [] ==> h.result == RunCommand(world.npm(Spawns(h.effects)[0]))
  {
    var packagePath := PackageDirOf(args.packagePath);
    var named := ResolvePackageName(packagePath, args.packageName, world.descriptor);
    if named.result.Failure? then Handled(named.result, named.effects)
    else
      var packageSpec := PackageSpec(named.result.value, args.version);
      var run := Invocation("npm", ViewArgv(packageSpec, args.field, args.json), packagePath);
      SpawnsAppend(named.effects, [Spawn(run)]);
      SpawnsOne(Spawn(run));
      Handled(RunCommand(world.npm(run)), named.effects + [Spawn(run)])
  }
}
