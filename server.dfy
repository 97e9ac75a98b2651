/** The CallTool request handler (src/server.ts:258-333): normalise the
    arguments, route by exact tool name, and shape the handler's result, or
    the message of whatever it threw, into a single text block. */
module Server {
  import opened Wrappers
  import opened JsString
  import opened JsValue
  import opened Arguments
  import opened Command
  import opened Handlers

  /** `request.params`: the tool name and its (unchecked) arguments. */
  datatype Request = Request(name: string, arguments: Value)

  datatype TextContent = Text(text: string)

  /** The reply to a tool call. A successful reply omits `isError`, which
      the protocol reads as false. */
  datatype Response = Response(content: seq<TextContent>, isError: bool)

  /** The response and the effects that produced it. */
  datatype Reply = Reply(response: Response, effects: seq<Effect>)

  const Tools: set<string> := {"npm_publish", "npm_unpublish", "npm_view_package"}

  /** The `npm_publish` case: access defaults to "public" already here, and
      is not checked against the advertised enum. */
  function PublishArgsOf(args: Record): (r: PublishArgs)
    ensures StringRead(args, "packagePath", r.packagePath)
    ensures StringRead(args, "tag", r.tag)
    ensures r.access == Some(if HasText(args, "access") then Trim(Lookup(args, "access").s) else "public")
    ensures StringRead(args, "otp", r.otp)
  {
    PublishArgs(
      GetString(args, "packagePath"),
      GetString(args, "tag"),
      Some(GetString(args, "access").GetOr("public")),
      GetString(args, "otp"))
  }

  /** The `npm_unpublish` case: each field as `getString` reads it. */
  function UnpublishArgsOf(args: Record): (r: UnpublishArgs)
    ensures StringRead(args, "packagePath", r.packagePath)
    ensures StringRead(args, "packageName", r.packageName)
    ensures StringRead(args, "version", r.version)
    ensures StringRead(args, "otp", r.otp)
  {
    UnpublishArgs(
      GetString(args, "packagePath"),
      GetString(args, "packageName"),
      GetString(args, "version"),
      GetString(args, "otp"))
  }

  /** The `npm_view_package` case: the strings as `getString` reads them,
      and `json` only when it is a boolean. */
  function ViewArgsOf(args: Record): (r: ViewArgs)
    ensures StringRead(args, "packagePath", r.packagePath)
    ensures StringRead(args, "packageName", r.packageName)
    ensures StringRead(args, "version", r.version)
    ensures StringRead(args, "field", r.field)
    ensures r.json.Some? <==> Lookup(args, "json").Bool?
    ensures r.json.Some? ==> Lookup(args, "json") == Bool(r.json.value)
  {
    ViewArgs(
      GetString(args, "packagePath"),
      GetString(args, "packageName"),
      GetString(args, "version"),
      GetString(args, "field"),
      GetBoolean(args, "json"))
  }

  /** The `switch`: an exact name match picks the handler; any other name
      throws "Unknown tool: <name>" without touching anything. */
  function Route(name: string, args: Record, env: Env, world: World): (h: Handled)
    ensures name == "npm_publish" ==> h == RunNpmPublish(env, PublishArgsOf(args), world)
    ensures name == "npm_unpublish" ==> h == RunNpmUnpublish(env, UnpublishArgsOf(args), world)
    ensures name == "npm_view_package" ==> h == RunNpmView(ViewArgsOf(args), world)
    ensures name !in Tools ==> h == Handled(Failure("Unknown tool: " + name), [])
  {
    if name == "npm_publish" then RunNpmPublish(env, PublishArgsOf(args), world)
    else if name == "npm_unpublish" then RunNpmUnpublish(env, UnpublishArgsOf(args), world)
    else if name == "npm_view_package" then RunNpmView(ViewArgsOf(args), world)
    else Handled(Failure("Unknown tool: " + name), [])
  }

  /** The `try`/`catch`: returned output and thrown messages alike become the
      one text block; only the latter sets isError. */
  function Shape(result: Result<string, string>): (r: Response)
    ensures |r.content| == 1 && r.content[0].text == Message(result)
    ensures r.isError <==> result.Failure?
  {
    match result
    case Success(output) => Response([Text(output)], false)
    case Failure(message) => Response([Text(message)], true)
  }

  /** One CallTool request: exactly one text block, flagged as an error
      exactly when the handler threw, carrying the handler's output or its
      error message; an unknown name is answered without any effect. */
  function CallTool(request: Request, env: Env, world: World): (r: Reply)
    ensures |r.response.content| == 1
    ensures var h := Route(request.name, ParseObject(request.arguments), env, world);
      && r.effects == h.effects
      && r.response.isError == h.result.Failure?
      && r.response.content[0].text == Message(h.result)
    ensures request.name !in Tools ==>
              r == Reply(Response([Text("Unknown tool: " + request.name)], true), [])
  {
    var args := ParseObject(request.arguments);
    var h := Route(request.name, args, env, world);
    Reply(Shape(h.result), h.effects)
  }

  /** A publish or unpublish call with no usable token fails with the token
      message before any file is read, any directory is made or npm runs. */
  lemma TokenCheckedFirst(request: Request, env: Env, world: World)
    requires request.name in {"npm_publish", "npm_unpublish"}
    requires !SetToText(env.npmAccessToken) && !SetToText(env.npmToken)
    ensures CallTool(request, env, world) == Reply(Response([Text(NoTokenMessage)], true), [])
  {
  }

  /** View does not depend on the environment at all. */
  lemma ViewIgnoresToken(arguments: Value, env1: Env, env2: Env, world: World)
    ensures CallTool(Request("npm_view_package", arguments), env1, world)
         == CallTool(Request("npm_view_package", arguments), env2, world)
  {
  }

  /** The `npm publish` run a publish call's arguments ask for: the
      trimmed tag defaulting to "latest", the trimmed access level defaulting
      to "public" and passed on whatever it says, the otp pair exactly when a
      non-blank otp was given, in the package directory. */
  function PublishRun(args: Record, userConfigPath: string): Invocation {
    Invocation("npm",
               PublishArgv(GetString(args, "tag").GetOr("latest"),
                           GetString(args, "access").GetOr("public"),
                           userConfigPath,
                           GetString(args, "otp")),
               PackageDirOf(GetString(args, "packagePath")))
  }

  /** From a request to the npm invocation: a publish call with a token and
      a ready scratch directory runs exactly the publish its arguments ask
      for, with the scratch directory's config, and replies with that run's
      outcome. */
  lemma PublishFromRequest(arguments: Value, env: Env, world: World)
    requires Filled(GetNpmTokenFromEnv(env)) && ScopeReady(world.scratch)
    ensures var run := PublishRun(ParseObject(arguments), UserConfigPath(world.scratch.dir));
      var r := CallTool(Request("npm_publish", arguments), env, world);
      && Spawns(r.effects) == [run]
      && r.response == Shape(RunCommand(world.npm(run)))
  {
    var args := ParseObject(arguments);
    var h := RunNpmPublish(env, PublishArgsOf(args), world);
    assert Some(GetString(args, "access").GetOr("public")).GetOr("public") == GetString(args, "access").GetOr("public");
    assert h.result == RunCommand(world.npm(Spawns(h.effects)[0]));
  }

  /** The `npm view` run a view call's arguments ask for once the name is
      known: the spec, the field when a non-blank one was given, and
      `--json` when json is true, in the package directory. */
  function ViewRun(args: Record, name: string): Invocation {
    Invocation("npm",
               ViewArgv(PackageSpec(name, GetString(args, "version")), GetString(args, "field"), GetBoolean(args, "json")),
               PackageDirOf(GetString(args, "packagePath")))
  }

  /** A view call naming its package reads nothing, runs exactly the view
      its arguments ask for, and replies with that run's outcome. */
  lemma ViewFromRequest(arguments: Value, env: Env, world: World)
    requires HasText(ParseObject(arguments), "packageName")
    ensures var args := ParseObject(arguments);
      var run := ViewRun(args, GetString(args, "packageName").value);
      var r := CallTool(Request("npm_view_package", arguments), env, world);
      && r.effects == [Spawn(run)]
      && r.response == Shape(RunCommand(world.npm(run)))
  {
  }

  /** The `npm unpublish` run an unpublish call's arguments ask for once the
      name is known: `name@version`, the scratch directory's config, the otp
      pair when a non-blank otp was given, in the package directory. */
  function UnpublishRun(args: Record, name: string, userConfigPath: string): Invocation
    requires HasText(args, "version")
  {
    Invocation("npm",
               UnpublishArgv(name + "@" + GetString(args, "version").value, userConfigPath, GetString(args, "otp")),
               PackageDirOf(GetString(args, "packagePath")))
  }

  /** From a request to the npm invocation: an unpublish call with a token,
      a package name, a version and a ready scratch directory runs exactly
      the unpublish its arguments ask for, and replies with that run's
      outcome. */
  lemma UnpublishFromRequest(arguments: Value, env: Env, world: World)
    requires Filled(GetNpmTokenFromEnv(env)) && ScopeReady(world.scratch)
    requires HasText(ParseObject(arguments), "packageName") && HasText(ParseObject(arguments), "version")
    ensures var args := ParseObject(arguments);
      var run := UnpublishRun(args, GetString(args, "packageName").value, UserConfigPath(world.scratch.dir));
      var r := CallTool(Request("npm_unpublish", arguments), env, world);
      && Spawns(r.effects) == [run]
      && r.response == Shape(RunCommand(world.npm(run)))
  {
    var args := ParseObject(arguments);
    var a := UnpublishArgsOf(args);
    var named := ResolvePackageName(PackageDirOf(a.packagePath), a.packageName, world.descriptor);
    assert named == Handled(Success(a.packageName.value), []);
    var h := RunNpmUnpublish(env, a, world);
    assert Route("npm_unpublish", args, env, world) == h;
    assert h.result == RunCommand(world.npm(Spawns(h.effects)[0]));
  }

  /** An unpublish call that has a token and resolves its name but has no
      non-blank version fails with the version message; no directory is
      made and npm does not run. */
  lemma UnpublishNeedsVersion(arguments: Value, env: Env, world: World)
    requires Filled(GetNpmTokenFromEnv(env))
    requires var args := ParseObject(arguments);
      && ResolvePackageName(PackageDirOf(GetString(args, "packagePath")),
                            GetString(args, "packageName"), world.descriptor).result.Success?
      && !HasText(args, "version")
    ensures var r := CallTool(Request("npm_unpublish", arguments), env, world);
      && r.response == Response([Text(NoVersionMessage)], true)
      && MakeTempDir !in r.effects
      && Spawns(r.effects) == []
  {
  }

  /** Whatever the call, a scratch directory it made is removed as its last
      effect, and npm runs at most once, the reply carrying that run's
      outcome. */
  lemma ScratchNeverOutlivesCall(request: Request, env: Env, world: World)
    ensures var r := CallTool(request, env, world);
      && RemovesScratch(r.effects, world.scratch)
      && |Spawns(r.effects)| <= 1
      && (Spawns(r.effects) != [] ==> r.response == Shape(RunCommand(world.npm(Spawns(r.effects)[0]))))
  {
    RouteRunsOnce(request.name, ParseObject(request.arguments), env, world);
  }

  /** Every route removes what it made, and runs npm at most once with the
      run's outcome as its result. */
  lemma RouteRunsOnce(name: string, args: Record, env: Env, world: World)
    ensures var h := Route(name, args, env, world);
      && RemovesScratch(h.effects, world.scratch)
      && |Spawns(h.effects)| <= 1
      && (Spawns(h.effects) != [] ==> h.result == RunCommand(world.npm(Spawns(h.effects)[0])))
  {
    if name == "npm_publish" {
      var h := RunNpmPublish(env, PublishArgsOf(args), world);
      assert Route(name, args, env, world) == h;
    } else if name == "npm_unpublish" {
      var a := UnpublishArgsOf(args);
      var h := RunNpmUnpublish(env, a, world);
      assert Route(name, args, env, world) == h;
      var named := ResolvePackageName(PackageDirOf(a.packagePath), a.packageName, world.descriptor);
      assert |Spawns(h.effects)| <= 1 by {
        if Filled(GetNpmTokenFromEnv(env)) && named.result.Success? && !Filled(a.version) {
          assert Spawns(h.effects) == Spawns(named.effects);
        }
      }
    } else if name == "npm_view_package" {
      var h := RunNpmView(ViewArgsOf(args), world);
      assert Route(name, args, env, world) == h;
    } else {
      assert Route(name, args, env, world).effects == [];
    }
  }
}
