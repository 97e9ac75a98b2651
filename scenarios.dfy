/** Concrete calls: the command lines and replies the server produces for
    particular requests and particular npm outcomes. */
module Scenarios {
  import opened Wrappers
  import opened JsString
  import opened JsValue
  import opened Arguments
  import opened Command
  import opened Handlers
  import opened Server

  /** A string field with no trimmable ends reads back as it is. */
  lemma PlainField(args: Record, key: string, t: string)
    requires Lookup(args, key) == Str(t) && t != [] && !IsTrimmable(t[0]) && !IsTrimmable(t[|t| - 1])
    ensures GetString(args, key) == Some(t)
  {
    TrimKeepsTrimmed(t);
  }

  /** A field that is not there reads as absent. */
  lemma AbsentField(args: Record, key: string)
    requires key !in args
    ensures GetString(args, key) == None
  {
  }

  lemma BetaFields(args: Record)
    requires "packagePath" !in args
    requires Lookup(args, "tag") == Str("beta")
    requires Lookup(args, "access") == Str("restricted")
    requires Lookup(args, "otp") == Str("123456")
    ensures GetString(args, "tag") == Some("beta")
    ensures GetString(args, "access") == Some("restricted")
    ensures GetString(args, "otp") == Some("123456")
    ensures GetString(args, "packagePath") == None
  {
    PlainField(args, "tag", "beta");
    PlainField(args, "access", "restricted");
    PlainField(args, "otp", "123456");
    AbsentField(args, "packagePath");
  }

  lemma BetaRun(args: Record, cfg: string)
    requires GetString(args, "tag") == Some("beta")
    requires GetString(args, "access") == Some("restricted")
    requires GetString(args, "otp") == Some("123456")
    requires GetString(args, "packagePath") == None
    ensures PublishRun(args, cfg)
         == Invocation("npm", ["publish", "--tag", "beta", "--access", "restricted", "--userconfig", cfg, "--otp", "123456"],
                       WorkingDirectory)
  {
    BetaArgv(cfg);
  }

  lemma BetaArgv(cfg: string)
    ensures PublishArgv("beta", "restricted", cfg, Some("123456"))
         == ["publish", "--tag", "beta", "--access", "restricted", "--userconfig", cfg, "--otp", "123456"]
  {
  }

  /** Publish with tag "beta", access "restricted" and otp "123456", and no
      package path: npm runs in the server's working directory with the otp
      pair last. */
  lemma BetaPublishCommandLine(arguments: Value, env: Env, world: World)
    requires arguments.Object? && "packagePath" !in arguments.fields
    requires Lookup(arguments.fields, "tag") == Str("beta")
    requires Lookup(arguments.fields, "access") == Str("restricted")
    requires Lookup(arguments.fields, "otp") == Str("123456")
    requires Filled(GetNpmTokenFromEnv(env)) && ScopeReady(world.scratch)
    ensures Spawns(CallTool(Request("npm_publish", arguments), env, world).effects)
         == [Invocation("npm", ["publish", "--tag", "beta", "--access", "restricted",
                                "--userconfig", world.scratch.dir + "/.npmrc", "--otp", "123456"],
                        WorkingDirectory)]
  {
    PublishFromRequest(arguments, env, world);
    BetaFields(arguments.fields);
    BetaRun(arguments.fields, UserConfigPath(world.scratch.dir));
  }

  lemma PaddedFields(args: Record)
    requires "packagePath" !in args && "otp" !in args
    requires Lookup(args, "tag") == Str(" beta\n")
    requires Lookup(args, "access") == Str("\trestricted ")
    ensures GetString(args, "tag") == Some("beta")
    ensures GetString(args, "access") == Some("restricted")
    ensures GetString(args, "otp") == None
    ensures GetString(args, "packagePath") == None
  {
    TrimBeta();
    TrimRestricted();
    AbsentField(args, "otp");
    AbsentField(args, "packagePath");
  }

  lemma PaddedRun(args: Record, cfg: string)
    requires GetString(args, "tag") == Some("beta")
    requires GetString(args, "access") == Some("restricted")
    requires GetString(args, "otp") == None
    requires GetString(args, "packagePath") == None
    ensures PublishRun(args, cfg)
         == Invocation("npm", ["publish", "--tag", "beta", "--access", "restricted", "--userconfig", cfg],
                       WorkingDirectory)
  {
    PaddedArgv(cfg);
  }

  lemma PaddedArgv(cfg: string)
    ensures PublishArgv("beta", "restricted", cfg, None)
         == ["publish", "--tag", "beta", "--access", "restricted", "--userconfig", cfg]
  {
  }

  /** Without an otp the trailing pair is not there, and padded values
      arrive trimmed. */
  lemma BetaPublishWithoutOtp(arguments: Value, env: Env, world: World)
    requires arguments.Object? && "packagePath" !in arguments.fields && "otp" !in arguments.fields
    requires Lookup(arguments.fields, "tag") == Str(" beta\n")
    requires Lookup(arguments.fields, "access") == Str("\trestricted ")
    requires Filled(GetNpmTokenFromEnv(env)) && ScopeReady(world.scratch)
    ensures Spawns(CallTool(Request("npm_publish", arguments), env, world).effects)
         == [Invocation("npm", ["publish", "--tag", "beta", "--access", "restricted",
                                "--userconfig", world.scratch.dir + "/.npmrc"],
                        WorkingDirectory)]
  {
    PublishFromRequest(arguments, env, world);
    PaddedFields(arguments.fields);
    PaddedRun(arguments.fields, UserConfigPath(world.scratch.dir));
  }

  lemma TrimBeta()
    ensures Trim(" beta\n") == "beta" && !AllTrimmable(" beta\n")
  {
    var tag := " beta\n";
    assert !IsTrimmable(tag[1]);
    assert PaddedAt(tag, "beta", 1);
    TrimUnique(tag, "beta", 1);
  }

  lemma TrimRestricted()
    ensures Trim("\trestricted ") == "restricted" && !AllTrimmable("\trestricted ")
  {
    var access := "\trestricted ";
    assert !IsTrimmable(access[1]);
    assert PaddedAt(access, "restricted", 1);
    TrimUnique(access, "restricted", 1);
  }

  lemma FooFields(args: Record)
    requires "packagePath" !in args
    requires Lookup(args, "packageName") == Str("foo")
    requires Lookup(args, "version") == Str("1.2.3")
    requires Lookup(args, "field") == Str("dist-tags")
    ensures GetString(args, "packageName") == Some("foo")
    ensures GetString(args, "version") == Some("1.2.3")
    ensures GetString(args, "field") == Some("dist-tags")
    ensures GetString(args, "packagePath") == None
  {
    PlainField(args, "packageName", "foo");
    PlainField(args, "version", "1.2.3");
    PlainField(args, "field", "dist-tags");
    AbsentField(args, "packagePath");
  }

  lemma FooRun(args: Record)
    requires GetString(args, "version") == Some("1.2.3")
    requires GetString(args, "field") == Some("dist-tags")
    requires GetBoolean(args, "json") == Some(true)
    requires GetString(args, "packagePath") == None
    ensures ViewRun(args, "foo") == Invocation("npm", ["view", "foo@1.2.3", "dist-tags", "--json"], WorkingDirectory)
  {
    FooArgv();
  }

  lemma FooArgv()
    ensures ViewArgv(PackageSpec("foo", Some("1.2.3")), Some("dist-tags"), Some(true))
         == ["view", "foo@1.2.3", "dist-tags", "--json"]
  {
    assert PackageSpec("foo", Some("1.2.3")) == "foo@1.2.3";
  }

  /** View of foo at 1.2.3, field dist-tags, as JSON: one npm run with the
      spec, the field and the flag, and its outcome is the reply. */
  lemma FooViewCommandLine(arguments: Value, env: Env, world: World)
    requires arguments.Object? && "packagePath" !in arguments.fields
    requires Lookup(arguments.fields, "packageName") == Str("foo")
    requires Lookup(arguments.fields, "version") == Str("1.2.3")
    requires Lookup(arguments.fields, "field") == Str("dist-tags")
    requires Lookup(arguments.fields, "json") == Bool(true)
    ensures var run := Invocation("npm", ["view", "foo@1.2.3", "dist-tags", "--json"], WorkingDirectory);
      var r := CallTool(Request("npm_view_package", arguments), env, world);
      && r.effects == [Spawn(run)]
      && r.response == Shape(RunCommand(world.npm(run)))
  {
    FooFields(arguments.fields);
    FooRun(arguments.fields);
    ViewFromRequest(arguments, env, world);
  }

  /** Exit 0 with "ok" on stdout is a plain reply "ok". */
  lemma OkOutputReply()
    ensures Shape(RunCommand(Closed(Some(0), "ok\n", ""))) == Response([Text("ok")], false)
  {
    var out := "ok\n";
    assert !IsTrimmable(out[0]);
    assert AllTrimmable("");
    assert PaddedAt(out, "ok", 0);
    TrimUnique(out, "ok", 0);
    assert CombinedOutput(out, "") == "ok";
  }

  /** Exit 1 with "403 Forbidden" on stderr is an error reply carrying it. */
  lemma ForbiddenReply()
    ensures Shape(RunCommand(Closed(Some(1), "", "403 Forbidden\n"))) == Response([Text("403 Forbidden")], true)
  {
    var err := "403 Forbidden\n";
    assert !IsTrimmable(err[0]);
    assert AllTrimmable("");
    assert PaddedAt(err, "403 Forbidden", 0);
    TrimUnique(err, "403 Forbidden", 0);
    assert CombinedOutput("", err) == "403 Forbidden";
  }

  /** Both streams carry text: stdout first, a newline, then stderr. */
  lemma BothStreamsReply()
    ensures RunCommand(Closed(Some(1), "npm notice\n", "  E404\n")) == Failure("npm notice" + "\n" + "E404")
  {
    TrimNotice();
    TrimE404();
  }

  lemma TrimNotice()
    ensures Trim("npm notice\n") == "npm notice" && !AllTrimmable("npm notice\n")
  {
    var out := "npm notice\n";
    assert !IsTrimmable(out[0]);
    assert PaddedAt(out, "npm notice", 0);
    TrimUnique(out, "npm notice", 0);
  }

  lemma TrimE404()
    ensures Trim("  E404\n") == "E404" && !AllTrimmable("  E404\n")
  {
    var err := "  E404\n";
    assert !IsTrimmable(err[2]);
    assert PaddedAt(err, "E404", 2);
    TrimUnique(err, "E404", 2);
  }

  /** Silent failures name the exit code, or "null" when a signal ended the
      child; a silent success has its placeholder text. */
  lemma SilentExitCode()
    ensures RunCommand(Closed(Some(2), " ", "\n")) == Failure(ExitFailureText(Some(2)))
    ensures CodeText(Some(2)) == "2"
  {
    TrimBlank(" ");
    TrimBlank("\n");
    assert DigitChar(2) == '2';
  }

  lemma SilentSignal()
    ensures RunCommand(Closed(None, "", "")) == Failure(ExitFailureText(None))
    ensures CodeText(None) == "null"
  {
    assert AllTrimmable("");
  }

  lemma SilentSuccess()
    ensures RunCommand(Closed(Some(0), "", "")) == Success(NoOutputText)
  {
    assert AllTrimmable("");
  }

  /** Arguments that are not an object, arrays included, are treated as no
      arguments at all. */
  lemma ArgumentsNormalised(name: string, arguments: Value, env: Env, world: World)
    requires !arguments.Object?
    ensures CallTool(Request(name, arguments), env, world) == CallTool(Request(name, Object(map[])), env, world)
  {
  }

  /** An access level outside the advertised enum is passed to npm as it is. */
  lemma AccessNotValidated(arguments: Value, env: Env, world: World)
    requires arguments.Object? && Lookup(arguments.fields, "access") == Str("banana")
    requires Filled(GetNpmTokenFromEnv(env)) && ScopeReady(world.scratch)
    ensures FlagValue(Spawns(CallTool(Request("npm_publish", arguments), env, world).effects)[0].args[1..],
                      "--access") == Some("banana")
  {
    PublishFromRequest(arguments, env, world);
    BananaRun(arguments.fields, UserConfigPath(world.scratch.dir));
  }

  lemma BananaRun(args: Record, cfg: string)
    requires Lookup(args, "access") == Str("banana")
    ensures FlagValue(PublishRun(args, cfg).args[1..], "--access") == Some("banana")
  {
    PlainField(args, "access", "banana");
    PublishArgvReadsBack(GetString(args, "tag").GetOr("latest"), "banana", cfg, GetString(args, "otp"));
  }
}
