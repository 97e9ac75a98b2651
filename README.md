# npm MCP server: a verified model of its tool-call core

`src/server.ts` is an MCP server with three tools: `npm_publish`, `npm_unpublish` and `npm_view_package`. Each tool call runs the `npm` command line; publish and unpublish authenticate with a token taken from the server's environment, while view needs no token. This project models the deterministic logic of that file in Dafny:

- how the loosely typed tool-call arguments are normalised (`parseObject`, `getString`, `getBoolean`);
- how the npm token is chosen (`getNpmTokenFromEnv`);
- how the package name is resolved (`resolvePackageName`);
- how each handler checks its inputs, builds its npm argument vector and package spec, creates and clears its credential scope, and runs npm;
- how `runCommand` turns the child's output and exit into a result, in its `data` and `close` handlers;
- how the CallTool handler dispatches by tool name and shapes a result or a thrown error into a reply.

The modules follow the program:

| module | file | models |
|---|---|---|
| `Wrappers` | wrappers.dfy | `Option` and `Result` |
| `JsString` | jsstring.dfy | `String.prototype.trim`, `filter(Boolean)`, `join`, and `${n}` for integers |
| `JsValue` | jsvalue.dfy | JSON-like values, JavaScript truthiness, `typeof`, `Array.isArray`, property lookup |
| `Arguments` | arguments.dfy | `parseObject`, `getString`, `getBoolean`, `getNpmTokenFromEnv` |
| `Command` | command.dfy | `runCommand`: the close-handler result, and the run's state as a class fed with child events |
| `Handlers` | handlers.dfy | `resolvePackageName`, the argument vectors, and the three handlers |
| `Server` | server.dfy | the CallTool handler |
| `Scenarios` | scenarios.dfy | concrete requests and npm outcomes, with the command lines and replies they produce |

How the model is built:

- Every call into the file system or into a child process is an input to the model, bundled as a `World`. The World holds:
  - the parsed package.json of each directory, or the message that reading or parsing it throws;
  - what `mkdtemp` and the `.npmrc` write do on this call;
  - how npm ends for each invocation.
- Each handler returns its result together with the trace of effects it performs, in order. The effects are: read descriptor, make temp dir, write config, spawn, and remove temp dir. The trace lets the model state these properties:
  - the token check comes first;
  - a failed validation runs nothing;
  - npm runs at most once;
  - a scratch directory that was made is always removed last.
- Code that updates state step by step is imperative Dafny:
  - The three argument vectors are built by methods that push onto a sequence, as the source does. Each method is proved equal to the vector function the handlers use.
  - `runCommand`'s `+=` accumulators and its settle-once promise are the fields of the class `CommandRun`. `RunEvents` feeds a run its events in a loop and is proved to settle with the reference `Outcome` of the event sequence.

## Model

| member | source | states |
|---|---|---|
| Arguments.ParseObject | src/server.ts:56-61 | an object argument is returned with all its fields; `undefined`, `null`, a boolean, a number, a string or an array becomes the empty record |
| Arguments.GetString | src/server.ts:63-70 | present exactly when the field is a string that `trim` does not reduce to ""; the value is then the trimmed string, non-empty and with no trimmable code point at either end |
| Arguments.GetBoolean | src/server.ts:72-75 | present exactly when the field is a boolean, and then it is that boolean |
| Arguments.GetNpmTokenFromEnv | src/server.ts:50-54 | a NPM_ACCESS_TOKEN that trims to something non-empty wins, trimmed; otherwise such a NPM_TOKEN, trimmed; otherwise a falsy value ("" when NPM_TOKEN is set, absent when unset); the result is truthy exactly when one of the two variables has text |
| JsString.TrimCharacterization | src/server.ts:68 | `trim(s) == t` exactly when `t` has no trimmable ends and `s` is `t` with only trimmable code points before and after it |
| JsString.TrimUnique | src/server.ts:68 | a string with untrimmable ends, padded only with trimmable code points, is what `trim` returns |
| JsString.TrimIdempotent | src/server.ts:68 | trimming twice is trimming once |
| JsString.TrimBlank | src/server.ts:68-69 | `trim` gives "" exactly when every code point is trimmable |
| JsString.Trim | src/server.ts:68 | the result has no trimmable end and sits in the input with only trimmable code points around it |
| JsString.IntTextInjective | src/server.ts:205 | different exit codes are written differently in the failure message |
| JsString.NatTextValue | src/server.ts:205 | the decimal text of a number reads back as that number |
| Command.CodeText | src/server.ts:205 | the code's text is never empty, and is "null" exactly for a child ended by a signal |
| Command.ExitFailureText | src/server.ts:205 | the message is "Command failed with exit code ", then the code's text, then a full stop |
| Command.ExitFailureTextInjective | src/server.ts:205 | distinct exit codes, and a signal, give distinct failure messages |
| Command.CombinedOutput | src/server.ts:200 | empty exactly when both streams are blank; trimmed stdout, then "\n", then trimmed stderr when both have text; only the one with text otherwise |
| Command.JoinNonEmptyPair | src/server.ts:200 | `[a, b].filter(Boolean).join(sep)` is `a + sep + b`, `a` or `b`, depending on which are non-empty |
| Command.RunCommand | src/server.ts:195-206 | a spawn error rejects with its message; on close, success exactly for exit code 0; the text is the combined output when there is any, else "Command finished without output." on success or "Command failed with exit code N." (N the code, or null) on failure; after a close the text is never empty, while a spawn error's message is passed on as it is |
| Command.CommandRun.constructor | src/server.ts:184-185 | both accumulators start empty and the promise is unsettled |
| Command.CommandRun.Handle | src/server.ts:187-206 | a data event appends its chunk to its own stream only; an error or close event settles the promise only if it is unsettled, with the error or with the close result over the text gathered so far |
| Command.OutcomeStep | src/server.ts:195-206 | appending one event to an event sequence changes the reference outcome exactly as one call to the handler does |
| Command.RunEvents | src/server.ts:176-208 | feeding a fresh run its events in order settles it with the reference outcome: the first error or close event decides, over the output that arrived before it |
| Command.StreamsStep | src/server.ts:187-193 | a stdout chunk grows only stdout, a stderr chunk grows only stderr |
| Command.SwapKeepsStreams | src/server.ts:187-193 | swapping an adjacent stdout chunk and stderr chunk leaves both streams' texts unchanged |
| Command.InterleavingIrrelevant | src/server.ts:187-200 | the order in which stdout and stderr chunks arrive does not change the outcome |
| Command.CloseAfterOutput | src/server.ts:199-206 | a child that writes and then closes settles with the close result over everything it wrote |
| Command.FirstSettling | src/server.ts:195-199 | the position found is the first error or close event; absent exactly when there is none |
| Handlers.ResolvePackageName | src/server.ts:77-92 | a truthy provided name is returned as it is and nothing is read; otherwise package.json is read once, and the result is its trimmed `name` when that name is a string with text; a read or parse error propagates; a missing, non-string or blank name raises "package name is required…"; npm never runs and no scratch directory is made |
| Handlers.NameProperty | src/server.ts:85 | reading `name` fails exactly when the parsed value is null or undefined (the TypeError); an object gives its own `name` field; any other value gives undefined |
| Handlers.DescriptorName | src/server.ts:85-89 | succeeds exactly when the name is a string with text, giving it trimmed and non-empty; every other value raises the name message |
| Handlers.BuildPublishArgs | src/server.ts:114-117 | the vector pushed together is the publish vector: the seven fixed entries, then `--otp otp` when an otp is given |
| Handlers.BuildUnpublishArgs | src/server.ts:149-152 | the vector pushed together is the unpublish vector: `unpublish spec --userconfig cfg`, then the otp pair when an otp is given |
| Handlers.BuildViewArgs | src/server.ts:165-171 | the vector pushed together is the view vector: `view spec`, then the field when one is given, then `--json` when json is true |
| Handlers.PublishArgvReadsBack | src/server.ts:114-117 | read as flag/value pairs, the publish vector carries exactly the given tag, access and config path, and an otp exactly when one was given; its length is 9 with an otp and 7 without |
| Handlers.UnpublishArgvReadsBack | src/server.ts:149-152 | the unpublish vector carries the spec in second position, the config path, and an otp exactly when one was given; its length is 6 or 4 |
| Handlers.ViewArgvShape | src/server.ts:165-171 | the view vector starts `view spec`, has the field third when one is given, ends with `--json` when json is true, and has no other entries |
| Handlers.PackageSpec | src/server.ts:163 | the spec starts with the name, is longer than it exactly when a truthy version is given, and then continues with '@' and the version |
| Handlers.SpecRoundTrip | src/server.ts:163 | for a name with '@' only at its start and a version without '@', `name@version` (or `name`) splits back into that name and that version |
| Handlers.NpmrcContents | src/server.ts:110 | one line: the registry's `_authToken` key, then exactly the token, then a newline |
| Handlers.WithCredentialScope | src/server.ts:104-123 | the scratch directory is made first; a failing `mkdtemp` throws before anything else; otherwise the `.npmrc` with the token is written second and the directory is removed last on every path; npm runs once, with the scratch `.npmrc`, exactly when the write succeeded, and its outcome is the result |
| Handlers.RunNpmPublish | src/server.ts:94-124 | without a truthy token it fails with the token message and does nothing else; otherwise it makes a credential scope, and, when `mkdtemp` and the `.npmrc` write both succeed, runs `npm publish` once in the package directory, with the tag defaulting to "latest" and the access defaulting to "public"; a scratch directory that was made is removed last, and a run's outcome is the result |
| Handlers.RunNpmUnpublish | src/server.ts:126-158 | the token check first, then name resolution and its error, then the version check ("version is required for npm_unpublish."); only then the credential scope and `npm unpublish name@version`; the scratch directory is removed last; npm's outcome is the result |
| Handlers.UnpublishNamed | src/server.ts:138-157 | after the name is resolved and a version is given, the credential scope follows the reads and runs `npm unpublish name@version`, with the otp pair when one is given |
| Handlers.ScopeAfterReading | src/server.ts:133-157 | reads that run nothing, followed by a credential scope, run what the scope runs and still end with its cleanup |
| Handlers.RunNpmView | src/server.ts:160-174 | no token is needed and no scratch directory is made; a name-resolution error propagates; otherwise exactly one `npm view` run with the spec, field and `--json` as given, whose outcome is the result |
| Server.PublishArgsOf | src/server.ts:265-270 | packagePath, tag and otp as `getString` reads them; access trimmed when it has text, else "public", with no check against the advertised enum |
| Server.UnpublishArgsOf | src/server.ts:283-288 | packagePath, packageName, version and otp as `getString` reads them |
| Server.ViewArgsOf | src/server.ts:301-307 | packagePath, packageName, version and field as `getString` reads them; json present exactly when the field is a boolean, and then that boolean |
| Server.Shape | src/server.ts:272-331 | exactly one text block carrying the output or the error message, flagged as an error exactly when the handler threw |
| Server.Route | src/server.ts:263-321 | each of the three exact tool names runs its handler on the arguments as `getString`/`getBoolean` read them; any other name throws "Unknown tool: name" without any effect |
| Server.CallTool | src/server.ts:258-333 | every reply has exactly one text block; it is flagged as an error exactly when the handler threw, and carries the handler's output or its error message; an unknown name is answered "Unknown tool: name" without any effect |
| Server.TokenCheckedFirst | src/server.ts:264-298 | a publish or unpublish call without token text fails with the token message, before any read, directory or run |
| Server.ViewIgnoresToken | src/server.ts:300-307 | the view reply does not depend on the environment |
| Server.PublishFromRequest | src/server.ts:264-270 | with a token and a ready scratch directory, a publish request runs exactly the publish its trimmed arguments ask for and replies with that run's outcome |
| Server.UnpublishFromRequest | src/server.ts:282-288 | with a token, a package name, a version and a ready scratch directory, an unpublish request runs exactly `npm unpublish name@version` with the scratch config and the otp its arguments ask for, in the package directory, and replies with that run's outcome |
| Server.ViewFromRequest | src/server.ts:300-307 | a view request naming its package reads nothing, runs exactly the view its arguments ask for, and replies with that run's outcome |
| Server.UnpublishNeedsVersion | src/server.ts:133-136 | an unpublish request with a token and a resolved name, but no version text, fails with the version message; no directory is made and npm does not run |
| Server.ScratchNeverOutlivesCall | src/server.ts:258-333 | whatever the request, a scratch directory that was made is removed as the last effect, npm runs at most once, and the reply carries that run's outcome |
| Server.RouteRunsOnce | src/server.ts:263-321 | every route removes what it made, and runs npm at most once with the run's outcome as its result |
| Scenarios.PlainField | src/server.ts:63-70 | a string field with no trimmable ends is read back unchanged |
| Scenarios.AbsentField | src/server.ts:63-67 | a field that is not there reads as absent |
| Scenarios.BetaPublishCommandLine | src/server.ts:114-117 | tag "beta", access "restricted", otp "123456" and no path run `npm publish --tag beta --access restricted --userconfig <dir>/.npmrc --otp 123456` in the working directory |
| Scenarios.BetaPublishWithoutOtp | src/server.ts:114-117 | padded tag and access values arrive trimmed, and without an otp the vector stops after the config path |
| Scenarios.FooViewCommandLine | src/server.ts:163-173 | a view of foo at 1.2.3, field dist-tags, as JSON, is the single run `npm view foo@1.2.3 dist-tags --json`, and its outcome is the reply |
| Scenarios.OkOutputReply | src/server.ts:199-202 | exit 0 with "ok" on stdout is a plain reply "ok" |
| Scenarios.ForbiddenReply | src/server.ts:199-206 | exit 1 with "403 Forbidden" on stderr is an error reply "403 Forbidden" |
| Scenarios.BothStreamsReply | src/server.ts:200 | both streams with text are joined stdout first, with one newline |
| Scenarios.SilentExitCode | src/server.ts:205 | exit 2 with blank output fails with "Command failed with exit code 2." |
| Scenarios.SilentSignal | src/server.ts:205 | a child ended by a signal (a null code) with no output fails with "Command failed with exit code null." |
| Scenarios.SilentSuccess | src/server.ts:202 | exit 0 with no output succeeds with "Command finished without output." |
| Scenarios.ArgumentsNormalised | src/server.ts:260 | a call whose arguments are not an object, arrays included, behaves as a call with no arguments |
| Scenarios.AccessNotValidated | src/server.ts:268 | an access level outside the advertised enum ("banana") is passed to npm as it is |

## Left out

- Real file-system effects are not modelled. `mkdtemp`, the `.npmrc` write and `rm` appear only as effects in the trace; their outcomes are inputs. The write's effect records the path and the contents; its mode 0o600 is not recorded.
- An error thrown by `rm` in `finally` is not modelled. Such an error would replace the handler's result.
- `readFile` and `JSON.parse` of package.json are one input: the parsed value for each directory, or the message they throw.
- `path.resolve`, `join` and `process.cwd()` are not computed. The working directory is named by the caller's `packagePath` or by `WorkingDirectory`. The config path is `dir + "/.npmrc"`.
- `spawn` and the win32 `shell` flag are left out, as is the child's environment. How npm ends for each invocation is an input.
- The decoding of chunks into text is not modelled. Each chunk arrives as text, so a multi-byte character split across two chunks is not modelled.
- The async and Promise structure is not modelled:
  - handlers are sequential functions returning a result;
  - `RunEvents` replays one event sequence;
  - concurrent calls are not modelled.
- The MCP SDK `Server`, the stdio transport, the static ListTools catalogue and `main` are left out. The reply's `type: "text"` tag and the absent `isError` on success are folded into `Response`.
- Conversion of a non-Error throw with `String(error)` is not modelled. Every failure in the model carries a message.
- JavaScript strings are UTF-16 code units; the model's strings are sequences of Unicode scalar values.
- Numbers are reals. NaN, the infinities and -0 are not modelled, and neither are non-integral exit codes.
- Inherited properties are not modelled. A field is present only when it is an own key of the argument object or the parsed package.json; keys that `input[key]` would find on `Object.prototype` are missed.
- `getNpmTokenFromEnv` is falsy in two ways: it can return "" as well as `undefined`. The model keeps this. Every caller tests truthiness, so the difference is never seen.
- `runCommand` gathers stdout and stderr separately and puts all of stdout before all of stderr, whatever order the chunks arrive in (src/server.ts:187-200). The combined output therefore does not record arrival order; `Command.InterleavingIrrelevant` proves that the arrival order does not change the outcome.
- `Scenarios.SilentExitCode` states the failure in terms of `ExitFailureText(Some(2))` and `CodeText(Some(2)) == "2"`, rather than as one literal string.
