# mcp-deploy-fc, modelled in Dafny

This project models the core of an MCP tool server. The server deploys code to Alibaba Cloud Function Compute and removes deployed functions. The model covers two parts of it.

The first part shapes requests (`src/fc.ts`):

- splitting command lines;
- choosing credentials from the environment;
- naming the deployed function, bounding its description and merging its environment variables;
- filling the deployment template for a deploy or a removal;
- turning the code generator's reply into deployment parameters.

The second part serves requests (`src/mcp-server.ts`):

- the file-backed record store `Cache`, whose reads fail soft and whose failed writes are swallowed;
- the `withCache` wrapper, which runs a tool handler once per distinct request and lets identical requests wait and replay the stored outcome;
- the argument schema of the removal tool.

Modules:

- Wrappers: `Option` and `Result`.
- JsString: the JavaScript string built-ins the code relies on (`indexOf`, `lastIndexOf`, `substring`, `||` on strings, `join`), with their edge cases.
- Fc: the request-shaping rules of `src/fc.ts`.
- SlotStore: the store. `Read` and `Write` are its specification. The class `Cache` holds the records in a map that its methods update in place.
- SingleFlight: the wrapper as a step machine.
  - A call's steps are its reads, its writes and the run of the handler. Each read and write takes a flag saying whether it succeeds.
  - `Advance` and `Run` are the specification.
  - `Interleave` runs several calls on one store.
  - The classes `Call` and `CachedTool` perform the same steps on a `Cache` object and are proved against `Advance` and `Run`.
- ErrorRecord: what the store does to a thrown `Error` (see Findings).
- ToolSchema: the argument schema of `removeFunctionCompute`.

The handler's outcome, the request fingerprint (an MD5 digest of the JSON parameters), generated identifiers, `JSON.parse` of the generator's reply, and the success of each file-system call are all parameters of the model.

## Model

| member | source | states |
|---|---|---|
| JsString.Or | src/fc.ts:60-61 | `a \|\| b` is `a` when `a` is a non-empty string, otherwise `b` |
| JsString.IndexOf | src/fc.ts:372 | -1 exactly when the character is absent; otherwise the first position holding it |
| JsString.LastIndexOf | src/fc.ts:372 | -1 exactly when the character is absent; otherwise the last position holding it |
| JsString.Substring | src/fc.ts:372 | in-range bounds give the slice between them, swapped bounds give the slice the other way round, and the result is never longer than the input |
| Fc.ParseCommand | src/fc.ts:44-46 | splitting on single spaces gives at least one part, no part holds a space, and joining the parts with spaces restores the command |
| Fc.ParseJoinedCommand | src/fc.ts:15 | splitting the logged join of a non-empty argument vector whose words hold no space gives back the vector |
| Fc.ArgumentsOf | src/fc.ts:176-184 | a parsed command line spawns words that join back to its text; an argument vector is spawned as given |
| Fc.InstallCommands | src/fc.ts:174-187 | no commands unless an install command is given and non-empty; otherwise the pip mirror setting, the npm mirror setting, then the install command as given |
| Fc.SelectCredentials | src/fc.ts:60-73 | succeeds iff an account id is set and the chosen family's key id and secret are set; the ALIYUN_ variables win; the secret follows the key id's family; a token only with an ALIBABA_CLOUD_ key id; otherwise fails with the fixed message |
| Fc.PrefixFunctionName | src/fc.ts:158-160 | the name always starts with `mcp-deploy-fc-`; an already prefixed name is unchanged; otherwise the given name follows the prefix |
| Fc.PrefixFunctionNameIdempotent | src/fc.ts:158-160 | prefixing twice is prefixing once |
| Fc.ResolveFunctionName | src/fc.ts:146-160 | no name given gives `mcp-deploy-fc-` plus the generated id; a given name is prefixed |
| Fc.ShapeDescription | src/fc.ts:194-197 | the description is non-empty and at most 256 long; absent or empty gives the default text; up to 256 is kept; longer is cut to 250 plus `...` |
| Fc.EffectiveRegion | src/fc.ts:191-192 | an absent or empty region becomes `cn-hangzhou`; any other region is kept |
| Fc.EffectivePort | src/fc.ts:204 | an absent or zero port becomes 9000; any other port is kept |
| Fc.MergeEnvironment | src/fc.ts:198-201 | the user's variables override the template's; the template's other variables stay; no other variable appears |
| Fc.FillDeployTemplate | src/fc.ts:189-206 | fails iff the template has no route; both regions get the effective region; the server and the first route get the function name; description, variables, timeout, start command and port are set as shaped; other routes are unchanged |
| Fc.FillRemoveTemplate | src/fc.ts:259-264 | fails iff the template has no route; both regions get the effective region; the server and the first route get the name as given; everything else is unchanged |
| Fc.PlanDeployment | src/fc.ts:146-206 | a non-iterable code argument fails; a template without a route fails; otherwise the plan carries the resolved prefixed name, the install commands and the filled template |
| Fc.ExtractJson | src/fc.ts:371-373 | the extracted text is never longer than the reply, and is empty when the reply has no brace |
| Fc.ExtractJsonSpan | src/fc.ts:371-373 | with a first `{` before a last `}`, the extracted text is exactly the span from the one to the other |
| Fc.DeployParamsFromReply | src/fc.ts:374-383 | every falsy field of the reply gets its default (port 9000 through `EffectivePort`, timeout `DefaultTimeout` of 5, empty description, variables and command lists); missing code becomes a non-iterable value; the caller's name is passed and no region is |
| Fc.PlanGeneratedDeployment | src/fc.ts:370-383 | fails as not-JSON exactly when the extracted text does not parse |
| Fc.GeneratedDeploymentDefaults | src/fc.ts:370-383 | a generated deployment with code goes to `cn-hangzhou` in both resources, listens on the reply's port or 9000, gets the default description when the reply has none, runs no install step when none is asked for, and routes the domain to its prefixed function |
| SlotStore.Read | src/mcp-server.ts:19-28 | a read answers a record iff it succeeds and the key is stored, and then the stored record |
| SlotStore.Write | src/mcp-server.ts:30-38 | a successful write stores the value under the key; a failed write changes nothing; no other key changes |
| SlotStore.ReadYourWrite | src/mcp-server.ts:19-38 | a successful write is read back by a successful read |
| SlotStore.WriteTouchesOnlyItsKey | src/mcp-server.ts:30-38 | a write leaves every other key reading as before |
| SlotStore.AbsentUntilWritten | src/mcp-server.ts:19-38 | a key not stored and not named by any successful write reads as absent after any sequence of writes |
| SlotStore.Cache.constructor | src/mcp-server.ts:13-17 | the store opens at its path holding the records already there |
| SlotStore.Cache.Get | src/mcp-server.ts:19-28 | answers the stored record iff the read succeeds and the key is stored, and never throws |
| SlotStore.Cache.Set | src/mcp-server.ts:30-38 | the new records are `Write` of the old ones: the key is stored on success, nothing changes on failure, other keys never change |
| SingleFlight.Replay | src/mcp-server.ts:71-77 | the reply rethrows iff the final read found a record with an error; otherwise it returns the stored result, or `undefined` when there is none |
| SingleFlight.Terminal | src/mcp-server.ts:60-62 | the terminal record is not pending, and replaying it gives what the handler gave |
| SingleFlight.Advance | src/mcp-server.ts:54-77 | one step keeps the call's key and outcome; only the claim and publish steps write, and only the call's key; only the invoke step runs the handler; a call that found a record only reads from then on; a finished call is a fixpoint |
| SingleFlight.Run | src/mcp-server.ts:49-78 | over any schedule a call touches only its key and runs the handler at most once; once past the invoke step it never runs it again; a call that found a record never writes |
| SingleFlight.RunConcat | src/mcp-server.ts:49-78 | running two schedules one after the other is running their concatenation |
| SingleFlight.DoneIsFinal | src/mcp-server.ts:77 | a finished call stays finished and changes nothing |
| SingleFlight.SoloLeader | src/mcp-server.ts:54-63 | a lone call with no record writes the pending record before running the handler, runs it once, leaves the terminal record and replies what the handler gave |
| SingleFlight.FoundRecordNeverRewritten | src/mcp-server.ts:64-69 | a call whose first read finds a record never writes and never runs the handler |
| SingleFlight.StoredRecordReplayed | src/mcp-server.ts:64-77 | a call finding a terminal record replays it without running the handler, and rethrows a stored error |
| SingleFlight.FailedProbeReruns | src/mcp-server.ts:19-28 | a failed first read hides a terminal record, so the call reruns the handler and overwrites the stored outcome |
| SingleFlight.LostPublishReturnsUndefined | src/mcp-server.ts:56-60 | when the publishing write is lost, the pending record stays and the claiming call itself returns `undefined` |
| SingleFlight.WaitsWhilePending | src/mcp-server.ts:65-68 | while the record stays pending and reads succeed, a waiting call polls for ever and changes nothing |
| SingleFlight.WaitEndsOnlyWhenNotPending | src/mcp-server.ts:65-71 | the wait ends exactly when a read does not report a pending record, and the reply comes from the final read |
| SingleFlight.CheckThenWriteRace | src/mcp-server.ts:54-71 | on the schedule where both first reads precede either claim and the second call's claim lands after the first call's publish but before its final read, both calls run the handler, the pending record is left behind, and the first call returns `undefined`; a second claim landing elsewhere is not covered by this lemma |
| SingleFlight.FollowerSharesLeaderOutcome | src/mcp-server.ts:54-77 | on one fixed schedule (the second request probes after the first's claim and polls once before the publish): both calls finish, the second never writes or runs the handler, and both reply what the single run gave |
| SingleFlight.SharedRunStep | src/mcp-server.ts:54-77 | any successful step of either call keeps the shared-run invariant: one run at most, the follower never runs or writes, every finished call replies the run's outcome |
| SingleFlight.SharedRunKept | src/mcp-server.ts:54-77 | the shared-run invariant holds after any schedule of successful steps |
| SingleFlight.FollowerAnySchedule | src/mcp-server.ts:54-77 | after the first call's claim, over any schedule of successful steps: the second call never runs the handler, the first runs it at most once, only the key's record changes and it is pending or the run's outcome, each finished call replies what the one run gave, and the second replies only once the outcome is published |
| SingleFlight.Call.constructor | src/mcp-server.ts:49-52 | a call starts before its first read, keyed by its parameters, having run nothing |
| SingleFlight.Call.Step | src/mcp-server.ts:54-77 | performing a step with `Cache.Get` and `Cache.Set` moves the call and the store exactly as `Advance` does |
| SingleFlight.CachedTool.constructor | src/mcp-server.ts:44-48 | the wrapper opens a fresh store at the default path over the records already there |
| SingleFlight.CachedTool.Serve | src/mcp-server.ts:49-78 | serving a request leaves the store and the reply that `Run` gives for the request's key; no other key changes |
| ErrorRecord.StoredAsWritten | src/mcp-server.ts:62 | a stored thrown value comes back as a plain object with its enumerable fields only: a plain object unchanged, an `Error` with its assigned fields but without its message |
| ErrorRecord.ErrorMessageLost | src/mcp-server.ts:62 | a replayed `Error` is not the thrown one, two errors differing only in their message replay alike, and a plain `new Error(m)` replays as `{}` |
| ErrorRecord.TerminalAsWritten | src/mcp-server.ts:59-62 | the terminal record as stored is not pending; a result is kept as is; an error is kept as its stored copy |
| ErrorRecord.LeaderRethrowsStoredCopy | src/mcp-server.ts:62-75 | the call that ran the handler and published its `Error` rethrows, at its final read, the plain-object copy with the assigned fields only, not the error it caught |
| ErrorRecord.Encode | src/mcp-server.ts:62 | the encoding records whether the value was an `Error`, and keeps its fields |
| ErrorRecord.DecodeEncode | src/mcp-server.ts:62 | the tagged encoding gives back every thrown value exactly |
| ErrorRecord.LeaderRethrowsOwnError | src/mcp-server.ts:62-75 | with the tagged encoding, the call that published its error reads it back at its final read and rethrows exactly the error it caught |
| ToolSchema.ValidateRemoveArgs | src/mcp-server.ts:152-162 | the arguments pass iff the name is present and matches `^[_a-zA-Z][-_a-zA-Z0-9]*$` and the region is absent or listed; an absent region becomes `cn-hangzhou`; each failing field is reported |
| ToolSchema.PrefixedNameMatchesPattern | src/mcp-server.ts:156 | prefixing a name made of pattern characters gives a name the removal tool accepts |
| ToolSchema.GeneratedNameRemovable | src/mcp-server.ts:156 | the generated name of an unnamed deployment is accepted by the removal tool when the generated id is made of pattern characters |
| ToolSchema.ValidatedRemovalTargets | src/mcp-server.ts:152-162 | accepted arguments reach the removal with a listed, non-empty region, which both resources get, and both resources name the requested function |

## Left out

- File-system, process and network effects are not modelled: creating directories, writing code files and `s.yaml`, spawning commands, the deployment component's `deploy` and `remove` calls, and the metrics request. The model stops at the values handed to them.
- The result texts of the tools, including the console link, are not modelled. The deploy link prints the region as given, so an empty region gives a broken link.
- The code generator (the OpenAI client, its environment variables and the streaming loop) is not modelled. The reply text is a parameter, and so is `JSON.parse`.
- JSON values of the wrong type in the generator's reply are not modelled. Each field is present with the expected type, or absent.
- `src/template.yaml` is not part of this model. Only the fields the code writes are modelled, and a template without a route is an error.
- Fc.ResolveFunctionName: the generated identifier is a parameter and is not checked to be a version-4 UUID.
- SingleFlight.Advance: a thrown value is assumed truthy. A handler that throws a falsy value makes the source return `undefined`, which is not modelled.
- SingleFlight.Advance: the JSON encoding of records is an identity, so a replayed error is the thrown one (see Findings for what the source does).
- MD5 and `JSON.stringify` of the parameters are not modelled. The request key is an arbitrary function of the parameters, so distinct requests with the same digest share a record here as there.
- The wait loop's five-second sleep and the clock are not modelled. A schedule of steps stands for time.
- The JavaScript event loop and operating-system concurrency are not modelled. Interleavings are explicit schedules of steps.
- A write that leaves a truncated file is not modelled, nor is a store directory that cannot be created. A write either happens whole or not at all.
- String lengths count characters, not UTF-16 code units.
- `src/index.ts`, `src/logger.ts` and the build configuration are not part of this model.

## Findings

| source | as written | input that shows it | evidently intended | confidence | as-written member | corrected member |
|---|---|---|---|---|---|---|
| src/mcp-server.ts:62 | the terminal record stores the thrown `Error` through `JSON.stringify`, which drops its non-enumerable message, so the replay throws `{}` | a handler that throws `new Error("quota")`: every caller, the first included, receives `{}` instead | the replay rethrows the error the handler threw | high, not executed | ErrorRecord.LeaderRethrowsStoredCopy | ErrorRecord.LeaderRethrowsOwnError |
