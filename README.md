# CryptPad primary process: worker supervisor and command bus

This project models the coordination logic of CryptPad's primary process
(`server.js`) in Dafny. Processes, sockets and timers are replaced by plain
values and small objects. The model covers:

- **Startup checks.** `httpUnsafeOrigin` must be a non-blank string. The CORS
  `origin` rule allows a wildcard configuration, requests without an origin,
  and exact matches (module `Origin`).
- **The `COMMANDS` registry.** It starts with the built-ins `LOG`,
  `UPDATE_QUOTA` and `GET_PROFILING_DATA`. Each plugin's `addMainCommands`
  result is then merged in, under three rules: upper-case names only,
  function values only, and the first registration wins. A plugin that
  throws is isolated (modules `CommandNames`, `Plugins`, `Registry`).
- **Classifying a worker message.** A message is ignored, logged as
  `UNHANDLED_HTTP_WORKER_COMMAND`, or dispatched (module `Dispatch`).
- **The worker pool.** The model covers the CPU-limited launch loop, the
  one-shot `REPLY` callback, the built-in handlers, the exit hook and the
  relaunch of a crashed worker with a fresh environment snapshot. It also
  covers `broadcast` and the bodies of the two throttled triggers
  (modules `WorkerCount`, `Cluster`).
- **Client scenarios.** Module `Scenarios` drives the supervisor through a
  start refused for a blank origin, a successful start, a profiling
  request, an unknown command, a cache flush, a crash with relaunch, and a
  clean exit.

Each worker is a `Worker` object. It holds its pid, the serialized
environment it was forked with, and the log of every message the primary
sent it. A reply callback keeps a reference to the worker the request came
from, as the closure in the source does. So the frame of `ReplyCallback.Call`
shows that no other worker is touched.

Process ids come from a counter in the supervisor. The cluster's worker table
(`Cluster.workers`) is kept in launch order. When a worker exits, node's
cluster module removes it from that table. `Supervisor.OnExit` does that
removal first.

## Model

| member | source | states |
|---|---|---|
| `CommandNames.IsCommandName` | server.js:82 | the naming test `cmd === cmd.toUpperCase()`; what it accepts is stated by the two lemmas below |
| `CommandNames.CommandNameIffNoLowercase` | server.js:81-82 | a command name passes `cmd === cmd.toUpperCase()` exactly when it has no lower-case letter |
| `CommandNames.LowercaseIsNotCommandName` | server.js:82 | a name with any lower-case letter is rejected by the naming rule |
| `Origin.TrimStart` | server.js:39 | drops exactly the leading JavaScript whitespace, leaving a suffix that starts with a non-space |
| `Origin.TrimEnd` | server.js:39 | drops exactly the trailing JavaScript whitespace, leaving a prefix that ends with a non-space |
| `Origin.Trim` | server.js:39 | `trim()` never lengthens the string, and a non-empty result starts and ends with a character that is not whitespace |
| `Origin.TrimEmptyIffBlank` | server.js:39 | `trim()` is empty exactly when every character is whitespace or a line terminator |
| `Origin.CheckUnsafeOrigin` | server.js:37-42 | startup fails with "No 'httpUnsafeOrigin' provided" iff the origin is not a string or is all whitespace |
| `Origin.CorsOrigin` | server.js:22-29 | allowed under `'*'`, for an absent or empty origin and for an exact match; any other allowed origin equals the configured one; a refusal says "Not allowed by CORS" |
| `Plugins.HookCalls` | server.js:44-49 | one guarded pass over the plugins makes at most one call per plugin, each with the pass's arguments |
| `Plugins.HookCallsExactlyHooked` | server.js:168-173 | every plugin that has the hook is called with the given arguments, and every call made is to such a plugin |
| `Plugins.HookCallsInPluginOrder` | server.js:168-173 | the calls follow plugin order: of two calls, the earlier goes to a plugin listed before the later one's |
| `Plugins.HookCallsOncePerPlugin` | server.js:44-49 | as plugin names are distinct `Object.keys`, no call is repeated, so each hooked plugin is called exactly once |
| `Plugins.HookCallsIgnoreThrows` | server.js:171-172 | whether hooks throw does not change which calls are made, so a throwing plugin stops nobody |
| `Registry.VisitedEntries` | server.js:78-90 | the entries the `forEach` visits: a prefix that stops just before the first entry whose name passes the naming test and whose value read throws; a lower-case name is skipped before its value is read |
| `Registry.Contributions` | server.js:76-90 | a plugin contributes a prefix of the object its hook returned, with no upper-case throwing property inside it, cut exactly at the first such property if there is one, and nothing when the hook is missing, throws or returns a falsy value |
| `Registry.AddEntry` | server.js:80-89 | one merge step never replaces or removes a name, adds at most its own name, and adds it iff it is new, upper-case and a function, bound to that function |
| `Registry.AddEntries` | server.js:80-89 | the registry after trying a plugin's entries in key order, one `AddEntry` step each; its properties are `AddEntriesKeeps` and `AddEntriesFirstWins` |
| `Registry.MergePlugin` | server.js:76-90 | one plugin's guarded block: its visited entries tried in order |
| `Registry.MergeAll` | server.js:75-91 | every plugin's block in enumeration order; its properties are `MergedLookup`, `MergeAllKeeps` and `BuiltinsSurvive` |
| `Registry.AddEntriesKeeps` | server.js:86-88 | no sequence of entries replaces a name already registered |
| `Registry.AddEntriesFirstWins` | server.js:80-89 | a name that was not registered ends up bound to its first registrable entry, or stays absent |
| `Registry.MergedLookup` | server.js:75-91 | after all plugins, a name registered before keeps its handler; any other name maps to the first registrable entry the plugins offered, in plugin order then key order |
| `Registry.MergeAllKeeps` | server.js:75-91 | the registry only grows: every earlier binding survives every plugin |
| `Registry.BuiltinsSurvive` | server.js:51-91 | `LOG`, `UPDATE_QUOTA` and `GET_PROFILING_DATA` keep their built-in handlers whatever the plugins contribute |
| `Registry.MergeAllNamesAreCommandNames` | server.js:82 | every name in the merged registry passes the naming rule |
| `Registry.BuiltinNamesAreCommandNames` | server.js:53-71 | the three built-in names pass the naming rule |
| `Registry.IdlePluginIsInvisible` | server.js:77-90 | a plugin without `addMainCommands`, or whose hook throws or returns a falsy value, leaves the registry exactly as the other plugins make it |
| `Registry.LowercaseGetterHidesNothing` | server.js:80-84 | a lower-case property whose getter throws changes nothing: the merge goes on with the entries after it |
| `Registry.CommandRegistry.constructor` | server.js:51-73 | the registry starts as exactly the three built-ins |
| `Registry.CommandRegistry.AddPluginCommands` | server.js:76-90 | the in-place loop leaves the registry equal to the merge of that plugin's entries |
| `Registry.CommandRegistry.AddAllPluginCommands` | server.js:75-91 | the in-place loop over the plugins leaves the registry equal to the merge of all of them, in order |
| `Dispatch.Classify` | server.js:143-152 | ignored iff the message or its content is falsy; unhandled iff the command is not registered; otherwise dispatched to the registered handler |
| `Dispatch.ClassifyAsWritten` | server.js:149-152 | as written, an unregistered command can still be called when it names an `Object.prototype` method |
| `Dispatch.AsWrittenAgreesOutsideInherited` | server.js:149-152 | for every command other than the inherited names, the as-written and corrected classifications agree |
| `Dispatch.InheritedNamesAreNotCommandNames` | server.js:82-86 | no `Object.prototype` method name passes the naming rule, so the merge's own existence test is unaffected by the prototype |
| `Dispatch.InheritedNamesAreCalledAsWritten` | server.js:149-152 | for every registry the primary can build, a request for an inherited name is called as written, but is unhandled under the corrected rule |
| `WorkerCount.LaunchedCount` | server.js:220-225 | the number of CPU indices not skipped by `limit && index >= limit`: never more than the CPU count |
| `WorkerCount.LaunchedCountClosedForm` | server.js:220-225 | the launch count is the CPU count when `maxWorkers` is unset or 0, `min(cpus, maxWorkers)` for a positive limit, and 0 for a negative one |
| `Cluster.Crashed` | server.js:175 | the relaunch condition: any exit code other than 0, or any non-empty signal, is a crash; a clean exit has code 0 |
| `Cluster.Worker.constructor` | server.js:137-138 | a forked worker has its pid, its spawn-time environment and no messages |
| `Cluster.ReplyCallback.constructor` | server.js:154-162 | the callback captures the originating worker, the request's txid and pid, and has not fired |
| `Cluster.ReplyCallback.Call` | server.js:154-162 | the first call appends one REPLY to the originating worker only; later calls send nothing |
| `Cluster.Supervisor.constructor` | server.js:126-129 | the limit is fixed, the first snapshot is the current environment, and there are no workers yet |
| `Cluster.Supervisor.LaunchWorker` | server.js:136-138 | one fresh worker joins the cluster, forked with the current `workerState.Env`, and the others are unchanged |
| `Cluster.Supervisor.LaunchInitialWorkers` | server.js:220-225 | exactly `LaunchedCount(cpus, maxWorkers)` fresh workers are added, each with the current snapshot |
| `Cluster.Supervisor.OnMessage` | server.js:143-165 | falsy messages change nothing; an unknown command adds one UNHANDLED log entry and no callback; a known command invokes its handler once with the content and gets a fresh, unfired callback bound to the sender, txid and pid; nothing is sent. Commands are looked up among the registry's own entries, the corrected reading described under Findings |
| `Cluster.Supervisor.RunLog` | server.js:53-57 | logs at the requested level and tag, then replies with no error and no value |
| `Cluster.Supervisor.RunUpdateQuota` | server.js:59-69 | a failed refresh logs UPDATE_QUOTA_ERR and replies with the error; a successful one logs QUOTA_UPDATED and replies with nothing |
| `Cluster.Supervisor.RunGetProfilingData` | server.js:71-73 | replies with no error and the byte counter |
| `Cluster.Supervisor.RunBuiltin` | server.js:53-73 | the handler that routing resolved decides the effect: LOG logs and replies with nothing, UPDATE_QUOTA logs and replies as the refresh ended, GET_PROFILING_DATA leaves the log alone and replies with the byte counter |
| `Cluster.Supervisor.NotifyWorkerClosed` | server.js:168-173 | the calls made are exactly `HookCalls(plugins, ("http-worker", pid))`: one call per plugin that has `onWorkerClosed`, in order |
| `Cluster.Supervisor.OnExit` | server.js:167-186 | every plugin with `onWorkerClosed` gets ("http-worker", pid) on any exit. A clean exit relaunches nothing. Any other exit logs HTTP_WORKER_EXIT, refreshes the snapshot, and forks exactly one replacement with it |
| `Cluster.Supervisor.Broadcast` | server.js:191-205 | each worker in the cluster receives exactly one EVENT with the command and data; no other object changes; the workers are returned |
| `Cluster.Supervisor.OnEnvUpdated` | server.js:207-210 | logs WORKER_ENV_UPDATE and broadcasts ENV_UPDATE with a snapshot of the current environment |
| `Cluster.Supervisor.OnCacheFlushed` | server.js:212-215 | logs WORKER_CACHE_FLUSH and broadcasts FLUSH_CACHE with the current cache key |
| `Cluster.InitializePlugins` | server.js:44-49 | `initialize` is called once on each plugin that has it, in order, and throwing does not matter |
| `Cluster.BuildCommands` | server.js:51-91 | the registry built in place is the built-ins merged with every plugin, in order |
| `Cluster.LaunchCluster` | server.js:126-225 | a fresh, valid supervisor whose remembered snapshot `workerState.Env` is the first one, with an empty log and nothing invoked yet, and exactly `LaunchedCount(cpus, maxWorkers)` fresh workers forked with it |
| `Cluster.Start` | server.js:37-225 | a bad origin aborts before any plugin or worker is touched. Otherwise the plugins are initialized, the registry is the built-ins merged with every plugin, and `LaunchedCount` workers are forked with the current snapshot, which is also the remembered `workerState.Env`; the log is empty and no handler has run |

## Left out

- HTTP plumbing is not modelled: the Express app, CORS middleware wiring, `Http.createServer` and `listen` (server.js lines 20, 35 and 119-124). These are I/O.
- Logger creation (server.js lines 94-98) and the `Fs.exists` check for the customize folder (lines 100-105) are not modelled. They are I/O; the logger is treated as a given recorder of entries.
- The URL parse of the origin at line 109 and the `process.exit(1)` it can trigger are not modelled, because they depend on the WHATWG URL parser.
- Real process management is not modelled: `Cluster.setupPrimary`, the `online` event and its `HTTP_WORKER_RELAUNCH` log, and the `nThen` sequencing that waits for every worker to come online. A launch is modelled as the worker joining the cluster table at once.
- Process ids come from a counter. Operating-system pid allocation is out of scope.
- `Util.throttle` and its 250 ms window are timer-driven; `Util.throttle` lives in `lib/common-util.js`, outside this model. Only the bodies the two throttled triggers run are modelled: `OnEnvUpdated`, `OnCacheFlushed`.
- `Util.guid` is random. `Broadcast` takes the guids it draws as a parameter. No uniqueness of transaction ids is claimed: the `txids` map at line 189 is never filled.
- `Cluster.ReplyCallback.Call`: the `Util.mkAsync` deferral to a later turn is not modelled; the REPLY is appended when the callback is called.
- `Util.serializeError` is opaque: a REPLY carries the error argument as given.
- `Environment.serialize` is modelled as a copy of the environment, and the environment as a byte counter, a cache key and a revision number. How other parts of the primary change `Env` is outside this core.
- `Quota.updateCachedLimits` is opaque. Its outcome is the `quotaError` parameter of `RunUpdateQuota`.
- The logger is opaque. Log entries are recorded as level, tag and detail. A `LOG` request naming a level the logger lacks would throw; that case is not modelled.
- Command handlers contributed by plugins are opaque. Their behaviour is whatever calls they make on the `ReplyCallback`.
- `CommandNames.ToUpper`: only ASCII letters are case-mapped. JavaScript's full Unicode mapping would also reject names with non-ASCII lower-case letters such as `é`, and the model accepts those.
- Accessor properties on an `addMainCommands` result are only modelled as reads that throw. A getter that returns different values on the two reads at lines 84 and 88 is not modelled. A `null` plugin entry, which would throw outside the `try`, is not modelled either.
- `WorkerCount.LaunchedCountClosedForm`: `maxWorkers` is modelled as an optional integer. Fractional, string and `NaN` limits are not modelled.
- A `content.command` that is not a string is not modelled. Commands are strings, so the property-key conversion JavaScript applies to other values is left out.

## Findings

| source | as written | input that shows it | evidently intended | confidence | as-written member | corrected member |
|---|---|---|---|---|---|---|
| server.js:149-152 | `COMMANDS` is a plain `{}`, so `COMMANDS[content.command]` also finds the functions every object inherits from `Object.prototype`. These pass the `typeof === 'function'` test and are called as handlers. No UNHANDLED log entry is written and no reply is sent; `valueOf` or `hasOwnProperty` called this way throw inside the message listener. | a worker message `{txid, pid, content: {command: "toString"}}` | only registered commands are dispatched, and every other command is logged as `UNHANDLED_HTTP_WORKER_COMMAND` | not executed; medium (the worker side that builds the message is not part of this model) | `Dispatch.InheritedNamesAreCalledAsWritten` | `Dispatch.Classify`, which `Cluster.Supervisor.OnMessage` uses |
