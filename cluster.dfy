/** The primary process's worker pool (server.js lines 126-225): it forks
    the HTTP workers, answers their command requests through a reply
    callback that fires at most once, relaunches a worker that did not exit
    cleanly, and pushes events to every worker in the cluster. */
module Cluster {
  import opened Messages
  import opened Origin
  import opened Plugins
  import opened Registry
  import opened Dispatch
  import opened WorkerCount

  /** A forked HTTP worker: its process id, the serialized environment it was
      forked with, and every message the primary has sent it, in send order. */
  class Worker {
    const pid: nat
    const spawnEnv: Value
    var sent: seq<Message>

    constructor (pid: nat, spawnEnv: Value)
      ensures this.pid == pid && this.spawnEnv == spawnEnv && sent == []
    {
      this.pid := pid;
      this.spawnEnv := spawnEnv;
      sent := [];
    }
  }

  /** The callback a handler receives (lines 154-162): it answers on the
      worker the request came from, tagged with the request's txid and pid,
      and only its first call sends anything. */
  class ReplyCallback {
    const worker: Worker
    const txid: Value
    const requestPid: Value
    var called: bool

    constructor (worker: Worker, txid: Value, requestPid: Value)
      ensures this.worker == worker && this.txid == txid && this.requestPid == requestPid
      ensures !called
    {
      this.worker := worker;
      this.txid := txid;
      this.requestPid := requestPid;
      called := false;
    }

    /** `cb(err, value)`: a REPLY on the originating worker the first time,
        nothing afterwards, and no other worker is touched. */
    method Call(error: ErrorArg, value: Value)
      modifies this, worker
      ensures called
      ensures worker.sent == old(worker.sent) + (if old(called) then [] else [Reply(error, txid, requestPid, value)])
    {
      if called {
        return;
      }
      called := true;
      worker.sent := worker.sent + [Reply(error, txid, requestPid, value)];
    }
  }

  /** A handler call the primary made: which handler, with which content. */
  datatype Invocation = Invocation(handler: Handler, content: Content)

  /** Workers in strictly increasing pid order, which is launch order. */
  ghost predicate Ascending(ws: seq<Worker>)
  {
    forall i, j :: 0 <= i < j < |ws| ==> ws[i].pid < ws[j].pid
  }

  /** The cluster's worker table once `w` has left it. */
  function Without(ws: seq<Worker>, w: Worker): (r: seq<Worker>)
    ensures |r| <= |ws|
    ensures forall x | x in r :: x in ws && x != w
    ensures forall x | x in ws && x != w :: x in r
  {
    if ws == [] then []
    else if ws[0] == w then Without(ws[1..], w)
    else [ws[0]] + Without(ws[1..], w)
  }

  /** Removing a worker that is not in the table changes nothing. */
  lemma {:induction false} WithoutAbsent(ws: seq<Worker>, w: Worker)
    requires w !in ws
    ensures Without(ws, w) == ws
  {
    if ws != [] {
      WithoutAbsent(ws[1..], w);
    }
  }

  /** Removing a worker keeps the table ordered. */
  lemma {:induction false} WithoutAscending(ws: seq<Worker>, w: Worker)
    requires Ascending(ws)
    ensures Ascending(Without(ws, w))
  {
    if ws != [] {
      var rest := ws[1..];
      assert Ascending(rest);
      WithoutAscending(rest, w);
      if ws[0] != w {
        var r, t := Without(ws, w), Without(rest, w);
        assert r == [ws[0]] + t;
        forall i, j | 0 <= i < j < |r|
          ensures r[i].pid < r[j].pid
        {
          if i == 0 {
            assert r[j] == t[j - 1];
            assert t[j - 1] in rest;
          } else {
            assert r[i] == t[i - 1] && r[j] == t[j - 1];
          }
        }
      }
    }
  }

  /** In an ordered table a worker appears once, so removing it shortens the
      table by exactly one. */
  lemma {:induction false} WithoutShortens(ws: seq<Worker>, w: Worker)
    requires Ascending(ws) && w in ws
    ensures |Without(ws, w)| == |ws| - 1
  {
    var rest := ws[1..];
    assert Ascending(rest);
    if ws[0] == w {
      assert w !in rest by {
        forall k | 0 <= k < |rest|
          ensures rest[k] != w
        {
          assert ws[0].pid < ws[k + 1].pid;
        }
      }
      WithoutAbsent(rest, w);
    } else {
      assert w in rest;
      WithoutShortens(rest, w);
    }
  }

  /** Not a clean exit: a signal, or any exit code other than 0 (line 175). */
  predicate Crashed(code: Option<int>, signal: Option<string>)
    ensures code != Some(0) ==> Crashed(code, signal)
    ensures signal.Some? && signal.value != "" ==> Crashed(code, signal)
    ensures !Crashed(code, signal) ==> code == Some(0)
  {
    !((signal == None || signal == Some("")) && code == Some(0))
  }

  class Supervisor {
    const plugins: seq<Plugin>
    const commands: map<string, Handler>
    const maxWorkers: Option<int>
    /** The primary's environment; other parts of the primary change it. */
    var env: Environment
    /** `workerState.Env`: the snapshot the next forked worker receives. */
    var workerEnv: Value
    /** `Cluster.workers`, in worker-id order. */
    var workers: seq<Worker>
    var nextPid: nat
    var log: seq<LogEntry>
    var hookCalls: seq<HookCall>
    var invocations: seq<Invocation>

    ghost predicate Valid()
      reads this
    {
      && Ascending(workers)
      && forall x | x in workers :: x.pid < nextPid
    }

    /** Lines 126-129: the limit and the first environment snapshot. */
    constructor (plugins: seq<Plugin>, commands: map<string, Handler>, maxWorkers: Option<int>, env: Environment)
      ensures Valid()
      ensures this.plugins == plugins && this.commands == commands && this.maxWorkers == maxWorkers
      ensures this.env == env && workerEnv == Serialize(env)
      ensures workers == [] && log == [] && hookCalls == [] && invocations == []
    {
      this.plugins := plugins;
      this.commands := commands;
      this.maxWorkers := maxWorkers;
      this.env := env;
      workerEnv := Serialize(env);
      workers := [];
      nextPid := 1;
      log := [];
      hookCalls := [];
      invocations := [];
    }

    /** `Cluster.fork(workerState)`: a new worker, forked with the current
        snapshot, joins the cluster. */
    method LaunchWorker()
      requires Valid()
      modifies this`workers, this`nextPid
      ensures Valid()
      ensures |workers| == |old(workers)| + 1 && workers[..|old(workers)|] == old(workers)
      ensures fresh(workers[|workers| - 1])
      ensures workers[|workers| - 1].spawnEnv == workerEnv && workers[|workers| - 1].sent == []
    {
      var w := new Worker(nextPid, workerEnv);
      workers := workers + [w];
      nextPid := nextPid + 1;
    }

    /** Lines 220-225: one launch per CPU index the limit does not skip. */
    method LaunchInitialWorkers(cpuCount: nat)
      requires Valid()
      modifies this`workers, this`nextPid
      ensures Valid()
      ensures |workers| == |old(workers)| + LaunchedCount(cpuCount, maxWorkers)
      ensures workers[..|old(workers)|] == old(workers)
      ensures forall i :: |old(workers)| <= i < |workers| ==>
                fresh(workers[i]) && workers[i].spawnEnv == workerEnv && workers[i].sent == []
    {
      for index := 0 to cpuCount
        invariant Valid()
        invariant |workers| == |old(workers)| + LaunchedCount(index, maxWorkers)
        invariant workers[..|old(workers)|] == old(workers)
        invariant forall i :: |old(workers)| <= i < |workers| ==>
                    fresh(workers[i]) && workers[i].spawnEnv == workerEnv && workers[i].sent == []
      {
        if !(maxWorkers.Some? && maxWorkers.value != 0 && index >= maxWorkers.value) {
          LaunchWorker();
        }
      }
    }

    /** Lines 143-165: a message from worker `w`. A falsy message or content
        is ignored; an unknown command is logged and gets no reply; a known
        command's handler is invoked once, with a fresh one-shot callback that
        answers on `w`. Nothing is sent to any worker here. */
    method OnMessage(w: Worker, msg: Incoming) returns (cb: ReplyCallback?)
      modifies this`log, this`invocations
      ensures Classify(commands, msg).Ignore? ==>
                cb == null && log == old(log) && invocations == old(invocations)
      ensures Classify(commands, msg).Unhandled? ==>
                && cb == null && invocations == old(invocations)
                && log == old(log) + [LogEntry("error", "UNHANDLED_HTTP_WORKER_COMMAND", OfRequest(msg))]
      ensures Classify(commands, msg).Dispatch? ==>
                && cb != null && fresh(cb) && !cb.called
                && cb.worker == w && cb.txid == msg.txid && cb.requestPid == msg.pid
                && log == old(log)
                && invocations == old(invocations) + [Invocation(Classify(commands, msg).handler, msg.content.value)]
    {
      cb := null;
      if msg.Falsy? {
        return;
      }
      var txid := msg.txid;
      if msg.content.None? {
        return;
      }
      var content := msg.content.value;
      // Only the registry's own entries count as handlers; see Dispatch.ClassifyAsWritten.
      if content.command !in commands {
        log := log + [LogEntry("error", "UNHANDLED_HTTP_WORKER_COMMAND", OfRequest(msg))];
        return;
      }
      var handler := commands[content.command];
      cb := new ReplyCallback(w, txid, msg.pid);
      invocations := invocations + [Invocation(handler, content)];
    }

    /** The LOG handler (lines 53-57): logs at the requested level, then
        answers with no error and no value. */
    method RunLog(content: Content, cb: ReplyCallback)
      modifies this`log, cb, cb.worker
      ensures log == old(log) + [LogEntry(content.level, content.tag, About(content.info))]
      ensures cb.called
      ensures cb.worker.sent == old(cb.worker.sent) + (if old(cb.called) then [] else [Reply(NoError, cb.txid, cb.requestPid, Undefined)])
    {
      log := log + [LogEntry(content.level, content.tag, About(content.info))];
      cb.Call(NoError, Undefined);
    }

    /** The UPDATE_QUOTA handler (lines 59-69), once the quota refresh has
        finished with `quotaError`: a warning and the error, or an info entry
        and no value. */
    method RunUpdateQuota(quotaError: Option<string>, cb: ReplyCallback)
      modifies this`log, cb, cb.worker
      ensures quotaError.Some? ==> log == old(log) + [LogEntry("warn", "UPDATE_QUOTA_ERR", Text(quotaError.value))]
      ensures quotaError.None? ==> log == old(log) + [LogEntry("info", "QUOTA_UPDATED", NoDetail)]
      ensures cb.called
      ensures var error := if quotaError.Some? then Failure(quotaError.value) else NoError;
              cb.worker.sent == old(cb.worker.sent) + (if old(cb.called) then [] else [Reply(error, cb.txid, cb.requestPid, Undefined)])
    {
      if quotaError.Some? {
        log := log + [LogEntry("warn", "UPDATE_QUOTA_ERR", Text(quotaError.value))];
        cb.Call(Failure(quotaError.value), Undefined);
        return;
      }
      log := log + [LogEntry("info", "QUOTA_UPDATED", NoDetail)];
      cb.Call(NoError, Undefined);
    }

    /** The GET_PROFILING_DATA handler (lines 71-73): answers with the byte
        counter. */
    method RunGetProfilingData(cb: ReplyCallback)
      modifies cb, cb.worker
      ensures cb.called
      ensures cb.worker.sent == old(cb.worker.sent) + (if old(cb.called) then [] else [Reply(NoError, cb.txid, cb.requestPid, Num(env.bytesWritten))])
    {
      cb.Call(NoError, Num(env.bytesWritten));
    }

    /** Line 164, `command(content, cb)`, for a built-in handler: the handler
        value that routing resolved selects which of the three above runs.
        Contributed handlers are plugin code and are not modelled. */
    method RunBuiltin(h: Handler, content: Content, quotaError: Option<string>, cb: ReplyCallback)
      requires !h.Contributed?
      modifies this`log, cb, cb.worker
      ensures cb.called
      ensures h.LogHandler? ==> log == old(log) + [LogEntry(content.level, content.tag, About(content.info))]
      ensures h.UpdateQuotaHandler? && quotaError.Some? ==> log == old(log) + [LogEntry("warn", "UPDATE_QUOTA_ERR", Text(quotaError.value))]
      ensures h.UpdateQuotaHandler? && quotaError.None? ==> log == old(log) + [LogEntry("info", "QUOTA_UPDATED", NoDetail)]
      ensures h.ProfilingHandler? ==> log == old(log)
      ensures var error := if h.UpdateQuotaHandler? && quotaError.Some? then Failure(quotaError.value) else NoError;
              var value := if h.ProfilingHandler? then Num(env.bytesWritten) else Undefined;
              cb.worker.sent == old(cb.worker.sent) + (if old(cb.called) then [] else [Reply(error, cb.txid, cb.requestPid, value)])
    {
      match h {
        case LogHandler => RunLog(content, cb);
        case UpdateQuotaHandler => RunUpdateQuota(quotaError, cb);
        case ProfilingHandler => RunGetProfilingData(cb);
      }
    }

    /** Lines 167-186: worker `w` has exited and left the cluster. Every plugin
        with `onWorkerClosed` hears of it, clean exit or not; a crash is logged,
        the snapshot refreshed and exactly one replacement forked with it. */
    method OnExit(w: Worker, code: Option<int>, signal: Option<string>)
      requires Valid() && w in workers
      modifies this`workers, this`nextPid, this`log, this`hookCalls, this`workerEnv
      ensures Valid()
      ensures hookCalls == old(hookCalls) + HookCalls(plugins, WorkerClosed("http-worker", w.pid))
      ensures !Crashed(code, signal) ==>
                && workers == Without(old(workers), w) && |workers| == |old(workers)| - 1
                && log == old(log) && workerEnv == old(workerEnv)
      ensures Crashed(code, signal) ==>
                && |workers| == |old(workers)|
                && workers[..|workers| - 1] == Without(old(workers), w)
                && fresh(workers[|workers| - 1])
                && workers[|workers| - 1].spawnEnv == Serialize(env) && workers[|workers| - 1].sent == []
                && workerEnv == Serialize(env)
                && log == old(log) + [LogEntry("error", "HTTP_WORKER_EXIT", ExitStatus(signal, code))]
    {
      WithoutAscending(workers, w);
      WithoutShortens(workers, w);
      workers := Without(workers, w);
      NotifyWorkerClosed(w.pid);
      if !Crashed(code, signal) {
        return;
      }
      log := log + [LogEntry("error", "HTTP_WORKER_EXIT", ExitStatus(signal, code))];
      workerEnv := Serialize(env);
      LaunchWorker();
    }

    /** Lines 168-173: `onWorkerClosed("http-worker", pid)` on every plugin
        that has it, each call guarded, in enumeration order. */
    method NotifyWorkerClosed(pid: nat)
      modifies this`hookCalls
      ensures hookCalls == old(hookCalls) + HookCalls(plugins, WorkerClosed("http-worker", pid))
    {
      for k := 0 to |plugins|
        invariant hookCalls == old(hookCalls) + HookCalls(plugins[..k], WorkerClosed("http-worker", pid))
      {
        if plugins[k].onWorkerClosed.Present? {
          hookCalls := hookCalls + [HookCall(plugins[k].name, WorkerClosed("http-worker", pid))];
        }
        assert plugins[..k + 1][..k] == plugins[..k];
      }
      assert plugins[..|plugins|] == plugins;
    }

    /** Lines 191-205: one EVENT, carrying `command` and `data` and the guid
        drawn for it, to every worker in the cluster and to nothing else; the
        workers addressed are returned. */
    method Broadcast(command: string, data: Value, guids: seq<string>) returns (addressed: seq<Worker>)
      requires Valid()
      requires |guids| == |workers|
      modifies workers
      ensures addressed == workers
      ensures forall i :: 0 <= i < |workers| ==>
                workers[i].sent == old(workers[i].sent) + [Event(guids[i], command, data)]
    {
      for i := 0 to |workers|
        invariant forall j :: 0 <= j < i ==>
                    workers[j].sent == old(workers[j].sent) + [Event(guids[j], command, data)]
        invariant forall j :: i <= j < |workers| ==> workers[j].sent == old(workers[j].sent)
      {
        workers[i].sent := workers[i].sent + [Event(guids[i], command, data)];
      }
      addressed := workers;
    }

    /** The body of the throttled environment trigger (lines 207-210): the
        workers receive a snapshot of the environment as it is now. */
    method OnEnvUpdated(guids: seq<string>) returns (addressed: seq<Worker>)
      requires Valid()
      requires |guids| == |workers|
      modifies this`log, workers
      ensures log == old(log) + [LogEntry("info", "WORKER_ENV_UPDATE", Text("Updating HTTP workers with latest state"))]
      ensures addressed == workers
      ensures forall i :: 0 <= i < |workers| ==>
                workers[i].sent == old(workers[i].sent) + [Event(guids[i], "ENV_UPDATE", Serialize(env))]
    {
      log := log + [LogEntry("info", "WORKER_ENV_UPDATE", Text("Updating HTTP workers with latest state"))];
      addressed := Broadcast("ENV_UPDATE", Serialize(env), guids);
    }

    /** The body of the throttled cache trigger (lines 212-215). */
    method OnCacheFlushed(guids: seq<string>) returns (addressed: seq<Worker>)
      requires Valid()
      requires |guids| == |workers|
      modifies this`log, workers
      ensures log == old(log) + [LogEntry("info", "WORKER_CACHE_FLUSH", Text("Instructing HTTP workers to flush cache"))]
      ensures addressed == workers
      ensures forall i :: 0 <= i < |workers| ==>
                workers[i].sent == old(workers[i].sent) + [Event(guids[i], "FLUSH_CACHE", Str(env.freshKey))]
    {
      log := log + [LogEntry("info", "WORKER_CACHE_FLUSH", Text("Instructing HTTP workers to flush cache"))];
      addressed := Broadcast("FLUSH_CACHE", Str(env.freshKey), guids);
    }
  }

  /** Lines 44-49: `initialize(Env, "main")` on every plugin that has it,
      each call guarded, in enumeration order. */
  method InitializePlugins(plugins: seq<Plugin>) returns (calls: seq<HookCall>)
    ensures calls == HookCalls(plugins, Initialize)
  {
    calls := [];
    for k := 0 to |plugins|
      invariant calls == HookCalls(plugins[..k], Initialize)
    {
      if plugins[k].initialize.Present? {
        calls := calls + [HookCall(plugins[k].name, Initialize)];
      }
      assert plugins[..k + 1][..k] == plugins[..k];
    }
    assert plugins[..|plugins|] == plugins;
  }

  /** Lines 51-91: the built-ins, then every plugin's commands. */
  method BuildCommands(plugins: seq<Plugin>) returns (commands: map<string, Handler>)
    ensures commands == MergeAll(Builtins(), plugins)
  {
    var registry := new CommandRegistry();
    registry.AddAllPluginCommands(plugins);
    commands := registry.commands;
  }

  /** Lines 126-225: the supervisor with its first snapshot, and the
      initial workers forked with it. */
  method LaunchCluster(plugins: seq<Plugin>, commands: map<string, Handler>, maxWorkers: Option<int>,
                       cpuCount: nat, env: Environment)
    returns (sup: Supervisor)
    ensures fresh(sup) && sup.Valid()
    ensures sup.plugins == plugins && sup.commands == commands && sup.maxWorkers == maxWorkers && sup.env == env
    ensures sup.workerEnv == Serialize(env) && sup.log == [] && sup.hookCalls == [] && sup.invocations == []
    ensures |sup.workers| == LaunchedCount(cpuCount, maxWorkers)
    ensures forall i :: 0 <= i < |sup.workers| ==>
              fresh(sup.workers[i]) && sup.workers[i].spawnEnv == Serialize(env) && sup.workers[i].sent == []
  {
    sup := new Supervisor(plugins, commands, maxWorkers, env);
    sup.LaunchInitialWorkers(cpuCount);
  }

  /** Startup: the origin check (lines 37-42), every plugin's `initialize`
      (lines 44-49), the registry (lines 51-91) and the initial workers
      (lines 126-225). A bad origin aborts before any plugin or worker is
      touched. */
  method Start(origin: ConfigValue, plugins: seq<Plugin>, maxWorkers: Option<int>, cpuCount: nat, env: Environment)
    returns (sup: Supervisor?, initCalls: seq<HookCall>)
    ensures sup == null <==> CheckUnsafeOrigin(origin).Fail?
    ensures sup == null ==> initCalls == []
    ensures sup != null ==>
              && fresh(sup) && sup.Valid()
              && initCalls == HookCalls(plugins, Initialize)
              && sup.plugins == plugins && sup.maxWorkers == maxWorkers && sup.env == env
              && sup.workerEnv == Serialize(env) && sup.log == [] && sup.hookCalls == [] && sup.invocations == []
              && sup.commands == MergeAll(Builtins(), plugins)
              && |sup.workers| == LaunchedCount(cpuCount, maxWorkers)
              && forall i :: 0 <= i < |sup.workers| ==>
                   fresh(sup.workers[i]) && sup.workers[i].spawnEnv == Serialize(env) && sup.workers[i].sent == []
  {
    sup := null;
    initCalls := [];
    if CheckUnsafeOrigin(origin).Fail? {
      return;
    }
    initCalls := InitializePlugins(plugins);
    var commands := BuildCommands(plugins);
    sup := LaunchCluster(plugins, commands, maxWorkers, cpuCount, env);
  }
}
