/** Client code that drives the supervisor through a start refused for a
    blank origin, a start, a profiling request, an unknown command, a cache
    flush, a crash with relaunch and a clean exit, using only the contracts
    of the members it calls. */
module Scenarios {
  import opened Messages
  import opened Origin
  import opened Plugins
  import opened Registry
  import opened WorkerCount
  import opened Cluster

  /** A blank `httpUnsafeOrigin` stops the start before any plugin is
      initialized or any worker forked. */
  method BlankOrigin(env: Environment)
  {
    var sup, initCalls := Start(StringValue(" \n"), [], None, 2, env);
    assert CheckUnsafeOrigin(StringValue(" \n")).Fail?;
    assert sup == null && initCalls == [];
  }

  /** A real origin yields two idle workers on two CPUs, the built-in
      registry, an empty log and no handler run yet. */
  method Startup(env: Environment)
  {
    var sup, initCalls := Start(StringValue("https://cryptpad.example"), [], None, 2, env);
    assert CheckUnsafeOrigin(StringValue("https://cryptpad.example")).Pass?;
    assert sup != null;
    assert MergeAll(Builtins(), []) == Builtins();
    assert LaunchedCount(2, None) == 2;
    assert |sup.workers| == 2 && sup.commands == Builtins();
    assert sup.log == [] && sup.invocations == [] && sup.hookCalls == [];
    assert sup.workerEnv == Serialize(env);
  }

  /** Worker A asks for GET_PROFILING_DATA under txid "t1": the handler the
      registry resolved runs, the reply goes to A only, carries "t1" and the
      byte counter, and a second call of the callback sends nothing. */
  method ProfilingRequest(env: Environment)
  {
    var sup := new Supervisor([], Builtins(), None, env);
    sup.LaunchInitialWorkers(2);
    assert LaunchedCount(2, None) == 2;
    var a, b := sup.workers[0], sup.workers[1];
    assert a != b;
    var msg := Request(Str("t1"), Num(a.pid), Some(Content("GET_PROFILING_DATA", "", "", Undefined)));
    var cb := sup.OnMessage(a, msg);
    assert sup.invocations == [Invocation(ProfilingHandler, msg.content.value)];
    sup.RunBuiltin(sup.invocations[0].handler, msg.content.value, None, cb);
    assert sup.log == [];
    var reply := Reply(NoError, Str("t1"), Num(a.pid), Num(env.bytesWritten));
    assert a.sent == [reply];
    assert b.sent == [];
    cb.Call(Failure("second call"), Undefined);
    assert a.sent == [reply];
    assert b.sent == [];
  }

  /** A command nobody registered is logged and never answered. */
  method UnknownCommand(env: Environment)
  {
    var sup := new Supervisor([], Builtins(), None, env);
    sup.LaunchInitialWorkers(1);
    assert LaunchedCount(1, None) == 1;
    var a := sup.workers[0];
    var msg := Request(Str("t2"), Num(a.pid), Some(Content("NO_SUCH_COMMAND", "", "", Undefined)));
    var cb := sup.OnMessage(a, msg);
    assert cb == null;
    assert sup.log == [LogEntry("error", "UNHANDLED_HTTP_WORKER_COMMAND", OfRequest(msg))];
    assert a.sent == [];
  }

  /** FLUSH_CACHE reaches both workers once, with the cache key. */
  method FlushCache(env: Environment)
  {
    var sup := new Supervisor([], Builtins(), None, env);
    sup.LaunchInitialWorkers(2);
    assert LaunchedCount(2, None) == 2;
    var a, b := sup.workers[0], sup.workers[1];
    var addressed := sup.OnCacheFlushed(["g1", "g2"]);
    assert addressed == [a, b];
    assert a.sent == [Event("g1", "FLUSH_CACHE", Str(env.freshKey))];
    assert b.sent == [Event("g2", "FLUSH_CACHE", Str(env.freshKey))];
  }

  /** Worker A is killed by SIGKILL after the environment changed: the exit is
      logged, the plugin hears A's pid although its hook throws, and the one
      replacement is forked with the environment as it is after the change. */
  method CrashAndRelaunch(env: Environment, later: Environment)
  {
    var watcher := Plugin("watcher", Absent, NoCommandsHook, Present(true));
    var sup := new Supervisor([watcher], Builtins(), None, env);
    sup.LaunchInitialWorkers(2);
    assert LaunchedCount(2, None) == 2;
    var a, b := sup.workers[0], sup.workers[1];
    sup.env := later;
    sup.OnExit(a, None, Some("SIGKILL"));
    assert Crashed(None, Some("SIGKILL"));
    assert sup.log == [LogEntry("error", "HTTP_WORKER_EXIT", ExitStatus(Some("SIGKILL"), None))];
    assert |sup.workers| == 2 && sup.workers[0] == b;
    assert sup.workers[1].spawnEnv == Serialize(later);
    assert [watcher][..0] == [];
    assert sup.hookCalls == [HookCall("watcher", WorkerClosed("http-worker", a.pid))];
  }

  /** A clean exit notifies the plugins and launches nothing. */
  method CleanExit(env: Environment)
  {
    var sup := new Supervisor([], Builtins(), None, env);
    sup.LaunchInitialWorkers(1);
    assert LaunchedCount(1, None) == 1;
    var a := sup.workers[0];
    sup.OnExit(a, Some(0), None);
    assert sup.workers == [];
    assert sup.log == [];
  }
}
