/** Plugins as the primary process sees them: a record of optional hooks,
    each of which may throw. The primary calls a hook only when the plugin
    has it, and every call is guarded so that a throwing plugin never stops
    the others (server.js lines 44-49 and 167-173). */
module Plugins {
  import opened Messages

  /** A function value: one of the three built-in command handlers or a
      function some plugin contributed. */
  datatype Handler = LogHandler | UpdateQuotaHandler | ProfilingHandler | Contributed(id: nat)

  /** An optional hook that returns nothing; `throws` says whether calling it
      raises (a present but non-callable property raises too). */
  datatype Hook = Absent | Present(throws: bool)

  /** One own enumerable property of the object `addMainCommands` returned:
      a function, any other value, or an accessor whose read throws. */
  datatype Property = FunctionValue(handler: Handler) | OtherValue | ThrowingGetter

  datatype Entry = Entry(name: string, value: Property)

  /** The `addMainCommands` hook: missing, throwing when called, or returning
      a falsy value (`None`) or an object whose properties are listed in
      Object.keys order. */
  datatype CommandsHook =
    | NoCommandsHook
    | CommandsThrow
    | CommandsReturn(result: Option<seq<Entry>>)

  datatype Plugin = Plugin(
    name: string,
    initialize: Hook,
    addMainCommands: CommandsHook,
    onWorkerClosed: Hook)

  /** The arguments a guarded hook call passes: `initialize(Env, "main")` or
      `onWorkerClosed(kind, pid)`. */
  datatype HookArgs = Initialize | WorkerClosed(kind: string, pid: nat)

  /** One hook call the primary made, whatever the hook then did. */
  datatype HookCall = HookCall(plugin: string, args: HookArgs)

  predicate HasHook(p: Plugin, args: HookArgs)
  {
    match args
    case Initialize => p.initialize.Present?
    case WorkerClosed(_, _) => p.onWorkerClosed.Present?
  }

  /** The calls made by one guarded pass over the plugins, in plugin order. */
  function HookCalls(ps: seq<Plugin>, args: HookArgs): (r: seq<HookCall>)
    ensures |r| <= |ps|
    ensures forall i :: 0 <= i < |r| ==> r[i].args == args
  {
    if ps == [] then []
    else
      var last := ps[|ps| - 1];
      HookCalls(ps[..|ps| - 1], args) + (if HasHook(last, args) then [HookCall(last.name, args)] else [])
  }

  /** Every plugin that has the hook is called with the given arguments,
      whether or not it or an earlier plugin throws, and no other call is made
      (that each is called only once is `HookCallsOncePerPlugin`). */
  lemma {:induction false} HookCallsExactlyHooked(ps: seq<Plugin>, args: HookArgs)
    ensures forall i :: 0 <= i < |ps| && HasHook(ps[i], args) ==> HookCall(ps[i].name, args) in HookCalls(ps, args)
    ensures forall c :: c in HookCalls(ps, args) ==>
              c.args == args && exists i :: 0 <= i < |ps| && ps[i].name == c.plugin && HasHook(ps[i], args)
    ensures |HookCalls(ps, args)| <= |ps|
  {
    if ps != [] {
      var init := ps[..|ps| - 1];
      HookCallsExactlyHooked(init, args);
      forall c | c in HookCalls(ps, args)
        ensures c.args == args && exists i :: 0 <= i < |ps| && ps[i].name == c.plugin && HasHook(ps[i], args)
      {
        if c in HookCalls(init, args) {
          var i :| 0 <= i < |init| && init[i].name == c.plugin && HasHook(init[i], args);
          assert ps[i] == init[i];
        } else {
          assert c == HookCall(ps[|ps| - 1].name, args);
        }
      }
      forall i | 0 <= i < |ps| && HasHook(ps[i], args)
        ensures HookCall(ps[i].name, args) in HookCalls(ps, args)
      {
        if i < |ps| - 1 {
          assert init[i] == ps[i];
        }
      }
    }
  }

  /** Plugin `x` is listed before plugin `y`. */
  ghost predicate ListedBefore(ps: seq<Plugin>, x: string, y: string)
  {
    exists i, j :: 0 <= i < j < |ps| && ps[i].name == x && ps[j].name == y
  }

  /** The calls follow plugin order: of any two calls, the earlier one goes
      to a plugin listed before the later one's. */
  lemma {:induction false} HookCallsInPluginOrder(ps: seq<Plugin>, args: HookArgs)
    ensures forall a, b :: 0 <= a < b < |HookCalls(ps, args)| ==>
              ListedBefore(ps, HookCalls(ps, args)[a].plugin, HookCalls(ps, args)[b].plugin)
  {
    if ps != [] {
      var init := ps[..|ps| - 1];
      var calls, prev := HookCalls(ps, args), HookCalls(init, args);
      HookCallsInPluginOrder(init, args);
      HookCallsExactlyHooked(init, args);
      assert calls[..|prev|] == prev;
      forall a, b | 0 <= a < b < |calls|
        ensures ListedBefore(ps, calls[a].plugin, calls[b].plugin)
      {
        assert calls[a] == prev[a];
        if b < |prev| {
          assert calls[b] == prev[b];
          assert ListedBefore(init, prev[a].plugin, prev[b].plugin);
          var i, j :| 0 <= i < j < |init| && init[i].name == prev[a].plugin && init[j].name == prev[b].plugin;
          assert ps[i] == init[i] && ps[j] == init[j];
        } else {
          assert prev[a] in prev;
          var i :| 0 <= i < |init| && init[i].name == prev[a].plugin && HasHook(init[i], args);
          assert ps[i] == init[i];
          assert calls[b].plugin == ps[|ps| - 1].name;
        }
      }
    }
  }

  /** Since `Object.keys` yields every plugin name once, no call is repeated:
      each hooked plugin is called exactly once. */
  lemma HookCallsOncePerPlugin(ps: seq<Plugin>, args: HookArgs)
    requires forall i, j :: 0 <= i < j < |ps| ==> ps[i].name != ps[j].name
    ensures forall a, b :: 0 <= a < b < |HookCalls(ps, args)| ==> HookCalls(ps, args)[a] != HookCalls(ps, args)[b]
  {
    var calls := HookCalls(ps, args);
    HookCallsInPluginOrder(ps, args);
    forall a, b | 0 <= a < b < |calls|
      ensures calls[a] != calls[b]
    {
      assert ListedBefore(ps, calls[a].plugin, calls[b].plugin);
    }
  }

  /** Whether a hook throws has no effect on which calls are made. */
  lemma {:induction false} HookCallsIgnoreThrows(ps: seq<Plugin>, qs: seq<Plugin>, args: HookArgs)
    requires |ps| == |qs|
    requires forall i :: 0 <= i < |ps| ==> ps[i].name == qs[i].name
    requires forall i :: 0 <= i < |ps| ==> HasHook(ps[i], args) == HasHook(qs[i], args)
    ensures HookCalls(ps, args) == HookCalls(qs, args)
  {
    if ps != [] {
      HookCallsIgnoreThrows(ps[..|ps| - 1], qs[..|qs| - 1], args);
    }
  }
}
