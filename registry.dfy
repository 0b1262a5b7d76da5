/** The COMMANDS registry of the primary process (server.js lines 51-91): a
    dictionary from command name to handler, filled in place with the three
    built-in handlers and then with every plugin's `addMainCommands` result.
    A contributed entry is kept only when its name is its own upper-cased
    form, its value is a function and the name is not registered yet, so the
    first registration of a name wins and the registry only grows. */
module Registry {
  import opened Messages
  import opened CommandNames
  import opened Plugins

  /** The handlers installed before any plugin is consulted. */
  function Builtins(): map<string, Handler>
  {
    map["LOG" := LogHandler, "UPDATE_QUOTA" := UpdateQuotaHandler, "GET_PROFILING_DATA" := ProfilingHandler]
  }

  function Get(m: map<string, Handler>, name: string): Option<Handler>
  {
    if name in m then Some(m[name]) else None
  }

  /** The read at line 84 happens and throws: only a name that passed the
      naming test at line 82 has its value read, so a throwing getter under a
      lower-case name is never run. */
  predicate StopsMerge(e: Entry)
  {
    IsCommandName(e.name) && e.value.ThrowingGetter?
  }

  /** The entries the `forEach` at line 80 visits: all of them, or those
      before the first upper-case property whose read throws (the exception
      leaves the loop and is swallowed by the plugin's `catch`). */
  function VisitedEntries(es: seq<Entry>): (r: seq<Entry>)
    ensures |r| <= |es| && r == es[..|r|]
    ensures forall i :: 0 <= i < |r| ==> !StopsMerge(r[i])
    ensures |r| < |es| ==> StopsMerge(es[|r|])
  {
    if es == [] || StopsMerge(es[0]) then [] else [es[0]] + VisitedEntries(es[1..])
  }

  /** The visited entries are determined by where the first read that throws is. */
  lemma VisitedPrefix(es: seq<Entry>, n: nat)
    requires n <= |es|
    requires forall j :: 0 <= j < n ==> !StopsMerge(es[j])
    requires n == |es| || StopsMerge(es[n])
    ensures VisitedEntries(es) == es[..n]
  {
  }

  /** The entries a plugin offers to the registry, in the order they are tried:
      none when it has no hook, when the hook throws or returns a falsy value. */
  function Contributions(p: Plugin): (r: seq<Entry>)
    ensures p.addMainCommands.CommandsReturn? && p.addMainCommands.result.Some? ==>
              var es := p.addMainCommands.result.value;
              && |r| <= |es| && r == es[..|r|]
              && (forall i :: 0 <= i < |r| ==> !StopsMerge(r[i]))
              && (|r| < |es| ==> StopsMerge(es[|r|]))
    ensures !(p.addMainCommands.CommandsReturn? && p.addMainCommands.result.Some?) ==> r == []
  {
    match p.addMainCommands
    case NoCommandsHook => []
    case CommandsThrow => []
    case CommandsReturn(result) =>
      if result.None? then [] else VisitedEntries(result.value)
  }

  /** An entry that passes the naming rule and holds a function. */
  predicate Registrable(e: Entry)
  {
    IsCommandName(e.name) && e.value.FunctionValue?
  }

  /** One step of the merge at lines 80-89. */
  function AddEntry(m: map<string, Handler>, e: Entry): (r: map<string, Handler>)
    ensures forall k :: k in m ==> k in r && r[k] == m[k]
    ensures r.Keys <= m.Keys + {e.name}
    ensures e.name !in m ==> (e.name in r <==> Registrable(e))
    ensures e.name in r && e.name !in m ==> r[e.name] == e.value.handler
  {
    if e.name != ToUpper(e.name) then m
    else if !e.value.FunctionValue? then m
    else if e.name in m then m
    else m[e.name := e.value.handler]
  }

  /** The registry after trying the entries `es` in order. */
  function AddEntries(m: map<string, Handler>, es: seq<Entry>): map<string, Handler>
  {
    if es == [] then m else AddEntry(AddEntries(m, es[..|es| - 1]), es[|es| - 1])
  }

  /** The registry after one plugin's guarded block (lines 76-90). */
  function MergePlugin(m: map<string, Handler>, p: Plugin): map<string, Handler>
  {
    AddEntries(m, Contributions(p))
  }

  /** The registry after the plugins `ps`, in enumeration order. */
  function MergeAll(m: map<string, Handler>, ps: seq<Plugin>): map<string, Handler>
  {
    if ps == [] then m else MergePlugin(MergeAll(m, ps[..|ps| - 1]), ps[|ps| - 1])
  }

  /** All entries the plugins offer, plugin after plugin. */
  function AllContributions(ps: seq<Plugin>): seq<Entry>
  {
    if ps == [] then [] else AllContributions(ps[..|ps| - 1]) + Contributions(ps[|ps| - 1])
  }

  /** Reference definition of "first registration wins": the handler of the
      earliest registrable entry named `name`, if any. */
  function FirstRegistration(es: seq<Entry>, name: string): Option<Handler>
  {
    if es == [] then None
    else if es[0].name == name && Registrable(es[0]) then Some(es[0].value.handler)
    else FirstRegistration(es[1..], name)
  }

  lemma {:induction false} AddEntriesAppend(m: map<string, Handler>, a: seq<Entry>, b: seq<Entry>)
    ensures AddEntries(m, a + b) == AddEntries(AddEntries(m, a), b)
    decreases |b|
  {
    if b == [] {
      assert a + b == a;
    } else {
      var b' := b[..|b| - 1];
      AddEntriesAppend(m, a, b');
      assert (a + b)[..|a + b| - 1] == a + b';
    }
  }

  /** No entry ever replaces or removes a registered name. */
  lemma {:induction false} AddEntriesKeeps(m: map<string, Handler>, es: seq<Entry>)
    ensures forall k :: k in m ==> k in AddEntries(m, es) && AddEntries(m, es)[k] == m[k]
  {
    if es != [] {
      AddEntriesKeeps(m, es[..|es| - 1]);
    }
  }

  /** A name not registered before is bound to its first registrable entry. */
  lemma {:induction false} AddEntriesFirstWins(m: map<string, Handler>, es: seq<Entry>, name: string)
    requires name !in m
    ensures Get(AddEntries(m, es), name) == FirstRegistration(es, name)
    decreases |es|
  {
    if es != [] {
      AddEntriesAppend(m, [es[0]], es[1..]);
      assert [es[0]] + es[1..] == es;
      assert AddEntries(m, [es[0]]) == AddEntry(m, es[0]) by {
        assert [es[0]][..0] == [];
      }
      var m1 := AddEntry(m, es[0]);
      if es[0].name == name && Registrable(es[0]) {
        AddEntriesKeeps(m1, es[1..]);
      } else {
        AddEntriesFirstWins(m1, es[1..], name);
      }
    }
  }

  lemma AllContributionsSnoc(ps: seq<Plugin>, p: Plugin)
    ensures AllContributions(ps + [p]) == AllContributions(ps) + Contributions(p)
  {
    assert (ps + [p])[..|ps|] == ps;
  }

  lemma {:induction false} AllContributionsAppend(a: seq<Plugin>, b: seq<Plugin>)
    ensures AllContributions(a + b) == AllContributions(a) + AllContributions(b)
    decreases |b|
  {
    if b == [] {
      assert a + b == a;
    } else {
      var b', last := b[..|b| - 1], b[|b| - 1];
      assert AllContributions(a + b) == AllContributions(a + b') + Contributions(last) by {
        assert (a + b)[..|a + b| - 1] == a + b';
      }
      AllContributionsAppend(a, b');
    }
  }

  /** Merging plugin by plugin is trying all their entries in one sequence. */
  lemma {:induction false} MergeAllIsAddEntries(m: map<string, Handler>, ps: seq<Plugin>)
    ensures MergeAll(m, ps) == AddEntries(m, AllContributions(ps))
  {
    if ps != [] {
      var init := ps[..|ps| - 1];
      MergeAllIsAddEntries(m, init);
      AddEntriesAppend(m, AllContributions(init), Contributions(ps[|ps| - 1]));
    }
  }

  /** Lookup after the merge: a name registered beforehand (a built-in or an
      earlier plugin's) keeps its handler; any other name is bound to the first
      registrable entry the plugins offered for it, and is absent if none did. */
  lemma MergedLookup(m: map<string, Handler>, ps: seq<Plugin>, name: string)
    ensures Get(MergeAll(m, ps), name) ==
            if name in m then Some(m[name]) else FirstRegistration(AllContributions(ps), name)
  {
    MergeAllIsAddEntries(m, ps);
    if name in m {
      AddEntriesKeeps(m, AllContributions(ps));
    } else {
      AddEntriesFirstWins(m, AllContributions(ps), name);
    }
  }

  /** The registry only grows: every earlier binding survives every plugin. */
  lemma MergeAllKeeps(m: map<string, Handler>, ps: seq<Plugin>)
    ensures forall k :: k in m ==> k in MergeAll(m, ps) && MergeAll(m, ps)[k] == m[k]
  {
    MergeAllIsAddEntries(m, ps);
    AddEntriesKeeps(m, AllContributions(ps));
  }

  /** The built-ins are never overridden, whatever the plugins contribute. */
  lemma BuiltinsSurvive(ps: seq<Plugin>)
    ensures Get(MergeAll(Builtins(), ps), "LOG") == Some(LogHandler)
    ensures Get(MergeAll(Builtins(), ps), "UPDATE_QUOTA") == Some(UpdateQuotaHandler)
    ensures Get(MergeAll(Builtins(), ps), "GET_PROFILING_DATA") == Some(ProfilingHandler)
  {
    MergeAllKeeps(Builtins(), ps);
  }

  /** Every name in the merged registry passes the naming rule, provided the
      starting registry's names do. */
  lemma {:induction false} MergeAllNamesAreCommandNames(m: map<string, Handler>, ps: seq<Plugin>)
    requires forall k :: k in m ==> IsCommandName(k)
    ensures forall k :: k in MergeAll(m, ps) ==> IsCommandName(k)
  {
    MergeAllIsAddEntries(m, ps);
    AddEntriesNamesAreCommandNames(m, AllContributions(ps));
  }

  lemma {:induction false} AddEntriesNamesAreCommandNames(m: map<string, Handler>, es: seq<Entry>)
    requires forall k :: k in m ==> IsCommandName(k)
    ensures forall k :: k in AddEntries(m, es) ==> IsCommandName(k)
  {
    if es != [] {
      AddEntriesNamesAreCommandNames(m, es[..|es| - 1]);
    }
  }

  lemma BuiltinNamesAreCommandNames()
    ensures forall k :: k in Builtins() ==> IsCommandName(k)
  {
    CommandNameIffNoLowercase("LOG");
    CommandNameIffNoLowercase("UPDATE_QUOTA");
    CommandNameIffNoLowercase("GET_PROFILING_DATA");
  }

  /** A plugin without `addMainCommands`, or whose hook throws or returns a
      falsy value, changes nothing: the registry is what the other plugins,
      before and after it, make of it. */
  lemma IdlePluginIsInvisible(m: map<string, Handler>, ps: seq<Plugin>, i: nat)
    requires i < |ps|
    requires ps[i].addMainCommands.NoCommandsHook? || ps[i].addMainCommands.CommandsThrow?
             || ps[i].addMainCommands == CommandsReturn(None)
    ensures MergeAll(m, ps) == MergeAll(m, ps[..i] + ps[i + 1..])
  {
    var before, after := ps[..i], ps[i + 1..];
    assert ps == before + ([ps[i]] + after);
    assert AllContributions(ps) == AllContributions(before + after) by {
      AllContributionsSnoc([], ps[i]);
      assert [] + [ps[i]] == [ps[i]];
      AllContributionsAppend([ps[i]], after);
      AllContributionsAppend(before, [ps[i]] + after);
      AllContributionsAppend(before, after);
    }
    MergeAllIsAddEntries(m, ps);
    MergeAllIsAddEntries(m, before + after);
  }

  /** An entry whose name fails the naming test is skipped before its value is
      read, so a lower-case throwing getter hides none of the entries after it. */
  lemma LowercaseGetterHidesNothing(m: map<string, Handler>, e: Entry, es: seq<Entry>)
    requires !IsCommandName(e.name)
    ensures AddEntries(m, VisitedEntries([e] + es)) == AddEntries(m, VisitedEntries(es))
  {
    assert ([e] + es)[1..] == es;
    assert VisitedEntries([e] + es) == [e] + VisitedEntries(es);
    AddEntriesAppend(m, [e], VisitedEntries(es));
    assert AddEntries(m, [e]) == AddEntry(AddEntries(m, []), e);
  }

  /** The registry as the primary builds it: a dictionary updated in place. */
  class CommandRegistry {
    var commands: map<string, Handler>

    /** Lines 51-73: the three built-in handlers. */
    constructor ()
      ensures commands == Builtins()
    {
      commands := Builtins();
    }

    /** Lines 76-90 for one plugin. */
    method AddPluginCommands(p: Plugin)
      modifies this
      ensures commands == MergePlugin(old(commands), p)
    {
      if p.addMainCommands.NoCommandsHook? || p.addMainCommands.CommandsThrow? {
        return;
      }
      var returned := p.addMainCommands.result;
      if returned.None? {
        return;
      }
      var es := returned.value;
      var i := 0;
      while i < |es|
        invariant 0 <= i <= |es|
        invariant forall j :: 0 <= j < i ==> !StopsMerge(es[j])
        invariant commands == AddEntries(old(commands), es[..i])
      {
        var e := es[i];
        if e.name == ToUpper(e.name) {
          if e.value.ThrowingGetter? {
            break;
          }
          if e.value.FunctionValue? && e.name !in commands {
            commands := commands[e.name := e.value.handler];
          }
        }
        assert es[..i + 1][..i] == es[..i];
        i := i + 1;
      }
      VisitedPrefix(es, i);
    }

    /** Lines 75-91: every plugin in enumeration order. */
    method AddAllPluginCommands(ps: seq<Plugin>)
      modifies this
      ensures commands == MergeAll(old(commands), ps)
    {
      for k := 0 to |ps|
        invariant commands == MergeAll(old(commands), ps[..k])
      {
        AddPluginCommands(ps[k]);
        assert ps[..k + 1][..k] == ps[..k];
      }
      assert ps[..|ps|] == ps;
    }
  }
}
