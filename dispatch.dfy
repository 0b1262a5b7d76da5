/** Classification of a message a worker sends to the primary (server.js
    lines 143-152): ignored when the message or its content is falsy, logged
    as UNHANDLED_HTTP_WORKER_COMMAND when its command has no handler, and
    otherwise dispatched to the registered handler. */
module Dispatch {
  import opened Messages
  import opened CommandNames
  import opened Plugins
  import opened Registry

  datatype Route = Ignore | Unhandled | Dispatch(handler: Handler)

  /** The classification with the registry read as a dictionary of its own
      entries: a command is dispatched exactly when it was registered. */
  function Classify(commands: map<string, Handler>, msg: Incoming): (r: Route)
    ensures r.Ignore? <==> msg.Falsy? || msg.content.None?
    ensures r.Unhandled? <==> msg.Request? && msg.content.Some? && msg.content.value.command !in commands
    ensures r.Dispatch? ==> msg.Request? && msg.content.Some? && msg.content.value.command in commands
                            && r.handler == commands[msg.content.value.command]
  {
    match msg
    case Falsy => Ignore
    case Request(_, _, content) =>
      if content.None? then Ignore
      else if content.value.command in commands then Dispatch(commands[content.value.command])
      else Unhandled
  }

  /** The function-valued properties every plain object inherits from
      Object.prototype. */
  const InheritedFunctionNames: set<string> := {
    "constructor", "hasOwnProperty", "isPrototypeOf", "propertyIsEnumerable",
    "toLocaleString", "toString", "valueOf",
    "__defineGetter__", "__defineSetter__", "__lookupGetter__", "__lookupSetter__"
  }

  /** What `COMMANDS[content.command]` yields when read as the code reads it:
      an own entry, or a function found on Object.prototype. */
  datatype Callee = Own(handler: Handler) | Inherited(name: string)

  datatype WrittenRoute = Ignored | LoggedUnhandled | Called(callee: Callee)

  /** Lines 143-152 as written: the property read goes up the prototype chain,
      so an inherited method passes the `typeof ... === 'function'` test. */
  function ClassifyAsWritten(commands: map<string, Handler>, msg: Incoming): (r: WrittenRoute)
    ensures r.Called? && r.callee.Inherited? ==>
              msg.Request? && msg.content.Some? && msg.content.value.command !in commands
              && r.callee.name == msg.content.value.command && r.callee.name in InheritedFunctionNames
  {
    match msg
    case Falsy => Ignored
    case Request(_, _, content) =>
      if content.None? then Ignored
      else
        var name := content.value.command;
        if name in commands then Called(Own(commands[name]))
        else if name in InheritedFunctionNames then Called(Inherited(name))
        else LoggedUnhandled
  }

  /** The two readings disagree only on the inherited names: for every other
      command, as-written and corrected classification coincide. */
  lemma AsWrittenAgreesOutsideInherited(commands: map<string, Handler>, msg: Incoming)
    requires msg.Request? && msg.content.Some? ==> msg.content.value.command !in InheritedFunctionNames
    ensures Classify(commands, msg).Ignore? <==> ClassifyAsWritten(commands, msg).Ignored?
    ensures Classify(commands, msg).Unhandled? <==> ClassifyAsWritten(commands, msg).LoggedUnhandled?
    ensures Classify(commands, msg).Dispatch? <==>
              ClassifyAsWritten(commands, msg).Called? && ClassifyAsWritten(commands, msg).callee.Own?
    ensures Classify(commands, msg).Dispatch? ==>
              ClassifyAsWritten(commands, msg).callee.handler == Classify(commands, msg).handler
  {
  }

  /** Every inherited name has a lower-case letter, so none of them can be
      registered and the merge's own `COMMANDS[cmd]` test (line 86) never
      sees the prototype. */
  lemma InheritedNamesAreNotCommandNames()
    ensures forall n :: n in InheritedFunctionNames ==> !IsCommandName(n)
  {
    forall n | n in InheritedFunctionNames
      ensures !IsCommandName(n)
    {
      if IsLower(n[0]) {
        LowercaseIsNotCommandName(n, 0);
      } else {
        LowercaseIsNotCommandName(n, 2);
      }
    }
  }

  /** The discrepancy: whatever the plugins contribute, the registry holds no
      inherited name, yet as written a request for one (say "toString") is
      handed to the Object.prototype method instead of being logged as
      unhandled; the corrected classification logs it. */
  lemma InheritedNamesAreCalledAsWritten(ps: seq<Plugin>, msg: Incoming)
    requires msg.Request? && msg.content.Some? && msg.content.value.command in InheritedFunctionNames
    ensures ClassifyAsWritten(MergeAll(Builtins(), ps), msg) == Called(Inherited(msg.content.value.command))
    ensures Classify(MergeAll(Builtins(), ps), msg) == Unhandled
  {
    BuiltinNamesAreCommandNames();
    MergeAllNamesAreCommandNames(Builtins(), ps);
    InheritedNamesAreNotCommandNames();
  }
}
