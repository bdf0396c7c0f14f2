/**
 The unhandled-action watchdog (`UnhandledActionsLogger` in
 packages/store/src/unhandled-actions-logger/unhandled-actions-logger.ts).

 The ignored action types live in a JavaScript `Set`, modelled here as a
 duplicate-free sequence in insertion order; `console.warn` is modelled as
 appending the message to the logger's `warnings`.
 */
module UnhandledActions {
  import opened Wrappers

  /** `InitState.type`. */
  const InitStateType: string := "@@INIT"
  /** `UpdateState.type`. */
  const UpdateStateType: string := "@@UPDATE_STATE"

  const WarningPrefix: string := "The "
  const WarningSuffix: string :=
    " action has been dispatched but hasn't been handled. This may happen if the state with an action handler for this action is not registered."

  /** An action class as passed to `ignoreActions`: it carries a static `type`. */
  datatype ActionType = ActionType(typeName: string)

  /**
   A dispatched action instance, as far as the warning text looks at it:
   `ctorName` is `action.constructor.name` (`None` when there is no constructor),
   `typeField` is `action.type` (`None` when undefined).
   */
  datatype Action = Action(ctorName: Option<string>, typeField: Option<string>)

  /** The logger's state: the ignored types and the warnings emitted so far. */
  datatype Logger = Logger(ignored: seq<string>, warnings: seq<string>)

  predicate Distinct(s: seq<string>) {
    forall i, j :: 0 <= i < j < |s| ==> s[i] != s[j]
  }

  /** The `type` strings of a list of action classes. */
  function TypesOf(actions: seq<ActionType>): set<string> {
    set a | a in actions :: a.typeName
  }

  /** `Set.prototype.add`: appends `x` unless it is already present. */
  function SetAdd(s: seq<string>, x: string): (r: seq<string>)
    ensures Distinct(s) ==> Distinct(r)
    ensures forall y :: y in r <==> y in s || y == x
    ensures |s| <= |r| && r[..|s|] == s
    ensures x in s ==> r == s
  {
    if x in s then s else s + [x]
  }

  /** Adds the `type` of every action, in order. */
  function AddAll(s: seq<string>, actions: seq<ActionType>): (r: seq<string>)
    ensures Distinct(s) ==> Distinct(r)
    ensures forall y :: y in r <==> y in s || y in TypesOf(actions)
    ensures |s| <= |r| && r[..|s|] == s
    decreases |actions|
  {
    if |actions| == 0 then s
    else
      var init := actions[..|actions| - 1];
      var last := actions[|actions| - 1];
      assert actions == init + [last];
      SetAdd(AddAll(s, init), last.typeName)
  }

  /** A fresh logger: the two built-in lifecycle actions are ignored and nothing has been warned. */
  function NewLogger(): (l: Logger)
    ensures Distinct(l.ignored)
    ensures forall t :: t in l.ignored <==> t == InitStateType || t == UpdateStateType
    ensures |l.ignored| == 2
    ensures l.warnings == []
  {
    Logger(SetAdd(SetAdd([], InitStateType), UpdateStateType), [])
  }

  /** `ignoreActions(...actions)` as a state transition. */
  function Ignore(l: Logger, actions: seq<ActionType>): (l': Logger)
    ensures Distinct(l.ignored) ==> Distinct(l'.ignored)
    ensures forall t :: t in l'.ignored <==> t in l.ignored || t in TypesOf(actions)
    ensures |l.ignored| <= |l'.ignored| && l'.ignored[..|l.ignored|] == l.ignored
    ensures l'.warnings == l.warnings
  {
    l.(ignored := AddAll(l.ignored, actions))
  }

  /** The text `action` becomes in the template literal when it is undefined or a string. */
  function TypeText(t: Option<string>): string {
    match t
    case Some(s) => s
    case None => "undefined"
  }

  /** The name printed in the warning: the constructor's name unless it is `Object`, else `action.type`. */
  function ReportedName(a: Action): (n: string)
    ensures a.ctorName.Some? && a.ctorName.value != "Object" ==> n == a.ctorName.value
    ensures (a.ctorName.None? || a.ctorName.value == "Object") && a.typeField.Some? ==> n == a.typeField.value
    ensures (a.ctorName.None? || a.ctorName.value == "Object") && a.typeField.None? ==> n == "undefined"
  {
    match a.ctorName
    case Some(c) => if c != "Object" then c else TypeText(a.typeField)
    case None => TypeText(a.typeField)
  }

  /** The text passed to `console.warn`. */
  function WarningMessage(name: string): string {
    WarningPrefix + name + WarningSuffix
  }

  /** Reads the action name back out of a warning, the inverse of `WarningMessage`. */
  function NameInWarning(msg: string): (r: Option<string>)
    ensures r.Some? ==> msg == WarningMessage(r.value)
  {
    var p := |WarningPrefix|;
    var q := |WarningSuffix|;
    if p + q <= |msg| && msg[..p] == WarningPrefix && msg[|msg| - q..] == WarningSuffix then
      var name := msg[p..|msg| - q];
      assert msg == msg[..p] + name + msg[|msg| - q..];
      Some(name)
    else None
  }

  /** Every warning names its action unambiguously. */
  lemma WarningNamesAction(name: string)
    ensures NameInWarning(WarningMessage(name)) == Some(name)
  {
  }

  /**
   `warnIfNeeded(action)` as a state transition; `typeOf` stands for
   `getActionTypeFromInstance`, whose definition is outside this model.
   */
  function Warn(l: Logger, action: Action, typeOf: Action -> string): (l': Logger)
    ensures l'.ignored == l.ignored
    ensures typeOf(action) in l.ignored <==> l'.warnings == l.warnings
    ensures typeOf(action) !in l.ignored ==> l'.warnings == l.warnings + [WarningMessage(ReportedName(action))]
  {
    if typeOf(action) in l.ignored then l
    else l.(warnings := l.warnings + [WarningMessage(ReportedName(action))])
  }

  /** The loop of `ignoreActions`, one `Set.add` per action. */
  method IgnoreActions(l: Logger, actions: seq<ActionType>) returns (l': Logger)
    ensures l' == Ignore(l, actions)
  {
    var ignored := l.ignored;
    for i := 0 to |actions|
      invariant ignored == AddAll(l.ignored, actions[..i])
    {
      assert actions[..i + 1][..i] == actions[..i];
      ignored := SetAdd(ignored, actions[i].typeName);
    }
    assert actions[..|actions|] == actions;
    l' := l.(ignored := ignored);
  }

  /** `Array.from(ignored).some(type => type === t)`: a scan that stops at the first match. */
  method SomeEquals(ignored: seq<string>, t: string) returns (found: bool)
    ensures found <==> t in ignored
  {
    found := false;
    var i := 0;
    while i < |ignored| && !found
      invariant 0 <= i <= |ignored|
      invariant found <==> t in ignored[..i]
    {
      assert ignored[..i + 1] == ignored[..i] + [ignored[i]];
      found := ignored[i] == t;
      i := i + 1;
    }
    assert !found ==> ignored[..i] == ignored;
  }

  /** `warnIfNeeded`: emits one warning unless the action's type is ignored. */
  method WarnIfNeeded(l: Logger, action: Action, typeOf: Action -> string) returns (l': Logger)
    ensures l' == Warn(l, action, typeOf)
  {
    var shouldBeIgnored := SomeEquals(l.ignored, typeOf(action));
    if shouldBeIgnored {
      return l;
    }
    var name := ReportedName(action);
    l' := l.(warnings := l.warnings + [WarningMessage(name)]);
  }

  /** Registering types that are all already ignored leaves the logger as it was. */
  lemma {:induction false} IgnorePresentIsNoOp(s: seq<string>, actions: seq<ActionType>)
    requires forall a :: a in actions ==> a.typeName in s
    ensures AddAll(s, actions) == s
    decreases |actions|
  {
    if |actions| > 0 {
      var init := actions[..|actions| - 1];
      IgnorePresentIsNoOp(s, init);
    }
  }

  /** `ignoreActions` is idempotent. */
  lemma IgnoreIdempotent(l: Logger, actions: seq<ActionType>)
    ensures Ignore(Ignore(l, actions), actions) == Ignore(l, actions)
  {
    var l1 := Ignore(l, actions);
    forall a | a in actions
      ensures a.typeName in l1.ignored
    {
      assert a.typeName in TypesOf(actions);
    }
    IgnorePresentIsNoOp(l1.ignored, actions);
  }

  /** One call the host makes on the logger. */
  datatype Event = IgnoreEvent(actions: seq<ActionType>) | Unhandled(action: Action)

  /** The logger after a sequence of calls, oldest first. */
  function Run(l: Logger, events: seq<Event>, typeOf: Action -> string): Logger
    decreases |events|
  {
    if |events| == 0 then l
    else
      var prev := Run(l, events[..|events| - 1], typeOf);
      match events[|events| - 1]
      case IgnoreEvent(actions) => Ignore(prev, actions)
      case Unhandled(a) => Warn(prev, a, typeOf)
  }

  /** Every type registered with an ignore event. */
  function RegisteredTypes(events: seq<Event>): set<string> {
    set e, t | e in events && e.IgnoreEvent? && t in TypesOf(e.actions) :: t
  }

  /** The number of `warnIfNeeded` calls. */
  function UnhandledCount(events: seq<Event>): nat
    decreases |events|
  {
    if |events| == 0 then 0
    else UnhandledCount(events[..|events| - 1]) + (if events[|events| - 1].Unhandled? then 1 else 0)
  }

  /**
   Over any run, the ignored set is exactly the initial set plus every registered
   type, it never loses an entry or reorders one, and it stays duplicate-free.
   */
  lemma {:induction false} RunIgnored(l: Logger, events: seq<Event>, typeOf: Action -> string)
    requires Distinct(l.ignored)
    ensures var r := Run(l, events, typeOf);
            && Distinct(r.ignored)
            && (forall t :: t in r.ignored <==> t in l.ignored || t in RegisteredTypes(events))
            && |l.ignored| <= |r.ignored| && r.ignored[..|l.ignored|] == l.ignored
    decreases |events|
  {
    if |events| > 0 {
      var init := events[..|events| - 1];
      var last := events[|events| - 1];
      assert events == init + [last];
      RunIgnored(l, init, typeOf);
      var prev := Run(l, init, typeOf);
      var r := Run(l, events, typeOf);
      forall t
        ensures t in r.ignored <==> t in l.ignored || t in RegisteredTypes(events)
      {
        if last.IgnoreEvent? {
          if t in TypesOf(last.actions) {
            assert last in events;
          }
          if t in RegisteredTypes(events) && t !in RegisteredTypes(init) {
            var e :| e in events && e.IgnoreEvent? && t in TypesOf(e.actions);
            assert e !in init;
            assert e == last;
          }
        } else {
          if t in RegisteredTypes(events) {
            var e :| e in events && e.IgnoreEvent? && t in TypesOf(e.actions);
            assert e in init;
          }
        }
      }
      assert prev.ignored[..|l.ignored|] == l.ignored;
      assert r.ignored[..|prev.ignored|] == prev.ignored;
      assert r.ignored[..|l.ignored|] == prev.ignored[..|l.ignored|];
    }
  }

  /** Each `warnIfNeeded` call adds at most one warning, and ignoring adds none. */
  lemma {:induction false} RunWarningsBounded(l: Logger, events: seq<Event>, typeOf: Action -> string)
    ensures var r := Run(l, events, typeOf);
            && |l.warnings| <= |r.warnings| <= |l.warnings| + UnhandledCount(events)
            && r.warnings[..|l.warnings|] == l.warnings
    decreases |events|
  {
    if |events| > 0 {
      var init := events[..|events| - 1];
      RunWarningsBounded(l, init, typeOf);
      var prev := Run(l, init, typeOf);
      var r := Run(l, events, typeOf);
      assert r.warnings[..|prev.warnings|] == prev.warnings;
      assert r.warnings[..|l.warnings|] == prev.warnings[..|l.warnings|];
    }
  }

  /** A fresh logger stays silent for the built-in lifecycle actions. */
  lemma LifecycleActionsSilent(a: Action, typeOf: Action -> string)
    requires typeOf(a) == InitStateType || typeOf(a) == UpdateStateType
    ensures Warn(NewLogger(), a, typeOf) == NewLogger()
  {
  }

  /** Once a type is registered, its actions are never reported again, whatever happens later. */
  lemma RegisteredStaysSilent(l: Logger, events: seq<Event>, a: Action, typeOf: Action -> string)
    requires Distinct(l.ignored)
    requires typeOf(a) in RegisteredTypes(events)
    ensures var r := Run(l, events, typeOf); Warn(r, a, typeOf) == r
  {
  }

  /** After registering `Foo`, a `Foo` action is silent and a plain `{type: 'Bar'}` object is reported once, as `Bar`. */
  lemma IgnoredFooReportedBar(foo: Action, typeOf: Action -> string)
    requires typeOf(foo) == "Foo"
    requires typeOf(Action(Some("Object"), Some("Bar"))) == "Bar"
    ensures var l := Ignore(NewLogger(), [ActionType("Foo")]);
            && Warn(l, foo, typeOf) == l
            && Warn(l, Action(Some("Object"), Some("Bar")), typeOf).warnings == [WarningMessage("Bar")]
  {
  }
}
