/**
 * The single-slot application lifecycle of the shell, on values.
 *
 * A `Slot` holds the two fields the shell keeps about the active child
 * application: its key (`currentLoadedApp`) and the unmount handle its `main`
 * returned (`currentLoadedAppUnmount`). `LoadAppStep` is one call of
 * `loadApp` on a booted shell as one atomic step: given the capability object,
 * the slot and the outcome of the module import, it yields the new slot, the
 * outcome of the call, and the observable effects in the order they happen.
 * `Run` chains calls.
 */
module Lifecycle {
  import opened Options
  import opened Config

  /** An unmount handle returned by an application's `main`; an opaque token. */
  datatype Handle = Handle(token: nat)

  /** `currentLoadedApp` and `currentLoadedAppUnmount`, `None` while undefined. */
  datatype Slot = Slot(app: Option<string>, unmount: Option<Handle>)

  /** The slot of a shell that has not loaded anything yet. */
  const Empty := Slot(None, None)

  /** What the module loader yields for a locator. */
  datatype ImportOutcome =
    | ImportFailed              // the import itself rejects
    | NoMain                    // the module has no callable `main`
    | Imported(handle: Handle)  // `main` exists and returns this unmount handle

  /** The observable effects of `loadApp`, recorded in the order they occur. */
  datatype Event =
    | Unmount(app: string, handle: Handle)  // the stored unmount handle is invoked
    | Import(locator: string)               // the module loader is asked for a module
    | Mount(app: string, api: ShellAPI, handle: Handle)  // `main(api, …)` is called and returns `handle`

  datatype ShellError =
    | NotBooted             // `loadApp` before `boot`: the capability object is undefined
    | UnknownApp(key: string)  // "App <key> is not defined!"
    | ImportError           // the rejection of the module loader, passed through
    | MissingMain           // "Unable to find 'main' function"

  /** How a call of `loadApp` ends. */
  datatype LoadResult =
    | Threw(error: ShellError)      // synchronous throw
    | NoOp                          // the key is already loaded: returns nothing
    | Rejected(reason: ShellError)  // the returned promise rejects
    | Resolved(handle: Handle)      // the returned promise resolves with the new handle

  datatype Transition = Transition(slot: Slot, result: LoadResult, events: seq<Event>)

  /** The two fields are defined together or not at all. */
  predicate Paired(slot: Slot) {
    slot.app.Some? <==> slot.unmount.Some?
  }

  /** A recorded key is one of the configured applications. */
  predicate Registered(apps: map<string, AppConfig>, slot: Slot) {
    slot.app.Some? ==> slot.app.value in apps
  }

  /** The effects of a switch up to the import: unmount of the recorded app, if any, then the import. */
  function SwitchEffects(apps: map<string, AppConfig>, slot: Slot, appKey: string): seq<Event>
    requires Paired(slot) && appKey in apps
  {
    (if slot.app.Some? then [Unmount(slot.app.value, slot.unmount.value)] else [])
      + [Import(ModuleLocator(apps[appKey]))]
  }

  /**
   * One call of `loadApp(appKey)` on a shell booted with capability object
   * `api`, as the code is written: a failed import or a module without `main`
   * leaves the slot as it was, although its unmount handle has already been
   * invoked. The two fields are assigned only when the call resolves.
   */
  function LoadAppStep(api: ShellAPI, slot: Slot, appKey: string, outcome: ImportOutcome): (t: Transition)
    requires Paired(slot)
    ensures Paired(t.slot)
    ensures t.result.Resolved? <==> appKey in api.bootConfig.apps && slot.app != Some(appKey) && outcome.Imported?
    ensures t.slot != slot ==> t.result.Resolved?
  {
    var apps := api.bootConfig.apps;
    if appKey !in apps then Transition(slot, Threw(UnknownApp(appKey)), [])
    else if slot.app == Some(appKey) then Transition(slot, NoOp, [])
    else
      var requested := SwitchEffects(apps, slot, appKey);
      match outcome
      case ImportFailed => Transition(slot, Rejected(ImportError), requested)
      case NoMain => Transition(slot, Rejected(MissingMain), requested)
      case Imported(h) => Transition(Slot(Some(appKey), Some(h)), Resolved(h), requested + [Mount(appKey, api, h)])
  }

  /**
   * The evidently intended `loadApp`: once the previous application has been
   * unmounted the slot no longer records it, so a failed import leaves the
   * shell with no application recorded.
   */
  function LoadAppCorrected(api: ShellAPI, slot: Slot, appKey: string, outcome: ImportOutcome): (t: Transition)
    requires Paired(slot)
    ensures Paired(t.slot)
    ensures !t.result.Resolved? && t.events != [] ==> t.slot == Empty
  {
    var apps := api.bootConfig.apps;
    if appKey !in apps then Transition(slot, Threw(UnknownApp(appKey)), [])
    else if slot.app == Some(appKey) then Transition(slot, NoOp, [])
    else
      var requested := SwitchEffects(apps, slot, appKey);
      match outcome
      case ImportFailed => Transition(Empty, Rejected(ImportError), requested)
      case NoMain => Transition(Empty, Rejected(MissingMain), requested)
      case Imported(h) => Transition(Slot(Some(appKey), Some(h)), Resolved(h), requested + [Mount(appKey, api, h)])
  }

  // ---------------------------------------------------------------------------
  // Properties of one call

  lemma UnknownAppThrows(api: ShellAPI, slot: Slot, appKey: string, outcome: ImportOutcome)
    requires Paired(slot)
    ensures var t := LoadAppStep(api, slot, appKey, outcome);
      t.result.Threw? <==> appKey !in api.bootConfig.apps
    ensures appKey !in api.bootConfig.apps ==>
      LoadAppStep(api, slot, appKey, outcome) == Transition(slot, Threw(UnknownApp(appKey)), [])
  {
  }

  lemma LoadedAppIsNoOp(api: ShellAPI, slot: Slot, appKey: string, outcome: ImportOutcome)
    requires Paired(slot) && appKey in api.bootConfig.apps
    ensures var t := LoadAppStep(api, slot, appKey, outcome);
      t.result == NoOp <==> slot.app == Some(appKey)
    ensures slot.app == Some(appKey) ==>
      LoadAppStep(api, slot, appKey, outcome) == Transition(slot, NoOp, [])
  {
  }

  /** Switching away from a recorded application unmounts it exactly once, and before the import. */
  lemma SwitchUnmountsBeforeImport(api: ShellAPI, slot: Slot, appKey: string, outcome: ImportOutcome)
    requires Paired(slot) && appKey in api.bootConfig.apps
    requires slot.app.Some? && slot.app != Some(appKey)
    ensures var e := LoadAppStep(api, slot, appKey, outcome).events;
      && |e| >= 2
      && e[0] == Unmount(slot.app.value, slot.unmount.value)
      && e[1] == Import(ModuleLocator(api.bootConfig.apps[appKey]))
      && forall i :: 1 <= i < |e| ==> !e[i].Unmount?
  {
  }

  /** With nothing recorded, no unmount happens: the first effect is the import. */
  lemma FirstLoadDoesNotUnmount(api: ShellAPI, slot: Slot, appKey: string, outcome: ImportOutcome)
    requires Paired(slot) && appKey in api.bootConfig.apps && slot.app.None?
    ensures var e := LoadAppStep(api, slot, appKey, outcome).events;
      && |e| >= 1
      && e[0] == Import(ModuleLocator(api.bootConfig.apps[appKey]))
      && forall i :: 0 <= i < |e| ==> !e[i].Unmount?
  {
  }

  /** A failed import or a module without `main`: the call rejects, nothing is mounted, the slot is kept. */
  lemma FailedImportKeepsSlot(api: ShellAPI, slot: Slot, appKey: string, outcome: ImportOutcome)
    requires Paired(slot) && appKey in api.bootConfig.apps && slot.app != Some(appKey)
    requires !outcome.Imported?
    ensures var t := LoadAppStep(api, slot, appKey, outcome);
      && t.slot == slot
      && t.result == Rejected(if outcome.NoMain? then MissingMain else ImportError)
      && t.events == SwitchEffects(api.bootConfig.apps, slot, appKey)
      && forall i :: 0 <= i < |t.events| ==> !t.events[i].Mount?
  {
  }

  /**
   * A successful import calls `main` with the capability object, records the
   * new key with the handle `main` returned, and resolves with that handle.
   */
  lemma SuccessfulLoadRecords(api: ShellAPI, slot: Slot, appKey: string, h: Handle)
    requires Paired(slot) && appKey in api.bootConfig.apps && slot.app != Some(appKey)
    ensures var t := LoadAppStep(api, slot, appKey, Imported(h));
      && t.slot == Slot(Some(appKey), Some(h))
      && t.result == Resolved(h)
      && t.events == SwitchEffects(api.bootConfig.apps, slot, appKey) + [Mount(appKey, api, h)]
  {
  }

  /** The two fields change only together, and only ever to a configured key. */
  lemma LoadAppKeepsSlotInvariant(api: ShellAPI, slot: Slot, appKey: string, outcome: ImportOutcome)
    requires Paired(slot) && Registered(api.bootConfig.apps, slot)
    ensures var t := LoadAppStep(api, slot, appKey, outcome);
      && Paired(t.slot) && Registered(api.bootConfig.apps, t.slot)
      && (t.slot != slot ==> t.slot.app == Some(appKey) && t.result.Resolved?)
  {
  }

  /** Loading the same application twice in a row imports and mounts it once. */
  lemma LoadTwiceImportsOnce(api: ShellAPI, slot: Slot, appKey: string, h: Handle, second: ImportOutcome)
    requires Paired(slot) && appKey in api.bootConfig.apps
    ensures var first := LoadAppStep(api, slot, appKey, Imported(h));
      var again := LoadAppStep(api, first.slot, appKey, second);
      again == Transition(first.slot, NoOp, [])
  {
  }

  // ---------------------------------------------------------------------------
  // Sequences of calls

  datatype Call = Call(appKey: string, outcome: ImportOutcome)

  /** Which transition function a run uses. */
  datatype Policy = AsWritten | Corrected

  datatype History = History(slot: Slot, events: seq<Event>)

  function Step(policy: Policy, api: ShellAPI, slot: Slot, call: Call): Transition
    requires Paired(slot)
  {
    match policy
    case AsWritten => LoadAppStep(api, slot, call.appKey, call.outcome)
    case Corrected => LoadAppCorrected(api, slot, call.appKey, call.outcome)
  }

  /** Calls of `loadApp`, awaited one after the other, from `slot`. */
  function Run(policy: Policy, api: ShellAPI, slot: Slot, calls: seq<Call>): History
    requires Paired(slot)
    decreases |calls|
  {
    if calls == [] then History(slot, [])
    else
      var t := Step(policy, api, slot, calls[0]);
      var rest := Run(policy, api, t.slot, calls[1..]);
      History(rest.slot, t.events + rest.events)
  }

  lemma {:induction false} RunKeepsSlotInvariant(api: ShellAPI, slot: Slot, calls: seq<Call>)
    requires Paired(slot) && Registered(api.bootConfig.apps, slot)
    ensures var s := Run(AsWritten, api, slot, calls).slot;
      Paired(s) && Registered(api.bootConfig.apps, s)
    decreases |calls|
  {
    if calls != [] {
      LoadAppKeepsSlotInvariant(api, slot, calls[0].appKey, calls[0].outcome);
      var t := Step(AsWritten, api, slot, calls[0]);
      RunKeepsSlotInvariant(api, t.slot, calls[1..]);
    }
  }

  // ---------------------------------------------------------------------------
  // Exclusivity, read off the effects

  /** What is really mounted: nothing, or one application with its live handle. */
  datatype Live = Idle | Active(app: string, handle: Handle)

  /**
   * The effects keep at most one application mounted: a mount happens only
   * while nothing is mounted, and an unmount invokes the handle of the
   * application that is mounted, so no handle is invoked twice.
   */
  ghost predicate Exclusive(events: seq<Event>, live: Live)
    decreases |events|
  {
    events == [] ||
    match events[0]
    case Mount(k, _, h) => live == Idle && Exclusive(events[1..], Active(k, h))
    case Unmount(k, h) => live == Active(k, h) && Exclusive(events[1..], Idle)
    case Import(_) => Exclusive(events[1..], live)
  }

  /** What is mounted after the effects. */
  ghost function LiveAfter(events: seq<Event>, live: Live): Live
    decreases |events|
  {
    if events == [] then live
    else
      match events[0]
      case Mount(k, _, h) => LiveAfter(events[1..], Active(k, h))
      case Unmount(_, _) => LiveAfter(events[1..], Idle)
      case Import(_) => LiveAfter(events[1..], live)
  }

  /** What the slot claims is mounted. */
  function Claimed(slot: Slot): Live {
    if slot.app.Some? && slot.unmount.Some? then Active(slot.app.value, slot.unmount.value) else Idle
  }

  lemma {:induction false} ExclusiveAppend(a: seq<Event>, b: seq<Event>, live: Live)
    ensures Exclusive(a + b, live) <==> Exclusive(a, live) && Exclusive(b, LiveAfter(a, live))
    ensures LiveAfter(a + b, live) == LiveAfter(b, LiveAfter(a, live))
    decreases |a|
  {
    if a != [] {
      assert (a + b)[1..] == a[1..] + b;
      match a[0]
      case Mount(k, _, h) => ExclusiveAppend(a[1..], b, Active(k, h));
      case Unmount(_, _) => ExclusiveAppend(a[1..], b, Idle);
      case Import(_) => ExclusiveAppend(a[1..], b, live);
    } else {
      assert a + b == b;
    }
  }

  /** A step that keeps the slot's claim truthful keeps the effects exclusive. */
  ghost predicate TruthfulStep(policy: Policy, api: ShellAPI, slot: Slot, call: Call)
    requires Paired(slot)
  {
    var t := Step(policy, api, slot, call);
    Exclusive(t.events, Claimed(slot)) && LiveAfter(t.events, Claimed(slot)) == Claimed(t.slot)
  }

  lemma SwitchEffectsLeaveIdle(apps: map<string, AppConfig>, slot: Slot, appKey: string)
    requires Paired(slot) && appKey in apps
    ensures var e := SwitchEffects(apps, slot, appKey);
      Exclusive(e, Claimed(slot)) && LiveAfter(e, Claimed(slot)) == Idle
  {
    var e := SwitchEffects(apps, slot, appKey);
    var imp := [Import(ModuleLocator(apps[appKey]))];
    assert Exclusive(imp, Idle) && LiveAfter(imp, Idle) == Idle by {
      assert imp[1..] == [];
      assert LiveAfter(imp, Idle) == LiveAfter(imp[1..], Idle);
    }
    if slot.app.Some? {
      var un := [Unmount(slot.app.value, slot.unmount.value)];
      assert un[1..] == [];
      ExclusiveAppend(un, imp, Claimed(slot));
    } else {
      assert e == imp;
    }
  }

  lemma {:induction false} StepTruthful(policy: Policy, api: ShellAPI, slot: Slot, call: Call)
    requires Paired(slot)
    requires policy == Corrected || call.outcome.Imported?
    ensures TruthfulStep(policy, api, slot, call)
  {
    var t := Step(policy, api, slot, call);
    if call.appKey in api.bootConfig.apps && slot.app != Some(call.appKey) {
      var e := SwitchEffects(api.bootConfig.apps, slot, call.appKey);
      SwitchEffectsLeaveIdle(api.bootConfig.apps, slot, call.appKey);
      if call.outcome.Imported? {
        var m := [Mount(call.appKey, api, call.outcome.handle)];
        assert m[1..] == [];
        ExclusiveAppend(e, m, Claimed(slot));
      }
    }
  }

  /**
   * Under the corrected transition every sequence of calls, whatever the
   * import outcomes, mounts at most one application at a time and invokes
   * only the handle of the application that is mounted; the slot ends
   * claiming exactly what is mounted.
   */
  lemma {:induction false} CorrectedRunIsExclusive(api: ShellAPI, calls: seq<Call>, slot: Slot)
    requires Paired(slot)
    ensures var r := Run(Corrected, api, slot, calls);
      Exclusive(r.events, Claimed(slot)) && LiveAfter(r.events, Claimed(slot)) == Claimed(r.slot)
    decreases |calls|
  {
    if calls != [] {
      var t := Step(Corrected, api, slot, calls[0]);
      StepTruthful(Corrected, api, slot, calls[0]);
      CorrectedRunIsExclusive(api, calls[1..], t.slot);
      var rest := Run(Corrected, api, t.slot, calls[1..]);
      ExclusiveAppend(t.events, rest.events, Claimed(slot));
    }
  }

  /** As written, the same holds as long as no import fails. */
  lemma {:induction false} SuccessfulRunIsExclusive(api: ShellAPI, calls: seq<Call>, slot: Slot)
    requires Paired(slot)
    requires forall i :: 0 <= i < |calls| ==> calls[i].outcome.Imported?
    ensures var r := Run(AsWritten, api, slot, calls);
      Exclusive(r.events, Claimed(slot)) && LiveAfter(r.events, Claimed(slot)) == Claimed(r.slot)
    decreases |calls|
  {
    if calls != [] {
      var t := Step(AsWritten, api, slot, calls[0]);
      StepTruthful(AsWritten, api, slot, calls[0]);
      SuccessfulRunIsExclusive(api, calls[1..], t.slot);
      var rest := Run(AsWritten, api, t.slot, calls[1..]);
      ExclusiveAppend(t.events, rest.events, Claimed(slot));
    }
  }

  /**
   * As written, one failed import is enough to break exclusivity: `a` is
   * mounted, the switch to `b` unmounts it and then fails, the slot still
   * records `a`, so loading `a` again is a no-op and switching to `c`
   * invokes `a`'s handle a second time.
   */
  lemma FailedSwitchUnmountsTwice(user: User, mountPoint: string)
    ensures var apps := map["a" := AppConfig("/a/", "main.js"), "b" := AppConfig("/b/", "main.js"),
                            "c" := AppConfig("/c/", "main.js")];
      var api := ShellAPI(BootConfig(user, apps), mountPoint);
      var t1 := LoadAppStep(api, Empty, "a", Imported(Handle(1)));
      var t2 := LoadAppStep(api, t1.slot, "b", ImportFailed);
      var t3 := LoadAppStep(api, t2.slot, "c", Imported(Handle(2)));
      && t2.slot == Slot(Some("a"), Some(Handle(1)))
      && LiveAfter(t1.events + t2.events, Idle) == Idle
      && LoadAppStep(api, t2.slot, "a", Imported(Handle(3))).result == NoOp
      && t2.events[0] == Unmount("a", Handle(1))
      && t3.events[0] == Unmount("a", Handle(1))
      && !Exclusive(t1.events + t2.events + t3.events, Idle)
  {
    var apps := map["a" := AppConfig("/a/", "main.js"), "b" := AppConfig("/b/", "main.js"),
                    "c" := AppConfig("/c/", "main.js")];
    var api := ShellAPI(BootConfig(user, apps), mountPoint);
    var u := Unmount("a", Handle(1));
    var s1 := Slot(Some("a"), Some(Handle(1)));
    var t1 := LoadAppStep(api, Empty, "a", Imported(Handle(1)));
    assert t1.slot == s1 && t1.events == [Import(ModuleLocator(apps["a"])), Mount("a", api, Handle(1))];
    var t2 := LoadAppStep(api, s1, "b", ImportFailed);
    assert t2.slot == s1 && t2.events == [u, Import(ModuleLocator(apps["b"]))];
    var t3 := LoadAppStep(api, s1, "c", Imported(Handle(2)));
    assert t3.events == [u, Import(ModuleLocator(apps["c"])), Mount("c", api, Handle(2))];
    var e := t1.events + t2.events;
    var a := Active("a", Handle(1));
    assert e[1..][1..][1..][1..] == [];
    assert LiveAfter(e, Idle) == LiveAfter(e[1..], Idle) == LiveAfter(e[1..][1..], a)
        == LiveAfter(e[1..][1..][1..], Idle) == Idle;
    assert !Exclusive(t3.events, Idle);
    ExclusiveAppend(e, t3.events, Idle);
  }
}
