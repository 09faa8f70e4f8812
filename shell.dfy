/**
 * The shell object itself: it owns the capability object, the active
 * application's key and unmount handle, and the published path map, and it
 * updates them in place. Every effect on the outside world (unmount handle
 * invoked, module requested, `main` called) is appended to a ghost trace in
 * the order the code performs it.
 */
module Shell {
  import opened Options
  import opened Config
  import opened Lifecycle

  class AppShell {
    const bootConfigEntryPoint: string
    const mountPoint: string

    var shellAPI: Option<ShellAPI>
    var currentLoadedApp: Option<string>
    var currentLoadedAppUnmount: Option<Handle>
    /** The process-wide map from application key to public path; `None` until published. */
    var publishedPaths: Option<map<string, string>>

    ghost var trace: seq<Event>

    /** The key and the unmount handle are defined together or not at all. */
    ghost predicate Valid()
      reads this
    {
      Paired(CurrentSlot())
    }

    /** The recorded key, if any, is an application of the boot configuration. */
    ghost predicate Registered()
      reads this
    {
      currentLoadedApp.Some? ==> shellAPI.Some? && Lifecycle.Registered(shellAPI.value.bootConfig.apps, CurrentSlot())
    }

    function CurrentSlot(): Slot
      reads this
    {
      Slot(currentLoadedApp, currentLoadedAppUnmount)
    }

    constructor (bootConfigEntryPoint: string, mountPoint: string)
      ensures Valid() && Registered()
      ensures this.bootConfigEntryPoint == bootConfigEntryPoint && this.mountPoint == mountPoint
      ensures shellAPI == None && publishedPaths == None && trace == []
      ensures CurrentSlot() == Empty
    {
      this.bootConfigEntryPoint := bootConfigEntryPoint;
      this.mountPoint := mountPoint;
      shellAPI := None;
      currentLoadedApp := None;
      currentLoadedAppUnmount := None;
      publishedPaths := None;
      trace := [];
    }

    /**
     * `boot`, given what loading the boot configuration produced (`None` when
     * the fetch or the JSON parse failed). On success the capability object
     * holds the configuration and this shell's mount point, and the path map is
     * published; on failure the call rejects and nothing changes. The active
     * application is left alone either way.
     */
    method Boot(loaded: Option<BootConfig>) returns (resolved: bool)
      requires Valid()
      modifies this`shellAPI, this`publishedPaths
      ensures Valid()
      ensures resolved <==> loaded.Some?
      ensures !resolved ==> shellAPI == old(shellAPI) && publishedPaths == old(publishedPaths)
      ensures resolved ==> shellAPI == Some(ShellAPI(loaded.value, mountPoint))
      ensures resolved ==> publishedPaths.Some? && publishedPaths.value.Keys == loaded.value.apps.Keys
      ensures resolved ==> forall k :: k in loaded.value.apps ==>
        publishedPaths.value[k] == loaded.value.apps[k].publicPath
      ensures resolved ==>
        (Registered() <==> (currentLoadedApp.Some? ==> currentLoadedApp.value in loaded.value.apps))
    {
      if loaded.None? {
        return false;
      }
      shellAPI := Some(ShellAPI(loaded.value, mountPoint));
      RegisterApplicationsPath();
      resolved := true;
    }

    /** Publishes the map from every configured key to its public path. */
    method RegisterApplicationsPath()
      requires shellAPI.Some?
      modifies this`publishedPaths
      ensures publishedPaths.Some?
      ensures publishedPaths.value.Keys == shellAPI.value.bootConfig.apps.Keys
      ensures forall k :: k in shellAPI.value.bootConfig.apps ==>
        publishedPaths.value[k] == shellAPI.value.bootConfig.apps[k].publicPath
    {
      var paths := CollectPublicPaths(shellAPI.value.bootConfig.apps);
      publishedPaths := Some(paths);
    }

    /**
     * `loadApp(appKey)`, with the module loader's answer for this call given
     * as `outcome`. Before `boot` it throws and changes nothing; afterwards the
     * new fields, the outcome and the effects are those of one `LoadAppStep`
     * with this shell's capability object, which is what `main` receives.
     */
    method LoadApp(appKey: string, outcome: ImportOutcome) returns (result: LoadResult)
      requires Valid()
      modifies this`currentLoadedApp, this`currentLoadedAppUnmount, this`trace
      ensures Valid()
      ensures old(Registered()) ==> Registered()
      ensures old(shellAPI).None? ==>
        result == Threw(NotBooted) && CurrentSlot() == old(CurrentSlot()) && trace == old(trace)
      ensures old(shellAPI).Some? ==>
        var t := LoadAppStep(shellAPI.value, old(CurrentSlot()), appKey, outcome);
        CurrentSlot() == t.slot && result == t.result && trace == old(trace) + t.events
      ensures result.Resolved? ==>
        shellAPI.Some? && |trace| > 0 && trace[|trace| - 1] == Mount(appKey, shellAPI.value, result.handle)
    {
      if shellAPI.None? {
        return Threw(NotBooted);
      }
      if Registered() {
        LoadAppKeepsSlotInvariant(shellAPI.value, CurrentSlot(), appKey, outcome);
      }

      if appKey !in shellAPI.value.bootConfig.apps {
        return Threw(UnknownApp(appKey));
      }
      var appConfig := shellAPI.value.bootConfig.apps[appKey];

      if currentLoadedApp == Some(appKey) {
        return NoOp;
      }

      if currentLoadedApp.Some? {
        trace := trace + [Unmount(currentLoadedApp.value, currentLoadedAppUnmount.value)];
      }

      trace := trace + [Import(ModuleLocator(appConfig))];
      match outcome {
        case ImportFailed =>
          result := Rejected(ImportError);
        case NoMain =>
          result := Rejected(MissingMain);
        case Imported(h) =>
          trace := trace + [Mount(appKey, shellAPI.value, h)];
          currentLoadedAppUnmount := Some(h);
          currentLoadedApp := Some(appKey);
          result := Resolved(currentLoadedAppUnmount.value);
      }
    }
  }
}
