# AppShell lifecycle model

A Dafny model of `AppShell` (index.ts), the host shell of a micro-frontend. The shell loads a boot
configuration, builds the capability object handed to every child application (the configuration
plus the mount point), publishes a map from application key to public path, and keeps exactly one
child application in its slot. `loadApp(key)` works in a fixed order. It validates the key, and it
returns nothing if that key is already loaded. Otherwise it invokes the previous application's
unmount handle, imports the module at `publicPath + main`, and rejects if the module has no `main`.
On success it calls `main` and records the returned handle together with the new key.

The project has four modules:

- `Options` (options.dfy): `Option`, which stands for a field that may be `undefined`.
- `Config` (config.dfy): the boot configuration, the capability object, the module locator, and the
  reduction that builds the published path map (`CollectPublicPaths`, a loop over the keys).
- `Lifecycle` (lifecycle.dfy): one `loadApp` call as a pure transition `LoadAppStep`. The
  transition maps the capability object, the slot (`currentLoadedApp`, `currentLoadedAppUnmount`)
  and the loader's answer to the new slot, the call's outcome and the ordered effects (`Unmount`,
  `Import`, and `Mount`, which records the capability object `main` is called with). The module
  also defines runs of several calls (`Run`), the exclusivity predicate `Exclusive` on effects,
  and the lemmas.
- `Shell` (shell.dfy): the class `AppShell`. Its fields are updated in place, and its methods record
  every effect in a ghost `trace`. `LoadApp` is proved to do exactly what one `LoadAppStep` does.

Modelling choices:

- The module loader's answer is an input of `LoadApp`: `ImportFailed`, `NoMain`, or
  `Imported(handle)`, where `handle` is what `main` returns. Handles are opaque tokens.
- The loaded boot configuration is an input of `Boot`. `None` means that the fetch or the parse
  failed.
- A call before `boot` dereferences an undefined capability object. This is the distinct outcome
  `Threw(NotBooted)`, and the call changes nothing.
- The class follows the code as written. After a failed import, or a module without `main`, the
  slot still records the previous application, although its unmount handle has already run. The
  documented behaviour says instead that a failed switch leaves no application active. The
  consequences are under "## Findings". The corrected transition `LoadAppCorrected` is defined
  beside the as-written one, and its run-level property is proved.

## Model

| member | source | states |
|---|---|---|
| `Config.ModuleLocator` | index.ts:96 | the locator requested is the public path followed immediately by the entry module, with nothing added or dropped |
| `Config.CollectPublicPaths` | index.ts:120-129 | the reduction over the keys yields a map with exactly the configured keys, each mapped to its application's public path |
| `Shell.AppShell.constructor` | index.ts:24-35 | a new shell keeps the entry point and mount point; it has no capability object, no published map and no recorded application |
| `Shell.AppShell.Boot` | index.ts:37-51 | on success the capability object is the loaded configuration plus this shell's mount point, and the published map has exactly the configured keys, each with its public path; afterwards the recorded key, if any, is registered iff the new configuration has it; a failed load rejects and changes nothing; the slot is never touched |
| `Shell.AppShell.RegisterApplicationsPath` | index.ts:118-131 | publishes the key-to-public-path map of the current configuration, keys exactly those of `apps` |
| `Shell.AppShell.LoadApp` | index.ts:70-113 | before boot: throws and changes nothing; after boot: new slot, outcome and appended effects are exactly one `LoadAppStep` with this shell's capability object; a resolved call's last effect is `main` called with that capability object, returning the resolved handle; the key and handle stay paired; a recorded key stays a configured key |
| `Lifecycle.LoadAppStep` | index.ts:72-109 | one call as written: the key and handle stay paired; the call resolves iff the key is configured, not already recorded and the import yields a `main`; the slot changes only on a resolved call |
| `Lifecycle.UnknownAppThrows` | index.ts:72-79 | the call throws synchronously iff the key is not configured, and then no field changes and no effect occurs |
| `Lifecycle.LoadedAppIsNoOp` | index.ts:81-87 | for a configured key the call returns nothing iff that key is already recorded, and then no unmount, import or mount occurs and the slot is unchanged |
| `Lifecycle.SwitchUnmountsBeforeImport` | index.ts:89-96 | switching away from a recorded application first invokes its stored handle, then requests the new module; no other unmount follows |
| `Lifecycle.FirstLoadDoesNotUnmount` | index.ts:89-96 | with nothing recorded, the first effect is the import and no unmount occurs |
| `Lifecycle.FailedImportKeepsSlot` | index.ts:96-103 | a failed import or a module without `main` rejects with the matching error, mounts nothing, and leaves both fields at their prior values after the old handle has run |
| `Lifecycle.SuccessfulLoadRecords` | index.ts:105-109 | on success `main` is called with the capability object as the last effect; the slot records the new key with the handle `main` returned, and the call resolves with that handle |
| `Lifecycle.LoadAppKeepsSlotInvariant` | index.ts:72-107 | the key and the handle stay defined together; a recorded key is configured; the slot changes only on a resolved call, and only to the requested key |
| `Lifecycle.LoadTwiceImportsOnce` | index.ts:81-109 | right after a successful load of a key, loading it again is a no-op with no effects |
| `Lifecycle.RunKeepsSlotInvariant` | index.ts:70-113 | over any sequence of calls, the key and handle stay paired and a recorded key stays configured |
| `Lifecycle.SuccessfulRunIsExclusive` | index.ts:89-109 | as written, when no import fails, the effects of any sequence of calls mount at most one application at a time and unmount only the mounted one; the slot ends recording exactly what is mounted |
| `Lifecycle.FailedSwitchUnmountsTwice` | index.ts:89-107 | as written, a successful load of `a`, then a failed switch to `b`, leaves `a` recorded although it is unmounted; loading `a` is then a no-op, and switching to `c` invokes `a`'s handle a second time |
| `Lifecycle.LoadAppCorrected` | index.ts:89-109 | the corrected transition keeps key and handle paired, and leaves nothing recorded after a call that unmounted or imported but did not resolve |
| `Lifecycle.CorrectedRunIsExclusive` | index.ts:89-109 | with the corrected transition, every sequence of calls, whatever the import outcomes, mounts at most one application at a time, invokes only the mounted application's handle, and ends with the slot recording exactly what is mounted |

## Left out

- Fetching the boot configuration (`loadBootConfig`, index.ts:58-63) is an HTTP request followed by a JSON parse. `Boot` receives its result as an input instead.
- The configuration is assumed to have the declared shape, because the code does no schema validation beyond parsing.
- The mechanics of the module loader and the polyfill imports (index.ts:1-2, 96) are foreign code. Only the loader's three possible answers are modelled.
- Promise asynchrony and overlapping `loadApp` calls are not modelled. Each call is one atomic step, so the model assumes that callers await each call before making the next.
- The `console` notices and the `onLoaded` callback passed to `main` are informational only.
- The published map is the field `publishedPaths`, not a browser global.
- What a child application's `main` and unmount handle do is external code and is not modelled. In particular, a handle or a `main` that throws, and a `main` that returns something that is not callable, are out of scope.
- The `user` record is opaque data that the shell only passes on.
- JavaScript property lookup on `apps` is not modelled. In the code, inherited names such as `toString` pass the `=== undefined` check; the model treats `apps` as a plain map.
- Config.CollectPublicPaths: treats the published map as a plain map, so the key `"__proto__"` is kept. In the code, that key is parsed into `apps` as an own property, but the assignment on the `{}` accumulator goes to the inherited `__proto__` setter, so the published map lacks it.
- A second `boot` can install a configuration that lacks the recorded key. `Boot` states exactly when the recorded key stays registered, but it does not prevent this.

## Findings

| source | as written | input that shows it | evidently intended | confidence | as-written member | corrected member |
|---|---|---|---|---|---|---|
| index.ts:89-107 | the old handle is invoked before the import, but `currentLoadedApp` and `currentLoadedAppUnmount` are assigned only on success, so a failed switch leaves the unmounted application recorded | `loadApp("a")` resolves; `loadApp("b")` fails to import; then `loadApp("c")` invokes `a`'s unmount handle a second time, and `loadApp("a")` instead returns nothing although `a` is not mounted | once the old application is unmounted, the slot records nothing, so a failed switch leaves no application active and every handle runs at most once | high; not executed | `Lifecycle.FailedSwitchUnmountsTwice` | `Lifecycle.LoadAppCorrected` |
