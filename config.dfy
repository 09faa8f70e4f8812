/**
 * The boot configuration the shell receives from its backend, the capability
 * object handed to every child application, and the two values derived from
 * the configuration: the module locator of an application and the map of
 * public paths the shell publishes after boot.
 */
module Config {

  /** The signed-in user; opaque data that the shell only passes on. */
  datatype User = User(id: string, name: string, surname: string)

  /** Where one child application lives: its asset root and its entry module. */
  datatype AppConfig = AppConfig(publicPath: string, main: string)

  /** The boot descriptor: the user and the registry of loadable applications. */
  datatype BootConfig = BootConfig(user: User, apps: map<string, AppConfig>)

  /** The capability object passed to the `main` of every loaded application. */
  datatype ShellAPI = ShellAPI(bootConfig: BootConfig, appMountPoint: string)

  /**
   * The locator handed to the module loader: the public path immediately
   * followed by the entry module, nothing added and nothing dropped.
   */
  function ModuleLocator(app: AppConfig): (locator: string)
    ensures |locator| == |app.publicPath| + |app.main|
    ensures locator[..|app.publicPath|] == app.publicPath
    ensures locator[|app.publicPath|..] == app.main
  {
    app.publicPath + app.main
  }

  /**
   * The reduction over the application keys that builds the published path
   * map: the accumulator starts empty and every key is stored with its
   * application's public path. Keys are visited in an unspecified order, as
   * the result does not depend on it.
   */
  method CollectPublicPaths(apps: map<string, AppConfig>) returns (previous: map<string, string>)
    ensures previous.Keys == apps.Keys
    ensures forall appName :: appName in apps ==> previous[appName] == apps[appName].publicPath
  {
    previous := map[];
    var pending := apps.Keys;
    while pending != {}
      invariant pending <= apps.Keys
      invariant previous.Keys == apps.Keys - pending
      invariant forall appName :: appName in previous ==> previous[appName] == apps[appName].publicPath
      decreases pending
    {
      var appName :| appName in pending;
      previous := previous[appName := apps[appName].publicPath];
      pending := pending - {appName};
    }
  }
}
