/** The browser environment the engine runs in: the keys it keeps in
    localStorage (decoded), the navigator's online flag, and whether the
    window, the navigator and a working localStorage exist at all. */
module Environment {
  import opened Common
  import opened Records

  /** The metadata record kept beside the progress table. */
  datatype Metadata = Metadata(version: string, deviceId: string)

  class Host {
    /** `typeof window !== "undefined"`. */
    const hasWindow: bool
    /** `typeof navigator !== "undefined"`. */
    const hasNavigator: bool
    /** What isLocalStorageAvailable() reports. When it is false the model
        treats every localStorage call as one that throws. */
    const storageWorks: bool

    /** navigator.onLine */
    var online: bool

    /** "flag-trainer-spaced-progress" */
    var progress: Slot<ProgressTable>
    /** "flag-trainer-spaced-metadata" */
    var metadata: Slot<Metadata>
    /** "flag-trainer-sync-queue" */
    var syncQueue: Slot<seq<SyncQueueItem>>
    /** "flag-trainer-last-sync" (decimal milliseconds) */
    var lastSync: Option<Time>
    /** "flag-trainer-offline-mode" (the stored string) */
    var offlineMode: Option<string>
    /** "flag-trainer-offline-mode-expiry" (decimal milliseconds) */
    var offlineExpiry: Option<Time>

    /** A page: window, navigator and storage as given, nothing stored yet. */
    constructor (hasWindow: bool, hasNavigator: bool, storageWorks: bool, online: bool)
      ensures this.hasWindow == hasWindow && this.hasNavigator == hasNavigator
      ensures this.storageWorks == storageWorks && this.online == online
      ensures progress == Missing && metadata == Missing && syncQueue == Missing
      ensures lastSync == None && offlineMode == None && offlineExpiry == None
    {
      this.hasWindow := hasWindow;
      this.hasNavigator := hasNavigator;
      this.storageWorks := storageWorks;
      this.online := online;
      progress := Missing;
      metadata := Missing;
      syncQueue := Missing;
      lastSync := None;
      offlineMode := None;
      offlineExpiry := None;
    }

    /** isLocalStorageAvailable(): false without a window. */
    predicate StorageAvailable() {
      hasWindow && storageWorks
    }

    /** isNavigatorAvailable() */
    predicate NavigatorAvailable() {
      hasWindow && hasNavigator
    }
  }
}
