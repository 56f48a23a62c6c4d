/** The Gradle execution helper: it opens a Tooling API connection for a
    project file, configures the connector from the execution settings,
    prepares long-running operations (model fetches and builds) and runs a
    unit of work against the connection, closing it on every exit path.

    The Tooling API is replaced by objects that record what is asked of them:
    a connector that logs its configuration calls, a connection with an
    Open -> Closed state and a close counter, and an operation that keeps the
    java home and the progress listeners it was given. The file system is a
    value consulted as an oracle. */
module GradleExecution {
  import opened Common

  type Path = string

  /** ExternalSystemTaskId: an opaque correlation identifier. */
  type TaskId = string

  /** The answers the file system would give: which paths are existing files
      and directories, the parent of each path, and the canonical form of the
      paths whose canonicalisation does not fail with an IOException. */
  datatype FileSystem = FileSystem(
    files: set<Path>,
    directories: set<Path>,
    parents: map<Path, Path>,
    canonical: map<Path, Path>)
  {
    predicate IsFile(p: Path) { p in files }

    predicate IsDirectory(p: Path) { p in directories }

    /** `new File(p).getParentFile()`, null for a path without a parent. */
    function ParentFile(p: Path): Option<Path>
    {
      if p in parents then Some(parents[p]) else None
    }

    /** `new File(p).getCanonicalFile()`; None stands for the IOException. */
    function CanonicalFile(p: Path): Option<Path>
    {
      if p in canonical then Some(canonical[p]) else None
    }
  }

  /** What the code catches and throws. `Failure` stands for anything the
      work function or the Tooling API may throw that the helper does not
      create itself. */
  datatype Throwable =
    | IllegalArgument(path: Path)
    | IllegalState(path: Path)
    | ExternalSystem(cause: Throwable)
    | Failure(description: string)

  /** How a Java call ends: it returns a value or throws. */
  datatype Outcome<T> = Returned(value: T) | Threw(error: Throwable)

  /** The events an ExternalSystemTaskNotificationListener receives. */
  datatype Notification =
    | Started(id: TaskId)
    | StatusChanged(id: TaskId, description: string)

  /** A notification listener that keeps every event it was sent. */
  class NotificationListener {
    var received: seq<Notification>

    constructor ()
      ensures received == []
    {
      received := [];
    }

    method OnStart(id: TaskId)
      modifies this
      ensures received == old(received) + [Started(id)]
    {
      received := received + [Started(id)];
    }

    method OnStatusChange(id: TaskId, description: string)
      modifies this
      ensures received == old(received) + [StatusChanged(id, description)]
    {
      received := received + [StatusChanged(id, description)];
    }
  }

  /** GradleExecutionSettings, as far as the helper reads it. */
  datatype ExecutionSettings = ExecutionSettings(
    useWrapper: bool,
    gradleHome: Option<Path>,
    serviceDirectory: Option<Path>,
    verboseProcessing: bool,
    remoteProcessIdleTtlInMs: Int64,
    javaHome: Option<Path>,
    notificationListener: NotificationListener?)

  /** The Tooling API's behaviour, taken as input: whether
      `GradleConnector.newConnector()` yields a DefaultGradleConnector,
      whether `connect()` yields a connection rather than null, and whether
      the connection's `close()` throws. */
  datatype ToolingApi = ToolingApi(
    defaultConnector: bool,
    connectionAvailable: bool,
    closeFails: bool)

  /** One configuration call made on the connector. */
  datatype ConnectorCall =
    | UseInstallation(gradleHome: Path)
    | UseGradleUserHomeDir(serviceDirectory: Path)
    | SetVerboseLogging(verbose: bool)
    | DaemonMaxIdleTimeMs(timeout: Int32)
    | ForProjectDirectory(projectDir: Option<Path>)

  datatype SessionState = Open | Closed

  /** The model types a model builder may be asked for. */
  datatype ModelType = IdeaProject | BasicIdeaProject

  datatype OperationKind = ModelFetch(modelType: ModelType) | BuildLaunch

  /** The progress listener `prepare` installs: it forwards each event to
      `listener`, tagged with the task id `id`. */
  datatype ProgressForwarder = ProgressForwarder(listener: NotificationListener, id: TaskId)

  /** A progress event of the Tooling API. */
  datatype ProgressEvent = ProgressEvent(description: string)

  /** A LongRunningOperation: a model builder or a build launcher. */
  class LongRunningOperation {
    const kind: OperationKind
    var javaHome: Option<Path>
    var progressListeners: seq<ProgressForwarder>

    constructor (kind: OperationKind)
      ensures this.kind == kind && javaHome == None && progressListeners == []
    {
      this.kind := kind;
      javaHome := None;
      progressListeners := [];
    }

    method SetJavaHome(home: Path)
      modifies this
      ensures javaHome == Some(home) && progressListeners == old(progressListeners)
    {
      javaHome := Some(home);
    }

    method AddProgressListener(forwarder: ProgressForwarder)
      modifies this
      ensures progressListeners == old(progressListeners) + [forwarder]
      ensures javaHome == old(javaHome)
    {
      progressListeners := progressListeners + [forwarder];
    }
  }

  /** `statusChanged` of the listener `prepare` installs: the event reaches
      the notification listener with the forwarder's task id and the event's
      description. */
  method ForwardStatusChange(forwarder: ProgressForwarder, event: ProgressEvent)
    modifies forwarder.listener
    ensures forwarder.listener.received
         == old(forwarder.listener.received) + [StatusChanged(forwarder.id, event.description)]
  {
    forwarder.listener.OnStatusChange(forwarder.id, event.description);
  }

  /** A ProjectConnection: open until its first `close()`. */
  class ProjectConnection {
    const projectDir: Option<Path>
    const closeFails: bool
    var state: SessionState
    var closeCalls: nat

    constructor (projectDir: Option<Path>, closeFails: bool)
      ensures this.projectDir == projectDir && this.closeFails == closeFails
      ensures state == Open && closeCalls == 0
    {
      this.projectDir := projectDir;
      this.closeFails := closeFails;
      state := Open;
      closeCalls := 0;
    }

    /** `close()`: the connection is closed afterwards; the result is what it
        throws, if anything. */
    method Close() returns (thrown: Option<Throwable>)
      modifies this
      ensures state == Closed && closeCalls == old(closeCalls) + 1
      ensures thrown.Some? <==> closeFails
    {
      state := Closed;
      closeCalls := closeCalls + 1;
      thrown := if closeFails then Some(Failure("close")) else None;
    }

    /** `model(modelType)`: a fresh model builder. */
    method Model(modelType: ModelType) returns (builder: LongRunningOperation)
      requires state == Open
      ensures fresh(builder) && builder.kind == ModelFetch(modelType)
      ensures builder.javaHome == None && builder.progressListeners == []
    {
      builder := new LongRunningOperation(ModelFetch(modelType));
    }

    /** `newBuild()`: a fresh build launcher. */
    method NewBuild() returns (launcher: LongRunningOperation)
      requires state == Open
      ensures fresh(launcher) && launcher.kind == BuildLaunch
      ensures launcher.javaHome == None && launcher.progressListeners == []
    {
      launcher := new LongRunningOperation(BuildLaunch);
    }
  }

  /** A GradleConnector that logs the configuration calls made on it. The
      verbose-logging and idle-time setters exist only on a
      DefaultGradleConnector, so they require one (the cast in the source). */
  class GradleConnector {
    const isDefault: bool
    const connectionAvailable: bool
    const closeFails: bool
    var calls: seq<ConnectorCall>

    constructor (api: ToolingApi)
      ensures isDefault == api.defaultConnector
      ensures connectionAvailable == api.connectionAvailable
      ensures closeFails == api.closeFails
      ensures calls == []
    {
      isDefault := api.defaultConnector;
      connectionAvailable := api.connectionAvailable;
      closeFails := api.closeFails;
      calls := [];
    }

    method UseInstallation(gradleHome: Path)
      modifies this
      ensures calls == old(calls) + [ConnectorCall.UseInstallation(gradleHome)]
    {
      calls := calls + [ConnectorCall.UseInstallation(gradleHome)];
    }

    method UseGradleUserHomeDir(dir: Path)
      modifies this
      ensures calls == old(calls) + [ConnectorCall.UseGradleUserHomeDir(dir)]
    {
      calls := calls + [ConnectorCall.UseGradleUserHomeDir(dir)];
    }

    method SetVerboseLogging(verbose: bool)
      requires isDefault
      modifies this
      ensures calls == old(calls) + [ConnectorCall.SetVerboseLogging(verbose)]
    {
      calls := calls + [ConnectorCall.SetVerboseLogging(verbose)];
    }

    /** `daemonMaxIdleTime(timeout, TimeUnit.MILLISECONDS)`. */
    method DaemonMaxIdleTime(timeout: Int32)
      requires isDefault
      modifies this
      ensures calls == old(calls) + [DaemonMaxIdleTimeMs(timeout)]
    {
      calls := calls + [DaemonMaxIdleTimeMs(timeout)];
    }

    method ForProjectDirectory(dir: Option<Path>)
      modifies this
      ensures calls == old(calls) + [ConnectorCall.ForProjectDirectory(dir)]
    {
      calls := calls + [ConnectorCall.ForProjectDirectory(dir)];
    }

    /** `connect()`: a fresh open connection to the last project directory
        given, or null. */
    method Connect() returns (connection: ProjectConnection?)
      ensures connectionAvailable ==>
        (connection != null && fresh(connection)
         && connection.state == Open && connection.closeCalls == 0
         && connection.closeFails == closeFails
         && connection.projectDir == LastProjectDirectory(calls))
      ensures !connectionAvailable ==> connection == null
    {
      if connectionAvailable {
        connection := new ProjectConnection(LastProjectDirectory(calls), closeFails);
      } else {
        connection := null;
      }
    }
  }

  /** The project directory of the last `forProjectDirectory` call. */
  function LastProjectDirectory(calls: seq<ConnectorCall>): Option<Path>
  {
    if calls == [] then None
    else if calls[|calls| - 1].ForProjectDirectory? then calls[|calls| - 1].projectDir
    else LastProjectDirectory(calls[..|calls| - 1])
  }

  /** The installation the connector is pointed at: the canonical form of the
      Gradle home, or the raw path when canonicalisation fails. */
  function InstallationDir(fs: FileSystem, gradleHome: Path): Path
  {
    match fs.CanonicalFile(gradleHome)
    case Some(c) => c
    case None => gradleHome
  }

  /** The calls `getConnection` derives from present settings, in order:
      the installation, the service directory, verbose logging, the daemon's
      idle time, each only under its own condition. */
  function SettingsCalls(fs: FileSystem, s: ExecutionSettings, defaultConnector: bool): seq<ConnectorCall>
  {
    (if !s.useWrapper && s.gradleHome.Some?
     then [ConnectorCall.UseInstallation(InstallationDir(fs, s.gradleHome.value))] else [])
    + (if s.serviceDirectory.Some?
       then [ConnectorCall.UseGradleUserHomeDir(s.serviceDirectory.value)] else [])
    + (if s.verboseProcessing && defaultConnector then [ConnectorCall.SetVerboseLogging(true)] else [])
    + (if s.remoteProcessIdleTtlInMs > 0 && defaultConnector
       then [DaemonMaxIdleTimeMs(ToInt32(s.remoteProcessIdleTtlInMs))] else [])
  }

  /** The configuration calls `getConnection` makes on a fresh connector:
      each setting reaches the connector only under its own condition, none
      without settings, and the project directory, the parent of the project
      file, is always set last. */
  function ConnectorConfiguration(fs: FileSystem, projectPath: Path,
                                  settings: Option<ExecutionSettings>,
                                  defaultConnector: bool): (calls: seq<ConnectorCall>)
    ensures |calls| > 0
    ensures calls[|calls| - 1] == ConnectorCall.ForProjectDirectory(fs.ParentFile(projectPath))
    ensures LastProjectDirectory(calls) == fs.ParentFile(projectPath)
    ensures settings.None? ==> calls == [ConnectorCall.ForProjectDirectory(fs.ParentFile(projectPath))]
    ensures forall h :: ConnectorCall.UseInstallation(h) in calls ==>
              (settings.Some? && !settings.value.useWrapper && settings.value.gradleHome.Some?
               && h == InstallationDir(fs, settings.value.gradleHome.value))
    ensures settings.Some? && settings.value.gradleHome.Some? ==>
              (ConnectorCall.UseInstallation(InstallationDir(fs, settings.value.gradleHome.value)) in calls
               <==> !settings.value.useWrapper)
    ensures forall d :: ConnectorCall.UseGradleUserHomeDir(d) in calls <==>
              (settings.Some? && settings.value.serviceDirectory == Some(d))
    ensures ConnectorCall.SetVerboseLogging(true) in calls
        <==> settings.Some? && settings.value.verboseProcessing && defaultConnector
    ensures forall t :: DaemonMaxIdleTimeMs(t) in calls ==>
              (settings.Some? && settings.value.remoteProcessIdleTtlInMs > 0 && defaultConnector
               && t == ToInt32(settings.value.remoteProcessIdleTtlInMs))
    ensures settings.Some? ==>
              (DaemonMaxIdleTimeMs(ToInt32(settings.value.remoteProcessIdleTtlInMs)) in calls
               <==> settings.value.remoteProcessIdleTtlInMs > 0 && defaultConnector)
  {
    var projectDir := [ConnectorCall.ForProjectDirectory(fs.ParentFile(projectPath))];
    match settings
    case None => projectDir
    case Some(s) =>
      var calls := SettingsCalls(fs, s, defaultConnector) + projectDir;
      assert calls[|calls| - 1] == projectDir[0];
      calls
  }

  /** `getConnection`: validate the project path, create and configure a
      connector, connect. The connector is returned so that its recorded
      configuration can be stated; it is null when the path is rejected
      before any connector exists. */
  method GetConnection(fs: FileSystem, projectPath: Path, settings: Option<ExecutionSettings>,
                       api: ToolingApi)
    returns (result: Outcome<ProjectConnection>, connector: GradleConnector?)
    ensures !fs.IsFile(projectPath) ==> result == Threw(IllegalArgument(projectPath)) && connector == null
    ensures fs.IsFile(projectPath) ==>
      (connector != null && fresh(connector)
       && connector.calls == ConnectorConfiguration(fs, projectPath, settings, api.defaultConnector))
    ensures fs.IsFile(projectPath) && !api.connectionAvailable
      ==> result == Threw(IllegalState(projectPath))
    ensures fs.IsFile(projectPath) && api.connectionAvailable ==>
      (result.Returned? && fresh(result.value)
       && result.value.state == Open && result.value.closeCalls == 0
       && result.value.closeFails == api.closeFails
       && result.value.projectDir == fs.ParentFile(projectPath))
  {
    if !fs.IsFile(projectPath) {
      return Threw(IllegalArgument(projectPath)), null;
    }
    var projectDir := fs.ParentFile(projectPath);
    connector := new GradleConnector(api);
    if settings.Some? {
      Configure(connector, fs, settings.value);
    }
    connector.ForProjectDirectory(projectDir);
    var connection := connector.Connect();
    if connection == null {
      return Threw(IllegalState(projectPath)), connector;
    }
    result := Returned(connection);
  }

  /** The settings-dependent part of `getConnection`. */
  method Configure(connector: GradleConnector, fs: FileSystem, s: ExecutionSettings)
    modifies connector
    ensures connector.calls == old(connector.calls) + SettingsCalls(fs, s, connector.isDefault)
  {
    // Wrapper or local installation.
    if !s.useWrapper {
      if s.gradleHome.Some? {
        match fs.CanonicalFile(s.gradleHome.value)
        case Some(canonicalHome) =>
          connector.UseInstallation(canonicalHome);
        case None =>
          connector.UseInstallation(s.gradleHome.value);
      }
    }
    // Service directory.
    if s.serviceDirectory.Some? {
      connector.UseGradleUserHomeDir(s.serviceDirectory.value);
    }
    // Verbose logging.
    if s.verboseProcessing && connector.isDefault {
      connector.SetVerboseLogging(true);
    }
    // Daemon idle time.
    var ttl := s.remoteProcessIdleTtlInMs;
    if ttl > 0 && connector.isDefault {
      connector.DaemonMaxIdleTime(ToInt32(ttl));
    }
  }

  /** `execute`: run `work` against a fresh connection. Failures of
      `getConnection` come back as they are and leave nothing to close; once
      the connection exists it is closed exactly once, a failure of `work` is
      wrapped in an ExternalSystemException, and a failing `close()` changes
      nothing. The connection is returned so that its final state can be
      stated. */
  method Execute<T>(fs: FileSystem, projectPath: Path, settings: Option<ExecutionSettings>,
                    api: ToolingApi, work: ProjectConnection -> Outcome<T>)
    returns (result: Outcome<T>, connection: ProjectConnection?)
    ensures !fs.IsFile(projectPath)
      ==> result == Threw(IllegalArgument(projectPath)) && connection == null
    ensures fs.IsFile(projectPath) && !api.connectionAvailable
      ==> result == Threw(IllegalState(projectPath)) && connection == null
    ensures fs.IsFile(projectPath) && api.connectionAvailable ==>
      (connection != null && fresh(connection)
       && connection.state == Closed && connection.closeCalls == 1
       && connection.projectDir == fs.ParentFile(projectPath))
    ensures connection != null && work(connection).Returned? ==> result == work(connection)
    ensures connection != null && work(connection).Threw?
      ==> result == Threw(ExternalSystem(work(connection).error))
  {
    var acquired, _ := GetConnection(fs, projectPath, settings, api);
    if acquired.Threw? {
      return Threw(acquired.error), null;
    }
    connection := acquired.value;
    // A failure of the work is wrapped as an external-system failure.
    match work(connection) {
      case Returned(v) => result := Returned(v);
      case Threw(e) => result := Threw(ExternalSystem(e));
    }
    // finally: close, ignoring what it throws
    var _ := connection.Close();
  }

  /** The listener `prepare` notifies, as a frame: empty when there is none. */
  function ListenerOf(settings: Option<ExecutionSettings>): set<NotificationListener>
  {
    if settings.Some? && settings.value.notificationListener != null
    then {settings.value.notificationListener} else {}
  }

  /** `prepare`: with no settings or no listener, nothing happens. Otherwise
      the listener is told the task started, the java home is set when it
      names a directory, and a forwarder tagged with `id` is installed. */
  method Prepare(operation: LongRunningOperation, id: TaskId, settings: Option<ExecutionSettings>,
                 fs: FileSystem)
    modifies operation, ListenerOf(settings)
    ensures ListenerOf(settings) == {} ==> unchanged(operation)
    ensures ListenerOf(settings) != {} ==>
      var listener := settings.value.notificationListener;
      var javaHome := settings.value.javaHome;
      && listener.received == old(listener.received) + [Started(id)]
      && operation.javaHome
         == (if javaHome.Some? && fs.IsDirectory(javaHome.value) then javaHome else old(operation.javaHome))
      && operation.progressListeners == old(operation.progressListeners) + [ProgressForwarder(listener, id)]
  {
    if settings.None? {
      return;
    }
    var listener := settings.value.notificationListener;
    if listener == null {
      return;
    }
    listener.OnStart(id);
    var javaHome := settings.value.javaHome;
    if javaHome.Some? && fs.IsDirectory(javaHome.value) {
      operation.SetJavaHome(javaHome.value);
    }
    operation.AddProgressListener(ProgressForwarder(listener, id));
  }

  /** The model type `getModelBuilder(..., downloadLibraries)` asks for: the
      full IdeaProject exactly when libraries are to be downloaded. */
  function ModelTypeFor(downloadLibraries: bool): (t: ModelType)
    ensures t == IdeaProject <==> downloadLibraries
    ensures t == BasicIdeaProject <==> !downloadLibraries
  {
    if downloadLibraries then IdeaProject else BasicIdeaProject
  }

  /** `getModelBuilder(id, settings, connection, downloadLibraries)`. */
  method GetModelBuilder(id: TaskId, settings: Option<ExecutionSettings>, connection: ProjectConnection,
                         downloadLibraries: bool, fs: FileSystem)
    returns (builder: LongRunningOperation)
    requires connection.state == Open
    modifies ListenerOf(settings)
    ensures fresh(builder) && builder.kind == ModelFetch(ModelTypeFor(downloadLibraries))
    ensures ListenerOf(settings) == {} ==> builder.javaHome == None && builder.progressListeners == []
    ensures ListenerOf(settings) != {} ==>
      var listener := settings.value.notificationListener;
      var javaHome := settings.value.javaHome;
      && listener.received == old(listener.received) + [Started(id)]
      && builder.javaHome == (if javaHome.Some? && fs.IsDirectory(javaHome.value) then javaHome else None)
      && builder.progressListeners == [ProgressForwarder(listener, id)]
  {
    builder := connection.Model(ModelTypeFor(downloadLibraries));
    Prepare(builder, id, settings, fs);
  }

  /** `getBuildLauncher(id, connection, settings)`. */
  method GetBuildLauncher(id: TaskId, connection: ProjectConnection, settings: Option<ExecutionSettings>,
                          fs: FileSystem)
    returns (launcher: LongRunningOperation)
    requires connection.state == Open
    modifies ListenerOf(settings)
    ensures fresh(launcher) && launcher.kind == BuildLaunch
    ensures ListenerOf(settings) == {} ==> launcher.javaHome == None && launcher.progressListeners == []
    ensures ListenerOf(settings) != {} ==>
      var listener := settings.value.notificationListener;
      var javaHome := settings.value.javaHome;
      && listener.received == old(listener.received) + [Started(id)]
      && launcher.javaHome == (if javaHome.Some? && fs.IsDirectory(javaHome.value) then javaHome else None)
      && launcher.progressListeners == [ProgressForwarder(listener, id)]
  {
    launcher := connection.NewBuild();
    Prepare(launcher, id, settings, fs);
  }
}
