# Gradle sessions, Android build targets and project data services, modelled in Dafny

This project models three small pieces of an IDE's build integration:

- **Gradle execution helper.** It opens a Gradle Tooling API connection for a project file. It configures the connector from the execution settings: wrapper or local installation, service directory, verbose logging and the daemon's idle time. It prepares model fetches and build launches by notifying the task listener, setting the java home and forwarding progress events. Finally it runs a unit of work against the connection. The connection is closed on every exit path, and any failure of the work is wrapped in one exception type.
- **Android build targets of the JPS builder.** There is one DEX and one packaging target per Android application module. The model covers each target's ordered dependency list, value equality and hash code, its presentable name, and the loader that finds a target by its id.
- **The `ProjectDataService` contract.** A service bound to one data key imports data nodes into the live project. For each node it leaves a current entity as it is, resets an entity in another state, and creates a missing one. Several services for one key are all called, smaller `Order` first. Each later service finds the data already imported and does nothing.

Files: `common.dfy` (optional values, Java `int`/`long` and narrowing), `gradle_execution.dfy` (module `GradleExecution`), `android_build_target.dfy` (module `AndroidBuilder`), `project_data_service.dfy` (module `ProjectDataService`).

How the collaborators are represented:

- **Tooling API.** The API is a set of recording objects:
  - `GradleConnector` logs each configuration call.
  - `ProjectConnection` has an `Open -> Closed` state and a close counter.
  - `LongRunningOperation` keeps the java home and the progress listeners it was given.
  - Three booleans (`ToolingApi`) decide whether the connector is a `DefaultGradleConnector`, whether `connect()` returns null, and whether `close()` throws.
- **Exceptions.** A Java exception becomes a `Throwable` value inside an `Outcome`.
- **File system.** The file system is a value. It gives the existing files and directories, the parents, and the canonical paths; a missing canonical path stands for the `IOException`.
- **Work function.** The work `f` is a function from the connection to an `Outcome`.
- **JPS model.** The JPS model is a value. The target registry and the compile-only dependency enumerator are functions passed in.
- **Project data.** The project is a map from entity identity to an entity with a state and a revision. The revision changes whenever the state is written, so "left as it is" can be observed. The project also keeps an import log: each `importData` call appends its service, so the services the platform calls, and their order, can be observed.
- **The service interface.** The interface contract is the predicate `ImportContract(before, nodes, after)`, stated for any implementation. `ReferenceDataService` is one implementation, proved to honour it.

## Model

| member | source | states |
|---|---|---|
| Common.ToInt32 | plugins/gradle/src/org/jetbrains/plugins/gradle/service/project/GradleExecutionHelper.java:161-163 | the `(int) ttl` cast keeps the value modulo 2^32, in `int` range, and is the identity on values already in range |
| GradleExecution.ConnectorConfiguration | plugins/gradle/src/org/jetbrains/plugins/gradle/service/project/GradleExecutionHelper.java:131-166 | the last configuration call always sets the project directory to the parent of the project file; with null settings it is the only call; the installation is set exactly when the wrapper is not used and a Gradle home is given, to the canonical path or the raw path when canonicalisation fails; the service directory is set exactly when non-null; verbose logging exactly when the flag is set and the connector is a DefaultGradleConnector; the idle time exactly when ttl > 0 on a DefaultGradleConnector, narrowed to `int` |
| GradleExecution.Configure | plugins/gradle/src/org/jetbrains/plugins/gradle/service/project/GradleExecutionHelper.java:133-165 | the settings-dependent setter calls append exactly the calls that the settings and the connector kind select, in source order |
| GradleExecution.GetConnection | plugins/gradle/src/org/jetbrains/plugins/gradle/service/project/GradleExecutionHelper.java:124-174 | a path that is not an existing file gives IllegalArgumentException before any connector exists; otherwise the fresh connector received exactly the configuration calls above; a null from `connect()` gives IllegalStateException; otherwise the result is a fresh open connection for the project directory |
| GradleExecution.Execute | plugins/gradle/src/org/jetbrains/plugins/gradle/service/project/GradleExecutionHelper.java:97-113 | errors of `getConnection` come back unwrapped and no connection exists to close; once a connection exists it ends Closed with exactly one close call, whether the work returns or throws; the work's value is returned unchanged, and whatever the work throws comes back as ExternalSystemException carrying it as cause; a throwing `close()` does not affect the outcome |
| GradleExecution.Prepare | plugins/gradle/src/org/jetbrains/plugins/gradle/service/project/GradleExecutionHelper.java:72-95 | with null settings or no listener nothing changes; otherwise the listener receives `onStart(id)`, the java home is set exactly when it names a directory, and a progress forwarder tagged with `id` is installed |
| GradleExecution.ForwardStatusChange | plugins/gradle/src/org/jetbrains/plugins/gradle/service/project/GradleExecutionHelper.java:89-94 | each progress event reaches the listener as a status change carrying the task id and the event's description |
| GradleExecution.ModelTypeFor | plugins/gradle/src/org/jetbrains/plugins/gradle/service/project/GradleExecutionHelper.java:42-49 | the full IdeaProject model is requested exactly when libraries are to be downloaded, BasicIdeaProject otherwise |
| GradleExecution.GetModelBuilder | plugins/gradle/src/org/jetbrains/plugins/gradle/service/project/GradleExecutionHelper.java:43-60 | a fresh model builder of the chosen model type, prepared: a listener in the settings is told the task started, the java home is set exactly when it names a directory, and the builder gets exactly one forwarder tagged with the task id |
| GradleExecution.GetBuildLauncher | plugins/gradle/src/org/jetbrains/plugins/gradle/service/project/GradleExecutionHelper.java:62-70 | a fresh build launcher, prepared in the same way: the listener is told the task started, the java home is set exactly when it names a directory, one forwarder tagged with the task id |
| AndroidBuilder.Id | plugins/android/jps-plugin/src/org/jetbrains/jps/android/builder/AndroidBuildTarget.java:50-53 | a target's id is its module's name |
| AndroidBuilder.Equals | plugins/android/jps-plugin/src/org/jetbrains/jps/android/builder/AndroidBuildTarget.java:80-89 | `equals(o)` holds exactly when `o` is an AndroidBuildTarget with the same module and the same target type; it is false for null and for other classes |
| AndroidBuilder.HashCode | plugins/android/jps-plugin/src/org/jetbrains/jps/android/builder/AndroidBuildTarget.java:91-96 | the hash code is `31 * module hash + type hash` modulo 2^32, in `int` range |
| AndroidBuilder.EqualTargetsHashAlike | plugins/android/jps-plugin/src/org/jetbrains/jps/android/builder/AndroidBuildTarget.java:80-96 | equal targets have equal hash codes |
| AndroidBuilder.PresentableName | plugins/android/jps-plugin/src/org/jetbrains/jps/android/builder/AndroidBuildTarget.java:113-117 | the presentable name is "Android " followed by the target type's presentable name |
| AndroidBuilder.RootDescriptors | plugins/android/jps-plugin/src/org/jetbrains/jps/android/builder/AndroidBuildTarget.java:98-105 | an Android target has no root descriptors |
| AndroidBuilder.FindRootDescriptor | plugins/android/jps-plugin/src/org/jetbrains/jps/android/builder/AndroidBuildTarget.java:107-111 | looking up a root descriptor always gives null |
| AndroidBuilder.OutputDirs | plugins/android/jps-plugin/src/org/jetbrains/jps/android/builder/AndroidBuildTarget.java:119-123 | an Android target has no output directories |
| AndroidBuilder.SelectorFor | plugins/android/jps-plugin/src/org/jetbrains/jps/android/builder/AndroidBuildTarget.java:73-78 | the registry is asked for ALL targets exactly when the module has an Android extension that packs test code, and for PRODUCTION otherwise |
| AndroidBuilder.ComputeDependencies | plugins/android/jps-plugin/src/org/jetbrains/jps/android/builder/AndroidBuildTarget.java:55-71 | for a packaging target the DEX target of the same module comes first, and a DEX target adds no such entry; next come the module's own module-based targets, then those of each compile-only dependency in enumeration order |
| AndroidBuilder.DependencyTargetsMembership | plugins/android/jps-plugin/src/org/jetbrains/jps/android/builder/AndroidBuildTarget.java:62-69 | a target is among the dependencies' targets exactly when some enumerated dependency module contributes it |
| AndroidBuilder.DependenciesMembership | plugins/android/jps-plugin/src/org/jetbrains/jps/android/builder/AndroidBuildTarget.java:55-78 | a target is a dependency exactly when it is the DEX entry of a packaging target, one of the module's own targets, or a target of one of its compile-only dependencies |
| AndroidBuilder.ApplicationModulesMembership | plugins/android/jps-plugin/src/org/jetbrains/jps/android/builder/AndroidBuildTarget.java:149-155 | a module is selected exactly when it is in the project and has an Android extension that is not a library |
| AndroidBuilder.ApplicationModulesOrdered | plugins/android/jps-plugin/src/org/jetbrains/jps/android/builder/AndroidBuildTarget.java:147-156 | the selected modules keep the project's module order: they sit at strictly increasing positions of the module list |
| AndroidBuilder.ComputeAllTargets | plugins/android/jps-plugin/src/org/jetbrains/jps/android/builder/AndroidBuildTarget.java:141-157 | the list is empty when the project has no Android facet; otherwise it holds one target of this type per application module, in module order, and every target's module is an application module of the project |
| AndroidBuilder.IndexById | plugins/android/jps-plugin/src/org/jetbrains/jps/android/builder/AndroidBuildTarget.java:162-166 | the map holds exactly the ids of the targets; each id maps to the last target carrying it, because a later `put` overwrites |
| AndroidBuilder.CreateLoader | plugins/android/jps-plugin/src/org/jetbrains/jps/android/builder/AndroidBuildTarget.java:159-174 | `createTarget(id)` gives null exactly when no computed target has that id; otherwise it gives the last computed target with that id |
| ProjectDataService.ReferenceDataService.TargetDataKey | platform/external-system-api/src/com/intellij/openapi/externalSystem/service/project/manage/ProjectDataService.java:54-58 | a service reports the one key it is bound to; its import and removal accept only nodes of that key |
| ProjectDataService.ReferenceDataService.ImportData | platform/external-system-api/src/com/intellij/openapi/externalSystem/service/project/manage/ProjectDataService.java:60-79 | the project afterwards is the reference import of the nodes; on a consistent batch the import honours the documented contract: every node's entity is present in the node's state, an entity already in that state is left untouched (revision included), and no other entity changes; the call is recorded once in the project's import log |
| ProjectDataService.ReferenceDataService.RemoveData | platform/external-system-api/src/com/intellij/openapi/externalSystem/service/project/manage/ProjectDataService.java:81 | the reference removal: the nodes' entities are gone, the others are unchanged, and an absent entity is a no-op (the source documents no contract here); the import log is unchanged |
| ProjectDataService.ImportNodesHonoursContract | platform/external-system-api/src/com/intellij/openapi/externalSystem/service/project/manage/ProjectDataService.java:60-72 | the reference import creates a missing entity, resets one in another state and leaves a current one untouched, for every node of a consistent batch |
| ProjectDataService.ImportTwiceIsImportOnce | platform/external-system-api/src/com/intellij/openapi/externalSystem/service/project/manage/ProjectDataService.java:32-37 | for any implementations honouring the contract, importing the same nodes into the project a first import left changes nothing: data already imported makes the import a no-op |
| ProjectDataService.LaterServicesAreNoOps | platform/external-system-api/src/com/intellij/openapi/externalSystem/service/project/manage/ProjectDataService.java:32-37 | when several contract-honouring services import the same nodes one after another, every service after the first leaves the project as the first left it |
| ProjectDataService.ImportNodesIdempotent | platform/external-system-api/src/com/intellij/openapi/externalSystem/service/project/manage/ProjectDataService.java:65 | importing a consistent batch twice with the reference import gives what importing it once gives, revisions included |
| ProjectDataService.WithKey | platform/external-system-api/src/com/intellij/openapi/externalSystem/service/project/manage/ProjectDataService.java:32-33 | the services for a key are exactly the registered services bound to that key, each as many times as it is registered |
| ProjectDataService.InsertByOrderSorted | platform/external-system-api/src/com/intellij/openapi/externalSystem/service/project/manage/ProjectDataService.java:38-41 | inserting a service into a list sorted by Order keeps it sorted and adds exactly one element |
| ProjectDataService.SortByOrderCorrect | platform/external-system-api/src/com/intellij/openapi/externalSystem/service/project/manage/ProjectDataService.java:38-41 | sorting by Order gives an ascending list that is a permutation of its input |
| ProjectDataService.ServicesFor | platform/external-system-api/src/com/intellij/openapi/externalSystem/service/project/manage/ProjectDataService.java:32-41 | the services called for a key, in ascending Order, are a permutation of the registered services bound to that key: each registered service is among them and every one of them is registered for the key |
| ProjectDataService.ServicesForCounts | platform/external-system-api/src/com/intellij/openapi/externalSystem/service/project/manage/ProjectDataService.java:32-41 | a service registered for the key is called exactly as many times as it is registered |
| ProjectDataService.CallImports | platform/external-system-api/src/com/intellij/openapi/externalSystem/service/project/manage/ProjectDataService.java:32-41 | calling the given services in order appends exactly them to the import log; with none the entities are unchanged; on a consistent batch the project ends as one import leaves it |
| ProjectDataService.ImportWithAllServices | platform/external-system-api/src/com/intellij/openapi/externalSystem/service/project/manage/ProjectDataService.java:32-41 | the project's import log grows by exactly the services for the key, in ascending Order; with no service the project's entities are unchanged; on a consistent batch the project ends as one import leaves it, so the later services are no-ops |

## Left out

- The Gradle Tooling API itself. This covers the connector, the connection's model and build requests, and how an operation dispatches progress events to its listeners. These are recording objects here, and only the forwarder that `prepare` installs is modelled.
- What the work function does with the connection. `f` is a function of the connection to its outcome; it cannot close the connection itself.
- Exception messages. The messages of IllegalArgumentException (a localised bundle text) and IllegalStateException are not modelled; both errors carry only the project path.
- File-system queries (`isFile`, `isDirectory`, `getParentFile`, `getCanonicalFile`). They are answered by a `FileSystem` value, not by I/O.
- GradleExecution.Prepare: does not state that `onStart` comes before the java home and the forwarder are set. The listener and the operation are separate objects with no shared event log.
- The identity hash codes of JPS modules and target types. They are inputs: a module's `hash` field and a `typeHash` function.
- The target type ids from AndroidCommonUtils. AndroidCommonUtils is not part of this model.
- How `containsAndroidFacet` is computed. AndroidJpsUtil is not part of this model, so the result is an input field of the project.
- The target registry, the Android extension lookup and the compile-only dependency enumerator. They are inputs.
- Module identity. Module equality is modelled as value equality over a `uid` that stands for object identity.
- The `ProjectDataService` interface as a type. The interface has no bodies; by choice it is modelled as the predicate `ImportContract`, which `ImportTwiceIsImportOnce` and `LaterServicesAreNoOps` quantify over. `ImportWithAllServices` calls only reference services.
- ProjectDataService.ImportContract: adds a frame that the interface's documentation does not state: entities that no node corresponds to are neither changed nor created. Without it, no idempotence follows.
- ProjectDataService.ImportWithAllServices: states the final project only for consistent batches. A batch naming one entity with two states cannot satisfy the documented contract.
- Ties in `Order`. They keep registration order; the source says nothing about ties.
- Extension-point registration (`EP_NAME`) and service discovery. The registry is a sequence of services passed in.
- Thread safety of services, and the asynchronous meaning of `synchronous`. The flag is passed through without effect.
- ProjectDataService.ReferenceDataService.RemoveData: the source documents no contract for `removeData`. The stated behaviour is that of the reference implementation only.
- Aggregated provider failures, a "session closed" error on reuse, and a registry with its own registration operation. The code modelled here has no such behaviour.
- Where the notification listener is told the task started. It is told in `prepare`, once per prepared operation, not when the connection is opened. The code is followed here.
