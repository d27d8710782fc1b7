# Scribble test fixtures in Dafny

Scribble is a library of JUnit rules: fixtures that set up a resource before a test (or a test class), hand the test a handle on it, and tear it down afterwards. This project models the core of that library:

- the lifecycle dispatch every rule inherits from `ExternalResource`. It runs the instance hooks (`before`/`after`) or the class hooks (`beforeClass`/`afterClass`) around the test's statement, marks that resource initialised, and hands its statement to an outer rule when it has one;
- the concrete fixtures:
  - `TemporaryFile`: a file in a JUnit `TemporaryFolder`, optionally filled from a content URL;
  - two variants of `JNDIContentRepository`: a content repository looked up in a JNDI context;
  - `Directory`: an embedded LDAP directory service that is set up, started and shut down around the test;
  - `HttpServer`: an Undertow server serving zip resources under prefix paths;
- the fluent builders that compose these fixtures around one shared temporary folder, and the static `Scribble` factories that start builder chains;
- `Injection`, which writes a value into the type-compatible fields of a target object.

The directory service and the Undertow server record the calls made on them, and which directory service calls throw is a parameter. The path handler, the temporary folder, the JNDI context's bindings and the URL streams are maps. Each resource is known by an id, and every hook event names the resource whose hook it is. A Java exception is an `Outcome`/`Result` value carrying an `Error`.

| module (file) | models |
|---|---|
| `Common` (common.dfy) | shared values: `Option`, `Result`, `Outcome`, `Error`, `Url`, `Description`, `Body`, and a `Count` over sequences |
| `Rules` (external_resource.dfy) | `ExternalResource.apply` and its statement, as its tests pin it down |
| `TemporaryFiles` (temporary_file.dfy) | `TemporaryFile`, and JUnit's `TemporaryFolder` reduced to `getRoot`/`newFile` |
| `FileBuilder` (temporary_file_builder.dfy) | the `TemporaryFileBuilder` of the `li.moskito` package |
| `RulesFolderBuilder` (temporary_folder_builder.dfy) | the `TemporaryFolderBuilder` of the rules builder package |
| `ScribbleFolderBuilder` (scribble_folder_builder.dfy) | the `TemporaryFolderBuilder` of the all-in-one module |
| `RepositoryBuilders` (standalone_content_repository_builder.dfy) | `StandaloneContentRepositoryBuilder`, plus stand-ins for the repositories and builders it needs |
| `Jcr`, `LegacyJcr` (jndi_content_repository.dfy, legacy_jndi_content_repository.dfy) | the two `JNDIContentRepository` variants |
| `Ldap` (directory.dfy) | `Directory` and its `DirectoryService`, plus stand-ins for the directory builders |
| `Http` (http_server.dfy) | `HttpServer` |
| `Inject` (injection.dfy) | `Injection`, as its tests pin it down |
| `Scribble` (scribble.dfy) | the `Scribble` factories |

Where the source updates fields in place, the model is a class with `modifies` frames. Examples are the rules' setters, `createTempFile`'s copy loop, `HttpServer.before`'s loop over the resource map, `into`/`intoAll` on an array of field slots, and the builders that hand out the instances they hold. Each such method is proved against a specification function, and the lemmas about that function state what the source promises.

## Model

| member | source | states |
|---|---|---|
| Common.OutcomeOf | scribble-file/src/main/java/io/inkstand/scribble/rules/TemporaryFile.java:72-75 | a call's result seen as a statement outcome: it passes exactly when the call returned, and keeps the call's exception otherwise |
| Common.CountConcat | src/test/java/io/inkstand/scribble/rules/ExternalResourceTest.java:63-67 | the number of calls of a hook in two consecutive stretches of a run is the sum of the counts |
| Common.CountAbsent | src/test/java/io/inkstand/scribble/rules/ExternalResourceTest.java:66-67 | a hook was called zero times exactly when it does not occur in the run ("verify times(0)") |
| Rules.Evaluation | src/test/java/io/inkstand/scribble/rules/ExternalResourceTest.java:57-58 | evaluating any chain of rule statements ends as the test body does, since the hooks sit around the body in a finally block and do not throw |
| Rules.ExternalResource.Apply | src/test/java/io/inkstand/scribble/rules/ExternalResourceTest.java:115-121 | without an outer rule, apply returns the resource's own statement around the base; with one, it returns exactly what the outer rule's apply produced for that statement |
| Rules.Evaluate | src/test/java/io/inkstand/scribble/rules/ExternalResourceTest.java:57-62 | evaluating a statement over the resource objects of its chain returns the body's outcome and makes exactly the run Evaluation specifies. Each resource records exactly its own hook calls of that run, in order. A resource ends initialised exactly when it was already or the statement contains one of its own statements; every other resource is left as it was |
| Rules.EvaluateWrapped | src/test/java/io/inkstand/scribble/rules/ExternalResourceTest.java:57-62 | a resource's own statement calls that resource's set-up hook for the scope, evaluates the inner statement, and then calls its tear-down hook. It has exactly the per-resource effect Evaluate states |
| Rules.InstanceRuleHooks | src/test/java/io/inkstand/scribble/rules/ExternalResourceTest.java:50-68 | in instance scope the run is before, the body, after, once each, with no class hook; the resource ends initialised |
| Rules.ClassRuleHooks | src/test/java/io/inkstand/scribble/rules/ExternalResourceTest.java:70-88 | in suite scope the run is beforeClass, the body, afterClass, once each, with no instance hook; the resource ends initialised |
| Rules.OuterRuleNesting | src/test/java/io/inkstand/scribble/rules/ExternalResourceTest.java:90-128 | with an outer rule, apply returns the outer rule's statement, the statement passed to the outer rule runs this resource's hooks for the description's scope around the body, and the outer rule's set-up and tear-down enclose them |
| Rules.ScopeChosenByIsSuite | src/test/java/io/inkstand/scribble/rules/ExternalResourceTest.java:75 | two descriptions give the same run exactly when their suite flags agree, so the suite flag alone chooses the hooks |
| Rules.HookCounts | src/test/java/io/inkstand/scribble/rules/ExternalResourceTest.java:63-67 | in any chain, a resource's before and after are each called once per instance-scoped statement of that resource, its beforeClass and afterClass once per suite-scoped one, and the test body exactly once |
| Rules.TearDownsMirrorSetUps | src/test/java/io/inkstand/scribble/rules/ExternalResourceTest.java:120-127 | the tear-downs of a run are the set-ups in reverse order, each the tear-down of the same resource or outer rule as its set-up: resources and outer rules nest properly |
| Rules.SetUpsConcat | src/test/java/io/inkstand/scribble/rules/ExternalResourceTest.java:120-127 | the set-ups of two consecutive stretches of a run are the set-ups of each, in order |
| Rules.MirrorConcat | src/test/java/io/inkstand/scribble/rules/ExternalResourceTest.java:120-127 | mirroring reverses the order of two stretches and pairs each set-up with its tear-down |
| Rules.ApplyScenarios | src/test/java/io/inkstand/scribble/rules/ExternalResourceTest.java:50-167 | the four tests run against the class: the exact run each evaluation makes, the hook calls the resource records, and all four resources report themselves initialised |
| Rules.RunFresh | src/test/java/io/inkstand/scribble/rules/ExternalResourceTest.java:50-167 | a new resource, with or without an outer rule, evaluated as the runner does: its set-up hook, the body, its tear-down hook, and it ends initialised |
| Rules.NestedResources | src/test/java/io/inkstand/scribble/rules/ExternalResourceTest.java:57-67 | two resources nested in one chain each call only their own hooks, the inner pair inside the outer pair, and both end initialised |
| Rules.ForeignStatement | src/test/java/io/inkstand/scribble/rules/ExternalResourceTest.java:57-67 | evaluating one resource's statement calls that resource's hooks and initialises it, and leaves another resource of the chain uninitialised with no hook called |
| TemporaryFiles.TemporaryFolder.GetRoot | scribble-file/src/main/java/io/inkstand/scribble/rules/TemporaryFile.java:92-95 | the folder's root is available exactly after the folder was created; before that it is an IllegalStateException |
| TemporaryFiles.TemporaryFolder.NewFile | scribble-file/src/main/java/io/inkstand/scribble/rules/TemporaryFile.java:92-95 | newFile fails if the folder was not created or the name is taken; otherwise it adds exactly that file, empty, and changes no other file |
| TemporaryFiles.CreateTempFileSpec | scribble-file/src/main/java/io/inkstand/scribble/rules/TemporaryFile.java:104-117 | createTempFile succeeds exactly when the folder exists, the name is free, content is not forced without a URL, and the URL can be opened. With forced content and no URL it fails with "ContentUrl is not set" after the empty file was created. On success the file holds the URL's bytes, or nothing without a URL. The file exists whenever it could be created, and no other file changes |
| TemporaryFiles.TemporaryFile.CreateTempFile | scribble-file/src/main/java/io/inkstand/scribble/rules/TemporaryFile.java:104-117 | the byte-by-byte stream copy gives exactly the result and the folder contents CreateTempFileSpec states |
| TemporaryFiles.TemporaryFile.Before | scribble-file/src/main/java/io/inkstand/scribble/rules/TemporaryFile.java:72-75 | before creates the file as CreateTempFileSpec states and discards the handle, so its outcome is only pass or the exception |
| TemporaryFiles.TemporaryFile.BeforeClass | scribble-file/src/main/java/io/inkstand/scribble/rules/TemporaryFile.java:127-130 | beforeClass has exactly before's contract |
| TemporaryFiles.TemporaryFile.After | scribble-file/src/main/java/io/inkstand/scribble/rules/TemporaryFile.java:120-124 | after deletes through the never-assigned file field, so it is a NullPointerException |
| TemporaryFiles.TemporaryFile.AfterClass | scribble-file/src/main/java/io/inkstand/scribble/rules/TemporaryFile.java:133-136 | afterClass has exactly after's contract |
| TemporaryFiles.TemporaryFile.GetFile | scribble-file/src/main/java/io/inkstand/scribble/rules/TemporaryFile.java:143-146 | getFile returns the field no member assigns: null |
| TemporaryFiles.TemporaryFile.SetContentUrl | scribble-file/src/main/java/io/inkstand/scribble/rules/TemporaryFile.java:154-158 | stores its argument and changes nothing else |
| TemporaryFiles.TemporaryFile.SetForceContent | scribble-file/src/main/java/io/inkstand/scribble/rules/TemporaryFile.java:169-173 | stores its argument and changes nothing else |
| TemporaryFiles.SettersScenario | scribble-file/src/main/java/io/inkstand/scribble/rules/TemporaryFile.java:154-173 | after two writes of each setter the last write wins, and the file handle stays null |
| FileBuilder.ClasspathResource | src/main/java/li/moskito/scribble/rules/builder/TemporaryFileBuilder.java:34-44 | the context class loader decides when there is one, and a resource it lacks gives null with no fallback to the builder's own class; without one, the builder's own class decides |
| FileBuilder.TemporaryFileBuilder.Build | src/main/java/li/moskito/scribble/rules/builder/TemporaryFileBuilder.java:23-25 | build returns the one file the constructor created, on every call |
| FileBuilder.TemporaryFileBuilder.FromClasspathResource | src/main/java/li/moskito/scribble/rules/builder/TemporaryFileBuilder.java:34-44 | sets the held file's content URL to the resource ClasspathResource selects and returns the same builder |
| FileBuilder.TemporaryFileBuilder.FromResource | src/main/java/li/moskito/scribble/rules/builder/TemporaryFileBuilder.java:53-56 | sets the held file's content URL to the argument and returns the same builder |
| FileBuilder.TemporaryFileBuilder.WithContent | src/main/java/li/moskito/scribble/rules/builder/TemporaryFileBuilder.java:64-67 | sets forced content on the held file and returns the same builder |
| FileBuilder.ConfigureAfterBuildScenario | src/main/java/li/moskito/scribble/rules/builder/TemporaryFileBuilder.java:16-25 | configuration made after build() reaches the file build() returned. Forced content without a URL makes before() fail with "ContentUrl is not set" after creating the empty file |
| RulesFolderBuilder.TemporaryFolderBuilder.Build | src/main/java/io/inkstand/scribble/rules/builder/TemporaryFolderBuilder.java:66-69 | build returns the folder the constructor created, on every call |
| RulesFolderBuilder.TemporaryFolderBuilder.AroundStandaloneContentRepository | src/main/java/io/inkstand/scribble/rules/builder/TemporaryFolderBuilder.java:42-44 | a new standalone repository builder whose working directory is build() |
| RulesFolderBuilder.TemporaryFolderBuilder.AroundInMemoryContentRepository | src/main/java/io/inkstand/scribble/rules/builder/TemporaryFolderBuilder.java:51-53 | a new in-memory repository builder around build() |
| RulesFolderBuilder.TemporaryFolderBuilder.AroundTempFile | src/main/java/io/inkstand/scribble/rules/builder/TemporaryFolderBuilder.java:62-64 | a new file builder whose file lives in build() under the given name, unchanged |
| RulesFolderBuilder.ChildrenShareOneFolder | src/main/java/io/inkstand/scribble/rules/builder/TemporaryFolderBuilder.java:31-69 | all child builders wrap the one folder build() returns, and a second request gives a different builder around the same folder (each child is new by the Around members' contracts) |
| ScribbleFolderBuilder.TemporaryFolderBuilder.Build | scribble-all/src/main/java/io/inkstand/scribble/builder/TemporaryFolderBuilder.java:51-55 | build returns the folder the constructor created, on every call |
| ScribbleFolderBuilder.TemporaryFolderBuilder.AroundStandaloneContentRepository | scribble-all/src/main/java/io/inkstand/scribble/builder/TemporaryFolderBuilder.java:47-49 | a new standalone repository builder whose working directory is build() |
| ScribbleFolderBuilder.TemporaryFolderBuilder.AroundInMemoryContentRepository | scribble-all/src/main/java/io/inkstand/scribble/builder/TemporaryFolderBuilder.java:62-64 | a new in-memory repository builder around build() |
| ScribbleFolderBuilder.TemporaryFolderBuilder.AroundDirectory | scribble-all/src/main/java/io/inkstand/scribble/builder/TemporaryFolderBuilder.java:66-69 | a new directory builder around the folder field itself, which is the folder build() returns |
| ScribbleFolderBuilder.TemporaryFolderBuilder.AroundTempFile | scribble-all/src/main/java/io/inkstand/scribble/builder/TemporaryFolderBuilder.java:78-80 | a new file builder whose file lives in build() under the given name, unchanged |
| ScribbleFolderBuilder.ChildrenShareOneFolder | scribble-all/src/main/java/io/inkstand/scribble/builder/TemporaryFolderBuilder.java:36-80 | all child builders, the directory included, wrap the one folder build() returns (each child is new by the Around members' contracts) |
| RepositoryBuilders.ConfigurationFor | src/main/java/io/inkstand/scribble/rules/builder/StandaloneContentRepositoryBuilder.java:70-72 | a repository keeps its default configuration exactly when no configuration URL was given, and is otherwise configured from that URL |
| RepositoryBuilders.StandaloneContentRepositoryBuilder.WithConfiguration | src/main/java/io/inkstand/scribble/rules/builder/StandaloneContentRepositoryBuilder.java:52-55 | stores the URL and returns the same builder |
| RepositoryBuilders.StandaloneContentRepositoryBuilder.GetConfigUrl | src/main/java/io/inkstand/scribble/rules/builder/StandaloneContentRepositoryBuilder.java:62-64 | the last configured URL, or null when none was configured |
| RepositoryBuilders.StandaloneContentRepositoryBuilder.Build | src/main/java/io/inkstand/scribble/rules/builder/StandaloneContentRepositoryBuilder.java:66-75 | each call allocates a new repository around the working directory, configured as ConfigurationFor states, with the CND model resource always passed on |
| RepositoryBuilders.BuildTwice | src/main/java/io/inkstand/scribble/rules/builder/StandaloneContentRepositoryBuilder.java:66-75 | two builds give two distinct repositories that share the working directory and the configuration: build is not idempotent |
| RepositoryBuilders.LastConfigurationWins | src/main/java/io/inkstand/scribble/rules/builder/StandaloneContentRepositoryBuilder.java:52-75 | the last withConfiguration call wins, and a null URL leaves the default configuration |
| Jcr.Lookup | src/main/java/io/inkstand/scribble/rules/jcr/JNDIContentRepository.java:78 | for a name, the context's lookup succeeds exactly when the name is bound, returns the bound object, and is a naming error otherwise; for a null name it gives whatever that context's lookup does with null |
| Jcr.Requirement | src/main/java/io/inkstand/scribble/rules/jcr/JNDIContentRepository.java:54-69 | the context is the one required setting; the lookup name is optional |
| Jcr.CreateRepositoryFrom | src/main/java/io/inkstand/scribble/rules/jcr/JNDIContentRepository.java:75-79 | fails with "No Context set" when the context is null, whatever the name; otherwise with "No lookup name set" when the name is null; succeeds exactly when both are set and the name is bound, and returns the bound repository |
| Jcr.JNDIContentRepository.SetContext | src/main/java/io/inkstand/scribble/rules/jcr/JNDIContentRepository.java:54-59 | succeeds exactly before the rule is created, and then only stores the context; otherwise it fails and keeps the old context |
| Jcr.JNDIContentRepository.SetLookupName | src/main/java/io/inkstand/scribble/rules/jcr/JNDIContentRepository.java:68-72 | succeeds exactly before the rule is created, and then only stores the name; otherwise it fails and keeps the old name |
| Jcr.JNDIContentRepository.CreateRepository | src/main/java/io/inkstand/scribble/rules/jcr/JNDIContentRepository.java:75-79 | returns what CreateRepositoryFrom states for the current settings |
| Jcr.JNDIContentRepository.DestroyRepository | src/main/java/io/inkstand/scribble/rules/jcr/JNDIContentRepository.java:82-84 | changes nothing |
| Jcr.ConfigurationScenario | src/main/java/io/inkstand/scribble/rules/jcr/JNDIContentRepository.java:39-79 | a fresh rule has the default lookup name "java:/jcr/local" and no context, so creation fails with "No Context set". Setting the two in either order gives the same repository. After creation a setter is refused and the context is kept |
| LegacyJcr.LookupIn | src/main/java/li/moskito/scribble/rules/jcr/JNDIContentRepository.java:56-58 | createRepository checks nothing: a null context is a NullPointerException, otherwise it is the context's lookup |
| LegacyJcr.Requirement | src/main/java/li/moskito/scribble/rules/jcr/JNDIContentRepository.java:35-50 | both settings are optional |
| LegacyJcr.JNDIContentRepository.SetContext | src/main/java/li/moskito/scribble/rules/jcr/JNDIContentRepository.java:35-40 | succeeds exactly while the rule is not initialised, and then only stores the context |
| LegacyJcr.JNDIContentRepository.SetLookupName | src/main/java/li/moskito/scribble/rules/jcr/JNDIContentRepository.java:49-53 | succeeds exactly while the rule is not initialised, and then only replaces the name |
| LegacyJcr.JNDIContentRepository.CreateRepository | src/main/java/li/moskito/scribble/rules/jcr/JNDIContentRepository.java:56-58 | returns what LookupIn states for the current settings |
| LegacyJcr.JNDIContentRepository.DestroyRepository | src/main/java/li/moskito/scribble/rules/jcr/JNDIContentRepository.java:61-63 | changes nothing |
| LegacyJcr.VariantsCompared | src/main/java/li/moskito/scribble/rules/jcr/JNDIContentRepository.java:56-58 | once both settings are present the two variants create the same repository. Without a context the newer variant reports "No Context set" where the older one dereferences null. With a null name the older one hands it to the context's lookup, where the newer one reports "No lookup name set" |
| Ldap.Step | src/main/java/io/inkstand/scribble/rules/ldap/Directory.java:121-154 | one call on the service: skipped once an exception propagates; otherwise recorded, and it throws and leaves the service unchanged exactly when the service rejects it |
| Ldap.SetupRun | src/main/java/io/inkstand/scribble/rules/ldap/Directory.java:121-132 | a successful set-up disables the change log, places the instance layout in the folder's root, sets a cache service and applies both access flags. Once the change log is disabled, a folder that was not created fails set-up with the folder's exception. Set-up never adds a partition, nor starts or stops the service |
| Ldap.Reached | src/main/java/io/inkstand/scribble/rules/ldap/Directory.java:98-106 | a run gets at least through the first call and never stops between the body and the shutdown |
| Ldap.EvaluationTrace | src/main/java/io/inkstand/scribble/rules/ldap/Directory.java:98-106 | a run records set-up, start-up, the body and the shutdown in this order, up to the first statement that throws. A failed set-up or start-up stops it, and the shutdown always follows a body that ran |
| Ldap.EvaluationOutcome | src/main/java/io/inkstand/scribble/rules/ldap/Directory.java:98-106 | a set-up or start-up exception is the run's exception. After the body, an exception from the shutdown replaces the body's outcome. Otherwise the run ends as the body does |
| Ldap.TearDownAfterBody | src/main/java/io/inkstand/scribble/rules/ldap/Directory.java:100-106 | the body runs exactly when set-up and start-up succeed, and then the shutdown is the run's last event, whether or not the body threw |
| Ldap.DirectoryService.Perform | src/main/java/io/inkstand/scribble/rules/ldap/Directory.java:215-218 | the service throws on the calls it rejects and otherwise applies the call's effect |
| Ldap.Directory.SetupService | src/main/java/io/inkstand/scribble/rules/ldap/Directory.java:121-132 | the calls made, the exception and the service state are exactly what SetupRun states for the rule's folder and flags |
| Ldap.Directory.StartService | src/main/java/io/inkstand/scribble/rules/ldap/Directory.java:139-142 | one startup call on the service |
| Ldap.Directory.TearDownService | src/main/java/io/inkstand/scribble/rules/ldap/Directory.java:150-154 | one shutdown call on the service |
| Ldap.Directory.Evaluate | src/main/java/io/inkstand/scribble/rules/ldap/Directory.java:93-111 | evaluating the applied statement records, throws and leaves the service exactly as Evaluation states. It takes no description, since apply ignores it: class and instance scope run alike |
| Ldap.Directory.AddPartition | src/main/java/io/inkstand/scribble/rules/ldap/Directory.java:215-218 | delegates straight to the service: one recorded call, the partition is appended exactly when the service accepts it, and the rest of the service state is unchanged |
| Ldap.Directory.SetAccessControlEnabled | src/main/java/io/inkstand/scribble/rules/ldap/Directory.java:250-253 | stores the flag |
| Ldap.Directory.SetAnonymousAccessEnabled | src/main/java/io/inkstand/scribble/rules/ldap/Directory.java:261-264 | stores the flag |
| Ldap.Directory.constructor | src/main/java/io/inkstand/scribble/rules/ldap/Directory.java:66-74 | access control starts disabled and anonymous access enabled |
| Http.AddResource | scribble-http/src/main/java/io/inkstand/scribble/http/rules/HttpServer.java:121-133 | a temporary zip file is always served; a URL only when its path ends with ".zip"; anything else is skipped. A URL without a path is a NullPointerException |
| Http.SelectionRule | scribble-http/src/main/java/io/inkstand/scribble/http/rules/HttpServer.java:121-133 | an entry gets a prefix path under its key exactly when it is a temporary zip file or a URL whose path ends with ".zip", and the path serves that file or URL |
| Http.SelectedAmongGrows | scribble-http/src/main/java/io/inkstand/scribble/http/rules/HttpServer.java:92-96 | processing one more entry adds at most that entry's own prefix path |
| Http.SelectionExamples | scribble-http/src/main/java/io/inkstand/scribble/http/rules/HttpServer.java:127-131 | a ".zip" URL is served, an ".html" URL is not, a URL without a path stops set-up, and an empty map registers nothing |
| Http.HttpServer.Before | scribble-http/src/main/java/io/inkstand/scribble/http/rules/HttpServer.java:87-101 | before fails exactly when some URL has no path, and then leaves the server field alone. Otherwise it builds a new server with the configured port and host around a handler holding exactly the selected prefix paths, whatever the map's order, and starts it |
| Http.HttpServer.BeforeClass | scribble-http/src/main/java/io/inkstand/scribble/http/rules/HttpServer.java:75-79 | beforeClass has exactly before's contract |
| Http.HttpServer.After | scribble-http/src/main/java/io/inkstand/scribble/http/rules/HttpServer.java:150-156 | after stops the server before started, and is a NullPointerException when there is none |
| Http.HttpServer.AfterClass | scribble-http/src/main/java/io/inkstand/scribble/http/rules/HttpServer.java:81-85 | afterClass has exactly after's contract |
| Http.HttpServer.constructor | scribble-http/src/main/java/io/inkstand/scribble/http/rules/HttpServer.java:68-73 | the three-argument constructor keeps host, port and resources, with no server yet |
| Http.HttpServer.WithAddress | scribble-http/src/main/java/io/inkstand/scribble/http/rules/HttpServer.java:54-57 | the two-argument constructor uses an empty resource map |
| Http.HttpServer.Default | scribble-http/src/main/java/io/inkstand/scribble/http/rules/HttpServer.java:42-45 | the no-argument constructor uses "localhost", an available port and an empty resource map |
| Http.HttpServer.GetBaseUrl | scribble-http/src/main/java/io/inkstand/scribble/http/rules/HttpServer.java:189-196 | the base URL is the one BaseUrl builds from the rule's host and port |
| Http.BaseUrl | scribble-http/src/main/java/io/inkstand/scribble/http/rules/HttpServer.java:189-196 | for a given host, a port below -1 fails with AssertionError("Invalid base URL"); otherwise the result is an http URL ending in "/". It starts with "http://" exactly when the authority (the host, plus ":port" unless the port is -1) is non-empty, and is "http:/" otherwise. A null host gives "http:/" whatever the port |
| Http.BaseUrlExamples | scribble-http/src/main/java/io/inkstand/scribble/http/rules/HttpServer.java:189-196 | an IPv6 host is bracketed, port -1 drops the port, an empty host with port -1 gives "http:/", a null host ignores a malformed port, and port -2 fails |
| Http.BaseUrlRoundTrip | scribble-http/src/main/java/io/inkstand/scribble/http/rules/HttpServer.java:192 | for a plain host and a port, the base URL is http://host:port/, and the host and the port read back from it |
| Http.ValueOfDigits | scribble-http/src/main/java/io/inkstand/scribble/http/rules/HttpServer.java:192 | the port's decimal digits read back as the port |
| Http.DigitsOf | scribble-http/src/main/java/io/inkstand/scribble/http/rules/HttpServer.java:192 | a port is written as a non-empty string of decimal digits |
| Inject.Injection.GetValue | src/test/java/io/inkstand/scribble/inject/InjectionTest.java:79-82 | returns the constructor's argument |
| Inject.Injection.IsMatching | src/test/java/io/inkstand/scribble/inject/InjectionTest.java:84-101 | a null value matches any field; otherwise a field matches exactly when its declared type names the value's class or one of its supertypes |
| Inject.FirstMatching | src/test/java/io/inkstand/scribble/inject/InjectionTest.java:54-65 | the first field in declaration order that the value matches, with none before it; none when no field matches |
| Inject.Into | src/test/java/io/inkstand/scribble/inject/InjectionTest.java:54-65 | into writes the fields exactly as InjectedFirst states |
| Inject.MatchAt | src/test/java/io/inkstand/scribble/inject/InjectionTest.java:54-65 | the scan that into performs stops at the index FirstMatching names |
| Inject.IntoAll | src/test/java/io/inkstand/scribble/inject/InjectionTest.java:44-52 | intoAll writes the fields exactly as InjectedAll states |
| Inject.IntoWritesFirstMatchOnly | src/test/java/io/inkstand/scribble/inject/InjectionTest.java:54-65 | into gives the value to the first matching field only. Every other field, and every field's type, stays as it was |
| Inject.IntoAllWritesEveryMatch | src/test/java/io/inkstand/scribble/inject/InjectionTest.java:44-52 | intoAll gives the value to exactly the matching fields and leaves the others untouched |
| Inject.IntoIsIntoAllOnSingleMatch | src/test/java/io/inkstand/scribble/inject/InjectionTest.java:44-65 | into and intoAll agree whenever at most one field matches |
| Inject.NullIntoNullFields | src/test/java/io/inkstand/scribble/inject/InjectionTest.java:67-77 | a null value matches every field, yet into and intoAll leave a target whose fields are all null unchanged, with no error |
| Inject.SimpleTargetOutcomes | src/test/java/io/inkstand/scribble/inject/InjectionTest.java:44-108 | on the target with two String fields and one Integer field: intoAll fills both String fields, into only the first, and null changes nothing. A null value matches the Integer field; "testValue" matches a String field and not the Integer field; getValue returns "testValue" |
| Scribble.InjectValue | scribble-all/src/main/java/io/inkstand/scribble/Scribble.java:136-138 | inject(v) returns an injection holding v |
| Scribble.NewMockContentRepository | scribble-all/src/main/java/io/inkstand/scribble/Scribble.java:145-148 | a new mock repository builder with no temporary folder |
| Scribble.NewJndiContentRepository | scribble-all/src/main/java/io/inkstand/scribble/Scribble.java:155-158 | a new JNDI repository builder with no temporary folder |
| Scribble.NewTempFolder | scribble-all/src/main/java/io/inkstand/scribble/Scribble.java:193-195 | a new folder builder around a new, not yet created folder |
| Scribble.NewInMemoryContentRepository | scribble-all/src/main/java/io/inkstand/scribble/Scribble.java:165-168 | a new in-memory repository builder around a new folder, as newTempFolder().aroundInMemoryContentRepository() |
| Scribble.NewStandaloneContentRepository | scribble-all/src/main/java/io/inkstand/scribble/Scribble.java:203-206 | a new standalone repository builder around a new folder, with no configuration URL, as newTempFolder().aroundStandaloneContentRepository() |
| Scribble.NewDirectory | scribble-all/src/main/java/io/inkstand/scribble/Scribble.java:213-216 | a new directory builder around a new folder, as newTempFolder().aroundDirectory() |
| Scribble.NewDirectoryServer | scribble-all/src/main/java/io/inkstand/scribble/Scribble.java:225-228 | a new directory server builder around a new directory builder around a new folder |
| Scribble.ChainsAreIndependent | scribble-all/src/main/java/io/inkstand/scribble/Scribble.java:193-216 | two factory calls never share a builder or a folder |

## Left out

- The source of `ExternalResource` is not part of this model. Its behaviour is taken from its tests. A resource object is known by its id, and a run is evaluated over the set of resource objects its statements belong to. The base class's hooks are no-ops that do not throw, so only the test body can fail. The outer rule is a rule whose statement wraps the one it is given between its own set-up and tear-down. The tests use a mock that returns a canned statement instead.
- Rules.Evaluation: the outcome of a run is the body's, because the hooks of the base class do not throw. An exception from a subclass hook is not modelled here; the fixtures that do throw (`TemporaryFile`, `Directory`, `HttpServer`) model their own hooks.
- TemporaryFiles: the filesystem is a map from file names to byte sequences, and `URL.openStream` is a map from URLs to their bytes. A URL missing from that map is the I/O exception opening it would raise. `IOUtils.copy` becomes a byte-by-byte loop.
- JUnit's `TemporaryFolder` keeps only `create`, `getRoot` and `newFile`. Deletion of the folder after the test is left out.
- FileBuilder.ClasspathResource: class-loader resource lookup is a map from names to URLs; the thread's context class loader is a parameter.
- The `@RuleSetup` annotation processing and the `State` machine of the rule base class are not modelled. The newer `JNDIContentRepository` keeps a two-valued phase (before CREATED or not); the older one keeps an `initialized` flag. `MarkCreated`/`MarkInitialized` stand for the base class's transition.
- `ContentRepositoryBuilder.getCndModelResource` is not part of this model. The builder keeps it as a constant field that is always null.
- `StandaloneContentRepository`, `InMemoryContentRepositoryBuilder`, `MockContentRepositoryBuilder`, `JNDIContentRepositoryBuilder`, `DirectoryBuilder` and `DirectoryServerBuilder` are not part of this model. They appear only as stand-ins that keep what the modelled builders pass to them. The all-in-one module's factories and builders use repository builders from another package; both are modelled by the one shown here.
- `Directory.createDirectoryService` is left out. The service is handed to the constructor, and its rejections are a parameter. ApacheDS internals are abstracted to a call log with a state record: the instance layout, the cache service's initialisation, and the AVL partition built by `addPartition(String, String)`.
- `Directory.importLdif` and `Directory.getDirectoryService` are left out. The first writes and loads an LDIF file through ApacheDS; the second only returns the field.
- `HttpServer.onGet` is left out, since it only returns null. `NetworkUtils.findAvailablePort` is a constructor parameter.
- Undertow's path handler is a map from prefix paths to the served archive. Its normalisation of paths is not modelled. The zip file system behind `createZipResourceHandler`, the listener and the server's own start-up failures are not modelled either.
- Http.HttpServer.Before: an exception from `URL.toURI` or from opening the zip file system is not modelled.
- Http.BaseUrl: follows the Java 8 `java.net.URL(protocol, host, port, file)` constructor and its external form. A null host is `None`, for which the port is not checked. The host is not validated beyond the IPv6 bracketing that constructor performs.
- Injection's reflection over declared fields becomes an array of typed slots in declaration order. Assignment compatibility is a field type that names the value's class or one of its supertypes. `asResource` and `asConfigProperty` are not part of this model.
- FileBuilder: `li.moskito.scribble.rules.TemporaryFile`, which this builder creates, is not part of this model. The builder is wired to the `TemporaryFile` of `TemporaryFiles` instead.
- RulesFolderBuilder.TemporaryFolderBuilder.AroundTempFile and ScribbleFolderBuilder.TemporaryFolderBuilder.AroundTempFile: both folder builders return `io.inkstand.scribble.rules.builder.TemporaryFileBuilder`, which is not part of this model. The model returns the `li.moskito` builder of `FileBuilder`, which takes the same folder and file name.
- Http.AddResource: a `TemporaryZipFile` entry is served under the URI of its file, assuming that its `getFile()` returns the created file. The `TemporaryZipFile` rule is not part of this model.
- Jcr.JNDIContentRepository.CreateRepository and LegacyJcr.JNDIContentRepository.CreateRepository: the `(Repository)` cast of the looked-up object is not modelled. A context binds only repositories, so the ClassCastException for another kind of object cannot arise.
- Jcr.Requirement and LegacyJcr.Requirement record the `@RuleSetup` requirement level of each setter. No other contract uses them, because the annotation processing is not modelled.
- Jcr.Lookup: the `Context` interface does not say what `lookup(null)` does (the JDK's `InitialContext` throws a NullPointerException), so each modelled context carries its own answer for a null name.
- Http.HttpServer.constructor: the resource map cannot be null in the model. In the source a null map is accepted, and `before` then throws a NullPointerException when it iterates the map.
- Logging is left out.
