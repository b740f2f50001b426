# testcontainers-playwright in Dafny

A model of the core of testcontainers-playwright. The library runs Playwright
browsers inside a Testcontainers Docker container and injects them into JUnit 5
tests. The model covers seven parts:

- **Meta-annotation lookup** (AnnotationsUtils.kt). A depth-first search over the
  "is annotated with" graph. A shared visited set keeps it finite on cyclic graphs.
- **The two JUnit 5 extensions** (PlaywrightTestcontainersExtension.kt and
  PlaywrightExtension.kt). This covers:
  - which parameter types are supported, and how parameters are resolved;
  - how the engine is chosen from the Webkit, Firefox and Chromium marker annotations;
  - the container registry, keyed by the configurer's name or `"default"`;
  - the list of browser contexts that `afterEach` closes, which each test invocation starts afresh in its own extension store.
- **The container** (PlaywrightContainer.kt). This covers:
  - the `major.minor` image tag and `configure`;
  - the launch-once endpoint cache of `ContainerBrowserAccess`;
  - the HTTP status check and the `ws://host:port/path` endpoint;
  - the lazily connected browsers of each API;
  - `registerNewPlaywright` and `close`.
- **The per-thread API registry** (PlaywrightApiManager.kt) and its lazy
  per-engine browsers, plus both `close` methods.
- **Version detection** (PlaywrightUtils.kt): which Playwright version is on the
  classpath, and `safeClose`.
- **The sidecar script** (src/main/resources/app.js): the random WebSocket path,
  the browser-name dispatch, and the HTTP status routing.
- **The wire format** shared by the client and the sidecar (launch_protocol.dfy).
  It also proves that the sidecar's answer, decoded by the client, gives back the
  path the sidecar generated.

Code that changes state in place is written as classes with `modifies` clauses:
- the extension state;
- `ContainerBrowserAccess`, the container and its API objects;
- the API manager and its API objects;
- the sidecar.

Each of these methods is proved against a specification function. For example:
- `TryInOrder` is specified by `FirstEscaping`/`Attempted`;
- `FindMetaAnnotation` by `Search`;
- `GetPlaywrightVersionOnClasspath` by `Versions`.

Foreign calls are parameters of the methods that make them:
- the HTTP exchange;
- whether Playwright's `connect` fails;
- the outcome of each `close()`;
- the values of `Math.random()`;
- JUnit's `AnnotationSupport.isAnnotated`;
- the iteration order of a `ConcurrentHashMap`.

Calls into foreign code are recorded in a `log` field, so contracts can state
which calls are made and in what order.

Two points of the code's behaviour that the contracts pin down:
- **Engine choice.** The levels are combined, not ranked. The code looks for the
  Webkit marker on the parameter, the method and the class first, then for the
  Firefox marker on all three, and otherwise uses Chromium. So a Webkit marker
  on the class beats a Firefox marker on the parameter
  (`ClassWebkitBeatsParameterFirefox`).
- **Cleanup throwables propagate.**
  - `afterEach` lets the first failing `close()` propagate, and leaves the list
    uncleared.
  - `PlaywrightContainer.close` swallows only `PlaywrightException`.
  - `safeClose` swallows only `Exception`, not a JVM `Error`.

## Model

| member | source | states |
|---|---|---|
| Annotations.FindAnnotation | src/main/kotlin/io/orangebuffalo/testcontainers/playwright/junit/AnnotationsUtils.kt:16-18 | the direct lookup finds an instance exactly when the annotation is declared on the element, and that instance is the direct one |
| Annotations.Search | src/main/kotlin/io/orangebuffalo/testcontainers/playwright/junit/AnnotationsUtils.kt:21-40 | the depth-first search in declaration order never removes anything from the visited set |
| Annotations.FindMetaAnnotation | src/main/kotlin/io/orangebuffalo/testcontainers/playwright/junit/AnnotationsUtils.kt:21-40 | the loop with its shared visited set returns exactly what the depth-first search finds and leaves the same visited set; a found instance is of the requested class |
| Annotations.SearchSound | src/main/kotlin/io/orangebuffalo/testcontainers/playwright/junit/AnnotationsUtils.kt:27-35 | whatever the search returns is an instance of the requested class, and that class is reachable through meta-annotations |
| Annotations.SearchExhaustive | src/main/kotlin/io/orangebuffalo/testcontainers/playwright/junit/AnnotationsUtils.kt:26-39 | a search that finds nothing has checked every annotation it was given and fully explored every class it marked visited |
| Annotations.SearchExploresEachOnce | src/main/kotlin/io/orangebuffalo/testcontainers/playwright/junit/AnnotationsUtils.kt:31-36 | the search descends into each annotation class at most once: the classes it enters are distinct and are exactly those newly added to the visited set, so cyclic graphs terminate |
| Annotations.SearchFindsExactlyReachable | src/main/kotlin/io/orangebuffalo/testcontainers/playwright/junit/AnnotationsUtils.kt:26-39 | from an empty visited set the search finds the annotation exactly when it is reachable from the roots |
| Annotations.LookupReachable | src/main/kotlin/io/orangebuffalo/testcontainers/playwright/junit/AnnotationsUtils.kt:11-18 | direct lookup, else meta search, is non-null exactly when the annotation is declared on the element or reachable through chains of meta-annotations; a direct declaration is returned as is |
| Annotations.Lookup | src/main/kotlin/io/orangebuffalo/testcontainers/playwright/junit/AnnotationsUtils.kt:11-18 | a direct declaration is returned as is, and whatever is returned is of the requested class |
| Annotations.GetAnnotation | src/main/kotlin/io/orangebuffalo/testcontainers/playwright/junit/AnnotationsUtils.kt:11-14 | `getAnnotation` returns the lookup's instance, which is non-null exactly when the annotation is reachable and is then of the requested class |
| Annotations.HasAnnotation | src/main/kotlin/io/orangebuffalo/testcontainers/playwright/junit/AnnotationsUtils.kt:6-9 | `hasAnnotation` is true exactly when `getAnnotation` is non-null, that is when the annotation is reachable |
| Common.FirstEscaping | src/main/kotlin/io/orangebuffalo/testcontainers/playwright/junit/PlaywrightTestcontainersExtension.kt:91-96 | the position of the first `close()` whose throwable escapes: none exactly when no element's escapes, otherwise the first element that escapes, with none before it escaping |
| Common.TryInOrder | src/main/kotlin/io/orangebuffalo/testcontainers/playwright/junit/PlaywrightTestcontainersExtension.kt:91-96 | the `forEach { it.close() }` loop reaches every element when nothing escapes, and otherwise the elements up to and including the first that escapes, and reports that position |
| Common.AttemptedConcat | src/main/kotlin/io/orangebuffalo/testcontainers/playwright/PlaywrightApiManager.kt:17-19 | one loop over two lists reaches what the first list reaches, and then what the second reaches when nothing in the first escaped |
| Common.AttemptedStep | src/main/kotlin/io/orangebuffalo/testcontainers/playwright/PlaywrightApiManager.kt:66-71 | after calls that all succeeded, a `close()` whose throwable escapes is the last call made, whatever follows it |
| Common.AttemptedPrefix | src/main/kotlin/io/orangebuffalo/testcontainers/playwright/PlaywrightApiManager.kt:17-19 | once a first part of the list has an escaping `close()`, nothing after it is reached |
| Strings.Split | src/main/kotlin/io/orangebuffalo/testcontainers/playwright/PlaywrightContainer.kt:30 | `split(".")` gives one part more than there are dots, no part contains a dot, and the parts joined with dots give back the version |
| Strings.NatToString | src/main/kotlin/io/orangebuffalo/testcontainers/playwright/PlaywrightContainer.kt:201 | the decimal rendering of a port is a non-empty string of digits |
| Strings.NatToStringRoundTrip | src/main/kotlin/io/orangebuffalo/testcontainers/playwright/PlaywrightContainer.kt:201 | reading the rendered digits back gives the port |
| JUnit.SelectEngine | src/main/kotlin/io/orangebuffalo/testcontainers/playwright/junit/PlaywrightTestcontainersExtension.kt:52-58 | Webkit exactly when its marker is found on some level; Firefox exactly when no Webkit marker is found and a Firefox marker is; otherwise Chromium |
| JUnit.StorageKeyShared | src/main/kotlin/io/orangebuffalo/testcontainers/playwright/junit/PlaywrightTestcontainersExtension.kt:134-135 | two configurations share a storage key exactly when their configurers have the same qualified name, or neither has one |
| JUnit.StorageKey | src/main/kotlin/io/orangebuffalo/testcontainers/playwright/junit/PlaywrightTestcontainersExtension.kt:134-135 | the configurer's qualified name when there is one, and "default" when there is no configurer or its name is null |
| JUnit.RegistryGetOrCreate | src/main/kotlin/io/orangebuffalo/testcontainers/playwright/junit/PlaywrightTestcontainersExtension.kt:106-129 | with a configurer's provider the registry is untouched. Otherwise a present key is reused with no call at all. An absent key is bound to the returned container, unless its setup or start throws, which leaves the registry as it was and passes the throw on. No other entry changes |
| JUnit.RegistryIdempotent | src/main/kotlin/io/orangebuffalo/testcontainers/playwright/junit/PlaywrightTestcontainersExtension.kt:114-128 | after a request that obtained a container, a second request with the same configuration changes nothing, makes no call and returns the same container |
| JUnit.FailedStartIsRetried | src/main/kotlin/io/orangebuffalo/testcontainers/playwright/junit/PlaywrightTestcontainersExtension.kt:114-127 | a container whose setup or start threw is not kept, so the next request with the same configuration creates and starts another one |
| JUnit.RegistryKeepsOneContainerPerKey | src/main/kotlin/io/orangebuffalo/testcontainers/playwright/junit/PlaywrightTestcontainersExtension.kt:114-128 | creating containers only for absent keys keeps every key bound to its own container |
| JUnit.ExtensionState.GetOrCreateContainerApi | src/main/kotlin/io/orangebuffalo/testcontainers/playwright/junit/PlaywrightTestcontainersExtension.kt:106-129 | the provider's API when the configurer has a provider. Otherwise the key's container: when the key is absent it is created, set up by the configurer if there is one, and started. If the setup hook or `start()` throws, the key stays absent and the throw propagates |
| JUnit.ExtensionState.NewContext | src/main/kotlin/io/orangebuffalo/testcontainers/playwright/junit/PlaywrightTestcontainersExtension.kt:52-63 | the outcome of the browser getter, `newContext` and the hook decides: a throw from the browser or `newContext` creates nothing and fails; otherwise exactly one new context is created with the configurer's options and customised by the configurer; it is appended to the invocation's list and returned unless the hook threw, in which case it stays created but unrecorded and the call fails with `HookFailed` |
| JUnit.ExtensionState.OpenPage | src/main/kotlin/io/orangebuffalo/testcontainers/playwright/junit/PlaywrightTestcontainersExtension.kt:36-40 | a `newPage()` that throws fails with `NewPageFailed` and changes nothing; otherwise a page is opened in the given context and nothing else changes |
| JUnit.HookThrowLeavesContextOpen | src/main/kotlin/io/orangebuffalo/testcontainers/playwright/junit/PlaywrightTestcontainersExtension.kt:60-61 | when the configurer's hook throws, the context has been created but is not in the invocation's list, so the `afterEach` close loop never closes it |
| JUnit.ExtensionState.AfterEach | src/main/kotlin/io/orangebuffalo/testcontainers/playwright/junit/PlaywrightTestcontainersExtension.kt:91-96 | `close()` is called on the recorded contexts in list order; if none throws the list is cleared, otherwise the first throw ends the loop and the list is left as it was |
| JUnit.ExtensionState.BeginInvocation | src/main/kotlin/io/orangebuffalo/testcontainers/playwright/junit/PlaywrightTestcontainersExtension.kt:99-103 | a new invocation's store starts an empty list of contexts, dropping whatever the previous invocation left uncleared; the registry, the numbering and the calls made so far are kept |
| JUnit.NextInvocationClosesOnlyItsOwn | src/main/kotlin/io/orangebuffalo/testcontainers/playwright/junit/PlaywrightTestcontainersExtension.kt:91-103 | since contexts are numbered in creation order, the next invocation's `afterEach` never closes an earlier invocation's context again, even one left open by a failed `afterEach` |
| TestcontainersExtension.HasMarker | src/main/kotlin/io/orangebuffalo/testcontainers/playwright/junit/PlaywrightTestcontainersExtension.kt:81-89 | the marker is found, directly or through meta-annotations, on the parameter, the test method or the test class |
| TestcontainersExtension.ChooseEngine | src/main/kotlin/io/orangebuffalo/testcontainers/playwright/junit/PlaywrightTestcontainersExtension.kt:52-58 | the Webkit-then-Firefox tests pick the engine of the selection rule |
| TestcontainersExtension.EngineForMarkers | src/main/kotlin/io/orangebuffalo/testcontainers/playwright/junit/PlaywrightTestcontainersExtension.kt:52-58 | Webkit exactly when its marker is reachable from any level; Firefox exactly when no Webkit marker is and a Firefox marker is; otherwise Chromium |
| TestcontainersExtension.NoMarkerMeansChromium | src/main/kotlin/io/orangebuffalo/testcontainers/playwright/junit/PlaywrightTestcontainersExtension.kt:57 | with no marker reachable anywhere the context runs on Chromium |
| TestcontainersExtension.ClassWebkitBeatsParameterFirefox | src/main/kotlin/io/orangebuffalo/testcontainers/playwright/junit/PlaywrightTestcontainersExtension.kt:52-58 | the levels have no precedence: a Webkit marker on the class beats a Firefox marker on the parameter |
| TestcontainersExtension.CreateBrowserContext | src/main/kotlin/io/orangebuffalo/testcontainers/playwright/junit/PlaywrightTestcontainersExtension.kt:46-64 | on the chosen engine, as `NewContext`: a browser or `newContext` throw creates nothing, a `configureBrowserContext` throw leaves the new context unrecorded, and otherwise the context is customised and appended to the invocation's list; the registry is unchanged |
| TestcontainersExtension.SupportsParameter | src/main/kotlin/io/orangebuffalo/testcontainers/playwright/junit/PlaywrightTestcontainersExtension.kt:17-21 | the container API, browser contexts and pages are supported; the plain Playwright API and any other type are not |
| TestcontainersExtension.ResolveParameter | src/main/kotlin/io/orangebuffalo/testcontainers/playwright/junit/PlaywrightTestcontainersExtension.kt:23-44 | the container API is obtained first, whatever the type. If its container's setup or start throws, that throw is the result and no context is created. Otherwise the API, one new context, or a page in one new context is returned; a context creation or `newPage()` that throws is the result, and the list of contexts grows only when a context was recorded. Any other type fails with `UnsupportedParameter` |
| PlaywrightExtension.EngineFor | src/main/kotlin/io/orangebuffalo/testcontainers/playwright/junit/PlaywrightExtension.kt:70-76 | Webkit exactly when `isAnnotated` reports its marker on some level; Firefox exactly when no Webkit marker and some Firefox marker; otherwise Chromium |
| PlaywrightExtension.HasMarker | src/main/kotlin/io/orangebuffalo/testcontainers/playwright/junit/PlaywrightExtension.kt:99-107 | the marker is reported on the parameter, the test method or the test class |
| PlaywrightExtension.ChooseEngine | src/main/kotlin/io/orangebuffalo/testcontainers/playwright/junit/PlaywrightExtension.kt:70-76 | the Webkit-then-Firefox tests pick `EngineFor` |
| PlaywrightExtension.ChromiumMarkerNotConsulted | src/main/kotlin/io/orangebuffalo/testcontainers/playwright/junit/PlaywrightExtension.kt:70-76 | the engine depends only on the Webkit and Firefox markers; `RequiresChromium` never changes it |
| PlaywrightExtension.CreateBrowserContext | src/main/kotlin/io/orangebuffalo/testcontainers/playwright/junit/PlaywrightExtension.kt:64-82 | on the chosen engine, as `NewContext`: a browser or `newContext` throw creates nothing, a `setupBrowserContext` throw leaves the new context unrecorded, and otherwise the context is passed to `setupBrowserContext` and appended to the invocation's list |
| PlaywrightExtension.SupportsParameter | src/main/kotlin/io/orangebuffalo/testcontainers/playwright/junit/PlaywrightExtension.kt:35-39 | the Playwright API, browser contexts and pages are supported; the container API and any other type are not |
| PlaywrightExtension.ResolveParameter | src/main/kotlin/io/orangebuffalo/testcontainers/playwright/junit/PlaywrightExtension.kt:41-62 | as in the other extension, including a container setup or start, a context creation or a `newPage()` that throws; a configurer's provider leaves the container registry untouched |
| PlaywrightUtils.Contribution | src/main/kotlin/io/orangebuffalo/testcontainers/playwright/PlaywrightUtils.kt:21-27 | a manifest contributes a version exactly when its title is `Playwright - Main Library` and it has a version |
| PlaywrightUtils.Scanned | src/main/kotlin/io/orangebuffalo/testcontainers/playwright/PlaywrightUtils.kt:11-33 | the scan reads manifests up to the first failure and none after it |
| PlaywrightUtils.Decide | src/main/kotlin/io/orangebuffalo/testcontainers/playwright/PlaywrightUtils.kt:35-48 | the version is returned exactly when one distinct version was collected, and it is that version |
| PlaywrightUtils.GetPlaywrightVersionOnClasspath | src/main/kotlin/io/orangebuffalo/testcontainers/playwright/PlaywrightUtils.kt:9-49 | a returned version is the only distinct version collected; null means none or at least two distinct versions were collected |
| PlaywrightUtils.RepeatedVersionIsOneVersion | src/main/kotlin/io/orangebuffalo/testcontainers/playwright/PlaywrightUtils.kt:10-27 | any number of manifests repeating a version collect one version |
| PlaywrightUtils.FailureEndsScan | src/main/kotlin/io/orangebuffalo/testcontainers/playwright/PlaywrightUtils.kt:11-33 | an exception ends the scan and keeps the versions collected before it |
| PlaywrightUtils.TwoVersionsAreAmbiguous | src/main/kotlin/io/orangebuffalo/testcontainers/playwright/PlaywrightUtils.kt:40-43 | two main-library manifests with different versions give at least two distinct versions, hence null |
| PlaywrightUtils.SafeClose | src/main/kotlin/io/orangebuffalo/testcontainers/playwright/PlaywrightUtils.kt:51-65 | `safeClose` propagates only a JVM `Error`, never an `Exception` |
| LaunchProtocol.EnginePort | src/main/kotlin/io/orangebuffalo/testcontainers/playwright/PlaywrightContainer.kt:21-24 | each engine's browser port is 4444 to 4446, never the API port 3000 |
| LaunchProtocol.EnginePortsDistinct | src/main/kotlin/io/orangebuffalo/testcontainers/playwright/PlaywrightContainer.kt:39-47 | the three accesses use three distinct ports |
| LaunchProtocol.DecodeLaunchResponse | src/main/kotlin/io/orangebuffalo/testcontainers/playwright/PlaywrightContainer.kt:198-199 | a decoded `wsPath` has no quote, backslash or control character, so it needs no JSON escaping, and re-encodes to the body it came from |
| LaunchProtocol.DecodeEncode | src/main/resources/app.js:62 | the client decodes the sidecar's `{"wsPath":…}` body back to the path |
| LaunchProtocol.ParseFormatEndpoint | src/main/kotlin/io/orangebuffalo/testcontainers/playwright/PlaywrightContainer.kt:201 | `ws://host:port/path` determines the host, the mapped port and the path, when the host has no colon |
| PlaywrightContainer.CompatibleTagIsMajorMinor | src/main/kotlin/io/orangebuffalo/testcontainers/playwright/PlaywrightContainer.kt:30-36 | the tag is a prefix of the version with one dot when the version has one, and none otherwise, and is cut just before a dot or at the end |
| PlaywrightContainer.CompatibleTag | src/main/kotlin/io/orangebuffalo/testcontainers/playwright/PlaywrightContainer.kt:30-36 | a version without a dot is its own tag |
| PlaywrightContainer.CustomImageIgnoredAsWritten | src/main/kotlin/io/orangebuffalo/testcontainers/playwright/PlaywrightContainer.kt:26-27 | as written, a custom image is never handed to the container, which keeps the default image |
| PlaywrightContainer.ConfiguredImage | src/main/kotlin/io/orangebuffalo/testcontainers/playwright/PlaywrightContainer.kt:61-64 | with a custom image, that image; without one, the repository's image tagged with the compatible tag |
| PlaywrightContainer.ConfiguredImageAsWritten | src/main/kotlin/io/orangebuffalo/testcontainers/playwright/PlaywrightContainer.kt:61-64 | as written, a custom image leaves the constructor's image in place, and without one the image is the corrected `ConfiguredImage` |
| PlaywrightContainer.ConfiguredImageAgreesWithoutCustomImage | src/main/kotlin/io/orangebuffalo/testcontainers/playwright/PlaywrightContainer.kt:61-64 | the corrected image and the code as written agree whenever no custom image is given |
| PlaywrightContainer.LaunchEndpoint | src/main/kotlin/io/orangebuffalo/testcontainers/playwright/PlaywrightContainer.kt:174-205 | success exactly on status 200 with a decodable body; any other status fails with that status and body; the endpoint parses back to the host, the mapped port and the path |
| PlaywrightContainer.SidecarAnswerGivesEndpoint | src/main/kotlin/io/orangebuffalo/testcontainers/playwright/PlaywrightContainer.kt:195-201 | the sidecar's 200 answer becomes the endpoint `ws://host:port/path` |
| PlaywrightContainer.BrowserAccess.SafeGetBrowser | src/main/kotlin/io/orangebuffalo/testcontainers/playwright/PlaywrightContainer.kt:155-171 | with an endpoint cached, connect and send nothing; otherwise send one launch request and cache the endpoint only if it succeeded, so a failure leads to a new request on the next call |
| PlaywrightContainer.PlaywrightContainer.constructor | src/main/kotlin/io/orangebuffalo/testcontainers/playwright/PlaywrightContainer.kt:26-47 | the container starts on the default image, with one access per engine and no instances |
| PlaywrightContainer.PlaywrightContainer.AccessFor | src/main/kotlin/io/orangebuffalo/testcontainers/playwright/PlaywrightContainer.kt:39-47 | each engine's access is the one of that engine |
| PlaywrightContainer.PlaywrightContainer.Configure | src/main/kotlin/io/orangebuffalo/testcontainers/playwright/PlaywrightContainer.kt:49-68 | throws exactly when there is neither a classpath version nor a custom image, changing nothing. Otherwise it copies app.js, sets the repository image with the compatible tag only when there is no custom image (keeping the current image when there is one), replaces the exposed ports by 3000 and 4444 to 4446 (so a repeated call still exposes four), and waits for the ready line |
| PlaywrightContainer.PlaywrightContainer.RegisterNewPlaywright | src/main/kotlin/io/orangebuffalo/testcontainers/playwright/PlaywrightContainer.kt:91-95 | a new Playwright instance is appended to the list and wrapped in a fresh API with no browsers; the image, copied files, ports and wait strategy are unchanged |
| PlaywrightContainer.PlaywrightContainer.Close | src/main/kotlin/io/orangebuffalo/testcontainers/playwright/PlaywrightContainer.kt:97-106 | every instance is closed in order, swallowing only `PlaywrightException`, and then the container stops. Any other throwable ends the loop and propagates, and the container is not stopped. The configuration is unchanged |
| PlaywrightContainer.ContainerApiImpl.GetBrowser | src/main/kotlin/io/orangebuffalo/testcontainers/playwright/PlaywrightContainer.kt:115-140 | a cached browser is returned with no call. Otherwise the engine's access runs `safeGetBrowser`: with an endpoint cached it connects to it and sends nothing; without one it sends one launch request, caches the endpoint only if the launch succeeded, and connects to it. The browser is cached only on success, and other engines' fields are unchanged |
| PlaywrightApiManager.ApiImpl.GetBrowser | src/main/kotlin/io/orangebuffalo/testcontainers/playwright/PlaywrightApiManager.kt:43-62 | each engine connects on its first successful call only, to the container's endpoint for that same engine, and the cached browser is returned afterwards |
| PlaywrightApiManager.ApiImpl.Close | src/main/kotlin/io/orangebuffalo/testcontainers/playwright/PlaywrightApiManager.kt:66-71 | `safeClose` on each set browser field, Chromium, Firefox, Webkit, then on Playwright; only a JVM `Error` propagates, and it ends the calls |
| PlaywrightApiManager.CloseClosesConnectedThenPlaywright | src/main/kotlin/io/orangebuffalo/testcontainers/playwright/PlaywrightApiManager.kt:66-71 | when nothing escapes, every browser closed was connected and every connected browser is closed, and Playwright is closed last |
| PlaywrightApiManager.ApiManager.GetPlaywrightApi | src/main/kotlin/io/orangebuffalo/testcontainers/playwright/PlaywrightApiManager.kt:21-27 | the same thread gets the same API; a thread without one gets a fresh API, with a shutdown hook, and nothing else changes |
| PlaywrightApiManager.ApiManager.Close | src/main/kotlin/io/orangebuffalo/testcontainers/playwright/PlaywrightApiManager.kt:17-19 | `close` on every API in the map's iteration order; a propagated `Error` ends the loop |
| PlaywrightApiManager.DistinctThreadsGetDistinctApis | src/main/kotlin/io/orangebuffalo/testcontainers/playwright/PlaywrightApiManager.kt:21-27 | two threads never share an API |
| Sidecar.CharactersAreAlphanumerics | src/main/resources/app.js:10 | the alphabet is exactly the 62 ASCII letters and digits, each once |
| Sidecar.DrawnIndex | src/main/resources/app.js:13 | `Math.floor(Math.random() * 62)` is a position of the alphabet, in [0, 62) |
| Sidecar.CharFor | src/main/resources/app.js:13 | each drawn character is an ASCII letter or digit |
| Sidecar.CharForIsCharAt | src/main/resources/app.js:13 | the drawn character is `characters.charAt` of the drawn position |
| Sidecar.EveryCharacterCanBeDrawn | src/main/resources/app.js:13 | every character of the alphabet is drawn for some value of `Math.random()` |
| Sidecar.GenerateRandomString | src/main/resources/app.js:9-16 | the result is as long as requested (empty for a non-positive length), each character is the one drawn for its position, and each is an ASCII letter or digit |
| Sidecar.EngineOf | src/main/resources/app.js:27-38 | `CHROMIUM`, `FIREFOX` and `WEBKIT` select their engine; any other name fails with "Unknown browser: " and the name |
| Sidecar.EngineOfEngineName | src/main/resources/app.js:27-38 | the name the client sends for an engine selects that engine |
| Sidecar.Sidecar.LaunchBrowserServer | src/main/resources/app.js:18-44 | succeeds exactly for a known engine whose launch does not fail; returns the fresh 20-character path and appends exactly one server with that path and the request's port; a failure keeps nothing |
| Sidecar.Sidecar.HandleRequest | src/main/resources/app.js:46-74 | `/launch` answers 200 with `{"wsPath":…}` on success. The earlier servers are kept, and exactly one server is appended with the requested engine and port and the freshly drawn 20-character path, which needs no JSON escaping. A failure answers 500 with an empty body. Any other URL answers 404 with an empty body and launches nothing |

## Left out

- Superclass and interface annotation inheritance. AnnotationsUtils.kt has no hierarchy walk, so only direct and meta lookup are modelled.
- Level precedence for engine markers. The code combines all levels, so no per-level rule is modelled (see above).
- The Testcontainers/Docker lifecycle: `start`, port mapping, log consumers and the wait strategy.
  - `start`'s version check only logs a warning and never throws, so it is not modelled.
  - Whether the configurer's `setupContainer` or `start()` throws is a parameter of `getOrCreateContainerApi`. Which throwable it is, is not modelled.
  - Mapped ports and the host are parameters.
- Foreign calls:
  - the Java `HttpClient`, kotlinx JSON and Playwright's `connect`/`launchServer`;
  - Playwright's browser getters, `newContext`, `newPage()` and the configurer's context hooks, whose outcome is one parameter of context creation and a flag for the page;
  - JUnit's `ExtensionContext` store and `AnnotationSupport`;
  - the manifest class loader.
  Their outcomes are parameters, and the message text of exceptions is not modelled.
- PlaywrightContainer.PlaywrightContainer.RegisterNewPlaywright: `Playwright.create()` is taken never to throw, because the driver start-up it performs is outside the model.
- PlaywrightApiManager.ApiImpl.constructor: `Playwright.create(...)` is taken never to throw, for the same reason.
- Concurrency: `ReentrantLock`, `ConcurrentHashMap`, `CopyOnWriteArrayList` and shutdown hooks.
  - Everything is sequential, and the locked body of `safeGetBrowser` is one atomic method.
  - Shutdown hooks are recorded, not run.
- PlaywrightContainer.PlaywrightContainer.Configure: `copiedFiles` is a list that a repeated `configure` appends to. Testcontainers keeps a map keyed by the file to copy, and the equality of its file objects is not modelled.
- Configurer instantiation and `getConfig`. The configurer is given as an optional record of its qualified name and whether it supplies a provider. Its container hook's and context hooks' throws are outcome parameters, and its option objects are not modelled.
- `selectors()` of both API classes. It is a plain delegation to Playwright.
- PlaywrightExtension.kt's marker test is JUnit's `AnnotationSupport.isAnnotated`. It is a parameter, not the search of AnnotationsUtils.kt.
- LaunchProtocol.DecodeLaunchResponse: decodes only the compact one-key `{"wsPath":"…"}` body without escapes, which is the form the sidecar writes. Other JSON layouts that kotlinx would accept are rejected, because full JSON is not modelled.
- Sidecar.HandleRequest: takes the request already parsed. `JSON.parse` sits outside the `try`, so a malformed body gets no response at all, and that path is not modelled.
- Response headers of both the sidecar and the launch call.
- The Node HTTP server, the stream reading and `console` logging of app.js.
- src/main/docker/app.js is not part of this model. `configure` copies the classpath script over it.
- LocalPlaywrightApiProvider.kt and LocalPlaywrightContainerApiProvider.kt are not part of this model. They are thin thread-local wrappers over a local Playwright launch.
- The build scripts are not part of this model.
- Sidecar.CharFor: `Math.random()` is any real in [0, 1), not a floating-point number.

## Findings

| source | as written | input that shows it | evidently intended | confidence | as-written member | corrected member |
|---|---|---|---|---|---|---|
| src/main/kotlin/io/orangebuffalo/testcontainers/playwright/PlaywrightContainer.kt:26-27 | `customImage` is kept in a field but never passed to the `GenericContainer` constructor. `configure` sets the image only when there is no custom image, so the container runs `ghcr.io/orange-buffalo/testcontainers-playwright:1.31` | `PlaywrightContainer(customImage = example.org/playwright:custom)` | the custom image is the one the container runs | not executed | PlaywrightContainer.CustomImageIgnoredAsWritten | PlaywrightContainer.ConfiguredImage |

`PlaywrightContainer.PlaywrightContainer.Configure` models `configure` as written: with a custom image, it keeps the image it was constructed with. `PlaywrightContainer.ConfiguredImage` is the corrected image, and Configure's contract states that the two agree whenever no custom image is given.
