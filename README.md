# tsqa test-case fixtures, modelled in Dafny

This project models the core of `tsqa/test_cases.py`. That file holds the unittest base classes that drive an Apache Traffic Server (ATS) proxy under test. It has three parts with rules that can be stated:

- **Config registry** (`ConfigRegistry`, `registry.dfy`). `EnvironmentCase.setUpClass` walks the sysconfdir listing and skips every entry that is not a regular file. It keys each remaining file by its name and gives it a parser: `records.config` gets the records parser, every other file the generic one. The path of each file comes from `os.path.join`, which is modelled together with `os.path.basename` as its partner.
- **Class-fixture lifecycle** (`Fixture`, `fixture.dfy`). `setUpClass` loads the configs, calls the `setUpEnv` hook, writes every config back and starts the proxy. Each test `run` is meant to AND the shared test result's `wasSuccessful()` into a class-wide success flag. As written it does not, which is the finding below; the model follows the intent. `tearDownClass` reports a proxy that died. Otherwise it stops the proxy, and destroys the environment only when that flag is still set, that is when every outcome since set-up was true. The collaborators `Environment` (from `tsqa.environment`) and `Config` (from `tsqa.configs`) are small classes. `Environment` keeps `running`, `stopped` and `destroyed` flags. A `Config` holds its name, path, parser and sections, all fixed. A shared `Journal` records the `setUpEnv` hook, each config write, and each start, stop and destroy, so the order of these steps can be stated. The liveness check, a proxy exiting on its own, and the construction of a `Config` are not recorded.
- **URL builders** (`Urls`, `urls.dfy`). `endpoint_url` normalises the path and prefixes `http://127.0.0.1:<port>`. `proxies` builds the proxy URL from the records value of `proxy.config.http.server_ports`. Python's `str(port)` is modelled by `DecimalString`, with `DecimalValue` as its inverse.

`Wrappers` (`wrappers.dfy`) holds the `Option` and `Result` types used for the error paths.

Inputs from outside the modelled code become parameters:
- the directory listing, paired with the result of `os.path.isfile` for each name, is a `seq<Entry>`;
- the content each file's parser loads is a map from name to sections;
- the outcome of each test run is a `bool`.

## Model

| member | source | states |
|---|---|---|
| ConfigRegistry.Registry | tsqa/test_cases.py:48-51 | an empty listing gives an empty registry. When the last entry of the listing is a regular file, that file is keyed by its name with the parser `KindFor` selects. The full contents are stated by `RegistryContents` |
| ConfigRegistry.PathJoin | tsqa/test_cases.py:49 | `os.path.join(sysconfdir, name)`: the result ends with `name`, and unless `name` is absolute it starts with the directory |
| ConfigRegistry.KindFor | tsqa/test_cases.py:45 | the records parser is chosen exactly for `records.config`, the generic parser for every other name |
| ConfigRegistry.RegistryContents | tsqa/test_cases.py:45-51 | the registry's keys are exactly the names of the listing whose entry is a regular file, so directory entries never appear; each key's parser is the one its name selects |
| ConfigRegistry.RegistryStep | tsqa/test_cases.py:48-51 | one more listing entry adds its name with the parser its name selects if it is a regular file, and leaves the registry unchanged otherwise |
| ConfigRegistry.RegistryOrderIndependent | tsqa/test_cases.py:48-51 | two listings with the same entries in any order give the same registry |
| ConfigRegistry.JoinThenBasename | tsqa/test_cases.py:49 | the path joined for a listed name (one without `/`) is the directory followed by the name, with at most one `/` between them, and its basename is the name |
| Urls.DecimalString | tsqa/test_cases.py:134 | `str(port)` is a non-empty run of decimal digits with no leading zero |
| Urls.DecimalRoundTrip | tsqa/test_cases.py:134 | reading the decimal string of a port back gives the port |
| Urls.NormalizePath | tsqa/test_cases.py:132-133 | an empty path stays empty, a path starting with `/` is kept, any other path gets exactly one `/` prepended; the result is empty or starts with `/` |
| Urls.NormalizeIdempotent | tsqa/test_cases.py:132-133 | normalising an already normalised path changes nothing |
| Urls.EndpointUrl | tsqa/test_cases.py:128-135 | the endpoint URL starts with `http://127.0.0.1:` and is longer than it |
| Urls.EndpointUrlRoundTrip | tsqa/test_cases.py:132-135 | splitting the endpoint URL after the loopback prefix gives back the port and the normalised path, so the URL is `http://127.0.0.1:` + `str(port)` + path with nothing added or lost |
| Urls.ProxyUrl | tsqa/test_cases.py:104 | the proxy URL is `http://127.0.0.1:` followed by the server-ports value unchanged |
| Fixture.Config.Write | tsqa/test_cases.py:56-57 | writing a config records one write of that config and changes nothing else |
| Fixture.Environment.Start | tsqa/test_cases.py:60 | starting the environment makes it running and records one start |
| Fixture.Environment.Running | tsqa/test_cases.py:86 | the liveness check reports the running flag and changes nothing |
| Fixture.Environment.Stop | tsqa/test_cases.py:89 | stopping leaves the environment not running and stopped, and records one stop |
| Fixture.Environment.Exit | tsqa/test_cases.py:86-87 | the proxy process exiting on its own leaves it not running without a stop, and records nothing |
| Fixture.Environment.Destroy | tsqa/test_cases.py:95 | destroying is only allowed on an environment that is not running, and records one destroy |
| Fixture.WriteEventsInOrder | tsqa/test_cases.py:56-57 | the journal entries of the write-back are one write per name, in the order the names are written |
| Fixture.ExtendWriteOrder | tsqa/test_cases.py:56-57 | writing one more config not yet written keeps the write order free of repetitions and adds exactly its write to the journal |
| Fixture.EachConfigWrittenOnce | tsqa/test_cases.py:56-57 | writing in an order without repetitions writes each config exactly once and no other name |
| Fixture.AllPassedMeansEveryRun | tsqa/test_cases.py:26 | the flag folded from `true` by ANDing each outcome is true exactly when every outcome was true |
| Fixture.FailureIsSticky | tsqa/test_cases.py:26 | once a run has failed the flag stays false, whatever runs follow |
| Fixture.AsWrittenRun | tsqa/test_cases.py:26 | one run as written leaves the class attribute unchanged and appends exactly one instance attribute, `classFlag && ok`, keeping the earlier ones |
| Fixture.AsWrittenRuns | tsqa/test_cases.py:26 | a sequence of runs as written leaves one instance attribute per run, and the attributes that existed before stay as they were |
| Fixture.AsWrittenClassFlagNeverCleared | tsqa/test_cases.py:26 | as written, no run changes the class attribute `_EnvironmentCase__successful` |
| Fixture.TearDownEvents | tsqa/test_cases.py:84-95 | teardown asks nothing of a dead proxy; for a live one it asks a stop first, and a destroy exactly when the success flag is set |
| Fixture.AsWrittenDestroysAfterFailedRun | tsqa/test_cases.py:26-95 | after one run with a false outcome, teardown as written stops and destroys the live proxy, whereas with the class-wide flag it only stops it |
| Fixture.AsWrittenKeepsFailedRunSuccessful | tsqa/test_cases.py:26 | as written, after one failed run the class attribute that teardown reads at line 94 is still true, although not every outcome was true |
| Fixture.EnvironmentCase.SetUpEnv | tsqa/test_cases.py:76-82 | the default hook does nothing but is called once |
| Fixture.EnvironmentCase.LoadConfigs | tsqa/test_cases.py:45-51 | the loop creates one fresh config object per registry key. Each object has the parser its name selects, the path joined from the sysconfdir and the name, and the content loaded for that name |
| Fixture.EnvironmentCase.WriteConfigs | tsqa/test_cases.py:56-57 | the write-back loop writes every config exactly once, in some order without repetitions |
| Fixture.EnvironmentCase.SetUpClass | tsqa/test_cases.py:28-63 | set-up leaves configs keyed by the regular files of the listing. The journal shows the hook, then one write per config, then the start. Afterwards the environment is running and the success flag is true |
| Fixture.EnvironmentCase.Run | tsqa/test_cases.py:24-26 | a run ANDs its outcome into the class-wide flag, which stays equal to "every outcome since set-up was true" |
| Fixture.EnvironmentCase.TearDownClass | tsqa/test_cases.py:84-95 | if the proxy is not running, teardown fails with `AtsDied` and calls neither stop nor destroy. Otherwise it stops the proxy first, then destroys the environment if and only if every outcome since set-up was true; the journal gains exactly `TearDownEvents` of the running state and the flag |
| Fixture.ProxyDiesDuringRun | tsqa/test_cases.py:86-87 | after set-up and any runs, a proxy that exits on its own makes teardown fail with `AtsDied`; the journal ends with set-up's start, with no stop and no destroy |
| Fixture.EnvironmentCase.Proxies | tsqa/test_cases.py:98-104 | `proxies` succeeds exactly when `records.config` has `CONFIG` / `proxy.config.http.server_ports`. It then returns the one-key map `http` to the proxy URL on that value. Otherwise it fails with the first missing key: `records.config`, else `CONFIG`, else the server-ports key |

## Findings

| source | as written | input that shows it | evidently intended | confidence | as-written member | corrected member |
|---|---|---|---|---|---|---|
| tsqa/test_cases.py:26 | `self.__successful &= ...` reads the class attribute but binds a new attribute on the test instance, so the class attribute `tearDownClass` reads at line 94 stays `True` | one test run whose result is unsuccessful: teardown still destroys the environment | a failed run clears the class-wide flag, so the environment is kept for diagnosis (comments at lines 62 and 93) | high, not executed | Fixture.AsWrittenDestroysAfterFailedRun | Fixture.EnvironmentCase.Run |

## Left out

- Building, copying, starting, stopping and destroying the proxy, and the liveness check, are in `tsqa.environment`, which is not part of this model. `Environment` only sets its `running`, `stopped` and `destroyed` flags. It records its starts, stops and destroys in the journal, but not the liveness check. Processes, the build cache and timeouts are not modelled.
- Parsing and writing config files is in `tsqa.configs`, which is not part of this model. `Config.Write` only records the call, and no round-trip of file content is claimed. What a parser loads is a parameter of `SetUpClass`. Editing a config's content in memory is not modelled either, so a `Config`'s sections are constant. The records file's `CONFIG` lookup is modelled as nested map lookups on string values.
- `getEnv` (tsqa/test_cases.py:65-74) reads `TSQA_SRC_DIR` and `TSQA_TMP_DIR` and asks the environment factory for an environment. That environment is a parameter of `SetUpClass` here.
- `os.listdir` and `os.path.isfile` are not modelled. Their result is the `listing` parameter, so a missing sysconfdir (an `OSError`) is not modelled either.
- Logging (tsqa/test_cases.py:34,39,114) and the unused `cfg_dir` (tsqa/test_cases.py:41) are not modelled.
- The unittest machinery is not modelled. This covers the calls to the parent `setUpClass`/`tearDownClass`/`run` and the shape `result.result.wasSuccessful()`, which becomes one boolean outcome per run. The default `result=None` would make line 26 raise, and that case is not modelled.
- `DynamicHTTPEndpointCase.setUpClass` (tsqa/test_cases.py:111-126) starts a server thread and waits on its readiness event. That is concurrency and network I/O, so it is not modelled. `endpoint_url` takes the endpoint's port as a parameter.
- Fixture.Environment.Destroy: the model assumes that `tsqa.environment` must not destroy an environment whose proxy is still running, because destroying removes the installation from under the live process. It states this as a `requires`. The fixture never breaks the assumption: `TearDownClass` calls `Destroy` only after its own `Stop`, and the verifier checks that call against the `requires`.
- Fixture.EnvironmentCase.Run: the boolean per run stands for `result.result.wasSuccessful()` on the result object the whole test run shares. That status is cumulative: it is false once any failure or error has been recorded so far, including one from a test class that ran earlier. So the flag means "no failure recorded in the shared result as of this class's last run", not "every run of this class succeeded".
- Fixture.EnvironmentCase.SetUpEnv: a subclass may override the hook to edit configs or the environment. Only the default `pass` is modelled.
- Fixture.EnvironmentCase.Proxies: the records value is taken as the text that `format` inserts. The conversion `tsqa.configs` applies to typed records values is not modelled.
