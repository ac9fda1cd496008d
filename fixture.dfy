/**
 * The class fixture of `EnvironmentCase` (tsqa/test_cases.py:15-104): class
 * set-up builds the config registry, lets the subclass hook edit the
 * environment, writes every config back and starts the proxy; each test run
 * is meant to fold its outcome into a class-wide success flag (as written it
 * does not, see `AsWrittenRuns`); class tear-down reports a proxy that died,
 * stops a live one and destroys it only if that flag is still set.
 *
 * The collaborators (`tsqa.environment.Environment`, `tsqa.configs.Config`)
 * are not part of this model. Here an `Environment` only keeps its state
 * flags and a `Config` only holds fixed fields. A shared `Journal` records the
 * `setUpEnv` hook, each config write, and each start, stop and destroy, so that
 * their order can be stated; the liveness check, a proxy exiting on its own
 * and the construction of a `Config` are not recorded.
 */
module Fixture {
  import opened Wrappers
  import opened ConfigRegistry
  import Urls

  /** What a collaborator was asked to do. */
  datatype Event =
    | HookCalled          // `setUpEnv(environment)`
    | Wrote(name: string) // `configs[name].write()`
    | Started             // `environment.start()`
    | Stopped             // `environment.stop()`
    | Destroyed           // `environment.destroy()`

  /** The sections of a loaded config: section name to key to value. */
  type Sections = map<string, map<string, string>>

  const ConfigSection: string := "CONFIG"
  const ServerPortsKey: string := "proxy.config.http.server_ports"

  /** The error `tearDownClass` raises. */
  datatype TearDownError = AtsDied

  /** The calls made on the collaborators, in order. */
  class Journal {
    var events: seq<Event>

    constructor ()
      ensures events == []
    {
      events := [];
    }

    method Record(e: Event)
      modifies this
      ensures events == old(events) + [e]
    {
      events := events + [e];
    }
  }

  /** One configuration file of the sysconfdir, loaded by the parser `kind`. */
  class Config {
    const name: string
    const path: string
    const kind: ParserKind
    const journal: Journal
    /** The content as loaded; editing it (`tsqa.configs` get/set) is not part of this model. */
    const sections: Sections

    constructor (name: string, path: string, kind: ParserKind, journal: Journal, loaded: Sections)
      ensures this.name == name && this.path == path && this.kind == kind
      ensures this.journal == journal && sections == loaded
    {
      this.name, this.path, this.kind, this.journal := name, path, kind, journal;
      sections := loaded;
    }

    /** Serialises the in-memory sections to `path`; here only the call is recorded. */
    method Write()
      modifies journal
      ensures journal.events == old(journal.events) + [Wrote(name)]
    {
      journal.Record(Wrote(name));
    }
  }

  /** One installed copy of the proxy. */
  class Environment {
    const sysconfdir: string
    const journal: Journal
    var running: bool
    var stopped: bool
    var destroyed: bool

    ghost predicate Valid()
      reads this
    {
      (running ==> !stopped && !destroyed)
    }

    /** A fresh copy, as the factory hands it out: built, not started. */
    constructor (sysconfdir: string, journal: Journal)
      ensures Valid() && this.sysconfdir == sysconfdir && this.journal == journal
      ensures !running && !stopped && !destroyed
    {
      this.sysconfdir, this.journal := sysconfdir, journal;
      running, stopped, destroyed := false, false, false;
    }

    method Start()
      requires Valid() && !running && !destroyed
      modifies this, journal
      ensures Valid() && running && !stopped && !destroyed
      ensures journal.events == old(journal.events) + [Started]
    {
      running, stopped := true, false;
      journal.Record(Started);
    }

    /** The liveness check; it changes nothing. */
    method Running() returns (alive: bool)
      ensures alive == running
    {
      alive := running;
    }

    method Stop()
      requires Valid()
      modifies this, journal
      ensures Valid() && !running && stopped && destroyed == old(destroyed)
      ensures journal.events == old(journal.events) + [Stopped]
    {
      running, stopped := false, true;
      journal.Record(Stopped);
    }

    /**
     * The proxy process exits on its own (it crashed or was killed): it is no
     * longer running, although nobody called `Stop`, and nothing is recorded.
     */
    method Exit()
      requires Valid()
      modifies this
      ensures Valid() && !running && stopped == old(stopped) && destroyed == old(destroyed)
    {
      running := false;
    }

    /** Removes the installation; never under a live proxy. */
    method Destroy()
      requires Valid() && !running
      modifies this, journal
      ensures Valid() && !running && destroyed && stopped == old(stopped)
      ensures journal.events == old(journal.events) + [Destroyed]
    {
      destroyed := true;
      journal.Record(Destroyed);
    }
  }

  /** The journal entries of writing the configs named by `order`, in that order. */
  function WriteEvents(order: seq<string>): seq<Event>
  {
    if order == [] then [] else WriteEvents(order[..|order| - 1]) + [Wrote(order[|order| - 1])]
  }

  /** The write-back's journal entries are one write per name, in the order of the names. */
  lemma {:induction false} WriteEventsInOrder(order: seq<string>)
    ensures |WriteEvents(order)| == |order|
    ensures forall i :: 0 <= i < |order| ==> WriteEvents(order)[i] == Wrote(order[i])
  {
    if order != [] {
      WriteEventsInOrder(order[..|order| - 1]);
    }
  }

  predicate Distinct(s: seq<string>)
  {
    forall i, j :: 0 <= i < j < |s| ==> s[i] != s[j]
  }

  /** Appending a name not yet written keeps the order repetition-free and adds its one write. */
  lemma ExtendWriteOrder(before: seq<Event>, order: seq<string>, name: string)
    requires Distinct(order) && name !in order
    ensures Distinct(order + [name])
    ensures forall x :: x in order + [name] <==> x in order || x == name
    ensures before + WriteEvents(order + [name]) == (before + WriteEvents(order)) + [Wrote(name)]
  {
    assert (order + [name])[..|order|] == order;
  }

  /** Writing the configs in a repetition-free order writes each of them exactly once. */
  lemma {:induction false} EachConfigWrittenOnce(order: seq<string>, name: string)
    requires Distinct(order)
    ensures multiset(WriteEvents(order))[Wrote(name)] == if name in order then 1 else 0
  {
    if order != [] {
      var init, last := order[..|order| - 1], order[|order| - 1];
      assert order == init + [last];
      EachConfigWrittenOnce(init, name);
      assert name in order <==> name in init || name == last;
      assert name == last ==> name !in init;
    }
  }

  /**
   * The class-wide success flag as it is meant to be after runs with the
   * given outcomes: each run ANDs its outcome in (tsqa/test_cases.py:26),
   * starting from `true` (line 63). An outcome is the shared result's
   * `wasSuccessful()` after the run, not that run's own verdict.
   */
  function AllPassed(outcomes: seq<bool>): bool
  {
    if outcomes == [] then true else AllPassed(outcomes[..|outcomes| - 1]) && outcomes[|outcomes| - 1]
  }

  lemma {:induction false} AllPassedMeansEveryRun(outcomes: seq<bool>)
    ensures AllPassed(outcomes) <==> forall i :: 0 <= i < |outcomes| ==> outcomes[i]
  {
    if outcomes != [] {
      AllPassedMeansEveryRun(outcomes[..|outcomes| - 1]);
    }
  }

  /** Once a run has failed the flag stays false, whatever runs follow. */
  lemma FailureIsSticky(earlier: seq<bool>, later: seq<bool>)
    requires !AllPassed(earlier)
    ensures !AllPassed(earlier + later)
  {
    AllPassedMeansEveryRun(earlier);
    AllPassedMeansEveryRun(earlier + later);
    var i :| 0 <= i < |earlier| && !earlier[i];
    assert (earlier + later)[i] == earlier[i];
  }

  /**
   * How Python 2 executes the in-place AND on the name-mangled success
   * attribute at tsqa/test_cases.py:26: each test runs on its own instance,
   * the read finds the class attribute, and the write binds an attribute of
   * that instance. The state is the class attribute and the instance
   * attributes the runs left behind.
   */
  datatype PyFlags = PyFlags(classFlag: bool, instanceFlags: seq<bool>)

  /** One run leaves the class attribute alone and adds the instance attribute `classFlag && ok`. */
  function AsWrittenRun(flags: PyFlags, ok: bool): (r: PyFlags)
    ensures r.classFlag == flags.classFlag
    ensures |r.instanceFlags| == |flags.instanceFlags| + 1
    ensures r.instanceFlags[..|flags.instanceFlags|] == flags.instanceFlags
    ensures r.instanceFlags[|flags.instanceFlags|] == (flags.classFlag && ok)
  {
    PyFlags(flags.classFlag, flags.instanceFlags + [flags.classFlag && ok])
  }

  /** Runs in order: each leaves one instance attribute and the earlier ones stay as they were. */
  function AsWrittenRuns(flags: PyFlags, outcomes: seq<bool>): (r: PyFlags)
    ensures |r.instanceFlags| == |flags.instanceFlags| + |outcomes|
    ensures r.instanceFlags[..|flags.instanceFlags|] == flags.instanceFlags
    decreases |outcomes|
  {
    if outcomes == [] then flags else AsWrittenRuns(AsWrittenRun(flags, outcomes[0]), outcomes[1..])
  }

  /** As written, no run ever changes the class attribute that `tearDownClass` reads. */
  lemma {:induction false} AsWrittenClassFlagNeverCleared(flags: PyFlags, outcomes: seq<bool>)
    ensures AsWrittenRuns(flags, outcomes).classFlag == flags.classFlag
    decreases |outcomes|
  {
    if outcomes != [] {
      AsWrittenClassFlagNeverCleared(AsWrittenRun(flags, outcomes[0]), outcomes[1..]);
    }
  }

  /**
   * The discrepancy: after one failed test the class attribute still reads
   * true, so `tearDownClass` destroys the environment of a failed run.
   */
  lemma AsWrittenKeepsFailedRunSuccessful()
    ensures AsWrittenRuns(PyFlags(true, []), [false]).classFlag
    ensures !AllPassed([false])
  {
    AsWrittenClassFlagNeverCleared(PyFlags(true, []), [false]);
  }

  /**
   * What `tearDownClass` asks of the environment, given whether the proxy is
   * still running and the success flag it reads: nothing for a dead proxy
   * (it raises instead), otherwise a stop, then a destroy if the flag is set.
   */
  function TearDownEvents(running: bool, successful: bool): (events: seq<Event>)
    ensures !running ==> events == []
    ensures running ==> 1 <= |events| <= 2 && events[0] == Stopped
    ensures Destroyed in events <==> running && successful
  {
    if !running then [] else [Stopped] + (if successful then [Destroyed] else [])
  }

  /**
   * The consequence of the discrepancy: after one failed run, teardown as
   * written stops and destroys the live proxy, whereas with the class-wide
   * flag it only stops it.
   */
  lemma AsWrittenDestroysAfterFailedRun()
    ensures TearDownEvents(true, AsWrittenRuns(PyFlags(true, []), [false]).classFlag) == [Stopped, Destroyed]
    ensures TearDownEvents(true, AllPassed([false])) == [Stopped]
  {
    AsWrittenClassFlagNeverCleared(PyFlags(true, []), [false]);
  }

  /** The class-level state of `EnvironmentCase`, with the intended class-wide success flag. */
  class EnvironmentCase {
    const journal: Journal
    var environment: Environment?
    var configs: map<string, Config>
    var successful: bool
    /** The outcomes of the runs since set-up. */
    ghost var outcomes: seq<bool>
    /** The order in which set-up wrote the configs. */
    ghost var writeOrder: seq<string>

    ghost predicate Valid()
      reads this, environment
    {
      && environment != null
      && environment.journal == journal
      && environment.Valid()
      && (forall n :: n in configs ==> configs[n].name == n && configs[n].journal == journal)
      && successful == AllPassed(outcomes)
    }

    /** The class before `setUpClass`. */
    constructor (journal: Journal)
      ensures this.journal == journal && environment == null && configs == map[]
    {
      this.journal := journal;
      environment, configs := null, map[];
      successful, outcomes, writeOrder := false, [], [];
    }

    /** The default `setUpEnv` hook does nothing; the call itself is recorded. */
    method SetUpEnv(env: Environment)
      modifies journal
      ensures journal.events == old(journal.events) + [HookCalled]
    {
      journal.Record(HookCalled);
    }

    /**
     * The registry loop of `setUpClass`: one config object per regular file
     * of the listing, read from its path in `sysconfdir` by the parser its
     * name selects.
     */
    method LoadConfigs(sysconfdir: string, listing: seq<Entry>, loaded: map<string, Sections>)
      returns (registry: map<string, Config>)
      ensures registry.Keys == Registry(listing).Keys
      ensures forall n :: n in registry ==> fresh(registry[n]) && LoadedAs(registry[n], n, sysconfdir, loaded)
    {
      registry := map[];
      var i := 0;
      while i < |listing|
        invariant 0 <= i <= |listing|
        invariant registry.Keys == Registry(listing[..i]).Keys
        invariant forall n :: n in registry ==> fresh(registry[n]) && LoadedAs(registry[n], n, sysconfdir, loaded)
      {
        var e := listing[i];
        RegistryStep(listing, i);
        if e.isFile {
          var c := new Config(e.name, PathJoin(sysconfdir, e.name), KindFor(e.name), journal,
                              if e.name in loaded then loaded[e.name] else map[]);
          assert LoadedAs(c, e.name, sysconfdir, loaded);
          registry := registry[e.name := c];
        }
        i := i + 1;
      }
      assert listing[..i] == listing;
    }

    /**
     * `c` is the config set-up loads for the listed file `name`: read from
     * the file's path in `sysconfdir` by the parser the name selects, with
     * the content that parser loads.
     */
    ghost predicate LoadedAs(c: Config, name: string, sysconfdir: string, loaded: map<string, Sections>)
    {
      && c.name == name && c.journal == journal
      && c.kind == KindFor(name)
      && c.path == PathJoin(sysconfdir, name)
      && c.sections == (if name in loaded then loaded[name] else map[])
    }

    /**
     * The write-back loop of `setUpClass`: every config of the registry is
     * written exactly once, in the dictionary's (unspecified) order.
     */
    method WriteConfigs()
      requires forall n :: n in configs ==> configs[n].name == n && configs[n].journal == journal
      modifies this`writeOrder, journal
      ensures Distinct(writeOrder) && (forall n :: n in writeOrder <==> n in configs)
      ensures journal.events == old(journal.events) + WriteEvents(writeOrder)
    {
      var registry, log := configs, journal;
      ghost var before := log.events;
      var remaining := registry.Keys;
      var order: seq<string> := [];
      while remaining != {}
        invariant forall x :: x in registry ==> registry[x].name == x && registry[x].journal == log
        invariant remaining <= registry.Keys
        invariant Distinct(order)
        invariant forall n :: n in order <==> n in registry && n !in remaining
        invariant log.events == before + WriteEvents(order)
        decreases remaining
      {
        var n :| n in remaining;
        var c := registry[n];
        ExtendWriteOrder(before, order, n);
        c.Write();
        order := order + [n];
        remaining := remaining - {n};
      }
      writeOrder := order;
    }

    /**
     * `setUpClass` on the environment `env` that `getEnv` returned, whose
     * sysconfdir lists `listing`; `loaded` is what each file's parser reads
     * (a name it lacks loads as empty). The hook runs before any config is
     * written, and every config is written before the proxy starts.
     */
    method SetUpClass(env: Environment, listing: seq<Entry>, loaded: map<string, Sections>)
      requires env.journal == journal && env.Valid() && !env.running && !env.destroyed
      modifies this, env, journal
      ensures Valid() && environment == env
      ensures configs.Keys == Registry(listing).Keys
      ensures forall n :: n in configs ==> fresh(configs[n]) && LoadedAs(configs[n], n, env.sysconfdir, loaded)
      ensures Distinct(writeOrder) && (forall n :: n in writeOrder <==> n in configs)
      ensures journal.events == old(journal.events) + [HookCalled] + WriteEvents(writeOrder) + [Started]
      ensures env.running && successful && outcomes == []
    {
      var registry := LoadConfigs(env.sysconfdir, listing, loaded);
      environment, configs := env, registry;
      SetUpEnv(env);
      WriteConfigs();
      env.Start();
      successful, outcomes := true, [];
      assert configs == registry;
    }

    /**
     * One test run whose shared result reports `ok`, folded into the
     * class-wide flag that `TearDownClass` reads. This is the aggregation the comments at lines 62
     * and 93 describe; the code as written updates an instance attribute
     * instead (see `AsWrittenRuns`).
     */
    method Run(ok: bool)
      requires Valid()
      modifies this`successful, this`outcomes
      ensures Valid()
      ensures successful == (old(successful) && ok)
      ensures outcomes == old(outcomes) + [ok]
    {
      successful := successful && ok;
      outcomes := outcomes + [ok];
      assert outcomes[..|outcomes| - 1] == old(outcomes);
    }

    /**
     * `tearDownClass`: a proxy that is no longer running is reported and left
     * untouched; a live one is stopped, and then destroyed only if every
     * outcome since set-up was true.
     */
    method TearDownClass() returns (r: Result<(), TearDownError>)
      requires Valid()
      modifies environment, journal
      ensures Valid()
      ensures !old(environment.running) ==>
        && r == Failure(AtsDied)
        && journal.events == old(journal.events)
        && unchanged(environment)
      ensures old(environment.running) ==>
        && r == Success(())
        && journal.events == old(journal.events) + [Stopped] + (if successful then [Destroyed] else [])
        && !environment.running && environment.stopped
        && (environment.destroyed <==> AllPassed(outcomes))
      ensures journal.events == old(journal.events) + TearDownEvents(old(environment.running), successful)
    {
      var env := environment;
      var alive := env.Running();
      if !alive {
        return Failure(AtsDied);
      }
      env.Stop();
      if successful {
        env.Destroy();
      }
      return Success(());
    }

    /**
     * The `proxies` property: the one-entry map from `http` to the proxy URL
     * on the port the records config gives; a missing file, section or key
     * raises `KeyError` with that name.
     */
    function Proxies(): (r: Result<map<string, string>, string>)
      reads this
      ensures r.Success? <==>
        && RecordsConfigName in configs
        && ConfigSection in configs[RecordsConfigName].sections
        && ServerPortsKey in configs[RecordsConfigName].sections[ConfigSection]
      ensures r.Success? ==>
        && r.value.Keys == {"http"}
        && r.value["http"] == Urls.ProxyUrl(configs[RecordsConfigName].sections[ConfigSection][ServerPortsKey])
      ensures RecordsConfigName !in configs ==> r == Failure(RecordsConfigName)
      ensures RecordsConfigName in configs && ConfigSection !in configs[RecordsConfigName].sections ==>
        r == Failure(ConfigSection)
      ensures (&& RecordsConfigName in configs
               && ConfigSection in configs[RecordsConfigName].sections
               && ServerPortsKey !in configs[RecordsConfigName].sections[ConfigSection]) ==>
        r == Failure(ServerPortsKey)
    {
      if RecordsConfigName !in configs then Failure(RecordsConfigName)
      else
        var sections := configs[RecordsConfigName].sections;
        if ConfigSection !in sections then Failure(ConfigSection)
        else if ServerPortsKey !in sections[ConfigSection] then Failure(ServerPortsKey)
        else Success(map["http" := Urls.ProxyUrl(sections[ConfigSection][ServerPortsKey])])
    }
  }

  /**
   * The crash check of `tearDownClass`: when the proxy exits on its own after
   * set-up, teardown raises `AtsDied` and neither stops nor destroys it; the
   * journal ends with set-up's start.
   */
  method ProxyDiesDuringRun(fixture: EnvironmentCase, env: Environment, listing: seq<Entry>,
                            loaded: map<string, Sections>, outcomes: seq<bool>)
    returns (r: Result<(), TearDownError>)
    requires env.journal == fixture.journal && env.Valid() && !env.running && !env.destroyed
    modifies fixture, env, fixture.journal
    ensures r == Failure(AtsDied)
    ensures fixture.journal.events
      == old(fixture.journal.events) + [HookCalled] + WriteEvents(fixture.writeOrder) + [Started]
    ensures !env.running && !env.stopped && !env.destroyed
  {
    fixture.SetUpClass(env, listing, loaded);
    var i := 0;
    while i < |outcomes|
      invariant 0 <= i <= |outcomes|
      invariant fixture.Valid() && fixture.environment == env && env.running
      invariant !env.stopped && !env.destroyed
      invariant fixture.journal.events
        == old(fixture.journal.events) + [HookCalled] + WriteEvents(fixture.writeOrder) + [Started]
    {
      fixture.Run(outcomes[i]);
      i := i + 1;
    }
    env.Exit();
    r := fixture.TearDownClass();
  }
}
