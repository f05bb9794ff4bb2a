/**
  The run protocol (framework/runner.py). Collaborators are inputs: a monitor
  carries what its `fetch()` does this cycle, a notifier what its `test()` and
  `send()` do, and each configuration entry whether it could be constructed.
  A run records, in order, every call it makes into a collaborator or the
  store, with the collaborator's outcome.
*/
module Runner {
  import opened Wrappers
  import opened Models
  import opened Storage

  /** What a notifier call did: returned a boolean, or raised. */
  datatype CallOutcome = Returned(ok: bool) | Raised

  /** What `fetch()` did: raised, or returned a list. */
  datatype FetchOutcome = FetchRaised | Fetched(notices: seq<Notice>)

  /** A monitor: stable name (store key), display name, and its fetch this cycle. */
  datatype Monitor = Monitor(name: string, displayName: string, fetch: FetchOutcome)

  /** A notifier: its name, and its `test()` and `send()` outcomes this cycle. */
  datatype Notifier = Notifier(name: string, test: CallOutcome, send: CallOutcome)

  /** One call made during a run; `notifier` is the position in the notifier list. */
  datatype Event =
    | Fetch
    | Load
    | Test(notifier: nat, displayName: string, outcome: CallOutcome)
    | Send(notifier: nat, displayName: string, notices: seq<Notice>, outcome: CallOutcome)
    | Save(notices: seq<Notice>)

  /** Which way a run of `_run_monitor` ended. */
  datatype RunOutcome =
    | FetchFailed
    | NothingFetched
    | Crashed(error: LoadError)
    | NoNotifiers
    | TestsFailed
    | Baselined
    | Updated(newCount: nat)

  datatype Run = Run(trace: seq<Event>, outcome: RunOutcome)

  /** A test passes only if it returned True without raising. */
  predicate Passed(o: CallOutcome)
  {
    o == Returned(true)
  }

  predicate AllPassed(ns: seq<Notifier>)
  {
    forall i :: 0 <= i < |ns| ==> Passed(ns[i].test)
  }

  /** One `test` call per notifier, in order. */
  function TestCalls(ns: seq<Notifier>, displayName: string): (calls: seq<Event>)
    ensures |calls| == |ns|
    ensures forall i :: 0 <= i < |ns| ==> calls[i] == Test(i, displayName, ns[i].test)
  {
    if ns == [] then []
    else TestCalls(ns[..|ns| - 1], displayName) + [Test(|ns| - 1, displayName, ns[|ns| - 1].test)]
  }

  /** One `send` call per notifier, in order, each with the same batch. */
  function SendCalls(ns: seq<Notifier>, displayName: string, batch: seq<Notice>): (calls: seq<Event>)
    ensures |calls| == |ns|
    ensures forall i :: 0 <= i < |ns| ==> calls[i] == Send(i, displayName, batch, ns[i].send)
  {
    if ns == [] then []
    else SendCalls(ns[..|ns| - 1], displayName, batch) + [Send(|ns| - 1, displayName, batch, ns[|ns| - 1].send)]
  }

  /**
    The protocol of `_run_monitor` for a monitor whose store `load()` gives
    `baseline`: fetch, empty check, load, then the first-run branch or the
    steady-state branch.
  */
  function Protocol(m: Monitor, ns: seq<Notifier>, baseline: Result<seq<Notice>, LoadError>): Run
  {
    match m.fetch
    case FetchRaised => Run([Fetch], FetchFailed)
    case Fetched(current) =>
      if current == [] then Run([Fetch], NothingFetched)
      else match baseline
        case Failure(e) => Run([Fetch, Load], Crashed(e))
        case Success(saved) =>
          if saved == [] then
            if ns == [] then Run([Fetch, Load], NoNotifiers)
            else if AllPassed(ns) then Run([Fetch, Load] + TestCalls(ns, m.displayName) + [Save(current)], Baselined)
            else Run([Fetch, Load] + TestCalls(ns, m.displayName), TestsFailed)
          else
            var news := FindNew(current, saved);
            var sends := if news == [] then [] else SendCalls(ns, m.displayName, news);
            Run([Fetch, Load] + sends + [Save(current)], Updated(|news|))
  }

  /** The directory contents after the `Save` events of `trace` on `path`. */
  function Persisted(files: map<string, seq<Record>>, path: string, trace: seq<Event>): map<string, seq<Record>>
  {
    if trace == [] then files
    else
      var before := Persisted(files, path, trace[..|trace| - 1]);
      match trace[|trace| - 1]
      case Save(notices) => before[path := EncodeAll(notices)]
      case _ => before
  }

  /** A trace without `Save` leaves the directory as it was. */
  lemma {:induction false} PersistedWithoutSave(files: map<string, seq<Record>>, path: string, trace: seq<Event>)
    requires forall i :: 0 <= i < |trace| ==> !trace[i].Save?
    ensures Persisted(files, path, trace) == files
  {
    if trace != [] {
      PersistedWithoutSave(files, path, trace[..|trace| - 1]);
    }
  }

  /** A trace whose only `Save` is its last event stores exactly that list. */
  lemma PersistedThenSave(files: map<string, seq<Record>>, path: string, prefix: seq<Event>, notices: seq<Notice>)
    requires Persisted(files, path, prefix) == files
    ensures Persisted(files, path, prefix + [Save(notices)]) == files[path := EncodeAll(notices)]
  {
    assert (prefix + [Save(notices)])[..|prefix|] == prefix;
  }

  /** A run for one monitor never touches another path. */
  lemma {:induction false} PersistedElsewhere(files: map<string, seq<Record>>, path: string, trace: seq<Event>, other: string)
    requires other != path
    ensures other in Persisted(files, path, trace) <==> other in files
    ensures other in files ==> Persisted(files, path, trace)[other] == files[other]
  {
    if trace != [] {
      PersistedElsewhere(files, path, trace[..|trace| - 1], other);
    }
  }

  /**
    The first-run loop of `_run_monitor`: tests every notifier in order, and
    keeps going after a test that returns False or raises.
  */
  method TestAll(notifiers: seq<Notifier>, displayName: string) returns (calls: seq<Event>, allOk: bool)
    ensures calls == TestCalls(notifiers, displayName)
    ensures allOk == AllPassed(notifiers)
  {
    calls, allOk := [], true;
    var i := 0;
    while i < |notifiers|
      invariant 0 <= i <= |notifiers|
      invariant calls == TestCalls(notifiers[..i], displayName)
      invariant allOk == AllPassed(notifiers[..i])
    {
      calls := calls + [Test(i, displayName, notifiers[i].test)];
      match notifiers[i].test {
        case Returned(ok) =>
          if !ok {
            allOk := false;
          }
        case Raised =>
          allOk := false;
      }
      assert notifiers[..i + 1][..i] == notifiers[..i];
      i := i + 1;
    }
    assert notifiers[..i] == notifiers;
  }

  /**
    The steady-state loop of `_run_monitor`: sends the batch to every notifier
    in order; a return value or an exception is recorded and stops nothing.
  */
  method SendAll(notifiers: seq<Notifier>, displayName: string, batch: seq<Notice>) returns (calls: seq<Event>)
    ensures calls == SendCalls(notifiers, displayName, batch)
  {
    calls := [];
    var i := 0;
    while i < |notifiers|
      invariant 0 <= i <= |notifiers|
      invariant calls == SendCalls(notifiers[..i], displayName, batch)
    {
      calls := calls + [Send(i, displayName, batch, notifiers[i].send)];
      assert notifiers[..i + 1][..i] == notifiers[..i];
      i := i + 1;
    }
    assert notifiers[..i] == notifiers;
  }

  /**
    `_run_monitor`: runs the protocol against the store of `monitor.name` in
    `dataDir`, and writes only that store, only through `save`.
  */
  method RunMonitor(monitor: Monitor, notifiers: seq<Notifier>, dataDir: DataDir) returns (run: Run)
    modifies dataDir
    ensures run == Protocol(monitor, notifiers, LoadFrom(old(dataDir.files), StoragePath(dataDir.root, monitor.name)))
    ensures dataDir.files == Persisted(old(dataDir.files), StoragePath(dataDir.root, monitor.name), run.trace)
  {
    var storage := new NoticeStorage(monitor.name, dataDir);
    if monitor.fetch.FetchRaised? {
      return Run([Fetch], FetchFailed);
    }
    var current := monitor.fetch.notices;
    if current == [] {
      return Run([Fetch], NothingFetched);
    }
    var loaded := storage.Load();
    PersistedWithoutSave(old(dataDir.files), storage.path, [Fetch, Load]);
    if loaded.Failure? {
      return Run([Fetch, Load], Crashed(loaded.error));
    }
    var saved := loaded.value;
    var display := monitor.displayName;

    if saved == [] {
      // first run: every notifier must pass its test before the baseline is saved
      if notifiers == [] {
        return Run([Fetch, Load], NoNotifiers);
      }
      var tests, allOk := TestAll(notifiers, display);
      PersistedWithoutSave(old(dataDir.files), storage.path, [Fetch, Load] + tests);
      if !allOk {
        return Run([Fetch, Load] + tests, TestsFailed);
      }
      PersistedThenSave(old(dataDir.files), storage.path, [Fetch, Load] + tests, current);
      storage.Save(current);
      return Run([Fetch, Load] + tests + [Save(current)], Baselined);
    }

    // steady state: notify about what is new, then save the page as it is now
    var news := FindNew(current, saved);
    var sends := [];
    if news != [] {
      sends := SendAll(notifiers, display, news);
    }
    PersistedWithoutSave(old(dataDir.files), storage.path, [Fetch, Load] + sends);
    PersistedThenSave(old(dataDir.files), storage.path, [Fetch, Load] + sends, current);
    storage.Save(current);
    return Run([Fetch, Load] + sends + [Save(current)], Updated(|news|));
  }

  /** If `fetch` raises, nothing is loaded, tested, sent or saved. */
  lemma FetchFailureEndsRun(m: Monitor, ns: seq<Notifier>, baseline: Result<seq<Notice>, LoadError>)
    requires m.fetch.FetchRaised?
    ensures Protocol(m, ns, baseline) == Run([Fetch], FetchFailed)
  {
  }

  /** An empty fetch result ends the run before the store or any notifier is used. */
  lemma EmptyFetchEndsRun(m: Monitor, ns: seq<Notifier>, baseline: Result<seq<Notice>, LoadError>)
    requires m.fetch == Fetched([])
    ensures Protocol(m, ns, baseline) == Run([Fetch], NothingFetched)
  {
  }

  /** An unreadable baseline ends the run right after the load, with the load's error. */
  lemma CorruptBaselineEndsRun(m: Monitor, ns: seq<Notifier>, e: LoadError)
    requires m.fetch.Fetched? && m.fetch.notices != []
    ensures Protocol(m, ns, Failure(e)) == Run([Fetch, Load], Crashed(e))
  {
  }

  /** A first run without notifiers tests nothing and saves nothing. */
  lemma FirstRunWithoutNotifiers(m: Monitor)
    requires m.fetch.Fetched? && m.fetch.notices != []
    ensures Protocol(m, [], Success([])) == Run([Fetch, Load], NoNotifiers)
  {
  }

  /**
    First run: every notifier is tested once, in order, whatever earlier tests
    did; nothing is sent; the fetched list is saved iff every test returned True.
  */
  lemma FirstRunGate(m: Monitor, ns: seq<Notifier>)
    requires m.fetch.Fetched? && m.fetch.notices != []
    requires ns != []
    ensures var r := Protocol(m, ns, Success([]));
      |r.trace| == 2 + |ns| + (if AllPassed(ns) then 1 else 0) && r.trace[..2] == [Fetch, Load] &&
      (forall i :: 0 <= i < |ns| ==> r.trace[2 + i] == Test(i, m.displayName, ns[i].test)) &&
      (forall e :: e in r.trace ==> !e.Send?) &&
      (Save(m.fetch.notices) in r.trace <==> AllPassed(ns)) &&
      r.outcome == (if AllPassed(ns) then Baselined else TestsFailed)
  {
    var r := Protocol(m, ns, Success([]));
    var tests := TestCalls(ns, m.displayName);
    var prefix := [Fetch, Load] + tests;
    forall e | e in prefix ensures !e.Save? && !e.Send? {
      var i :| 0 <= i < |prefix| && prefix[i] == e;
      if i >= 2 {
        assert e == tests[i - 2];
      }
    }
    forall i | 0 <= i < |ns| ensures prefix[2 + i] == Test(i, m.displayName, ns[i].test) {
    }
    if AllPassed(ns) {
      assert r.trace == prefix + [Save(m.fetch.notices)];
    } else {
      assert r.trace == prefix;
    }
  }

  /**
    Steady state: if something is new, every notifier gets exactly one `send`
    of the new notices, in order, whatever the others did; otherwise no send.
    Either way the fetched list is saved exactly once, as the last step.
  */
  lemma SteadyStateSendsThenSaves(m: Monitor, ns: seq<Notifier>, saved: seq<Notice>)
    requires m.fetch.Fetched? && m.fetch.notices != []
    requires saved != []
    ensures var r := Protocol(m, ns, Success(saved));
      var news := FindNew(m.fetch.notices, saved);
      r.outcome == Updated(|news|) &&
      r.trace[..2] == [Fetch, Load] &&
      r.trace[|r.trace| - 1] == Save(m.fetch.notices) &&
      (forall i :: 0 <= i < |r.trace| - 1 ==> !r.trace[i].Save?) &&
      (news == [] ==> r.trace == [Fetch, Load, Save(m.fetch.notices)]) &&
      (news != [] ==>
        |r.trace| == 3 + |ns| &&
        forall i :: 0 <= i < |ns| ==> r.trace[2 + i] == Send(i, m.displayName, news, ns[i].send))
  {
    var current := m.fetch.notices;
    var news := FindNew(current, saved);
    var sends := if news == [] then [] else SendCalls(ns, m.displayName, news);
    assert Protocol(m, ns, Success(saved)) == Run([Fetch, Load] + sends + [Save(current)], Updated(|news|));
    SendsThenSave(sends, current);
  }

  /** The shape of a steady-state trace: fetch, load, sends without a save, then one save. */
  lemma SendsThenSave(sends: seq<Event>, current: seq<Notice>)
    requires forall i :: 0 <= i < |sends| ==> sends[i].Send?
    ensures var t := [Fetch, Load] + sends + [Save(current)];
      |t| == 3 + |sends| && t[..2] == [Fetch, Load] && t[|t| - 1] == Save(current) &&
      (forall i :: 0 <= i < |sends| ==> t[2 + i] == sends[i]) &&
      (forall i :: 0 <= i < |t| - 1 ==> !t[i].Save?)
  {
    var t := [Fetch, Load] + sends + [Save(current)];
    forall i | 0 <= i < |t| - 1 ensures !t[i].Save? {
      if i >= 2 {
        assert t[i] == sends[i - 2];
      }
    }
  }

  /** Every `save` the runner issues is of the fetched list, which is never empty. */
  lemma SavesAreNonEmptyFetches(m: Monitor, ns: seq<Notifier>, baseline: Result<seq<Notice>, LoadError>)
    ensures var t := Protocol(m, ns, baseline).trace;
      forall i :: 0 <= i < |t| && t[i].Save? ==>
        i == |t| - 1 && m.fetch.Fetched? && t[i].notices == m.fetch.notices && t[i].notices != []
  {
  }

  /** Send outcomes change nothing: not the outcome and not what is saved. */
  lemma SendOutcomesIgnored(m: Monitor, ns1: seq<Notifier>, ns2: seq<Notifier>, baseline: Result<seq<Notice>, LoadError>)
    requires |ns1| == |ns2|
    requires forall i :: 0 <= i < |ns1| ==> ns1[i].test == ns2[i].test
    ensures Protocol(m, ns1, baseline).outcome == Protocol(m, ns2, baseline).outcome
    ensures forall xs :: Save(xs) in Protocol(m, ns1, baseline).trace <==> Save(xs) in Protocol(m, ns2, baseline).trace
  {
    assert AllPassed(ns1) == AllPassed(ns2);
  }

  /** After a run that saved, the next `load` of the same monitor returns what was fetched. */
  lemma NextLoadSeesFetched(files: map<string, seq<Record>>, path: string, m: Monitor, ns: seq<Notifier>)
    requires Protocol(m, ns, LoadFrom(files, path)).outcome.Baselined? ||
             Protocol(m, ns, LoadFrom(files, path)).outcome.Updated?
    ensures m.fetch.Fetched?
    ensures LoadFrom(Persisted(files, path, Protocol(m, ns, LoadFrom(files, path)).trace), path) ==
            Success(m.fetch.notices)
  {
    var t := Protocol(m, ns, LoadFrom(files, path)).trace;
    SavesAreNonEmptyFetches(m, ns, LoadFrom(files, path));
    PersistedWithoutSave(files, path, t[..|t| - 1]);
    LoadAfterSave(files, path, m.fetch.notices);
  }

  /** A run that did not save leaves the directory unchanged. */
  lemma NoSaveKeepsStore(files: map<string, seq<Record>>, path: string, m: Monitor, ns: seq<Notifier>)
    requires !Protocol(m, ns, LoadFrom(files, path)).outcome.Baselined?
    requires !Protocol(m, ns, LoadFrom(files, path)).outcome.Updated?
    ensures Persisted(files, path, Protocol(m, ns, LoadFrom(files, path)).trace) == files
  {
    PersistedWithoutSave(files, path, Protocol(m, ns, LoadFrom(files, path)).trace);
  }

  // ---------------------------------------------------------------------------
  // run_all

  /** A configuration entry: constructed, or construction raised. */
  datatype Construction<T> = Built(value: T) | ConstructionFailed

  /** The constructed entries, in configuration order. */
  function Constructed<T>(entries: seq<Construction<T>>): seq<T>
  {
    if entries == [] then []
    else
      var last := entries[|entries| - 1];
      Constructed(entries[..|entries| - 1]) + (if last.Built? then [last.value] else [])
  }

  lemma {:induction false} ConstructedConcat<T>(a: seq<Construction<T>>, b: seq<Construction<T>>)
    ensures Constructed(a + b) == Constructed(a) + Constructed(b)
    decreases |b|
  {
    if b != [] {
      assert (a + b)[..|a + b| - 1] == a + b[..|b| - 1];
      ConstructedConcat(a, b[..|b| - 1]);
    } else {
      assert a + b == a;
    }
  }

  /** Failed entries are skipped; every constructed value is kept. */
  lemma {:induction false} ConstructedMembers<T>(entries: seq<Construction<T>>, x: T)
    ensures x in Constructed(entries) <==> Built(x) in entries
  {
    if entries != [] {
      ConstructedMembers(entries[..|entries| - 1], x);
      assert entries == entries[..|entries| - 1] + [entries[|entries| - 1]];
    }
  }

  datatype Report = Report(monitor: string, run: Run)

  datatype CycleResult = CycleResult(reports: seq<Report>, crash: Option<LoadError>, files: map<string, seq<Record>>)

  /**
    The monitor loop of `run_all`: monitors whose construction failed are
    skipped; the others run in order, each against its own store. An unreadable
    baseline raises out of `run_all`, so the cycle stops there.
  */
  function Cycle(files: map<string, seq<Record>>, root: string, entries: seq<Construction<Monitor>>, ns: seq<Notifier>): CycleResult
    decreases |entries|
  {
    if entries == [] then CycleResult([], None, files)
    else match entries[0]
      case ConstructionFailed => Cycle(files, root, entries[1..], ns)
      case Built(m) =>
        var path := StoragePath(root, m.name);
        var run := Protocol(m, ns, LoadFrom(files, path));
        var after := Persisted(files, path, run.trace);
        if run.outcome.Crashed? then CycleResult([Report(m.name, run)], Some(run.outcome.error), after)
        else
          var rest := Cycle(after, root, entries[1..], ns);
          CycleResult([Report(m.name, run)] + rest.reports, rest.crash, rest.files)
  }

  function Prepend(reports: seq<Report>, c: CycleResult): CycleResult
  {
    CycleResult(reports + c.reports, c.crash, c.files)
  }

  /**
    `run_all`: builds the notifiers, skipping entries that fail, then runs every
    monitor that could be built.
  */
  method RunAll(notifierEntries: seq<Construction<Notifier>>, monitorEntries: seq<Construction<Monitor>>, dataDir: DataDir)
    returns (notifiers: seq<Notifier>, reports: seq<Report>, crash: Option<LoadError>)
    modifies dataDir
    ensures notifiers == Constructed(notifierEntries)
    ensures CycleResult(reports, crash, dataDir.files) == Cycle(old(dataDir.files), dataDir.root, monitorEntries, notifiers)
  {
    notifiers := [];
    var i := 0;
    while i < |notifierEntries|
      invariant 0 <= i <= |notifierEntries|
      invariant notifiers == Constructed(notifierEntries[..i])
    {
      match notifierEntries[i] {
        case Built(n) =>
          notifiers := notifiers + [n];
        case ConstructionFailed =>
      }
      assert notifierEntries[..i + 1][..i] == notifierEntries[..i];
      i := i + 1;
    }
    assert notifierEntries[..i] == notifierEntries;

    reports, crash := [], None;
    var j := 0;
    while j < |monitorEntries|
      invariant 0 <= j <= |monitorEntries|
      invariant crash == None
      invariant Prepend(reports, Cycle(dataDir.files, dataDir.root, monitorEntries[j..], notifiers)) ==
                Cycle(old(dataDir.files), dataDir.root, monitorEntries, notifiers)
    {
      assert monitorEntries[j..][1..] == monitorEntries[j + 1..];
      match monitorEntries[j] {
        case ConstructionFailed =>
        case Built(m) =>
          var run := RunMonitor(m, notifiers, dataDir);
          reports := reports + [Report(m.name, run)];
          if run.outcome.Crashed? {
            crash := Some(run.outcome.error);
            return;
          }
      }
      j := j + 1;
    }
  }

  function MonitorNames(ms: seq<Monitor>): seq<string>
  {
    seq(|ms|, i requires 0 <= i < |ms| => ms[i].name)
  }

  function ReportNames(rs: seq<Report>): seq<string>
  {
    seq(|rs|, i requires 0 <= i < |rs| => rs[i].monitor)
  }

  /** Without a crash, every constructed monitor runs once, in configuration order. */
  lemma {:induction false} CycleRunsConstructedMonitors(files: map<string, seq<Record>>, root: string, entries: seq<Construction<Monitor>>, ns: seq<Notifier>)
    requires Cycle(files, root, entries, ns).crash == None
    ensures ReportNames(Cycle(files, root, entries, ns).reports) == MonitorNames(Constructed(entries))
    decreases |entries|
  {
    if entries != [] {
      assert entries == [entries[0]] + entries[1..];
      ConstructedConcat([entries[0]], entries[1..]);
      assert [entries[0]][..0] == [];
      match entries[0]
      case ConstructionFailed =>
        CycleRunsConstructedMonitors(files, root, entries[1..], ns);
      case Built(m) =>
        var path := StoragePath(root, m.name);
        var run := Protocol(m, ns, LoadFrom(files, path));
        var after := Persisted(files, path, run.trace);
        CycleRunsConstructedMonitors(after, root, entries[1..], ns);
        NamesCons(Report(m.name, run), Cycle(after, root, entries[1..], ns).reports, m, Constructed(entries[1..]));
    }
  }

  lemma NamesCons(r: Report, rs: seq<Report>, m: Monitor, ms: seq<Monitor>)
    requires r.monitor == m.name && ReportNames(rs) == MonitorNames(ms)
    ensures ReportNames([r] + rs) == MonitorNames([m] + ms)
  {
    assert ReportNames([r] + rs) == [m.name] + ReportNames(rs);
    assert MonitorNames([m] + ms) == [m.name] + MonitorNames(ms);
  }

  /**
    Crash or not, the cycle's runs are an initial segment of the constructed
    monitors: configuration order, none skipped, none repeated.
  */
  lemma {:induction false} CycleRunsConstructedPrefix(files: map<string, seq<Record>>, root: string, entries: seq<Construction<Monitor>>, ns: seq<Notifier>)
    ensures ReportNames(Cycle(files, root, entries, ns).reports) <= MonitorNames(Constructed(entries))
    decreases |entries|
  {
    if entries != [] {
      assert entries == [entries[0]] + entries[1..];
      ConstructedConcat([entries[0]], entries[1..]);
      assert [entries[0]][..0] == [];
      match entries[0]
      case ConstructionFailed =>
        CycleRunsConstructedPrefix(files, root, entries[1..], ns);
      case Built(m) =>
        var path := StoragePath(root, m.name);
        var run := Protocol(m, ns, LoadFrom(files, path));
        var after := Persisted(files, path, run.trace);
        if run.outcome.Crashed? {
          assert [Report(m.name, run)] == [Report(m.name, run)] + [];
          NamesPrefixCons(Report(m.name, run), [], m, Constructed(entries[1..]));
        } else {
          CycleRunsConstructedPrefix(after, root, entries[1..], ns);
          NamesPrefixCons(Report(m.name, run), Cycle(after, root, entries[1..], ns).reports, m, Constructed(entries[1..]));
        }
    }
  }

  lemma NamesPrefixCons(r: Report, rs: seq<Report>, m: Monitor, ms: seq<Monitor>)
    requires r.monitor == m.name && ReportNames(rs) <= MonitorNames(ms)
    ensures ReportNames([r] + rs) <= MonitorNames([m] + ms)
  {
    assert ReportNames([r] + rs) == [m.name] + ReportNames(rs);
    assert MonitorNames([m] + ms) == [m.name] + MonitorNames(ms);
  }

  /** A crash is reported by the last run of the cycle, and by no earlier one. */
  lemma {:induction false} CycleStopsAtCrash(files: map<string, seq<Record>>, root: string, entries: seq<Construction<Monitor>>, ns: seq<Notifier>)
    ensures var c := Cycle(files, root, entries, ns);
      (forall i :: 0 <= i < |c.reports| - 1 ==> !c.reports[i].run.outcome.Crashed?) &&
      (c.crash.Some? <==> c.reports != [] && c.reports[|c.reports| - 1].run.outcome.Crashed?) &&
      (c.crash.Some? ==> c.reports[|c.reports| - 1].run.outcome == Crashed(c.crash.value))
    decreases |entries|
  {
    if entries != [] {
      match entries[0]
      case ConstructionFailed =>
        CycleStopsAtCrash(files, root, entries[1..], ns);
      case Built(m) =>
        var path := StoragePath(root, m.name);
        var run := Protocol(m, ns, LoadFrom(files, path));
        var after := Persisted(files, path, run.trace);
        CycleStopsAtCrash(after, root, entries[1..], ns);
    }
  }

  // ---------------------------------------------------------------------------
  // Four concrete runs

  const NoticeA := Notice("Notice A", "a", "2024-01-01")
  const NoticeB := Notice("Notice B", "b", "2024-01-02")
  const PassingNotifier := Notifier("n", Returned(true), Returned(true))

  /** Baseline `[a]`, fetch `[a, b]`: one send of `[b]`, then `[a, b]` saved. */
  lemma ScenarioNewNotice()
    ensures Protocol(Monitor("m", "M", Fetched([NoticeA, NoticeB])), [PassingNotifier], Success([NoticeA])) ==
            Run([Fetch, Load, Send(0, "M", [NoticeB], Returned(true)), Save([NoticeA, NoticeB])], Updated(1))
  {
    assert Urls([NoticeA]) == {"a"};
    assert FindNew([NoticeA, NoticeB], [NoticeA]) == [NoticeB] by {
      FindNewConcat([NoticeA], [NoticeB], [NoticeA]);
      FindNewSingle(NoticeA, [NoticeA]);
      FindNewSingle(NoticeB, [NoticeA]);
      assert [NoticeA, NoticeB] == [NoticeA] + [NoticeB];
    }
  }

  /** No baseline, one passing notifier: the fetch is saved and nothing is sent. */
  lemma ScenarioFirstRun()
    ensures Protocol(Monitor("m", "M", Fetched([NoticeA, NoticeB])), [PassingNotifier], Success([])) ==
            Run([Fetch, Load, Test(0, "M", Returned(true)), Save([NoticeA, NoticeB])], Baselined)
  {
    assert AllPassed([PassingNotifier]);
  }

  /** No baseline, no notifiers: nothing is saved. */
  lemma ScenarioNoNotifiers()
    ensures Protocol(Monitor("m", "M", Fetched([NoticeA, NoticeB])), [], Success([])) ==
            Run([Fetch, Load], NoNotifiers)
  {
  }

  /** Baseline `[a, b]`, fetch `[a]`: nothing new, no send, `[a]` saved. */
  lemma ScenarioPageShrank()
    ensures Protocol(Monitor("m", "M", Fetched([NoticeA])), [PassingNotifier], Success([NoticeA, NoticeB])) ==
            Run([Fetch, Load, Save([NoticeA])], Updated(0))
  {
    FindNewSingle(NoticeA, [NoticeA, NoticeB]);
  }
}
