/** The project cleanup (retention) job: on each cleanup event it reads the
    retention policy from the configuration, selects the projects whose last BOM
    import is older than the configured number of days and whose version fully
    matches the configured pattern, and then either deletes them or marks them
    inactive. */
module Cleanup {
  import opened JavaLang
  import opened Projects

  /** Timestamps are milliseconds since the epoch; a day is taken as 24 hours. */
  const MillisPerDay: int := 86_400_000

  /** The older-than-days property as `Integer.parseInt` sees it: unset (the
      property or its value is null), a 32-bit number, or text it rejects. */
  datatype DaysProperty = Unset | Parsed(days: Int32) | NotANumber

  /** The four configuration values the job reads, before validation. */
  datatype Settings = Settings(
    enabled: Option<string>,
    versionMatch: Option<string>,
    olderThanDays: DaysProperty,
    deleteProject: Option<string>)

  /** What happens to a selected project. */
  datatype Action = Deactivate | Delete

  /** The validated policy of one enabled run. */
  datatype Policy = Policy(versionRegex: string, olderThanDays: Int32, action: Action)

  /** Why a run stops with an exception: the two configuration checks, the
      number the parser rejects, a selected-by-age project whose version is
      null, and a version pattern that does not compile. */
  datatype RunError =
    | NoVersionRegex
    | NoOlderThanDays
    | DaysNotANumber
    | NullVersion
    | InvalidRegex

  /** The outcome of reading the policy. */
  datatype Load = Off | On(policy: Policy) | Misconfigured(error: RunError)

  /** The regular-expression engine, left uninterpreted: whether a pattern
      compiles, and whether a pattern matches a whole string. */
  datatype RegexEngine = RegexEngine(compiles: string -> bool, fullMatch: (string, string) -> bool)

  datatype Result<T> = Success(value: T) | Failure(error: RunError)

  /** The outcome of one run. */
  datatype RunResult = Disabled | Cleaned(selected: seq<Project>) | Failed(error: RunError)

  // ---------------------------------------------------------------------------
  // Reading the policy

  /** Validates the settings in the order the job checks them: the enabled
      flag, then the version pattern, then the number of days. */
  function LoadPolicy(s: Settings): (r: Load)
    ensures r.Off? <==> !IsTrueIgnoreCase(s.enabled)
    ensures r.On? ==> IsTrimmedNonEmpty(r.policy.versionRegex)
    ensures r.On? ==> (r.policy.action == Delete <==> IsTrueIgnoreCase(s.deleteProject))
    ensures r.On? <==> IsTrueIgnoreCase(s.enabled) && TrimToNull(s.versionMatch).Some? && s.olderThanDays.Parsed?
    ensures r.On? ==> r.policy.versionRegex == TrimToNull(s.versionMatch).value
                      && r.policy.olderThanDays == s.olderThanDays.days
  {
    if !IsTrueIgnoreCase(s.enabled) then Off
    else
      match TrimToNull(s.versionMatch)
      case None => Misconfigured(NoVersionRegex)
      case Some(regex) =>
        match s.olderThanDays
        case Unset => Misconfigured(NoOlderThanDays)
        case NotANumber => Misconfigured(DaysNotANumber)
        case Parsed(days) =>
          On(Policy(regex, days, if IsTrueIgnoreCase(s.deleteProject) then Delete else Deactivate))
  }

  // ---------------------------------------------------------------------------
  // Selecting the projects

  /** The instant `days` days before `now`; a negative count lies in the future. */
  function Cutoff(now: int, days: Int32): (r: int)
    ensures r < now <==> days > 0
    ensures r == now <==> days == 0
    ensures now - r == days as int * MillisPerDay
  {
    now - days as int * MillisPerDay
  }

  /** The age filter: a BOM was imported, strictly before the cutoff. */
  predicate ImportedBefore(p: Project, cutoff: int)
    ensures ImportedBefore(p, cutoff) ==> p.lastBomImport.Some?
    ensures p.lastBomImport == Some(cutoff) ==> !ImportedBefore(p, cutoff)
  {
    p.lastBomImport.Some? && p.lastBomImport.value < cutoff
  }

  /** Both filters: old enough, and a version the pattern matches as a whole. */
  predicate IsSelected(p: Project, regex: string, cutoff: int, engine: RegexEngine)
    ensures IsSelected(p, regex, cutoff, engine) ==> p.lastBomImport.Some? && p.lastBomImport.value < cutoff
    ensures IsSelected(p, regex, cutoff, engine) ==> p.version.Some?
  {
    ImportedBefore(p, cutoff) && p.version.Some? && engine.fullMatch(regex, p.version.value)
  }

  /** A project that passes the age filter makes the version filter throw when
      its version is null or when the pattern does not compile. */
  predicate Aborts(p: Project, regex: string, cutoff: int, engine: RegexEngine)
    ensures p.lastBomImport.None? ==> !Aborts(p, regex, cutoff, engine)
    ensures Aborts(p, regex, cutoff, engine) ==> ImportedBefore(p, cutoff)
    ensures Aborts(p, regex, cutoff, engine) && p.version.Some? ==> !engine.compiles(regex)
  {
    ImportedBefore(p, cutoff) && (p.version.None? || !engine.compiles(regex))
  }

  /** Reference definition of the selection: the projects that pass both
      filters, in their order. */
  function Kept(fetched: seq<Project>, regex: string, cutoff: int, engine: RegexEngine): seq<Project> {
    if fetched == [] then []
    else
      (if IsSelected(fetched[0], regex, cutoff, engine) then [fetched[0]] else [])
      + Kept(fetched[1..], regex, cutoff, engine)
  }

  /** The stream of fetched projects through the age filter and then the version
      filter, collected into a list. Each project goes through both filters
      before the next one is looked at, so the first project that makes the
      version filter throw ends the selection. */
  function Select(fetched: seq<Project>, regex: string, cutoff: int, engine: RegexEngine): (r: Result<seq<Project>>)
    ensures r.Success? ==> |r.value| <= |fetched|
    ensures r.Success? ==> forall p :: p in r.value ==> p in fetched && IsSelected(p, regex, cutoff, engine)
  {
    if fetched == [] then Success([])
    else
      var p := fetched[0];
      if !ImportedBefore(p, cutoff) then Select(fetched[1..], regex, cutoff, engine)
      else if p.version.None? then Failure(NullVersion)
      else if !engine.compiles(regex) then Failure(InvalidRegex)
      else
        match Select(fetched[1..], regex, cutoff, engine)
        case Failure(e) => Failure(e)
        case Success(rest) =>
          Success(if engine.fullMatch(regex, p.version.value) then [p] + rest else rest)
  }

  /** `a` is `b` with some elements left out, the rest in the same order. */
  predicate IsSubsequence<T(==)>(a: seq<T>, b: seq<T>) {
    if a == [] then true
    else if b == [] then false
    else if a[0] == b[0] then IsSubsequence(a[1..], b[1..])
    else IsSubsequence(a, b[1..])
  }

  /** The selection succeeds exactly when no fetched project makes the version
      filter throw, and then it is the reference selection. */
  lemma {:induction false} SelectOutcome(fetched: seq<Project>, regex: string, cutoff: int, engine: RegexEngine)
    ensures Select(fetched, regex, cutoff, engine).Success?
            <==> forall p :: p in fetched ==> !Aborts(p, regex, cutoff, engine)
    ensures Select(fetched, regex, cutoff, engine).Success?
            ==> Select(fetched, regex, cutoff, engine).value == Kept(fetched, regex, cutoff, engine)
  {
    if fetched != [] {
      SelectOutcome(fetched[1..], regex, cutoff, engine);
      assert fetched[0] in fetched;
      assert forall p :: p in fetched <==> p == fetched[0] || p in fetched[1..];
    }
  }

  /** A failed selection names the first project that throws: null version
      first, then a pattern that does not compile. */
  lemma {:induction false} SelectFailureCause(fetched: seq<Project>, regex: string, cutoff: int, engine: RegexEngine)
    requires Select(fetched, regex, cutoff, engine).Failure?
    ensures exists i :: 0 <= i < |fetched| && Aborts(fetched[i], regex, cutoff, engine)
              && (forall j :: 0 <= j < i ==> !Aborts(fetched[j], regex, cutoff, engine))
              && Select(fetched, regex, cutoff, engine).error
                 == (if fetched[i].version.None? then NullVersion else InvalidRegex)
  {
    var p := fetched[0];
    if !Aborts(p, regex, cutoff, engine) {
      SelectFailureCause(fetched[1..], regex, cutoff, engine);
      var i :| 0 <= i < |fetched[1..]| && Aborts(fetched[1..][i], regex, cutoff, engine)
               && (forall j :: 0 <= j < i ==> !Aborts(fetched[1..][j], regex, cutoff, engine))
               && Select(fetched[1..], regex, cutoff, engine).error
                  == (if fetched[1..][i].version.None? then NullVersion else InvalidRegex);
      assert Aborts(fetched[i + 1], regex, cutoff, engine);
    } else {
      assert Aborts(fetched[0], regex, cutoff, engine);
    }
  }

  /** A project is in the reference selection exactly when it was fetched and
      passes both filters. */
  lemma {:induction false} KeptMembers(fetched: seq<Project>, regex: string, cutoff: int, engine: RegexEngine)
    ensures forall p :: (p in Kept(fetched, regex, cutoff, engine))
                          <==> (p in fetched && IsSelected(p, regex, cutoff, engine))
  {
    if fetched != [] {
      KeptMembers(fetched[1..], regex, cutoff, engine);
      assert forall p :: p in fetched <==> p == fetched[0] || p in fetched[1..];
    }
  }

  /** The reference selection keeps the fetched order. */
  lemma {:induction false} KeptIsSubsequence(fetched: seq<Project>, regex: string, cutoff: int, engine: RegexEngine)
    ensures IsSubsequence(Kept(fetched, regex, cutoff, engine), fetched)
  {
    if fetched != [] {
      var rest := Kept(fetched[1..], regex, cutoff, engine);
      KeptIsSubsequence(fetched[1..], regex, cutoff, engine);
      if IsSelected(fetched[0], regex, cutoff, engine) {
        assert Kept(fetched, regex, cutoff, engine) == [fetched[0]] + rest;
        assert ([fetched[0]] + rest)[1..] == rest;
      } else {
        assert Kept(fetched, regex, cutoff, engine) == rest;
        SubsequenceOfTail(rest, fetched);
      }
    }
  }

  /** Dropping the head of the longer sequence keeps a subsequence relation. */
  lemma {:induction false} SubsequenceOfTail<T>(a: seq<T>, b: seq<T>)
    requires b != [] && IsSubsequence(a, b[1..])
    ensures IsSubsequence(a, b)
  {
    if a != [] && a[0] == b[0] {
      SubsequenceOfTailStep(a, b[1..]);
    }
  }

  /** If `a` is a subsequence of `b`, so is `a` without its head. */
  lemma {:induction false} SubsequenceOfTailStep<T>(a: seq<T>, b: seq<T>)
    requires a != [] && IsSubsequence(a, b)
    ensures IsSubsequence(a[1..], b)
  {
    if b != [] {
      if a[0] == b[0] {
        SubsequenceOfTail(a[1..], b);
      } else {
        SubsequenceOfTailStep(a, b[1..]);
        SubsequenceOfTail(a[1..], b);
      }
    }
  }

  // ---------------------------------------------------------------------------
  // Acting on the selection

  /** The UUIDs of a list of projects. */
  function Ids(list: seq<Project>): set<Uuid> {
    set p | p in list :: p.uuid
  }

  /** One iteration of the action loop. */
  function Step(projects: map<Uuid, Project>, p: Project, action: Action): (r: map<Uuid, Project>)
    ensures p.uuid in r <==> action == Deactivate
    ensures forall k :: k != p.uuid ==> (k in r <==> k in projects)
    ensures forall k :: k in r && k != p.uuid ==> r[k] == projects[k]
    ensures action == Deactivate ==> r[p.uuid] == p.(active := false)
  {
    match action
    case Delete => projects - {p.uuid}
    case Deactivate => projects[p.uuid := p.(active := false)]
  }

  /** The store after the action loop has handled `list` in order. */
  function Applied(projects: map<Uuid, Project>, list: seq<Project>, action: Action): (r: map<Uuid, Project>)
    ensures action == Delete ==> r.Keys <= projects.Keys
    ensures forall k :: k !in Ids(list) ==> (k in r <==> k in projects)
    decreases |list|
  {
    if list == [] then projects
    else Step(Applied(projects, list[..|list| - 1], action), list[|list| - 1], action)
  }

  /** Deleting removes exactly the listed projects and leaves every other one as
      it was. */
  lemma {:induction false} AppliedDelete(projects: map<Uuid, Project>, list: seq<Project>)
    ensures Applied(projects, list, Delete) == projects - Ids(list)
  {
    if list != [] {
      var init := list[..|list| - 1];
      AppliedDelete(projects, init);
      assert list == init + [list[|list| - 1]];
      assert Ids(list) == Ids(init) + {list[|list| - 1].uuid};
    }
  }

  /** Deactivating a list read from the store keeps every key, turns the listed
      projects inactive with every other field as it was, and leaves every
      other project as it was. */
  lemma {:induction false} AppliedDeactivate(projects: map<Uuid, Project>, list: seq<Project>)
    requires Snapshot(list, projects)
    ensures Applied(projects, list, Deactivate).Keys == projects.Keys
    ensures forall k :: k in projects ==>
              Applied(projects, list, Deactivate)[k]
              == if k in Ids(list) then projects[k].(active := false) else projects[k]
  {
    if list != [] {
      var init := list[..|list| - 1];
      var last := list[|list| - 1];
      SnapshotPrefix(list, |list| - 1, projects);
      AppliedDeactivate(projects, init);
      assert list == init + [last];
      assert Ids(list) == Ids(init) + {last.uuid};
      assert projects[last.uuid] == last;
      assert Applied(projects, list, Deactivate)
             == Applied(projects, init, Deactivate)[last.uuid := last.(active := false)];
    }
  }

  /** A prefix of a list read from the store is one too. */
  lemma SnapshotPrefix(list: seq<Project>, n: nat, projects: map<Uuid, Project>)
    requires n <= |list| && Snapshot(list, projects)
    ensures Snapshot(list[..n], projects)
  {
  }

  /** The delete loop: removes each listed project from the store, in order. */
  method DeleteEach(store: ProjectStore, list: seq<Project>)
    modifies store
    ensures store.projects == Applied(old(store.projects), list, Delete)
  {
    ghost var before := store.projects;
    for i := 0 to |list|
      invariant store.projects == Applied(before, list[..i], Delete)
    {
      store.RecursivelyDelete(list[i]);
      assert list[..i + 1][..i] == list[..i];
    }
    assert list[..|list|] == list;
  }

  /** The deactivate loop: marks each listed project inactive and writes it
      back, in order. */
  method DeactivateEach(store: ProjectStore, list: seq<Project>)
    requires Snapshot(list, store.projects)
    modifies store
    ensures store.projects == Applied(old(store.projects), list, Deactivate)
  {
    ghost var before := store.projects;
    for i := 0 to |list|
      invariant store.projects == Applied(before, list[..i], Deactivate)
    {
      SnapshotPrefix(list, i, before);
      AppliedDeactivate(before, list[..i]);
      var p := list[i].(active := false);
      store.UpdateProject(p);
      assert list[..i + 1][..i] == list[..i];
    }
    assert list[..|list|] == list;
  }

  // ---------------------------------------------------------------------------
  // One run

  /** One run of the job on a store holding `projects`, with `fetched` the
      project list read from that store: the result and the store afterwards. */
  function Run(s: Settings, now: int, fetched: seq<Project>, engine: RegexEngine,
               projects: map<Uuid, Project>): (r: (RunResult, map<Uuid, Project>))
    ensures !r.0.Cleaned? ==> r.1 == projects
    ensures r.0.Disabled? <==> !IsTrueIgnoreCase(s.enabled)
  {
    match LoadPolicy(s)
    case Off => (Disabled, projects)
    case Misconfigured(e) => (Failed(e), projects)
    case On(policy) =>
      match Select(fetched, policy.versionRegex, Cutoff(now, policy.olderThanDays), engine)
      case Failure(e) => (Failed(e), projects)
      case Success(list) => (Cleaned(list), Applied(projects, list, policy.action))
  }

  /** Handles a cleanup event against `store`; `fetched` is the list of
      projects the store returns for this run. */
  method Inform(store: ProjectStore, s: Settings, now: int, fetched: seq<Project>, engine: RegexEngine)
    returns (r: RunResult)
    requires Snapshot(fetched, store.projects)
    modifies store
    ensures (r, store.projects) == Run(s, now, fetched, engine, old(store.projects))
  {
    ghost var before := store.projects;
    var load := LoadPolicy(s);
    if load.Off? {
      return Disabled;
    }
    if load.Misconfigured? {
      return Failed(load.error);
    }
    var policy := load.policy;
    var cutoff := Cutoff(now, policy.olderThanDays);
    var selection := Select(fetched, policy.versionRegex, cutoff, engine);
    if selection.Failure? {
      return Failed(selection.error);
    }
    var list := selection.value;
    if policy.action == Delete {
      DeleteEach(store, list);
    } else {
      SelectOutcome(fetched, policy.versionRegex, cutoff, engine);
      KeptMembers(fetched, policy.versionRegex, cutoff, engine);
      assert Snapshot(list, before);
      DeactivateEach(store, list);
    }
    r := Cleaned(list);
  }

  // ---------------------------------------------------------------------------
  // What a run promises

  /** The UUIDs of the fetched projects that pass both filters. */
  function SelectedIds(fetched: seq<Project>, regex: string, cutoff: int, engine: RegexEngine): set<Uuid> {
    set p | p in fetched && IsSelected(p, regex, cutoff, engine) :: p.uuid
  }

  /** A disabled job returns at once and changes nothing, whatever the other
      settings hold, valid or not. */
  lemma DisabledRunChangesNothing(s: Settings, now: int, fetched: seq<Project>, engine: RegexEngine,
                                  projects: map<Uuid, Project>)
    requires !IsTrueIgnoreCase(s.enabled)
    ensures Run(s, now, fetched, engine, projects) == (Disabled, projects)
  {
  }

  /** Enabled without a version pattern, or with one of white space only: the
      run fails before anything is selected, and nothing changes. */
  lemma MissingPatternFails(s: Settings, now: int, fetched: seq<Project>, engine: RegexEngine,
                            projects: map<Uuid, Project>)
    requires IsTrueIgnoreCase(s.enabled)
    requires s.versionMatch.None?
             || forall i :: 0 <= i < |s.versionMatch.value| ==> IsTrimmable(s.versionMatch.value[i])
    ensures Run(s, now, fetched, engine, projects) == (Failed(NoVersionRegex), projects)
  {
  }

  /** Enabled with a pattern but without a usable number of days: the run fails
      before anything is selected, and nothing changes. */
  lemma MissingDaysFails(s: Settings, now: int, fetched: seq<Project>, engine: RegexEngine,
                         projects: map<Uuid, Project>)
    requires IsTrueIgnoreCase(s.enabled)
    requires s.versionMatch.Some?
    requires exists i :: 0 <= i < |s.versionMatch.value| && !IsTrimmable(s.versionMatch.value[i])
    requires !s.olderThanDays.Parsed?
    ensures Run(s, now, fetched, engine, projects)
            == (Failed(if s.olderThanDays.Unset? then NoOlderThanDays else DaysNotANumber), projects)
  {
  }

  /** Every failed run leaves the store as it was: the checks and the selection
      all come before the first change. Its error is either the one the policy
      load reports or the one of the first fetched project that makes the
      version filter throw. */
  lemma FailedRunChangesNothing(s: Settings, now: int, fetched: seq<Project>, engine: RegexEngine,
                                projects: map<Uuid, Project>)
    requires Run(s, now, fetched, engine, projects).0.Failed?
    ensures Run(s, now, fetched, engine, projects).1 == projects
    ensures LoadPolicy(s).Misconfigured?
            ==> Run(s, now, fetched, engine, projects).0.error == LoadPolicy(s).error
    ensures LoadPolicy(s).On?
            ==> var regex := LoadPolicy(s).policy.versionRegex;
                var cutoff := Cutoff(now, LoadPolicy(s).policy.olderThanDays);
                exists i :: 0 <= i < |fetched| && Aborts(fetched[i], regex, cutoff, engine)
                  && (forall j :: 0 <= j < i ==> !Aborts(fetched[j], regex, cutoff, engine))
                  && Run(s, now, fetched, engine, projects).0.error
                     == (if fetched[i].version.None? then NullVersion else InvalidRegex)
  {
    if LoadPolicy(s).On? {
      var policy := LoadPolicy(s).policy;
      SelectFailureCause(fetched, policy.versionRegex, Cutoff(now, policy.olderThanDays), engine);
    }
  }

  /** An enabled run succeeds exactly when no project that passes the age
      filter has a null version or meets a pattern that does not compile, and
      then it acts on the reference selection. */
  lemma {:induction false} EnabledRunSelects(s: Settings, now: int, fetched: seq<Project>, engine: RegexEngine,
                                             projects: map<Uuid, Project>, policy: Policy)
    requires LoadPolicy(s) == On(policy)
    ensures var cutoff := Cutoff(now, policy.olderThanDays);
            Run(s, now, fetched, engine, projects).0.Cleaned?
            <==> forall p :: p in fetched ==> !Aborts(p, policy.versionRegex, cutoff, engine)
    ensures var cutoff := Cutoff(now, policy.olderThanDays);
            var list := Kept(fetched, policy.versionRegex, cutoff, engine);
            Run(s, now, fetched, engine, projects).0.Cleaned?
            ==> Run(s, now, fetched, engine, projects) == (Cleaned(list), Applied(projects, list, policy.action))
  {
    SelectOutcome(fetched, policy.versionRegex, Cutoff(now, policy.olderThanDays), engine);
  }

  /** The selected UUIDs are those of the reference selection. */
  lemma {:induction false} KeptIds(fetched: seq<Project>, regex: string, cutoff: int, engine: RegexEngine)
    ensures Ids(Kept(fetched, regex, cutoff, engine)) == SelectedIds(fetched, regex, cutoff, engine)
  {
    KeptMembers(fetched, regex, cutoff, engine);
  }

  /** With deletion on, a successful run removes exactly the selected projects
      from the store and leaves every other stored project as it was. Projects
      here have no children, so the cascade of a recursive delete does not
      arise. */
  lemma {:induction false} DeleteRunOutcome(s: Settings, now: int, fetched: seq<Project>, engine: RegexEngine,
                                            projects: map<Uuid, Project>, regex: string, days: Int32)
    requires LoadPolicy(s) == On(Policy(regex, days, Delete))
    requires forall p :: p in fetched ==> !Aborts(p, regex, Cutoff(now, days), engine)
    ensures Run(s, now, fetched, engine, projects).0
            == Cleaned(Kept(fetched, regex, Cutoff(now, days), engine))
    ensures forall k :: k in Run(s, now, fetched, engine, projects).1
                        <==> k in projects && k !in SelectedIds(fetched, regex, Cutoff(now, days), engine)
    ensures forall k :: k in Run(s, now, fetched, engine, projects).1
                        ==> Run(s, now, fetched, engine, projects).1[k] == projects[k]
  {
    var list := Kept(fetched, regex, Cutoff(now, days), engine);
    EnabledRunSelects(s, now, fetched, engine, projects, Policy(regex, days, Delete));
    AppliedDelete(projects, list);
    KeptIds(fetched, regex, Cutoff(now, days), engine);
  }

  /** With deletion off, a successful run on a list read from the store keeps
      every project, turns exactly the selected ones inactive with every other
      field as it was, and leaves every other project as it was. */
  lemma {:induction false} DeactivateRunOutcome(s: Settings, now: int, fetched: seq<Project>, engine: RegexEngine,
                                                projects: map<Uuid, Project>, regex: string, days: Int32)
    requires Snapshot(fetched, projects)
    requires LoadPolicy(s) == On(Policy(regex, days, Deactivate))
    requires forall p :: p in fetched ==> !Aborts(p, regex, Cutoff(now, days), engine)
    ensures Run(s, now, fetched, engine, projects).0
            == Cleaned(Kept(fetched, regex, Cutoff(now, days), engine))
    ensures Run(s, now, fetched, engine, projects).1.Keys == projects.Keys
    ensures forall k :: k in projects ==>
              Run(s, now, fetched, engine, projects).1[k]
              == if k in SelectedIds(fetched, regex, Cutoff(now, days), engine)
                 then projects[k].(active := false) else projects[k]
  {
    var list := Kept(fetched, regex, Cutoff(now, days), engine);
    EnabledRunSelects(s, now, fetched, engine, projects, Policy(regex, days, Deactivate));
    KeptMembers(fetched, regex, Cutoff(now, days), engine);
    assert Snapshot(list, projects);
    AppliedDeactivate(projects, list);
    KeptIds(fetched, regex, Cutoff(now, days), engine);
  }

  /** A fetched project that fails either filter leaves the run with its stored
      entry exactly as it was, whichever action is configured: in particular
      one that never had a BOM imported, and one imported exactly at the
      cutoff. */
  lemma {:induction false} UnselectedProjectUntouched(s: Settings, now: int, fetched: seq<Project>,
                                                      engine: RegexEngine, projects: map<Uuid, Project>,
                                                      policy: Policy, p: Project)
    requires Snapshot(fetched, projects)
    requires LoadPolicy(s) == On(policy)
    requires p in fetched
    // The first two cases already imply the third; they are spelled out as the
    // never-imported exemption and the strict boundary at the cutoff.
    requires p.lastBomImport.None?
             || p.lastBomImport == Some(Cutoff(now, policy.olderThanDays))
             || !IsSelected(p, policy.versionRegex, Cutoff(now, policy.olderThanDays), engine)
    ensures p.uuid in Run(s, now, fetched, engine, projects).1
    ensures Run(s, now, fetched, engine, projects).1[p.uuid] == p
  {
    var cutoff := Cutoff(now, policy.olderThanDays);
    var regex := policy.versionRegex;
    assert p.uuid !in SelectedIds(fetched, regex, cutoff, engine);
    if Run(s, now, fetched, engine, projects).0.Cleaned? {
      EnabledRunSelects(s, now, fetched, engine, projects, policy);
      if policy.action == Delete {
        DeleteRunOutcome(s, now, fetched, engine, projects, regex, policy.olderThanDays);
      } else {
        DeactivateRunOutcome(s, now, fetched, engine, projects, regex, policy.olderThanDays);
      }
    }
  }

  // ---------------------------------------------------------------------------
  // The two recorded scenarios, run through Inform

  /** An enabled run with zero days over one stored project that both filters
      keep applies exactly one step of the configured action to it. */
  lemma SingleProjectRun(s: Settings, now: int, p: Project, engine: RegexEngine)
    requires IsTrueIgnoreCase(s.enabled) && s.olderThanDays == Parsed(0)
    requires TrimToNull(s.versionMatch).Some?
    requires engine.compiles(TrimToNull(s.versionMatch).value)
    requires IsSelected(p, TrimToNull(s.versionMatch).value, now, engine)
    ensures Snapshot([p], map[p.uuid := p])
    ensures Run(s, now, [p], engine, map[p.uuid := p]).1
            == Step(map[p.uuid := p], p, if IsTrueIgnoreCase(s.deleteProject) then Delete else Deactivate)
  {
    assert forall q :: q in [p] ==> q == p;
    var regex := TrimToNull(s.versionMatch).value;
    var action := if IsTrueIgnoreCase(s.deleteProject) then Delete else Deactivate;
    assert LoadPolicy(s) == On(Policy(regex, 0, action));
    assert Cutoff(now, 0) == now;
    SingleProjectSelected(p, regex, now, engine);
    SingleStep(map[p.uuid := p], p, action);
  }

  /** A one-project list whose project both filters keep is selected whole. */
  lemma SingleProjectSelected(p: Project, regex: string, cutoff: int, engine: RegexEngine)
    requires engine.compiles(regex) && IsSelected(p, regex, cutoff, engine)
    ensures Select([p], regex, cutoff, engine) == Success([p])
  {
    assert [p][0] == p && [p][1..] == [];
    assert Select([], regex, cutoff, engine) == Success([]);
    assert ImportedBefore(p, cutoff) && engine.fullMatch(regex, p.version.value);
    assert [p] + [] == [p];
  }

  /** The action loop over one project is one step. */
  lemma SingleStep(projects: map<Uuid, Project>, p: Project, action: Action)
    ensures Applied(projects, [p], action) == Step(projects, p, action)
  {
    assert [p][..0] == [];
  }

  /** Enabled, zero days, a pattern matching "1.0.0-SNAPSHOT", deletion off: a
      project whose last BOM import was ten days ago is still found afterwards,
      now inactive. */
  method DeactivateScenario(now: int, uuid: Uuid, pattern: string, deleteValue: Option<string>,
                            engine: RegexEngine) returns (found: Option<Project>)
    requires exists i :: 0 <= i < |pattern| && !IsTrimmable(pattern[i])
    requires engine.compiles(Trim(pattern)) && engine.fullMatch(Trim(pattern), "1.0.0-SNAPSHOT")
    requires !IsTrueIgnoreCase(deleteValue)
    ensures found.Some? && !found.value.active
    ensures found.value.version == Some("1.0.0-SNAPSHOT") && found.value.name == "Project P1"
  {
    var p := Project(uuid, "Project P1", Some("1.0.0-SNAPSHOT"), Some(now - 10 * MillisPerDay), true);
    var store := new ProjectStore(map[uuid := p]);
    var settings := Settings(Some("true"), Some(pattern), Parsed(0), deleteValue);
    TrimToNullIsNullIff(pattern);
    TrueSpellings();
    SingleProjectRun(settings, now, p, engine);
    var r := Inform(store, settings, now, [p], engine);
    found := store.GetProject(uuid);
  }

  /** The same with deletion on: the project can no longer be found. */
  method DeleteScenario(now: int, uuid: Uuid, pattern: string, engine: RegexEngine)
    returns (found: Option<Project>)
    requires exists i :: 0 <= i < |pattern| && !IsTrimmable(pattern[i])
    requires engine.compiles(Trim(pattern)) && engine.fullMatch(Trim(pattern), "1.0.0-SNAPSHOT")
    ensures found.None?
  {
    var p := Project(uuid, "Project P1", Some("1.0.0-SNAPSHOT"), Some(now - 10 * MillisPerDay), true);
    var store := new ProjectStore(map[uuid := p]);
    var settings := Settings(Some("true"), Some(pattern), Parsed(0), Some("true"));
    TrimToNullIsNullIff(pattern);
    TrueSpellings();
    SingleProjectRun(settings, now, p, engine);
    var r := Inform(store, settings, now, [p], engine);
    found := store.GetProject(uuid);
  }
}
