# Dependency-Track project cleanup job, modelled in Dafny

This project models the project cleanup (retention) job of Dependency-Track,
`CleanupTask.inform`. On a cleanup event the job does three things:

1. It reads four configuration properties:
   - the enabled flag, which is on only when it equals "true" ignoring case;
   - a version regex, which is trimmed and must be present;
   - the older-than-days count, which is parsed as a Java `int` and must be present;
   - the delete-project flag.
2. It fetches the project list. It keeps each project whose last BOM import
   lies strictly before *now − days* and whose whole version string matches
   the regex.
3. It either deletes every kept project, or marks each one inactive and saves it.

Files:

- `java_lang.dfy` (module `JavaLang`) models the Java behaviour the job relies on:
  - a nullable value (`Option`) and Java's 32-bit `int`;
  - `String.trim` and `StringUtils.trimToNull`;
  - `"true".equalsIgnoreCase(v)`, which is also what `Boolean.valueOf(v)` computes.
- `projects.dfy` (module `Projects`) holds:
  - the `Project` record: UUID, name, version, last BOM import and active flag;
  - the `ProjectStore` class, a map from UUID to project, with the delete,
    update and lookup operations the job and its tests use.
- `cleanup.dfy` (module `Cleanup`) holds the job itself:
  - `LoadPolicy` reads the policy;
  - `Select` is the stream filter, checked against the reference filter `Kept`;
  - `Applied` specifies the action loop;
  - `Run` is one whole run as a function;
  - `Inform` is the imperative job. Its contract says the result and the new
    store equal `Run`. The two action loops, `DeleteEach` and `DeactivateEach`,
    update the store in place;
  - lemmas state what a run promises;
  - two methods replay the recorded test scenarios through `Inform`.

Modelling choices:

- Failures and unusual values follow the code:
  - The `forEach` loops at CleanupTask.java:103 and :105-108 catch nothing,
    so a failure on one project ends the run. The model makes no claim that
    the remaining projects are still handled.
  - The days value is any `int`. A negative count puts the cutoff in the future.
- The version filter calls `getVersion().matches(regex)`. This throws when a
  project that passed the age filter has a null version, or when the pattern
  does not compile. The stream is collected before any project is touched,
  so either case ends the run with nothing changed. The model keeps both
  error paths (`NullVersion`, `InvalidRegex`).
- The current time is the parameter `now`, in milliseconds. The cutoff is
  `now − days · 86 400 000`.
- The regex engine is the parameter `RegexEngine`, made of two uninterpreted
  function values: whether a pattern compiles, and whether it matches a whole string.
- The fetched list is a parameter. `Snapshot` requires every entry to be the
  stored project under its own UUID, as a list just read from the same store is.

## Model

| member | source | states |
|---|---|---|
| `JavaLang.TrimLeading` | src/main/java/org/dependencytrack/tasks/CleanupTask.java:76 | the result is a suffix of the input; everything dropped is white space (≤ U+0020); the result does not start with white space |
| `JavaLang.TrimTrailing` | src/main/java/org/dependencytrack/tasks/CleanupTask.java:76 | the result is a prefix of the input; everything dropped is white space; the result does not end with white space |
| `JavaLang.Trim` | src/main/java/org/dependencytrack/tasks/CleanupTask.java:76 | the trimmed pattern is a slice of the input; everything cut on both sides is white space; a non-empty result starts and ends with a non-white-space character |
| `JavaLang.TrimToNullIsNullIff` | src/main/java/org/dependencytrack/tasks/CleanupTask.java:74-77 | a present pattern becomes null exactly when it consists of white space only (an empty string included) |
| `JavaLang.TrimToNull` | src/main/java/org/dependencytrack/tasks/CleanupTask.java:76 | null stays null; a present value becomes null exactly when it trims to the empty string, and otherwise becomes its trimmed form, which is non-empty and neither starts nor ends with white space |
| `JavaLang.IsTrueIgnoreCase` | src/main/java/org/dependencytrack/tasks/CleanupTask.java:69 | a flag that reads as on is present and four characters long, starting with `t` or `T` and ending with `e` or `E`; `JavaLang.TrueIgnoreCaseIff` gives the exact set |
| `JavaLang.TrueIgnoreCaseIff` | src/main/java/org/dependencytrack/tasks/CleanupTask.java:69 | the flag is on exactly for the strings of length four whose every character is the matching letter of "true" or of "TRUE"; nothing else, padded or other text included, reads as on |
| `JavaLang.TrueSpellings` | src/main/java/org/dependencytrack/tasks/CleanupTask.java:69 | worked examples: "true", "TRUE", "True" and "tRuE" read as on; " true", "yes", "1" and null read as off |
| `Projects.ProjectStore.RecursivelyDelete` | src/main/java/org/dependencytrack/tasks/CleanupTask.java:103 | the store afterwards is the old store without the project's UUID; deleting an absent project changes nothing |
| `Projects.ProjectStore.UpdateProject` | src/main/java/org/dependencytrack/tasks/CleanupTask.java:107 | the stored project under that UUID is replaced by the given fields; every other entry and the key set stay the same |
| `Projects.ProjectStore.GetProject` | src/test/java/org/dependencytrack/tasks/CleanupTaskTest.java:62-63 | the lookup finds a project exactly when its UUID is stored, and then returns the stored project |
| `Cleanup.LoadPolicy` | src/main/java/org/dependencytrack/tasks/CleanupTask.java:52-82 | the policy is off exactly when the enabled flag is not "true" ignoring case. It is on exactly when the flag is on, the pattern trims to a non-empty string and the days value parsed. An enabled policy carries that trimmed pattern and the parsed days, and deletes exactly when the delete flag is "true" ignoring case |
| `Cleanup.Cutoff` | src/main/java/org/dependencytrack/tasks/CleanupTask.java:90 | the cutoff lies `days` whole days of 86 400 000 ms before `now`: strictly before it exactly when `days` is positive, at `now` exactly when `days` is zero, after it when negative |
| `Cleanup.ImportedBefore` | src/main/java/org/dependencytrack/tasks/CleanupTask.java:95 | the age filter passes only projects with a recorded BOM import; a project imported exactly at the cutoff does not pass (the comparison is strict) |
| `Cleanup.IsSelected` | src/main/java/org/dependencytrack/tasks/CleanupTask.java:95-97 | a project passing both filters has a BOM import strictly before the cutoff and a non-null version; `Cleanup.KeptMembers` gives the exact condition |
| `Cleanup.Aborts` | src/main/java/org/dependencytrack/tasks/CleanupTask.java:95-97 | the version filter throws only on a project that passed the age filter (a never-imported project never throws); for such a project with a version, only when the pattern does not compile |
| `Cleanup.Select` | src/main/java/org/dependencytrack/tasks/CleanupTask.java:92-98 | a successful selection is no longer than the fetched list and holds only fetched projects that pass both filters; `Cleanup.SelectOutcome` and `Cleanup.SelectFailureCause` say when it succeeds and which error ends it |
| `Cleanup.SelectOutcome` | src/main/java/org/dependencytrack/tasks/CleanupTask.java:92-98 | selection succeeds exactly when no fetched project passes the age filter and then has a null version or meets a pattern that does not compile; on success, the selection is the reference filter `Kept` |
| `Cleanup.SelectFailureCause` | src/main/java/org/dependencytrack/tasks/CleanupTask.java:95-97 | a failed selection reports the first project that throws: `NullVersion` when that project's version is null, `InvalidRegex` otherwise; no earlier project throws |
| `Cleanup.KeptMembers` | src/main/java/org/dependencytrack/tasks/CleanupTask.java:92-98 | a project is selected exactly when it was fetched, its last BOM import exists and lies strictly before the cutoff, and the pattern matches its whole version |
| `Cleanup.KeptIsSubsequence` | src/main/java/org/dependencytrack/tasks/CleanupTask.java:92-98 | the selected list is a subsequence of the fetched list, in the same order |
| `Cleanup.Step` | src/main/java/org/dependencytrack/tasks/CleanupTask.java:102-109 | one iteration touches only the given project's UUID: deleting removes it; deactivating keeps it and stores the project with `active == false` and its other fields unchanged; every other key and entry stays as it was |
| `Cleanup.Applied` | src/main/java/org/dependencytrack/tasks/CleanupTask.java:102-109 | the action loop over a list never adds a key when deleting, and never changes whether a UUID outside the list is stored; `Cleanup.AppliedDelete` and `Cleanup.AppliedDeactivate` give the exact store |
| `Cleanup.AppliedDelete` | src/main/java/org/dependencytrack/tasks/CleanupTask.java:102-103 | the delete loop leaves the store minus exactly the UUIDs of the listed projects; every other entry is unchanged |
| `Cleanup.AppliedDeactivate` | src/main/java/org/dependencytrack/tasks/CleanupTask.java:104-109 | on a list read from the store, the deactivate loop keeps every key; each listed project gets `active == false` and keeps its other fields; every other project is unchanged |
| `Cleanup.DeleteEach` | src/main/java/org/dependencytrack/tasks/CleanupTask.java:103 | the delete loop leaves the store equal to `Applied` of the whole list with deletion; its invariant covers the projects already handled |
| `Cleanup.DeactivateEach` | src/main/java/org/dependencytrack/tasks/CleanupTask.java:105-108 | on a list read from the store, the deactivate loop leaves the store equal to `Applied` of the whole list with deactivation; its invariant covers the projects already handled |
| `Cleanup.Run` | src/main/java/org/dependencytrack/tasks/CleanupTask.java:49-112 | every run that does not clean leaves the store as it was; a run is disabled exactly when the enabled flag is not "true" ignoring case; `Cleanup.EnabledRunSelects`, `Cleanup.DeleteRunOutcome` and `Cleanup.DeactivateRunOutcome` say what a cleaning run does |
| `Cleanup.Inform` | src/main/java/org/dependencytrack/tasks/CleanupTask.java:49-112 | the job's result and the store afterwards equal `Run` applied to the old store |
| `Cleanup.DisabledRunChangesNothing` | src/main/java/org/dependencytrack/tasks/CleanupTask.java:69-72 | when the enabled flag is not "true" ignoring case, the run returns at once and the store is unchanged, whatever the other settings hold |
| `Cleanup.MissingPatternFails` | src/main/java/org/dependencytrack/tasks/CleanupTask.java:74-77 | when enabled, a null pattern or one of white space only fails the run with `NoVersionRegex`, and the store is unchanged |
| `Cleanup.MissingDaysFails` | src/main/java/org/dependencytrack/tasks/CleanupTask.java:79-82 | when enabled with a usable pattern, an unset days value fails with `NoOlderThanDays` and an unparsable one with `DaysNotANumber`; the store is unchanged in both cases |
| `Cleanup.FailedRunChangesNothing` | src/main/java/org/dependencytrack/tasks/CleanupTask.java:69-98 | any failed run leaves the store exactly as it was; its error is the one the policy load reports, or else the error of the first fetched project that makes the version filter throw (`NullVersion` for a null version, `InvalidRegex` otherwise), no earlier project throwing |
| `Cleanup.EnabledRunSelects` | src/main/java/org/dependencytrack/tasks/CleanupTask.java:88-109 | an enabled run succeeds exactly when no fetched project makes the version filter throw; it then reports the reference selection and applies the configured action to exactly that list |
| `Cleanup.KeptIds` | src/main/java/org/dependencytrack/tasks/CleanupTask.java:92-98 | the UUIDs of the selection are exactly the UUIDs of the fetched projects that pass both filters |
| `Cleanup.DeleteRunOutcome` | src/main/java/org/dependencytrack/tasks/CleanupTask.java:102-103 | with deletion on, a stored UUID survives the run exactly when no selected project has it; each surviving project is unchanged; in the source this holds only for projects with no deleted ancestor, since the model has no parent–child link (see "## Left out") |
| `Cleanup.DeactivateRunOutcome` | src/main/java/org/dependencytrack/tasks/CleanupTask.java:104-109 | with deletion off, every project stays in the store; exactly the selected ones become inactive with their other fields as before; the rest are unchanged |
| `Cleanup.UnselectedProjectUntouched` | src/main/java/org/dependencytrack/tasks/CleanupTask.java:90-98 | a fetched project is left as it was if it was never imported, if it was imported exactly at the cutoff (the age test is strict), or if it fails either filter; with deletion on, this holds in the source only for a project with no deleted ancestor (see "## Left out") |
| `Cleanup.SingleProjectRun` | src/main/java/org/dependencytrack/tasks/CleanupTask.java:88-109 | an enabled run with zero days, over a one-project list read from the store whose project both filters keep, applies exactly one step of the configured action to that project |
| `Cleanup.DeactivateScenario` | src/test/java/org/dependencytrack/tasks/CleanupTaskTest.java:28-43 | enabled, zero days, a pattern matching "1.0.0-SNAPSHOT" and deletion off: a project imported ten days ago is still found after the run, now inactive |
| `Cleanup.DeleteScenario` | src/test/java/org/dependencytrack/tasks/CleanupTaskTest.java:45-64 | the same settings with deletion on: the project can no longer be found after the run |

## Left out

- Event dispatch is not modelled: the `instanceof CleanupEvent` test, the try-with-resources around the query manager, and logging.
- The fetched project list is a parameter. Which projects `getProjects(false, true, false, null)` returns (its flags exclude inactive projects) and how it pages results belong to the store, which is not part of this model.
- The model has no parent–child link between projects. In the source, `recursivelyDelete` also removes a deleted project's child projects, even unselected ones, and its dependent data. In the model those children survive. So `Cleanup.DeleteRunOutcome` and `Cleanup.UnselectedProjectUntouched` hold in the source only for projects with no deleted ancestor.
- `updateProject` copies every field of the detached project onto the stored one and updates the search index. The model writes the record under its UUID.
- `setActive(false)` changes the fetched object in place. The model builds an updated record and writes it back.
- The Java regex engine is uninterpreted (`RegexEngine`). Whether a pattern compiles and what it matches cannot be modelled faithfully here.
- `Integer.parseInt` is not modelled character by character. The days setting is given already parsed as unset, a 32-bit number, or not a number.
- `LocalDateTime.now()`, time zones, and the calendar arithmetic of `minusDays` and `Timestamp.valueOf` are not modelled. The model treats a day as exactly 86 400 000 ms, so daylight-saving shifts are not captured.
- Null configuration-property objects for the enabled and delete flags are not modelled. The code dereferences them without a check and would throw a `NullPointerException`.
- Exceptions from the store during the action loop are not modelled. Store operations always succeed here. In the code, such an exception would end the loop and leave the remaining projects untouched.
- `JavaLang.IsTrueIgnoreCase`: case folding covers ASCII letters only. No other character folds onto the letters of "true", so this agrees with `equalsIgnoreCase` for this comparison.
- Concurrent runs of the job are not modelled.
- `src/main/java/org/owasp/dependencytrack/model/Analysis.java` is a persistence bean with accessors only. It has no behaviour to model.
