# Build planner model

A Dafny model of the build planner in woodpecker's `server/procBuilder.go`.
The planner turns the pipeline configuration documents of one build into build
items. It then flattens those items and their compiled steps into the build's
list of processes.

- **Document order.** The documents are planned in ascending name order (`DocOrder`).
- **Jobs.** Each document is expanded into one job per matrix axis. A document
  without a matrix runs once, with an empty axis. Each job gets:
  - a process, named after the document's sanitized path (`Paths`);
  - a substitution environment: the metadata environment, overridden by the legacy
    metadata environment, overridden by the axis (`Environ`).
- **Per-job pipeline.** The document's placeholders are substituted. A multi-line
  value is substituted in its quoted form. The result is parsed, linted and
  compiled. The compiler receives:
  - the job environment, then the build's extra variables;
  - the netrc credentials, only for a private repository;
  - every registry;
  - the secrets whose event filter admits the build's event (`Credentials`).
- **Errors.** The first error of matrix parsing, substitution, parsing or linting
  aborts the whole plan.
- **Items.** A job that compiles to no stage is dropped and does not use up a PID.
  The other jobs become items numbered 1, 2, … in plan order. An item is skipped
  when the pipeline's branch filter rejects the build's branch (`Planner`).
- **Pruning.** Items with a dependency that names no item of the list are removed, by
  name and transitively (`Dependencies`). Names are not unique: every matrix leg of
  one document carries the same name, so removal takes all legs together.
- **Flattening.** This appends to the build:
  - the items' processes;
  - one process per compiled step. Step PIDs run on from the largest item PID, each
    stage's steps are grouped under the PID of the stage's first step, and each
    step inherits its item's skip state (`Flatten`).

The order in which jobs run is stated independently of the planner's nested loop
(`Listing`). The listing is the flat sequence of (document, axis) jobs, documents
in name order and each document's axes in matrix order. Job `k` runs at PID 1
plus the number of earlier jobs that produced an item. The plan is shown to be
exactly that listing run job by job, then pruned.

Worked examples of pruning and flattening are in `Scenarios`.

The planner calls code that this model does not include. Each of these calls is a
function-typed field of `Planner.Collaborators`:
- the matrix parser;
- the metadata environments;
- Go's `%q` quoting;
- the placeholder substitution engine;
- the pipeline parser;
- the linter;
- the branch matcher;
- the platform setter;
- the secret event matcher;
- the compiler.

The theorems about the plan hold for every choice of these functions.

Three facts about the code at this revision:
- The compiler returns no error, so compiling never fails a job
  (server/procBuilder.go:196, 247).
- The build's extra variables reach only the compiler, not the placeholder
  substitution (server/procBuilder.go:85-88, 221).
- `sanitizePath` is not idempotent. `Paths.SanitizeNotIdempotent` exhibits a path
  that a second application changes.

## Model

| member | source | states |
|---|---|---|
| Paths.TrimSuffix | server/procBuilder.go:362 | a path ending in the suffix is the result followed by the suffix; any other path is unchanged |
| Paths.TrimPrefix | server/procBuilder.go:363-364 | a path starting with the prefix is the prefix followed by the result; any other path is unchanged |
| Paths.SanitizePath | server/procBuilder.go:361-366 | the item name is never longer than the document path |
| Paths.SanitizeIsInfix | server/procBuilder.go:361-366 | the name is the path minus at most the config folder and then one dot at the front, and at most one `.yml` at the back |
| Paths.SanitizeInvertsNaming | server/procBuilder.go:361-366 | a document `<folder><name>.yml` whose name does not start with a dot is named `name` |
| Paths.SanitizeKeepsPlainName | server/procBuilder.go:361-366 | a path with no `.yml` suffix, no folder prefix and no leading dot is its own name |
| Paths.SanitizeNotIdempotent | server/procBuilder.go:361-366 | sanitizing `a.yml.yml` twice differs from sanitizing it once |
| Environ.EnvironmentVariables | server/procBuilder.go:185-194 | the job environment has the keys of all three maps; an axis value beats a legacy metadata value, which beats a plain metadata value |
| Environ.LookupValue | server/procBuilder.go:176-182 | an unknown name reads as the empty string; a value without a newline is substituted verbatim; a value with a newline is replaced by its quoted form |
| Environ.LookupHasNoRawNewline | server/procBuilder.go:175-183 | when quoting yields no raw newline, no substituted value holds one, unknown names included |
| Environ.LookupSingleLineVerbatim | server/procBuilder.go:175-183 | a single-line value is substituted verbatim, whatever the quoting |
| Credentials.FilterSecrets | server/procBuilder.go:197-208 | exactly the secrets whose event filter admits the event are handed over, converted field for field |
| Credentials.FilterSecretsDistributes | server/procBuilder.go:197-208 | filtering commutes with concatenation, so the admitted secrets keep their relative order |
| Credentials.RejectedSecretWithheld | server/procBuilder.go:199-201 | a secret whose filter rejects the event is not handed over, unless an identical admitted secret is |
| Credentials.ConvertRegistries | server/procBuilder.go:210-217 | every registry is handed over in order, its address as host name and its credentials unchanged |
| DocOrder.SortByName | server/procBuilder.go:60 | the documents are planned as a permutation of the input in ascending name order |
| Dependencies.ContainsItemWithName | server/procBuilder.go:166-173 | the search answers true exactly when some item carries the name |
| Dependencies.Prune | server/procBuilder.go:141-164 | every dependency of every kept item names a kept item; the input comes back unchanged exactly when it already had that property; only input items are kept |
| Dependencies.PruneRestrictsByName | server/procBuilder.go:154-163 | the result is the input restricted to the surviving names, in input order |
| Dependencies.PruneIsGreatest | server/procBuilder.go:141-164 | every name-closed part of the input whose dependencies are all present survives in full |
| Dependencies.PruneCascades | server/procBuilder.go:160-161 | a surviving name's dependencies all survive, so removal propagates transitively |
| Dependencies.PruneDropsOrphanName | server/procBuilder.go:144-158 | an item with a missing dependency is removed together with every item of the same name |
| Dependencies.PruneKeepsOrder | server/procBuilder.go:154-159 | the survivors are a subsequence of the input |
| Flatten.StepState | server/procBuilder.go:273-277 | a step is skipped exactly when its item is skipped, and pending otherwise |
| Flatten.MaxPid | server/procBuilder.go:251-257 | the step PID counter starts at the largest item PID, or at 0 |
| Flatten.SetBuildStepsOnBuild | server/procBuilder.go:250-284 | only the build's process list changes, growing by one process per item and one per step |
| Flatten.FlattenedPrefix | server/procBuilder.go:252-254 | the build's existing processes stay in front, followed by the items' processes in order |
| Flatten.FlattenedStep | server/procBuilder.go:259-281 | each step's process: its position, a PID running on from the largest item PID, the first step's PID as group id, the item as parent, the alias as name, and the inherited skip state |
| Flatten.AllStepPid | server/procBuilder.go:259-263 | the appended step processes carry consecutive PIDs after the largest item PID |
| Flatten.FlattenedPidsIncrease | server/procBuilder.go:250-284 | when item PIDs increase, PIDs strictly increase over all processes the flattening appends |
| Planner.MetadataFor | server/procBuilder.go:348-351 | a job's metadata carries the process PID as job number and the axis as job matrix |
| Planner.JobAxes | server/procBuilder.go:66-72 | a matrix error fails the document; otherwise the axes are never empty, and a document without a matrix has one empty axis |
| Planner.JobOptionsContents | server/procBuilder.go:219-247 | the compiler gets the job environment and then the extra variables, the netrc only for a private repository, all registries, exactly the admitted secrets, and the `/drone` workspace |
| Planner.CompileJob | server/procBuilder.go:75-131 | a job succeeds only when its pipeline parses and lints clean; an item it yields carries the given PID as PID and group, the document's sanitized name, and at least one stage |
| Planner.CompileJobOutcome | server/procBuilder.go:87-117 | substitution and parse errors, then lint errors, fail the job; otherwise it succeeds, yielding an item exactly when the configuration has a stage |
| Planner.CompiledItem | server/procBuilder.go:75-131 | an item's process, platform (the architecture of the metadata after the platform setter), labels (none become an empty map), dependencies, agent filter and configuration, with skip exactly when the branch filter rejects the branch |
| Planner.EnumerateAxes | server/procBuilder.go:74-133 | a document's jobs only append to the items so far, at most one item per axis |
| Planner.EnumerateDocs | server/procBuilder.go:64-134 | the documents' jobs only append to the items so far |
| Planner.BuildItems | server/procBuilder.go:57-139 | a successful plan is closed under dependencies |
| Planner.PlanPids | server/procBuilder.go:62-132 | PIDs strictly increase along the plan, are at least 1, and each item is its own group, across matrix legs too |
| Planner.PlanItemsAreCompiledJobs | server/procBuilder.go:57-139 | every planned item is the compiled job of some document and one of its axes at the item's PID, named after the document, with at least one stage, skipped exactly when the branch filter rejects the branch |
| Planner.PlanSucceedsWithoutErrors | server/procBuilder.go:57-139 | when matrix parsing, substitution, parsing and linting never fail, the plan succeeds |
| Listing.AxesOf | server/procBuilder.go:64-72 | succeeds exactly when every document's matrix parses, and then holds each document's axes, in document order |
| Listing.KeptItems | server/procBuilder.go:116-131 | the items of the first jobs number exactly the PIDs those jobs used up |
| Listing.FlatJobsInNameOrder | server/procBuilder.go:60-74 | with documents sorted by name, the document names along the listing never decrease |
| Listing.FlatJobsGroupDocuments | server/procBuilder.go:64-74 | each document's jobs sit together, one per axis in axis order, right after the jobs of the documents before it |
| Listing.ListingHoldsEveryJob | server/procBuilder.go:64-74 | every axis of every document is a job of the listing |
| Listing.PidAtIncreases | server/procBuilder.go:62-131 | PIDs never go down along the listing, and go up past every job that produced an item |
| Listing.KeptItemAt | server/procBuilder.go:116-131 | the item a job produced is among the kept items, at the position of its PID |
| Listing.KeptItemOrigin | server/procBuilder.go:116-131 | every kept item is the item of a job that produced one, at the PID of its position |
| Listing.EnumerateAxesRunsJobs | server/procBuilder.go:74-133 | the loop over one document's axes runs that document's jobs in axis order, PID by PID |
| Listing.RunJobsAppend | server/procBuilder.go:64-134 | two job lists run back to back: the first one's error aborts, otherwise the second starts at the PID and with the items the first leaves |
| Listing.EnumerateDocsRunsJobs | server/procBuilder.go:64-134 | the loop over documents runs their flat listing, document after document |
| Listing.RunJobsAsListed | server/procBuilder.go:62-132 | the listing run from any job on succeeds exactly when every later job succeeds at its assigned PID, and then holds the listing's kept items |
| Listing.EnumerateDocsFailsOnMatrix | server/procBuilder.go:66-69 | a document whose matrix does not parse fails the enumeration, whatever ran before it |
| Listing.PlanRunsListing | server/procBuilder.go:57-134 | the enumeration from PID 1 succeeds exactly when the listing exists and each of its jobs succeeds at its PID, and then holds the kept items |
| Listing.PlanSucceedsExactlyWhenJobsDo | server/procBuilder.go:57-139 | the listing exists exactly when every matrix parses; the plan succeeds exactly when, in addition, every job succeeds at the PID the listing assigns it |
| Listing.PlanIsPrunedListing | server/procBuilder.go:57-139 | a successful plan is the listing's kept items, pruned |
| Listing.PlanFollowsListing | server/procBuilder.go:57-139 | along a successful plan's listing documents come in name order, each item carries its job's PID, and a producing job's PID is below every later job's |
| Listing.PlanCoversEveryJob | server/procBuilder.go:57-139 | a successful plan ran every axis of every document, each at its assigned PID, without error; a produced item is missing only when pruning removed its whole name |
| Scenarios.PruneCascadeOfThree | server/procBuilder.go:141-164 | of three distinct names where the first needs the second and the second needs a missing name, only the third item survives |
| Scenarios.PruneCascadeExample | server/procBuilder.go:141-164 | `deploy` needs `test`, which needs an undefined `lint`: only `docs` is kept |
| Scenarios.PruneMatrixLegsExample | server/procBuilder.go:141-164 | two matrix legs share a name; one leg's missing dependency removes both |
| Scenarios.FlattenExample | server/procBuilder.go:250-284 | a two-item build: item processes first, then the steps numbered 3, 4 (grouped under 3) and 5, the last inheriting its item's skip |

## Left out

- The random compiler prefix (`procID` and `rand.Int()`) is left out: it is random and only names containers. The process ID field of a new process is therefore never read.
- The server-wide pipeline configuration (privileged images, resource limits, volumes, networks) is left out: it is global state. The options `WithProxy` and `WithLocal(false)` are left out too.
- The host parsed from the link in `metadataFromStruct` is left out, because `url.Parse` is foreign code. So are the metadata fields other than the job number, the job matrix and the system record, which only the collaborator environments read.
- The internals of the matrix parser, placeholder substitution, pipeline parser, linter, branch matcher and compiler are left out; they are collaborator functions.
- The exact `%q` quoting is left out; it is a collaborator. Only the absence of a raw newline is stated, and only under a stated assumption on that collaborator.
- The OAuth client in `remote/gitea/gitea_oauth.go` is left out: it plays no part in planning.
- DocOrder.SortByName: Go's `sort.Sort` is not stable. Documents with equal names may come out in either order, so only sortedness and permutation are stated. The model sorts stably.
- A missing netrc record, which makes the source dereference nil, is left out: the model always has one.
- How the compiler merges its two environments is left out: that is compiler internal. Only their order is stated.
- Planner.BuildItems: its own contract states only that the plan is closed under dependencies. Its order, PIDs and error cases are stated against the listing by `Listing.PlanIsPrunedListing`, `Listing.PlanFollowsListing` and `Listing.PlanSucceedsExactlyWhenJobsDo`.
- Planner.EnumerateAxes: its own contract states only that items are appended, at most one per axis. The exact run is stated by `Listing.EnumerateAxesRunsJobs`.
- Planner.EnumerateDocs: its own contract states only that items are appended. The exact run is stated by `Listing.EnumerateDocsRunsJobs` and `Listing.RunJobsAsListed`.
