/** The build planner proper (server/procBuilder.go, procBuilder.Build and
    toInternalRepresentation): the pipeline documents, in name order, are expanded
    into one job per matrix axis; each job is substituted, parsed, linted and
    compiled; jobs that compile to at least one stage become numbered build items;
    and items whose dependencies are missing are pruned.

    The matrix parser, the metadata environments, Go's %q quoting, the placeholder
    substitution engine, the pipeline parser, the linter, the branch matcher, the
    platform setter, the secret event matcher and the compiler are not part of this
    model; they are passed in as a `Collaborators` record of functions. */
module Planner {
  import opened Wrappers
  import opened Model
  import opened Paths
  import opened Environ
  import opened Credentials
  import opened DocOrder
  import opened Dependencies

  /** The inputs of one planning run. `netrc` is always present here. */
  datatype Context = Context(
    repo: Repo,
    curr: Build,
    last: Build,
    netrc: Netrc,
    secrets: seq<Secret>,
    registries: seq<Registry>,
    link: string,
    yamls: seq<Document>,
    envs: Env)

  /** The code the planner calls but that is outside this model. Errors are
      `Failure`s; the linter reports an error as `Some(message)`. */
  datatype Collaborators = Collaborators(
    parseMatrix: string -> Result<seq<Env>>,
    environ: Metadata -> Env,
    environLegacy: Metadata -> Env,
    quote: string -> string,
    substitute: (string, string -> string) -> Result<string>,
    parsePipeline: string -> Result<Pipeline>,
    lint: (Pipeline, bool) -> Option<string>,
    branchMatch: (Constraint, string) -> bool,
    setPlatform: (Metadata, string) -> Metadata,
    secretMatch: (Secret, string) -> bool,
    compile: (Pipeline, CompileOptions) -> Config)

  /** What the compiler is configured with for one job. `environ` is the job's
      substitution environment and `extraEnviron` the build's extra variables, in
      that order; the netrc credentials go only to private repositories. */
  datatype CompileOptions = CompileOptions(
    environ: Env,
    extraEnviron: Env,
    netrc: Option<Netrc>,
    registries: seq<CompilerRegistry>,
    secrets: seq<CompilerSecret>,
    workspaceBase: string,
    workspaceLink: string,
    metadata: Metadata)

  const WorkspaceBase := "/drone"
  const DefaultArch := "linux/amd64"

  /** The metadata of one job: the job number is the process PID and the job's
      matrix is the process environment. */
  function MetadataFor(ctx: Context, proc: Proc): (m: Metadata)
    ensures m.job.number == proc.pid && m.job.matrix == proc.environ
  {
    Metadata(ctx.repo, ctx.curr, ctx.last, Job(proc.pid, proc.environ), System("drone", ctx.link, DefaultArch))
  }

  /** The matrix axes of a document; a document without a matrix runs once, with
      an empty axis. */
  function JobAxes(col: Collaborators, doc: Document): (r: Result<seq<Env>>)
    ensures r.Failure? <==> col.parseMatrix(doc.data).Failure?
    ensures r.Success? ==> |r.value| > 0
    ensures r.Success? && |col.parseMatrix(doc.data).value| > 0 ==> r.value == col.parseMatrix(doc.data).value
    ensures r.Success? && |col.parseMatrix(doc.data).value| == 0 ==> r.value == [map[]]
  {
    var axes :- col.parseMatrix(doc.data);
    if |axes| == 0 then Success([map[]]) else Success(axes)
  }

  /** The process a job starts with, before its branch filter is applied. */
  function JobProc(ctx: Context, doc: Document, axis: Env, pid: int): Proc {
    Proc(ctx.curr.id, pid, 0, pid, SanitizePath(doc.name, ctx.repo.config), Pending, axis)
  }

  /** The substitution environment of a job. */
  function JobEnviron(ctx: Context, col: Collaborators, doc: Document, axis: Env, pid: int): Env {
    var metadata := MetadataFor(ctx, JobProc(ctx, doc, axis, pid));
    EnvironmentVariables(col.environ(metadata), col.environLegacy(metadata), axis)
  }

  /** The parsed pipeline of a job: the document with its placeholders substituted
      from the job's environment, then parsed. */
  function JobPipeline(ctx: Context, col: Collaborators, doc: Document, axis: Env, pid: int): Result<Pipeline> {
    var environ := JobEnviron(ctx, col, doc, axis, pid);
    var substituted :- col.substitute(doc.data, Lookup(environ, col.quote));
    col.parsePipeline(substituted)
  }

  /** The compiler configuration of a job. */
  function JobOptions(ctx: Context, col: Collaborators, environ: Env, metadata: Metadata): CompileOptions
  {
    CompileOptions(
      environ,
      ctx.envs,
      if ctx.repo.isPrivate then Some(ctx.netrc) else None,
      ConvertRegistries(ctx.registries),
      FilterSecrets(ctx.secrets, ctx.curr.event, col.secretMatch),
      WorkspaceBase,
      ctx.repo.link,
      metadata)
  }

  /** The compiler sees the job's environment and then the build's extra variables,
      the netrc credentials only for a private repository, every registry, exactly
      the secrets whose event filter admits the build's event, and the workspace
      under /drone at the repository's link. */
  lemma JobOptionsContents(ctx: Context, col: Collaborators, environ: Env, metadata: Metadata)
    ensures var o := JobOptions(ctx, col, environ, metadata);
            && o.environ == environ && o.extraEnviron == ctx.envs
            && (o.netrc.Some? <==> ctx.repo.isPrivate)
            && (o.netrc.Some? ==> o.netrc.value == ctx.netrc)
            && |o.registries| == |ctx.registries|
            && (forall s :: s in ctx.secrets && col.secretMatch(s, ctx.curr.event) ==> ToCompilerSecret(s) in o.secrets)
            && (forall c :: c in o.secrets ==>
                  exists s :: s in ctx.secrets && col.secretMatch(s, ctx.curr.event) && c == ToCompilerSecret(s))
            && o.workspaceBase == "/drone" && o.workspaceLink == ctx.repo.link
            && o.metadata == metadata
  {
  }

  /** The compiled configuration of a job whose pipeline parsed. */
  function JobConfig(ctx: Context, col: Collaborators, doc: Document, axis: Env, pid: int, parsed: Pipeline): Config {
    var metadata := MetadataFor(ctx, JobProc(ctx, doc, axis, pid));
    var environ := JobEnviron(ctx, col, doc, axis, pid);
    col.compile(parsed, JobOptions(ctx, col, environ, col.setPlatform(metadata, parsed.platform)))
  }

  /** One job of the plan: `Success(Some(item))` when it compiles to at least one
      stage, `Success(None)` when it compiles to none, and the first error of
      substitution, parsing or linting otherwise. */
  function CompileJob(ctx: Context, col: Collaborators, doc: Document, axis: Env, pid: int): (r: Result<Option<Item>>)
    ensures r.Success? ==> JobPipeline(ctx, col, doc, axis, pid).Success?
                           && col.lint(JobPipeline(ctx, col, doc, axis, pid).value, ctx.repo.isTrusted).None?
    ensures r.Success? && r.value.Some? ==>
              && r.value.value.proc.pid == pid && r.value.value.proc.pgid == pid
              && r.value.value.proc.name == SanitizePath(doc.name, ctx.repo.config)
              && |r.value.value.config.stages| > 0
  {
    var proc := JobProc(ctx, doc, axis, pid);
    var metadata := MetadataFor(ctx, proc);
    var parsed :- JobPipeline(ctx, col, doc, axis, pid);
    var lintError := col.lint(parsed, ctx.repo.isTrusted);
    if lintError.Some? then Failure(lintError.value)
    else
      var state := if col.branchMatch(parsed.branches, ctx.curr.branch) then Pending else Skipped;
      var platformed := col.setPlatform(metadata, parsed.platform);
      var ir := JobConfig(ctx, col, doc, axis, pid, parsed);
      if |ir.stages| == 0 then Success(None)
      else
        var labels := if parsed.labels.Some? then parsed.labels.value else map[];
        Success(Some(Item(proc.(state := state), platformed.sys.arch, labels, parsed.dependsOn, parsed.runsOn, ir)))
  }

  /** How a job ends: an error of substitution or parsing, then a lint error, fail
      the job; otherwise it succeeds, and yields an item exactly when the compiled
      configuration has a stage. */
  lemma CompileJobOutcome(ctx: Context, col: Collaborators, doc: Document, axis: Env, pid: int)
    ensures var r := CompileJob(ctx, col, doc, axis, pid);
            var parsed := JobPipeline(ctx, col, doc, axis, pid);
            && (parsed.Failure? ==> r.Failure?)
            && (parsed.Success? ==>
                  var lintError := col.lint(parsed.value, ctx.repo.isTrusted);
                  && (lintError.Some? ==> r == Failure(lintError.value))
                  && (lintError.None? ==> r.Success?)
                  && (r.Success? ==> (r.value.None? <==> |JobConfig(ctx, col, doc, axis, pid, parsed.value).stages| == 0)))
  {
  }

  /** The item of a job that compiled to at least one stage: the job's process with
      PID and group `pid`, no parent, named after the document's sanitized path,
      with the axis as environment, skipped exactly when the pipeline's branch filter
      rejects the build's branch and pending otherwise; the pipeline's labels (none
      become an empty map), dependencies and agent filter; and the compiled stages. */
  lemma CompiledItem(ctx: Context, col: Collaborators, doc: Document, axis: Env, pid: int)
    ensures var r := CompileJob(ctx, col, doc, axis, pid);
            r.Success? && r.value.Some? ==>
              var it := r.value.value;
              var parsed := JobPipeline(ctx, col, doc, axis, pid).value;
              && JobPipeline(ctx, col, doc, axis, pid).Success?
              && it.proc.buildId == ctx.curr.id
              && it.proc.pid == pid && it.proc.pgid == pid && it.proc.ppid == 0
              && it.proc.name == SanitizePath(doc.name, ctx.repo.config)
              && it.proc.environ == axis
              && (it.proc.state == Skipped <==> !col.branchMatch(parsed.branches, ctx.curr.branch))
              && (it.proc.state == Skipped || it.proc.state == Pending)
              && it.platform == col.setPlatform(MetadataFor(ctx, JobProc(ctx, doc, axis, pid)), parsed.platform).sys.arch
              && it.config == JobConfig(ctx, col, doc, axis, pid, parsed)
              && |it.config.stages| > 0
              && (parsed.labels.Some? ==> it.labels == parsed.labels.value)
              && (parsed.labels.None? ==> it.labels == map[])
              && it.dependsOn == parsed.dependsOn
              && it.runsOn == parsed.runsOn
  {
  }

  /** A job compiler: given a document, an axis and the next free PID, the job's
      outcome. The planner's is `CompileJob`; the enumeration below is stated for
      any job compiler that numbers its item with the PID it is given. */
  type JobCompiler = (Document, Env, int) -> Result<Option<Item>>

  function JobsOf(ctx: Context, col: Collaborators): JobCompiler {
    (doc, axis, pid) => CompileJob(ctx, col, doc, axis, pid)
  }

  /** A job's item, if any, carries the PID it was given as PID and group id. */
  ghost predicate NumbersItems(job: JobCompiler) {
    forall doc, axis, pid :: job(doc, axis, pid).Success? && job(doc, axis, pid).value.Some? ==>
      job(doc, axis, pid).value.value.proc.pid == pid && job(doc, axis, pid).value.value.proc.pgid == pid
  }

  /** The jobs of one document, one per axis, appended to `items` with PIDs numbered
      on from `pid`; a job that compiles to no stage is dropped and does not use up
      a PID; the first error ends the enumeration. */
  function EnumerateAxes(job: JobCompiler, doc: Document, axes: seq<Env>, pid: int, items: seq<Item>): (r: Result<seq<Item>>)
    ensures r.Success? ==> |items| <= |r.value| <= |items| + |axes| && r.value[..|items|] == items
    decreases |axes|
  {
    if |axes| == 0 then Success(items)
    else
      var compiled :- job(doc, axes[0], pid);
      if compiled.Some? then EnumerateAxes(job, doc, axes[1..], pid + 1, items + [compiled.value])
      else EnumerateAxes(job, doc, axes[1..], pid, items)
  }

  /** The jobs of all documents, in the given order, appended to `items` with PIDs
      numbered on from `pid`. */
  function EnumerateDocs(col: Collaborators, job: JobCompiler, docs: seq<Document>, pid: int, items: seq<Item>): (r: Result<seq<Item>>)
    ensures r.Success? ==> |items| <= |r.value| && r.value[..|items|] == items
    decreases |docs|
  {
    if |docs| == 0 then Success(items)
    else
      var axes :- JobAxes(col, docs[0]);
      var next :- EnumerateAxes(job, docs[0], axes, pid, items);
      EnumerateDocs(col, job, docs[1..], pid + (|next| - |items|), next)
  }

  /** The build items of a planning run: the documents in name order, enumerated
      from PID 1, then pruned of items with missing dependencies. */
  function BuildItems(ctx: Context, col: Collaborators): (r: Result<seq<Item>>)
    ensures r.Success? ==> Closed(r.value)
  {
    var items :- EnumerateDocs(col, JobsOf(ctx, col), SortByName(ctx.yamls), 1, []);
    Success(Prune(items))
  }

  /** Items numbered consecutively from `start`, each its own group. */
  ghost predicate Numbered(items: seq<Item>, start: int) {
    forall i :: 0 <= i < |items| ==> items[i].proc.pid == start + i && items[i].proc.pgid == start + i
  }

  /** The PIDs strictly increase along the sequence. */
  ghost predicate IncreasingPids(items: seq<Item>) {
    forall i, j :: 0 <= i < j < |items| ==> items[i].proc.pid < items[j].proc.pid
  }

  lemma NumberedSnoc(items: seq<Item>, x: Item, start: int)
    requires Numbered(items, start)
    requires x.proc.pid == start + |items| && x.proc.pgid == start + |items|
    ensures Numbered(items + [x], start)
  {
  }

  /** The kept jobs of one document continue the numbering: with `pid` the next
      free PID, they get `pid`, `pid + 1`, … in axis order, each its own group. */
  lemma {:induction false} EnumerateAxesNumbered(job: JobCompiler, doc: Document, axes: seq<Env>, pid: int, items: seq<Item>, start: int)
    requires NumbersItems(job)
    requires Numbered(items, start) && pid == start + |items|
    ensures var r := EnumerateAxes(job, doc, axes, pid, items);
            r.Success? ==> Numbered(r.value, start)
    decreases |axes|
  {
    if |axes| > 0 {
      var compiled := job(doc, axes[0], pid);
      if compiled.Success? {
        if compiled.value.Some? {
          NumberedSnoc(items, compiled.value.value, start);
          EnumerateAxesNumbered(job, doc, axes[1..], pid + 1, items + [compiled.value.value], start);
        } else {
          EnumerateAxesNumbered(job, doc, axes[1..], pid, items, start);
        }
      }
    }
  }

  /** The kept jobs of all documents continue the numbering in document and axis
      order, each its own group. */
  lemma {:induction false} EnumerateDocsNumbered(col: Collaborators, job: JobCompiler, docs: seq<Document>, pid: int, items: seq<Item>, start: int)
    requires NumbersItems(job)
    requires Numbered(items, start) && pid == start + |items|
    ensures var r := EnumerateDocs(col, job, docs, pid, items);
            r.Success? ==> Numbered(r.value, start)
    decreases |docs|
  {
    if |docs| > 0 {
      var axes := JobAxes(col, docs[0]);
      if axes.Success? {
        var next := EnumerateAxes(job, docs[0], axes.value, pid, items);
        if next.Success? {
          EnumerateAxesNumbered(job, docs[0], axes.value, pid, items, start);
          EnumerateDocsNumbered(col, job, docs[1..], pid + (|next.value| - |items|), next.value, start);
        }
      }
    }
  }

  /** The planner's job compiler numbers its items with the PID it is given. */
  lemma JobsOfNumbersItems(ctx: Context, col: Collaborators)
    ensures NumbersItems(JobsOf(ctx, col))
  {
    forall doc, axis, pid
      ensures var r := JobsOf(ctx, col)(doc, axis, pid);
              r.Success? && r.value.Some? ==> r.value.value.proc.pid == pid && r.value.value.proc.pgid == pid
    {
      CompiledItem(ctx, col, doc, axis, pid);
    }
  }

  /** Dropping items keeps increasing PIDs increasing. */
  lemma {:induction false} KeepNamedIncreasing(items: seq<Item>, names: set<string>)
    requires IncreasingPids(items)
    ensures IncreasingPids(KeepNamed(items, names))
  {
    if |items| > 0 {
      KeepNamedIncreasing(items[1..], names);
      var rest := KeepNamed(items[1..], names);
      if items[0].proc.name in names {
        assert KeepNamed(items, names) == [items[0]] + rest;
        forall x | x in rest
          ensures items[0].proc.pid < x.proc.pid
        {
          var i :| 0 <= i < |items[1..]| && items[1..][i] == x;
          assert items[i + 1] == x;
        }
      } else {
        assert KeepNamed(items, names) == rest;
      }
    }
  }

  /** Every item of a plan has its own group, and PIDs strictly increase along the
      plan, starting from 1; items from different matrix legs of one document share
      a name but never a PID. */
  lemma PlanPids(ctx: Context, col: Collaborators)
    ensures var r := BuildItems(ctx, col);
            r.Success? ==>
              && IncreasingPids(r.value)
              && forall x :: x in r.value ==> x.proc.pgid == x.proc.pid && x.proc.pid >= 1
  {
    var docs := SortByName(ctx.yamls);
    var all := EnumerateDocs(col, JobsOf(ctx, col), docs, 1, []);
    if all.Success? {
      JobsOfNumbersItems(ctx, col);
      EnumerateDocsNumbered(col, JobsOf(ctx, col), docs, 1, [], 1);
      PruneRestrictsByName(all.value);
      KeepNamedIncreasing(all.value, Names(Prune(all.value)));
    }
  }

  /** Every item the jobs of one document add is the outcome of one of its axes, at
      the item's own PID. */
  lemma {:induction false} EnumerateAxesOrigin(job: JobCompiler, doc: Document, axes: seq<Env>, pid: int, items: seq<Item>)
    requires NumbersItems(job)
    ensures var r := EnumerateAxes(job, doc, axes, pid, items);
            r.Success? ==> forall x :: x in r.value ==>
              x in items || exists a :: a in axes && job(doc, a, x.proc.pid) == Success(Some(x))
    decreases |axes|
  {
    if |axes| > 0 {
      var compiled := job(doc, axes[0], pid);
      if compiled.Success? {
        var next := if compiled.value.Some? then pid + 1 else pid;
        var more := if compiled.value.Some? then items + [compiled.value.value] else items;
        EnumerateAxesOrigin(job, doc, axes[1..], next, more);
        var r := EnumerateAxes(job, doc, axes[1..], next, more);
        if r.Success? {
          forall x | x in r.value && x !in items
            ensures exists a :: a in axes && job(doc, a, x.proc.pid) == Success(Some(x))
          {
            if x in more {
              assert job(doc, axes[0], x.proc.pid) == Success(Some(x));
            } else {
              var a :| a in axes[1..] && job(doc, a, x.proc.pid) == Success(Some(x));
              assert a in axes;
            }
          }
        }
      }
    }
  }

  /** `x` is the outcome, at its own PID, of some axis of one of the documents. */
  ghost predicate CompiledFrom(col: Collaborators, job: JobCompiler, docs: seq<Document>, x: Item) {
    exists d, a :: d in docs && JobAxes(col, d).Success? && a in JobAxes(col, d).value
                   && job(d, a, x.proc.pid) == Success(Some(x))
  }

  /** Every item the jobs of all documents add is the outcome of one axis of one of
      them, at the item's own PID. */
  lemma {:induction false} EnumerateDocsOrigin(col: Collaborators, job: JobCompiler, docs: seq<Document>, pid: int, items: seq<Item>)
    requires NumbersItems(job)
    ensures var r := EnumerateDocs(col, job, docs, pid, items);
            r.Success? ==> forall x :: x in r.value ==> x in items || CompiledFrom(col, job, docs, x)
    decreases |docs|
  {
    if |docs| > 0 {
      var axes := JobAxes(col, docs[0]);
      if axes.Success? {
        var next := EnumerateAxes(job, docs[0], axes.value, pid, items);
        if next.Success? {
          var npid := pid + (|next.value| - |items|);
          EnumerateAxesOrigin(job, docs[0], axes.value, pid, items);
          EnumerateDocsOrigin(col, job, docs[1..], npid, next.value);
          var r := EnumerateDocs(col, job, docs[1..], npid, next.value);
          if r.Success? {
            forall x | x in r.value && x !in items
              ensures CompiledFrom(col, job, docs, x)
            {
              if x in next.value {
                var a :| a in axes.value && job(docs[0], a, x.proc.pid) == Success(Some(x));
                assert docs[0] in docs;
              } else {
                assert CompiledFrom(col, job, docs[1..], x);
                var d, a :| d in docs[1..] && JobAxes(col, d).Success? && a in JobAxes(col, d).value
                            && job(d, a, x.proc.pid) == Success(Some(x));
                assert d in docs;
              }
            }
          }
        }
      }
    }
  }

  /** Every item of a plan is a compiled job of one of the repository's documents:
      named after the document's sanitized path, carrying its axis as environment,
      with at least one stage, and skipped exactly when the pipeline's branch filter
      rejects the build's branch. */
  lemma PlanItemsAreCompiledJobs(ctx: Context, col: Collaborators)
    ensures var r := BuildItems(ctx, col);
            r.Success? ==> forall x :: x in r.value ==>
              exists d, a :: && d in ctx.yamls && JobAxes(col, d).Success? && a in JobAxes(col, d).value
                             && CompileJob(ctx, col, d, a, x.proc.pid) == Success(Some(x))
                             && x.proc.name == SanitizePath(d.name, ctx.repo.config)
                             && x.proc.environ == a
                             && |x.config.stages| > 0
                             && JobPipeline(ctx, col, d, a, x.proc.pid).Success?
                             && (x.proc.state == Skipped <==>
                                   !col.branchMatch(JobPipeline(ctx, col, d, a, x.proc.pid).value.branches, ctx.curr.branch))
  {
    var docs := SortByName(ctx.yamls);
    var job := JobsOf(ctx, col);
    var all := EnumerateDocs(col, job, docs, 1, []);
    if all.Success? {
      JobsOfNumbersItems(ctx, col);
      EnumerateDocsOrigin(col, job, docs, 1, []);
      forall x | x in Prune(all.value)
        ensures exists d, a :: && d in ctx.yamls && JobAxes(col, d).Success? && a in JobAxes(col, d).value
                               && CompileJob(ctx, col, d, a, x.proc.pid) == Success(Some(x))
                               && x.proc.name == SanitizePath(d.name, ctx.repo.config)
                               && x.proc.environ == a
                               && |x.config.stages| > 0
                               && JobPipeline(ctx, col, d, a, x.proc.pid).Success?
                               && (x.proc.state == Skipped <==>
                                     !col.branchMatch(JobPipeline(ctx, col, d, a, x.proc.pid).value.branches, ctx.curr.branch))
      {
        assert CompiledFrom(col, job, docs, x);
        var d, a :| d in docs && JobAxes(col, d).Success? && a in JobAxes(col, d).value
                    && job(d, a, x.proc.pid) == Success(Some(x));
        assert d in multiset(docs);
        CompiledItem(ctx, col, d, a, x.proc.pid);
      }
    }
  }

  /** Matrix parsing, substitution, parsing and linting never fail. */
  ghost predicate NeverFail(col: Collaborators) {
    && (forall s :: col.parseMatrix(s).Success?)
    && (forall s, f :: col.substitute(s, f).Success?)
    && (forall s :: col.parsePipeline(s).Success?)
    && (forall p, t :: col.lint(p, t).None?)
  }

  lemma {:induction false} EnumerateAxesSucceeds(job: JobCompiler, doc: Document, axes: seq<Env>, pid: int, items: seq<Item>)
    requires forall d, a, p :: job(d, a, p).Success?
    ensures EnumerateAxes(job, doc, axes, pid, items).Success?
    decreases |axes|
  {
    if |axes| > 0 {
      var compiled := job(doc, axes[0], pid);
      if compiled.value.Some? {
        EnumerateAxesSucceeds(job, doc, axes[1..], pid + 1, items + [compiled.value.value]);
      } else {
        EnumerateAxesSucceeds(job, doc, axes[1..], pid, items);
      }
    }
  }

  lemma {:induction false} EnumerateDocsSucceeds(col: Collaborators, job: JobCompiler, docs: seq<Document>, pid: int, items: seq<Item>)
    requires forall s :: col.parseMatrix(s).Success?
    requires forall d, a, p :: job(d, a, p).Success?
    ensures EnumerateDocs(col, job, docs, pid, items).Success?
    decreases |docs|
  {
    if |docs| > 0 {
      var axes := JobAxes(col, docs[0]);
      EnumerateAxesSucceeds(job, docs[0], axes.value, pid, items);
      var next := EnumerateAxes(job, docs[0], axes.value, pid, items);
      EnumerateDocsSucceeds(col, job, docs[1..], pid + (|next.value| - |items|), next.value);
    }
  }

  /** When matrix parsing, substitution, parsing and linting never fail, the plan
      succeeds: compiling cannot fail and dropping a job is not an error. */
  lemma PlanSucceedsWithoutErrors(ctx: Context, col: Collaborators)
    requires NeverFail(col)
    ensures BuildItems(ctx, col).Success?
  {
    forall d, a, p
      ensures JobsOf(ctx, col)(d, a, p).Success?
    {
      CompileJobOutcome(ctx, col, d, a, p);
    }
    EnumerateDocsSucceeds(col, JobsOf(ctx, col), SortByName(ctx.yamls), 1, []);
  }
}
