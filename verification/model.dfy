/** The records the build planner reads and writes: repositories, builds, processes,
    credentials, pipeline documents, parsed pipelines and compiled configurations. */
module Model {
  import opened Wrappers

  /** Environment variables, matrix axes and labels: string-to-string maps. */
  type Env = map<string, string>

  /** The process states of the data model. The planner only ever writes `Pending`
      and `Skipped`; the others can appear on processes a build already holds. */
  datatype Status = Pending | Running | Succeeded | Failed | Killed | Errored | Skipped | Blocked | Declined

  /** A process record. `pid` is unique within a build, `ppid` links a step to its
      top-level item (0 for a top-level item), `pgid` groups the steps of one stage. */
  datatype Proc = Proc(
    buildId: int,
    pid: int,
    ppid: int,
    pgid: int,
    name: string,
    state: Status,
    environ: Env)

  /** The fields of a build record the planner uses. */
  datatype Build = Build(id: int, branch: string, event: string, procs: seq<Proc>)

  /** The fields of a repository record the planner uses. `config` is the configured
      pipeline path (a file or a folder prefix). */
  datatype Repo = Repo(fullName: string, link: string, config: string, isTrusted: bool, isPrivate: bool)

  datatype Netrc = Netrc(login: string, password: string, machine: string)

  /** A repository secret. `events` is its event allow-list: the planner itself
      never reads it, the secret event matcher (`Planner.Collaborators`) does. */
  datatype Secret = Secret(name: string, value: string, images: seq<string>, events: seq<string>)

  datatype Registry = Registry(address: string, username: string, password: string, email: string)

  /** A secret as handed to the compiler: `images` is the image allow-list (the compiler calls it Match). */
  datatype CompilerSecret = CompilerSecret(name: string, value: string, images: seq<string>)

  datatype CompilerRegistry = CompilerRegistry(hostname: string, username: string, password: string, email: string)

  /** One pipeline configuration file fetched from the remote. */
  datatype Document = Document(name: string, data: string)

  /** A branch include/exclude constraint of a parsed pipeline. */
  datatype Constraint = Constraint(includes: seq<string>, excludes: seq<string>)

  /** The parts of a parsed pipeline the planner reads; `labels` is `None` when the
      document declares no labels at all. */
  datatype Pipeline = Pipeline(
    platform: string,
    branches: Constraint,
    labels: Option<Env>,
    dependsOn: seq<string>,
    runsOn: seq<string>)

  /** The compiled, backend-agnostic configuration: stages of steps. */
  datatype Step = Step(name: string, alias: string)
  datatype Stage = Stage(name: string, alias: string, steps: seq<Step>)
  datatype Config = Config(stages: seq<Stage>)

  /** The per-job metadata the substitution environment and the compiler are built from. */
  datatype Job = Job(number: int, matrix: Env)
  datatype System = System(name: string, link: string, arch: string)
  datatype Metadata = Metadata(repo: Repo, curr: Build, prev: Build, job: Job, sys: System)

  /** The planner's intermediate unit: one kept (document, axis) job after compilation. */
  datatype Item = Item(
    proc: Proc,
    platform: string,
    labels: Env,
    dependsOn: seq<string>,
    runsOn: seq<string>,
    config: Config)
}
