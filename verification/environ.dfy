/** The substitution environment of one job and the lookup callback the
    placeholder substitution calls (server/procBuilder.go, environmentVariables
    and envsubst_). */
module Environ {
  import opened Model

  /** The environment of a job: the metadata environment, overridden by the legacy
      (prefixed) metadata environment, overridden by the job's matrix axis. */
  function EnvironmentVariables(base: Env, legacy: Env, axis: Env): (r: Env)
    ensures r.Keys == base.Keys + legacy.Keys + axis.Keys
    ensures forall k :: k in axis ==> r[k] == axis[k]
    ensures forall k :: k in legacy && k !in axis ==> r[k] == legacy[k]
    ensures forall k :: k in base && k !in legacy && k !in axis ==> r[k] == base[k]
  {
    base + legacy + axis
  }

  /** The value substituted for placeholder `name`: an unknown name reads as the
      empty string, and a value spanning several lines is replaced by its quoted
      form so that the substituted document stays well formed. */
  function LookupValue(environ: Env, quote: string -> string, name: string): (r: string)
    ensures name !in environ ==> r == ""
    ensures name in environ && '\n' !in environ[name] ==> r == environ[name]
    ensures name in environ && '\n' in environ[name] ==> r == quote(environ[name])
  {
    var env := if name in environ then environ[name] else "";
    if '\n' in env then quote(env) else env
  }

  /** The callback handed to the substitution engine. */
  function Lookup(environ: Env, quote: string -> string): string -> string
  {
    name => LookupValue(environ, quote, name)
  }

  /** Whatever a placeholder names, the text put in its place holds no raw newline,
      as long as quoting never produces one. */
  lemma LookupHasNoRawNewline(environ: Env, quote: string -> string, name: string)
    requires forall s :: '\n' !in quote(s)
    ensures '\n' !in Lookup(environ, quote)(name)
  {
  }

  /** A value that already fits on one line is substituted verbatim, whatever the
      quoting function does. */
  lemma LookupSingleLineVerbatim(environ: Env, quote: string -> string, quote': string -> string, name: string)
    requires name in environ && '\n' !in environ[name]
    ensures Lookup(environ, quote)(name) == Lookup(environ, quote')(name) == environ[name]
  {
  }
}
