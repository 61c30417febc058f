/**
 * pkg/env: the deployment environment, read once from the ENVIRONMENT variable when
 * the package is initialised. The captured value is an immutable Environment; every
 * query below reads only that value, so later changes to the process environment
 * are invisible to it.
 */
module Env {
  datatype Environment = Environment(captured: string)

  /** Package initialisation: os.Getenv("ENVIRONMENT") (the empty string when unset). */
  function Capture(processValue: string): (e: Environment)
    ensures GetEnvironment(e) == processValue
  {
    Environment(processValue)
  }

  /** GetEnvironment: the captured value is all there is to the environment. */
  function GetEnvironment(e: Environment): (s: string)
    ensures Environment(s) == e
  {
    e.captured
  }

  predicate IsDevelopment(e: Environment)
    ensures IsDevelopment(e) <==> GetEnvironment(e) == "development"
    ensures IsDevelopment(e) ==> !IsProduction(e) && !IsLocal(e)
  {
    e.captured == "development"
  }

  predicate IsProduction(e: Environment)
    ensures IsProduction(e) <==> GetEnvironment(e) == "production"
    ensures IsProduction(e) ==> !IsLocal(e)
  {
    e.captured == "production"
  }

  /** IsRemote: production or development, never local. */
  predicate IsRemote(e: Environment)
    ensures IsRemote(e) <==> GetEnvironment(e) == "production" || GetEnvironment(e) == "development"
    ensures IsRemote(e) ==> !IsLocal(e)
  {
    IsProduction(e) || IsDevelopment(e)
  }

  predicate IsLocal(e: Environment)
    ensures IsLocal(e) <==> GetEnvironment(e) == "local"
    ensures GetEnvironment(e) == "" ==> !IsLocal(e)
  {
    e.captured == "local"
  }

  /** IsRemote holds exactly for "production" and "development". */
  lemma RemoteIffProductionOrDevelopment(e: Environment)
    ensures IsRemote(e) <==> GetEnvironment(e) in {"production", "development"}
  {
  }

  /** An environment is never both local and remote, and the empty (unset) environment is neither. */
  lemma LocalAndRemoteExclusive(e: Environment)
    ensures !(IsLocal(e) && IsRemote(e))
    ensures GetEnvironment(e) == "" ==> !IsLocal(e) && !IsRemote(e)
  {
  }
}
