/**
 * The environment check of lib/env.ts: the required and optional variable lists,
 * `validateEnv` and what the module does when it is loaded. The process environment
 * is a map from names to values; a throw is the `Thrown` outcome and the console
 * warning is carried in the result.
 */
module Env {
  import opened Wrappers
  import opened Seqs
  import opened Strings

  const Required: seq<string> := ["DATABASE_URL", "NEXTAUTH_URL", "NEXTAUTH_SECRET"]
  const Optional: seq<string> := ["GOOGLE_CLIENT_ID", "GOOGLE_CLIENT_SECRET"]

  const RequiredPrefix := "Missing required environment variables: "
  const RequiredSuffix := "\nPlease check your .env file and make sure all required variables are set."
  const OptionalPrefix := "⚠️  Optional environment variables not set: "
  const OptionalSuffix := "\nSome features may not be available."

  /** `!process.env[v]`: the variable is missing or empty. */
  predicate IsUnset(env: map<string, string>, v: string) {
    v !in env || env[v] == ""
  }

  /** `process.env.NODE_ENV === 'production'`. */
  predicate IsProduction(env: map<string, string>) {
    "NODE_ENV" in env && env["NODE_ENV"] == "production"
  }

  /** The unset variables among `names`, in the order of `names`. */
  function MissingOf(env: map<string, string>, names: seq<string>): (r: seq<string>)
    ensures forall v :: v in r <==> v in names && IsUnset(env, v)
  {
    FilterMembers(names, v => IsUnset(env, v));
    Filter(names, v => IsUnset(env, v))
  }

  /** The missing required variables are listed in declaration order. */
  lemma RequiredMissingInOrder(env: map<string, string>)
    ensures MissingOf(env, Required) ==
      (if IsUnset(env, "DATABASE_URL") then ["DATABASE_URL"] else []) +
      (if IsUnset(env, "NEXTAUTH_URL") then ["NEXTAUTH_URL"] else []) +
      (if IsUnset(env, "NEXTAUTH_SECRET") then ["NEXTAUTH_SECRET"] else [])
  {
    var p := v => IsUnset(env, v);
    assert Required[..1] == [] + ["DATABASE_URL"];
    assert Required[..2] == Required[..1] + ["NEXTAUTH_URL"];
    assert Required == Required[..2] + ["NEXTAUTH_SECRET"];
    FilterSnoc([], "DATABASE_URL", p);
    FilterSnoc(Required[..1], "NEXTAUTH_URL", p);
    FilterSnoc(Required[..2], "NEXTAUTH_SECRET", p);
  }

  /** What `validateEnv` does: throw with a message, or return, possibly after a warning. */
  datatype Validation = Thrown(message: string) | Passed(warning: Option<string>)

  /** The outcome of `validateEnv` for an environment. */
  function Validate(env: map<string, string>): (r: Validation)
    ensures r.Thrown? <==> exists v :: v in Required && IsUnset(env, v)
    ensures r.Thrown? ==> r.message == RequiredPrefix + Join(MissingOf(env, Required), ", ") + RequiredSuffix
    ensures r.Passed? ==> (r.warning.Some? <==> (exists v :: v in Optional && IsUnset(env, v)) && !IsProduction(env))
    ensures r.Passed? && r.warning.Some? ==>
      r.warning.value == OptionalPrefix + Join(MissingOf(env, Optional), ", ") + OptionalSuffix
  {
    var missing := MissingOf(env, Required);
    if missing != [] then
      assert missing[0] in missing;
      Thrown(RequiredPrefix + Join(missing, ", ") + RequiredSuffix)
    else
      var missingOptional := MissingOf(env, Optional);
      assert missingOptional != [] ==> missingOptional[0] in missingOptional;
      if missingOptional != [] && !IsProduction(env) then
        Passed(Some(OptionalPrefix + Join(missingOptional, ", ") + OptionalSuffix))
      else Passed(None)
  }

  /** The optional variables never decide whether `validateEnv` throws. */
  lemma OptionalNeverThrows(env: map<string, string>, v: string, value: string)
    requires v in Optional
    ensures Validate(env[v := value]).Thrown? == Validate(env).Thrown?
  {
    assert forall w :: w in Required ==> w != v;
    assert forall w :: w in Required ==> (IsUnset(env[v := value], w) <==> IsUnset(env, w));
  }

  /** The error names every missing required variable. */
  lemma MessageNamesMissing(env: map<string, string>, v: string)
    requires v in Required && IsUnset(env, v)
    ensures Validate(env).Thrown?
    ensures Includes(Validate(env).message, v)
  {
    var missing := MissingOf(env, Required);
    var i :| 0 <= i < |missing| && missing[i] == v;
    JoinHasParts(missing, ", ", i);
    IncludesInContext(RequiredPrefix, Join(missing, ", "), RequiredSuffix, v);
  }

  /** The `for ... of` loops: collect the unset variables of `names`, in order. */
  method CollectUnset(env: map<string, string>, names: seq<string>) returns (missing: seq<string>)
    ensures missing == MissingOf(env, names)
  {
    missing := [];
    for i := 0 to |names|
      invariant missing == Filter(names[..i], v => IsUnset(env, v))
    {
      FilterSnoc(names[..i], names[i], v => IsUnset(env, v));
      assert names[..i + 1] == names[..i] + [names[i]];
      if IsUnset(env, names[i]) {
        missing := missing + [names[i]];
      }
    }
    assert names[..|names|] == names;
  }

  /** `validateEnv`. */
  method ValidateEnv(env: map<string, string>) returns (r: Validation)
    ensures r == Validate(env)
  {
    var missing := CollectUnset(env, Required);
    if |missing| > 0 {
      return Thrown(RequiredPrefix + Join(missing, ", ") + RequiredSuffix);
    }
    var missingOptional := CollectUnset(env, Optional);
    if |missingOptional| > 0 && !IsProduction(env) {
      r := Passed(Some(OptionalPrefix + Join(missingOptional, ", ") + OptionalSuffix));
    } else {
      r := Passed(None);
    }
  }

  /** What loading the module leaves behind: nothing, a warning, or a logged (caught) failure. */
  datatype LoadLog = NotRun | Ran(warning: Option<string>) | Caught(message: string)

  /** Loading the module: validate only outside production, and log a failure instead of throwing. */
  method ModuleLoad(env: map<string, string>) returns (log: LoadLog)
    ensures IsProduction(env) <==> log.NotRun?
    ensures !IsProduction(env) && Validate(env).Thrown? ==> log == Caught(Validate(env).message)
    ensures !IsProduction(env) && Validate(env).Passed? ==> log == Ran(Validate(env).warning)
  {
    if IsProduction(env) {
      return NotRun;
    }
    var r := ValidateEnv(env);
    match r
    case Thrown(m) => log := Caught(m);
    case Passed(w) => log := Ran(w);
  }
}
