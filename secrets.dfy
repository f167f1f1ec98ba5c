/** The backend's secret lookup (`secrets.py`), with the process environment
    passed in as a map from variable names to values. */
module Secrets {
  import opened Wrappers
  import opened Text

  type Environ = map<string, string>

  function MissingMessage(name: string): string {
    "Missing required secret '" + name + "'. Set it in your environment or in backend/.env (local)."
  }

  /** `get_secret`: the variable's value, stripped, when that is non-empty;
      otherwise a ConfigError when the secret is required, else the default. */
  function GetSecret(env: Environ, name: string, required: bool, default: Option<string>): (r: Result<Option<string>>)
    ensures name in env && Trim(env[name]) != "" ==> r == Ok(Some(Trim(env[name])))
    ensures (name !in env || Trim(env[name]) == "") && required ==> r == Raise(ConfigErrorKind, MissingMessage(name))
    ensures (name !in env || Trim(env[name]) == "") && !required ==> r == Ok(default)
  {
    var value := if name in env then Some(Trim(env[name])) else None;
    if value.Some? && value.value != "" then Ok(value)
    else if required then Raise(ConfigErrorKind, MissingMessage(name))
    else Ok(default)
  }

  // ------------------------------------------------------------------ lemmas

  /** A variable that is not all whitespace is found, whether required or
      not, and the value found is non-empty with no surrounding whitespace:
      stripping it again changes nothing. */
  lemma FoundIsStripped(env: Environ, name: string, required: bool, default: Option<string>)
    requires name in env && !AllSpace(env[name])
    ensures GetSecret(env, name, required, default).Ok?
    ensures var v := GetSecret(env, name, required, default).value;
      v.Some? && v.value != "" && !IsSpace(v.value[0]) && !IsSpace(v.value[|v.value| - 1]) && Trim(v.value) == v.value
  {
    var v := Trim(env[name]);
    assert v != [];
    assert GetSecret(env, name, required, default) == Ok(Some(v));
    assert !IsSpace(v[0]) && !IsSpace(v[|v| - 1]);
    TrimNoop(v);
  }

  /** A whitespace-only variable counts as absent: the result is the same as
      with the variable unset. */
  lemma BlankIsAbsent(env: Environ, name: string, required: bool, default: Option<string>)
    requires name in env && AllSpace(env[name])
    ensures GetSecret(env, name, required, default) == GetSecret(env - {name}, name, required, default)
  {
  }
}
