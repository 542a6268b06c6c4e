/**
 * Configuration helpers: flag-name prefixing and the environment overrides
 * applied to the default listener settings. The process environment is a
 * map parameter; os.Exit on a malformed number is the NotANumber result.
 */
module Env {
  import opened Types
  import Strconv

  type Environment = map<string, string>

  /** os.Getenv: an unset variable reads as the empty string. */
  function Getenv(env: Environment, key: string): string {
    if key in env then env[key] else ""
  }

  /**
   * prefixer(prefix)(value): a non-empty prefix is joined to the value with a
   * dash, and the joined name splits back into the two parts.
   */
  function Prefixer(prefix: string, value: string): (r: string)
    ensures prefix == "" ==> r == value
    ensures prefix != "" ==> |r| == |prefix| + 1 + |value|
    ensures prefix != "" ==> r[..|prefix|] == prefix && r[|prefix|] == '-' && r[|prefix| + 1..] == value
  {
    if prefix == "" then value else prefix + "-" + value
  }

  /** Key i is the first of keys whose variable is set to a non-empty value. */
  ghost predicate IsFirstSet(env: Environment, keys: seq<string>, i: int) {
    && 0 <= i < |keys|
    && Getenv(env, keys[i]) != ""
    && forall j :: 0 <= j < i ==> Getenv(env, keys[j]) == ""
  }

  predicate NoneSet(env: Environment, keys: seq<string>) {
    forall j :: 0 <= j < |keys| ==> Getenv(env, keys[j]) == ""
  }

  /**
   * stringEnvOverride: the first non-empty variable among keys wins; with none
   * set, the default replaces an empty original, and otherwise the original stays.
   */
  method StringEnvOverride(env: Environment, orig: string, def: string, keys: seq<string>) returns (r: string)
    ensures NoneSet(env, keys) ==> r == (if def != "" && orig == "" then def else orig)
    ensures !NoneSet(env, keys) ==> exists i :: IsFirstSet(env, keys, i) && r == Getenv(env, keys[i])
  {
    for n := 0 to |keys|
      invariant forall j :: 0 <= j < n ==> Getenv(env, keys[j]) == ""
    {
      var v := Getenv(env, keys[n]);
      if v != "" {
        assert IsFirstSet(env, keys, n);
        return v;
      }
    }
    if def != "" && orig == "" {
      return def;
    }
    return orig;
  }

  /** intEnvOverride's result: the value, or the key whose value made the process exit. */
  datatype IntOverride = Value(v: int) | NotANumber(key: string)

  /** How intEnvOverride reads the variable it picked. */
  function ParseSetting(key: string, text: string): IntOverride {
    match Strconv.Atoi(text)
    case Some(v) => Value(v)
    case None => NotANumber(key)
  }

  /**
   * intEnvOverride: the same rule as StringEnvOverride with 0 as "unset"; the
   * first non-empty variable decides, and if it is not a number the process
   * exits even when a later key holds a valid one.
   */
  method IntEnvOverride(env: Environment, orig: int, def: int, keys: seq<string>) returns (r: IntOverride)
    ensures NoneSet(env, keys) ==> r == Value(if def != 0 && orig == 0 then def else orig)
    ensures !NoneSet(env, keys) ==> exists i :: IsFirstSet(env, keys, i) && r == ParseSetting(keys[i], Getenv(env, keys[i]))
  {
    for n := 0 to |keys|
      invariant forall j :: 0 <= j < n ==> Getenv(env, keys[j]) == ""
    {
      var text := Getenv(env, keys[n]);
      if text != "" {
        assert IsFirstSet(env, keys, n);
        var parsed := Strconv.Atoi(text);
        if parsed.None? {
          return NotANumber(keys[n]);
        }
        return Value(parsed.value);
      }
    }
    if def != 0 && orig == 0 {
      return Value(def);
    }
    return Value(orig);
  }

  /** At most one key can be the first one set, so the override is determined. */
  lemma FirstSetUnique(env: Environment, keys: seq<string>, i: int, j: int)
    requires IsFirstSet(env, keys, i) && IsFirstSet(env, keys, j)
    ensures i == j
  {
  }
}
