/**
 * The start-up configuration of the database client: the project URL and the
 * public anonymous key, looked up first in two direct fields of the page's
 * injected environment and then, key by key, in the page environment, the
 * bundler's environment and the process environment.
 */
module Config {
  import opened Wrappers
  import opened Js

  /** `key in source && source[key]`: the source is an object holding a truthy value under `key`. */
  predicate Holds(source: Value, key: string) {
    source.Obj? && key in source.fields && Truthy(source.fields[key])
  }

  /** The inner loop of `pickEnvValue`: the value of the first listed key the source holds, or null. */
  function PickInSource(source: Value, keys: seq<string>): (r: Value)
    ensures r == Null || Truthy(r)
  {
    if keys == [] then Null
    else if Holds(source, keys[0]) then source.fields[keys[0]]
    else PickInSource(source, keys[1..])
  }

  /**
   * `pickEnvValue(sources, keys)`: falsy sources are skipped; the sources are
   * scanned in order and, within each, the keys in order; null when nothing
   * is found.
   */
  function PickEnvValue(sources: seq<Value>, keys: seq<string>): (r: Value)
    ensures r == Null || Truthy(r)
  {
    if sources == [] then Null
    else if !Truthy(sources[0]) then PickEnvValue(sources[1..], keys)
    else
      var v := PickInSource(sources[0], keys);
      if v != Null then v else PickEnvValue(sources[1..], keys)
  }

  /** Source `i` holds key `j`. */
  predicate Found(sources: seq<Value>, keys: seq<string>, i: int, j: int) {
    0 <= i < |sources| && 0 <= j < |keys| && Holds(sources[i], keys[j])
  }

  /** (i, j) is found and no pair before it, sources first and keys second, is. */
  ghost predicate FirstFound(sources: seq<Value>, keys: seq<string>, i: int, j: int) {
    Found(sources, keys, i, j)
    && forall i', j' :: Found(sources, keys, i', j') ==> i < i' || (i == i' && j <= j')
  }

  /** Within one source, the first key it holds wins, and null means it holds none. */
  lemma {:induction false} PickInSourceFirst(source: Value, keys: seq<string>)
    ensures PickInSource(source, keys) == Null <==> forall j :: 0 <= j < |keys| ==> !Holds(source, keys[j])
    ensures PickInSource(source, keys) != Null ==>
      exists j :: 0 <= j < |keys| && Holds(source, keys[j]) && PickInSource(source, keys) == source.fields[keys[j]]
                  && forall j' :: 0 <= j' < j ==> !Holds(source, keys[j'])
    decreases |keys|
  {
    if keys != [] && !Holds(source, keys[0]) {
      PickInSourceFirst(source, keys[1..]);
      assert forall j :: 1 <= j < |keys| ==> keys[j] == keys[1..][j - 1];
      if PickInSource(source, keys) != Null {
        var j :| 0 <= j < |keys[1..]| && Holds(source, keys[1..][j]) && PickInSource(source, keys) == source.fields[keys[1..][j]]
                 && forall j' :: 0 <= j' < j ==> !Holds(source, keys[1..][j']);
        assert Holds(source, keys[j + 1]);
        forall j' | 0 <= j' < j + 1 ensures !Holds(source, keys[j']) {
          if j' > 0 { assert keys[j'] == keys[1..][j' - 1]; }
        }
      }
    }
  }

  /** `pickEnvValue` returns null exactly when no source holds any of the keys. */
  lemma {:induction false} PickNullIffNothingFound(sources: seq<Value>, keys: seq<string>)
    ensures PickEnvValue(sources, keys) == Null <==> forall i, j :: !Found(sources, keys, i, j)
    decreases |sources|
  {
    if sources != [] {
      PickNullIffNothingFound(sources[1..], keys);
      PickInSourceFirst(sources[0], keys);
      ShiftFound(sources, keys);
      if Truthy(sources[0]) && PickInSource(sources[0], keys) != Null {
        var j :| 0 <= j < |keys| && Holds(sources[0], keys[j]);
        assert Found(sources, keys, 0, j);
      } else {
        assert forall j :: !Found(sources, keys, 0, j);
      }
    }
  }

  /** A pair found in the tail is the same pair, one source later, in the whole list. */
  lemma ShiftFound(sources: seq<Value>, keys: seq<string>)
    requires sources != []
    ensures forall i, j :: Found(sources[1..], keys, i, j) ==> Found(sources, keys, i + 1, j)
    ensures forall i, j :: Found(sources, keys, i, j) ==> i == 0 || Found(sources[1..], keys, i - 1, j)
  {
    forall i, j | Found(sources[1..], keys, i, j) ensures Found(sources, keys, i + 1, j) {
      assert sources[1..][i] == sources[i + 1];
    }
    forall i, j | Found(sources, keys, i, j) && i != 0 ensures Found(sources[1..], keys, i - 1, j) {
      assert 0 <= i - 1 < |sources[1..]| && sources[1..][i - 1] == sources[i];
      assert Holds(sources[1..][i - 1], keys[j]);
    }
  }

  /**
   * Lookup is source-major: a found value comes from the first source that
   * holds any key, under the first key that source holds.
   */
  lemma {:induction false} PickIsFirstFound(sources: seq<Value>, keys: seq<string>)
    requires PickEnvValue(sources, keys) != Null
    ensures exists i, j :: FirstFound(sources, keys, i, j) && PickEnvValue(sources, keys) == sources[i].fields[keys[j]]
    decreases |sources|
  {
    ShiftFound(sources, keys);
    PickInSourceFirst(sources[0], keys);
    var v := PickInSource(sources[0], keys);
    if Truthy(sources[0]) && v != Null {
      var j :| 0 <= j < |keys| && Holds(sources[0], keys[j]) && v == sources[0].fields[keys[j]]
               && forall j' :: 0 <= j' < j ==> !Holds(sources[0], keys[j']);
      assert FirstFound(sources, keys, 0, j);
    } else {
      PickIsFirstFound(sources[1..], keys);
      var i, j :| FirstFound(sources[1..], keys, i, j) && PickEnvValue(sources[1..], keys) == sources[1..][i].fields[keys[j]];
      assert forall j' :: !Found(sources, keys, 0, j');
      assert FirstFound(sources, keys, i + 1, j);
    }
  }

  /** The page environment (`window.__OMR_ENV__ || {}`) and the two public environments, each `{}` when absent. */
  datatype Environment = Environment(page: Value, bundler: Value, process: Value)

  /** Each environment object as the loader reads it: the value when truthy, otherwise `{}`. */
  function Sources(env: Environment): (r: seq<Value>)
    ensures |r| == 3 && forall i :: 0 <= i < 3 ==> Truthy(r[i])
  {
    [Or(env.page, EmptyObj), Or(env.bundler, EmptyObj), Or(env.process, EmptyObj)]
  }

  const UrlKeys: seq<string> := ["SUPABASE_URL", "NEXT_PUBLIC_SUPABASE_URL", "VITE_SUPABASE_URL", "PUBLIC_SUPABASE_URL"]
  const AnonKeyKeys: seq<string> :=
    ["SUPABASE_ANON_KEY", "NEXT_PUBLIC_SUPABASE_ANON_KEY", "VITE_SUPABASE_ANON_KEY", "PUBLIC_SUPABASE_ANON_KEY"]

  /** `a || b || pickEnvValue(...)`: two direct fields of the page environment, then the keyed lookup. */
  function Chain(env: Environment, first: string, second: string, keys: seq<string>): (r: Value)
    ensures Truthy(Get(Or(env.page, EmptyObj), first)) ==> r == Get(Or(env.page, EmptyObj), first)
    ensures !Truthy(Get(Or(env.page, EmptyObj), first)) && Truthy(Get(Or(env.page, EmptyObj), second)) ==>
      r == Get(Or(env.page, EmptyObj), second)
    ensures !Truthy(Get(Or(env.page, EmptyObj), first)) && !Truthy(Get(Or(env.page, EmptyObj), second)) ==>
      r == PickEnvValue(Sources(env), keys)
  {
    var page := Or(env.page, EmptyObj);
    Or(Get(page, first), Or(Get(page, second), PickEnvValue(Sources(env), keys)))
  }

  function SupabaseUrl(env: Environment): Value {
    Chain(env, "supabaseUrl", "supabaseProjectUrl", UrlKeys)
  }

  function SupabaseAnonKey(env: Environment): Value {
    Chain(env, "supabaseAnonKey", "supabasePublicAnonKey", AnonKeyKeys)
  }

  datatype ClientConfig = ClientConfig(url: Value, anonKey: Value)

  const MissingConfig: string :=
    "[OMR:SUPABASE] Configuração ausente. Defina supabaseUrl e supabaseAnonKey em window.__OMR_ENV__ ou variáveis públicas."

  /** Some direct field or some keyed source provides a value. */
  ghost predicate Provided(env: Environment, first: string, second: string, keys: seq<string>) {
    Truthy(Get(Or(env.page, EmptyObj), first)) || Truthy(Get(Or(env.page, EmptyObj), second))
    || exists i, j :: Found(Sources(env), keys, i, j)
  }

  /** The module's start-up: both values are required, otherwise loading fails with the configuration error. */
  function LoadConfig(env: Environment): (r: Result<ClientConfig, string>)
    ensures r.Success? ==> Truthy(r.value.url) && Truthy(r.value.anonKey)
    ensures r.Failure? ==> r.error == MissingConfig
  {
    var url := SupabaseUrl(env);
    var key := SupabaseAnonKey(env);
    if !Truthy(url) || !Truthy(key) then Failure(MissingConfig)
    else Success(ClientConfig(url, key))
  }

  /** A chained value is missing exactly when neither direct field nor any source provides one. */
  lemma ChainProvided(env: Environment, first: string, second: string, keys: seq<string>)
    ensures Truthy(Chain(env, first, second, keys)) <==> Provided(env, first, second, keys)
  {
    PickNullIffNothingFound(Sources(env), keys);
  }

  /** Loading succeeds exactly when both the URL and the anonymous key are provided somewhere. */
  lemma LoadConfigSucceedsIff(env: Environment)
    ensures LoadConfig(env).Success? <==>
      (Provided(env, "supabaseUrl", "supabaseProjectUrl", UrlKeys)
       && Provided(env, "supabaseAnonKey", "supabasePublicAnonKey", AnonKeyKeys))
  {
    ChainProvided(env, "supabaseUrl", "supabaseProjectUrl", UrlKeys);
    ChainProvided(env, "supabaseAnonKey", "supabasePublicAnonKey", AnonKeyKeys);
  }

  /**
   * Without the direct fields, the URL comes from the earliest environment
   * holding any URL key, under the earliest key it holds: the page
   * environment wins over the bundler's, which wins over the process's.
   */
  lemma UrlFromEarliestSource(env: Environment)
    requires !Truthy(Get(Or(env.page, EmptyObj), "supabaseUrl")) && !Truthy(Get(Or(env.page, EmptyObj), "supabaseProjectUrl"))
    requires exists i, j :: Found(Sources(env), UrlKeys, i, j)
    ensures exists i, j :: FirstFound(Sources(env), UrlKeys, i, j) && SupabaseUrl(env) == Sources(env)[i].fields[UrlKeys[j]]
  {
    PickNullIffNothingFound(Sources(env), UrlKeys);
    PickIsFirstFound(Sources(env), UrlKeys);
  }
}
