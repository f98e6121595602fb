/** The `Settings` registry: a process-wide table from setting names to
    values.

    `register` defines a getter for a name and stores the environment value
    under the upper-cased name, or the default when that key is absent;
    `set` overwrites a stored value verbatim; `is?` compares a setting with
    any value by their string forms. The class body registers five settings
    when it is loaded, and a local configuration file may then issue any
    number of `set` calls.

    The registry's state is described by the value `State` (the stored
    values and the names that have a getter), with one function per
    operation; the class `Settings` holds the same two fields, and each of
    its methods is specified by the corresponding function.
 */
module SettingsRegistry {
  import opened Values
  import opened Names

  /** The process environment at the time of a call: key to string value. */
  type Env = map<string, string>

  /** Calling a getter that `register` never defined raises NoMethodError. */
  datatype Error = NoMethodError(name: string)

  datatype Result<T> = Ok(value: T) | Err(error: Error)

  /** `ENV.fetch(name.upcase, default)`: the environment value, always a
      string, when the key is present; the default otherwise. */
  function Resolve(env: Env, name: string, default: Value): Value
  {
    var key := Upcase(name);
    if key in env then Str(env[key]) else default
  }

  /** The registry's state: the class's instance variables, and the names
      that have a singleton getter. */
  datatype State = State(values: map<string, Value>, registered: set<string>) {

    /** Every name with a getter has an instance variable behind it. */
    predicate Valid()
    {
      registered <= values.Keys
    }

    /** `Settings.set(name, v)`: the instance variable `@name` becomes `v`;
        no getter is defined. */
    function Set(name: string, v: Value): State
    {
      State(values[name := v], registered)
    }

    /** `Settings.register(name, default:)`: defines the getter, then sets
        the resolved value. */
    function Register(env: Env, name: string, nameonly default: Value := Nil): State
    {
      State(values, registered + {name}).Set(name, Resolve(env, name, default))
    }

    /** Calling the getter `name`: NoMethodError without a prior
        registration, otherwise `instance_variable_get("@name")`, which is
        nil for an instance variable that was never set. */
    function Read(name: string): (r: Result<Value>)
      ensures r.Ok? <==> name in registered
      ensures r.Err? ==> r.error == NoMethodError(name)
      ensures Valid() && r.Ok? ==> r.value == values[name]
    {
      if name !in registered then Err(NoMethodError(name))
      else if name in values then Ok(values[name])
      else Ok(Nil)
    }

    /** `Settings.is?(name, other)`: the getter's value and `other` have the
        same `to_s`; NoMethodError when the getter does not exist. */
    function Is(name: string, other: Value): (r: Result<bool>)
      ensures r.Ok? <==> name in registered
      ensures r.Err? ==> r.error == NoMethodError(name)
      ensures Valid() && r.Ok? ==> (r.value <==> ToStr(values[name]) == ToStr(other))
    {
      match Read(name)
      case Err(e) => Err(e)
      case Ok(v) => Ok(LooselyEqual(v, other))
    }
  }

  /** The registry before the class body runs. */
  const Empty := State(map[], {})

  /** The names the class body registers. */
  const BootNames: set<string> :=
    {"wifi_name", "wifi_password", "api_base_url", "api_username", "api_password"}

  /** The state once the class body has run its five registrations. */
  function Boot(env: Env): State
  {
    Empty
      .Register(env, "wifi_name", default := Str("XING-GUEST"))
      .Register(env, "wifi_password", default := Str("goxinggo"))
      .Register(env, "api_base_url", default := Str("https://example.com/api"))
      .Register(env, "api_username", default := Str("development"))
      .Register(env, "api_password", default := Str("not_secret"))
  }

  /** A sequence of `Settings.set` calls, as a local configuration file
      issues them, applied in order. */
  function SetAll(st: State, sets: seq<(string, Value)>): State
    decreases |sets|
  {
    if sets == [] then st else SetAll(st.Set(sets[0].0, sets[0].1), sets[1..])
  }

  /** Start-up: the class body, then the local configuration file's `set`
      calls. */
  function Startup(env: Env, local: seq<(string, Value)>): State
  {
    SetAll(Boot(env), local)
  }

  // ---------------------------------------------------------------------
  // register

  /** The environment wins: with `NAME` in the environment, the setting
      reads back as that string whatever the default was. */
  lemma RegisterReadsEnvironment(st: State, env: Env, name: string, default: Value)
    requires Upcase(name) in env
    ensures st.Register(env, name, default := default).Read(name) == Ok(Str(env[Upcase(name)]))
  {
  }

  /** Without `NAME` in the environment, the setting reads back as the
      default, with its variant preserved; nil when no default is given. */
  lemma RegisterReadsDefault(st: State, env: Env, name: string, default: Value)
    requires Upcase(name) !in env
    ensures st.Register(env, name, default := default).Read(name) == Ok(default)
    ensures st.Register(env, name).Read(name) == Ok(Nil)
  {
  }

  /** `register` defines exactly one getter and touches no other setting. */
  lemma RegisterFrame(st: State, env: Env, name: string, default: Value, other: string)
    requires other != name
    ensures st.Register(env, name, default := default).registered == st.registered + {name}
    ensures st.Register(env, name, default := default).Read(other) == st.Read(other)
    ensures st.Valid() ==> st.Register(env, name, default := default).Valid()
  {
  }

  /** Registering a name twice keeps only the second call's resolution,
      against the environment of the second call. */
  lemma RegisterTwice(st: State, env1: Env, env2: Env, name: string, d1: Value, d2: Value)
    ensures st.Register(env1, name, default := d1).Register(env2, name, default := d2)
            == st.Register(env2, name, default := d2)
  {
  }

  /** A registered name holds a value even from an invalid state, and the
      getter of a registered name never fails. */
  lemma RegisterMakesReadable(st: State, env: Env, name: string, default: Value)
    ensures st.Register(env, name, default := default).Read(name).Ok?
    ensures name in st.Register(env, name, default := default).values
  {
  }

  /** The registrations the registry's examples make: an environment value
      with no default, a string default, and defaults of every other kind
      (booleans, an integer, a timestamp), each read back unchanged. */
  lemma RegisterExamples(st: State, env: Env, now: string)
    requires "SOME_TEST_DEFAULT" !in env && "SOME_TEST_BOOTUP_TIME" !in env
    requires "SOME_TEST_FALSE" !in env && "SOME_TEST_NUMBER" !in env
    ensures st.Register(env["SOME_TEST_ENV_VAR" := "settings_test"], "some_test_env_var")
              .Read("some_test_env_var") == Ok(Str("settings_test"))
    ensures st.Register(env, "some_test_default", default := Str("default value"))
              .Read("some_test_default") == Ok(Str("default value"))
    ensures st.Register(env, "some_test_bootup_time", default := Other("Time", now))
              .Read("some_test_bootup_time") == Ok(Other("Time", now))
    ensures st.Register(env, "some_test_false", default := Bool(false)).Read("some_test_false") == Ok(Bool(false))
    ensures st.Register(env, "some_test_number", default := Int(5)).Read("some_test_number") == Ok(Int(5))
  {
    assert Upcase("some_test_env_var") == "SOME_TEST_ENV_VAR";
    assert Upcase("some_test_default") == "SOME_TEST_DEFAULT";
    assert Upcase("some_test_bootup_time") == "SOME_TEST_BOOTUP_TIME";
    assert Upcase("some_test_false") == "SOME_TEST_FALSE";
    assert Upcase("some_test_number") == "SOME_TEST_NUMBER";
  }

  // ---------------------------------------------------------------------
  // set

  /** After `set(name, v)` the getter (when there is one) returns exactly
      `v`; without a prior `register` it still raises NoMethodError. */
  lemma SetThenRead(st: State, name: string, v: Value)
    ensures name in st.registered ==> st.Set(name, v).Read(name) == Ok(v)
    ensures name !in st.registered ==> st.Set(name, v).Read(name) == Err(NoMethodError(name))
  {
  }

  /** `set` leaves the getters and every other setting as they were. */
  lemma SetFrame(st: State, name: string, v: Value, other: string)
    requires other != name
    ensures st.Set(name, v).registered == st.registered
    ensures st.Set(name, v).Read(other) == st.Read(other)
    ensures st.Valid() ==> st.Set(name, v).Valid()
  {
  }

  /** A later `set` overrides a registration regardless of where the
      registered value came from. */
  lemma SetOverridesRegister(st: State, env: Env, name: string, default: Value, v: Value)
    ensures st.Register(env, name, default := default).Set(name, v).Read(name) == Ok(v)
  {
  }

  /** A sequence of `set` calls is its last call applied after the others. */
  lemma SetAllSnoc(st: State, sets: seq<(string, Value)>, name: string, v: Value)
    ensures SetAll(st, sets + [(name, v)]) == SetAll(st, sets).Set(name, v)
    decreases |sets|
  {
    if sets != [] {
      assert (sets + [(name, v)])[1..] == sets[1..] + [(name, v)];
      SetAllSnoc(st.Set(sets[0].0, sets[0].1), sets[1..], name, v);
    }
  }

  /** `set` calls define no getters, keep the state valid, and leave a
      name no call mentions as it was. */
  lemma {:induction false} SetAllUntouched(st: State, sets: seq<(string, Value)>, name: string)
    requires forall j :: 0 <= j < |sets| ==> sets[j].0 != name
    ensures SetAll(st, sets).registered == st.registered
    ensures name in SetAll(st, sets).values <==> name in st.values
    ensures name in st.values ==> SetAll(st, sets).values[name] == st.values[name]
    ensures SetAll(st, sets).Read(name) == st.Read(name)
    ensures st.Valid() ==> SetAll(st, sets).Valid()
    decreases |sets|
  {
    if sets != [] {
      SetAllUntouched(st.Set(sets[0].0, sets[0].1), sets[1..], name);
    }
  }

  /** Later writes always win: after a sequence of `set` calls, a name holds
      the value of the last call that mentions it. */
  lemma {:induction false} SetAllLastWriteWins(st: State, sets: seq<(string, Value)>, name: string, i: nat)
    requires i < |sets| && sets[i].0 == name
    requires forall j :: i < j < |sets| ==> sets[j].0 != name
    ensures SetAll(st, sets).registered == st.registered
    ensures name in SetAll(st, sets).values && SetAll(st, sets).values[name] == sets[i].1
    ensures SetAll(st, sets).Read(name) ==
            if name in st.registered then Ok(sets[i].1) else Err(NoMethodError(name))
    decreases |sets|
  {
    var next := st.Set(sets[0].0, sets[0].1);
    if i == 0 {
      SetAllUntouched(next, sets[1..], name);
    } else {
      SetAllLastWriteWins(next, sets[1..], name, i - 1);
    }
  }

  // ---------------------------------------------------------------------
  // is?

  /** Right after `register`, `is?` accepts a value exactly when its
      string form is the environment string, or, without the key, the
      default's string form; it accepts the environment string itself and
      the default itself. */
  lemma IsAfterRegister(st: State, env: Env, name: string, default: Value, other: Value)
    ensures Upcase(name) in env ==>
              st.Register(env, name, default := default).Is(name, other)
              == Ok(ToStr(other) == env[Upcase(name)])
    ensures Upcase(name) !in env ==>
              st.Register(env, name, default := default).Is(name, other)
              == Ok(LooselyEqual(default, other))
    ensures Upcase(name) in env ==>
              st.Register(env, name, default := default).Is(name, Str(env[Upcase(name)])) == Ok(true)
    ensures Upcase(name) !in env ==>
              st.Register(env, name, default := default).Is(name, default) == Ok(true)
  {
  }

  /** `is?` is reflexive: a setting is loosely equal to its own value. */
  lemma IsReflexive(st: State, name: string)
    requires st.Valid() && name in st.registered
    ensures st.Is(name, st.values[name]) == Ok(true)
  {
  }

  /** The comparisons the registry's examples make after registering
      `false`, `true` and `5` as defaults with no environment value. */
  lemma IsExamples(st: State, env: Env)
    requires Upcase("some_test_false") !in env
    requires Upcase("some_test_true") !in env
    requires Upcase("some_test_number") !in env
    ensures var s := st.Register(env, "some_test_false", default := Bool(false));
            s.Is("some_test_false", Bool(false)) == Ok(true) &&
            s.Is("some_test_false", Str("false")) == Ok(true) &&
            s.Is("some_test_false", Str("true")) == Ok(false)
    ensures var s := st.Register(env, "some_test_true", default := Bool(true));
            s.Is("some_test_true", Bool(true)) == Ok(true) &&
            s.Is("some_test_true", Str("true")) == Ok(true) &&
            s.Is("some_test_true", Bool(false)) == Ok(false)
    ensures var s := st.Register(env, "some_test_number", default := Int(5));
            s.Is("some_test_number", Int(5)) == Ok(true) &&
            s.Is("some_test_number", Str("5")) == Ok(true) &&
            s.Is("some_test_number", Int(6)) == Ok(false)
    ensures Empty.Is("some_test_number", Str("5")) == Err(NoMethodError("some_test_number"))
  {
    LooseEqualityExamples();
    LooselyEqualBooleans(true, false);
    LooselyEqualIntegers(5, 6);
  }

  // ---------------------------------------------------------------------
  // the class body and start-up

  /** The class body defines exactly the five getters, and each setting
      holds its environment value or its default. */
  lemma BootState(env: Env)
    ensures Boot(env).Valid()
    ensures Boot(env).registered == BootNames
    ensures Boot(env).values.Keys == BootNames
    ensures Boot(env).Read("wifi_name") == Ok(Resolve(env, "wifi_name", Str("XING-GUEST")))
    ensures Boot(env).Read("wifi_password") == Ok(Resolve(env, "wifi_password", Str("goxinggo")))
    ensures Boot(env).Read("api_base_url") == Ok(Resolve(env, "api_base_url", Str("https://example.com/api")))
    ensures Boot(env).Read("api_username") == Ok(Resolve(env, "api_username", Str("development")))
    ensures Boot(env).Read("api_password") == Ok(Resolve(env, "api_password", Str("not_secret")))
  {
  }

  /** With none of the five keys in the environment, the class body leaves
      exactly the declared defaults. */
  lemma BootDefaults(env: Env)
    requires "WIFI_NAME" !in env && "WIFI_PASSWORD" !in env && "API_BASE_URL" !in env
    requires "API_USERNAME" !in env && "API_PASSWORD" !in env
    ensures Boot(env).values == map[
      "wifi_name" := Str("XING-GUEST"),
      "wifi_password" := Str("goxinggo"),
      "api_base_url" := Str("https://example.com/api"),
      "api_username" := Str("development"),
      "api_password" := Str("not_secret")]
    ensures Boot(env).Read("wifi_name") == Ok(Str("XING-GUEST"))
  {
    UpcaseExamples();
  }

  /** With `WIFI_NAME` in the environment, its value replaces the default. */
  lemma BootEnvironmentWins(env: Env)
    requires "WIFI_NAME" in env
    ensures Boot(env).Read("wifi_name") == Ok(Str(env["WIFI_NAME"]))
  {
    UpcaseExamples();
  }

  /** The local configuration file can change values but not the set of
      getters: a name it sets without a `register` stays unreadable, and a
      registered name it sets reads back as the last value set. */
  lemma StartupExamples(env: Env)
    ensures Startup(env, [("password", Str("secret"))]).Read("password") == Err(NoMethodError("password"))
    ensures Startup(env, [("api_base_url", Str("http://staging.example.com/api"))]).Read("api_base_url")
            == Ok(Str("http://staging.example.com/api"))
  {
    var one := [("api_base_url", Str("http://staging.example.com/api"))];
    SetAllLastWriteWins(Boot(env), one, "api_base_url", 0);
    SetAllLastWriteWins(Boot(env), [("password", Str("secret"))], "password", 0);
  }

  /** Whatever the local file sets, the getters are exactly the five. */
  lemma StartupKeepsGetters(env: Env, local: seq<(string, Value)>)
    ensures Startup(env, local).registered == BootNames
    ensures Startup(env, local).Valid()
  {
    BootState(env);
    SetAllKeepsGetters(Boot(env), local);
  }

  /** `set` calls never add or remove a getter and keep the state valid. */
  lemma {:induction false} SetAllKeepsGetters(st: State, sets: seq<(string, Value)>)
    ensures SetAll(st, sets).registered == st.registered
    ensures st.Valid() ==> SetAll(st, sets).Valid()
    decreases |sets|
  {
    if sets != [] {
      SetAllKeepsGetters(st.Set(sets[0].0, sets[0].1), sets[1..]);
    }
  }

  // ---------------------------------------------------------------------
  // the class

  /** The `Settings` class: its instance variables and its singleton getters. */
  class Settings {
    var values: map<string, Value>
    var registered: set<string>

    /** The registry's state as a value. */
    function Snapshot(): State
      reads this
    {
      State(values, registered)
    }

    /** Loading the class: an empty table, then the five registrations of
        the class body, each against the environment `env`. */
    constructor (env: Env)
      ensures Snapshot() == Boot(env)
      ensures registered == BootNames
    {
      values := map[];
      registered := {};
      new;
      Register(env, "wifi_name", default := Str("XING-GUEST"));
      Register(env, "wifi_password", default := Str("goxinggo"));
      Register(env, "api_base_url", default := Str("https://example.com/api"));
      Register(env, "api_username", default := Str("development"));
      Register(env, "api_password", default := Str("not_secret"));
      BootState(env);
    }

    /** `Settings.set`: overwrite one instance variable verbatim. */
    method Set(name: string, value: Value)
      modifies this
      ensures values == old(values)[name := value]
      ensures registered == old(registered)
      ensures Snapshot() == old(Snapshot()).Set(name, value)
    {
      values := values[name := value];
    }

    /** `Settings.register`: define the getter, then `set` the environment
        value or the default. */
    method Register(env: Env, name: string, nameonly default: Value := Nil)
      modifies this
      ensures registered == old(registered) + {name}
      ensures values == old(values)[name := Resolve(env, name, default)]
      ensures Snapshot() == old(Snapshot()).Register(env, name, default := default)
    {
      registered := registered + {name};
      Set(name, Resolve(env, name, default));
    }

    /** Calling the getter `name`, as `State.Read` describes it. */
    method Get(name: string) returns (r: Result<Value>)
      ensures r == Snapshot().Read(name)
      ensures r.Ok? <==> name in registered
    {
      r := Snapshot().Read(name);
    }

    /** `Settings.is?`: `public_send(name).to_s == other.to_s`. */
    method Is(name: string, other: Value) returns (r: Result<bool>)
      ensures r == Snapshot().Is(name, other)
      ensures r.Ok? <==> name in registered
    {
      var v := Get(name);
      match v
      case Err(e) => r := Err(e);
      case Ok(x) => r := Ok(LooselyEqual(x, other));
    }
  }
}
