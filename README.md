# Settings registry

A Dafny model of the `Settings` class of a small Ruby code base: a
process-wide table from setting names to values, filled once at start-up
from environment variables with declared defaults, overridable later, and
compared with other values "type agnostically" through their string forms.

- `Settings.register(name, default: d)` defines a getter for `name` and
  stores `ENV.fetch(name.upcase, d)`: the environment string when the key is
  present, otherwise `d` with its own type (nil when no default is given).
- `Settings.set(name, v)` overwrites the instance variable `@name` with `v`
  verbatim; it defines no getter.
- `Settings.is?(name, x)` calls the getter and compares `to_s` of both sides.
- The class body registers `wifi_name`, `wifi_password`, `api_base_url`,
  `api_username` and `api_password` with fixed defaults; a local
  configuration file may then issue any number of `set` calls.

Files:

- `values.dfy` (module `Values`): the `Value` datatype (`Nil`, `Bool`, `Int`,
  `Str`, `Other`), Ruby's `to_s` for each variant (decimal `Integer#to_s`
  with its inverse `ParseInt`), and loose equality with its properties.
- `names.dfy` (module `Names`): ASCII `String#upcase`, which derives the
  environment key from a setting name.
- `settings.dfy` (module `SettingsRegistry`): the registry's state as a value
  `State(values, registered)` with one function per operation (`Set`,
  `Register`, `Read`, `Is`), the class body as `Boot`, a local file's `set`
  calls as `SetAll`, the lemmas about them, and the class `Settings` whose
  fields `values` and `registered` are updated in place by the methods `Set`
  and `Register`, each specified by the corresponding `State` function.

Modelling decisions:

- The environment is a parameter (`Env = map<string, string>`) of every
  registration, read at the time of the call.
- A getter is membership in `registered`. Calling one that `register` never
  defined is `Err(NoMethodError(name))`, which is what `public_send` raises.
  A registered name always has an instance variable behind it (`Valid`); if
  it did not, `instance_variable_get` would give nil, and `Read` says so.
- "No default" is the keyword parameter `nameonly default: Value := Nil`, as in the Ruby signature `default: nil`.
- A `Time` or any other object whose `to_s` is not computed is
  `Other(kind, text)`, carrying its class name and its `to_s` text.

## Model

| member | source | states |
|---|---|---|
| Values.ParseIntToStr | code/settings.rb:33 | Parsing `Integer#to_s` back gives the integer, so the decimal string form loses nothing |
| Values.ParseNatToStr | code/settings.rb:33 | Parsing the digits of a natural number gives the number back |
| Values.NatToStrDigits | code/settings.rb:33 | The string form of a natural number is a non-empty run of decimal digits |
| Values.IntToStrInjective | code/settings.rb:33 | Two integers have the same string form iff they are equal |
| Values.IntToStrShape | code/settings.rb:33 | An integer's string form is non-empty and begins with a minus sign or a digit |
| Values.LooselyEqualIsEquivalence | code/settings.rb:30-34 | Comparison by string form is reflexive, symmetric and transitive |
| Values.LooselyEqualString | code/settings.rb:33 | A value is loosely equal to a string iff that string is the value's `to_s` |
| Values.LooselyEqualIntegers | code/settings.rb:33 | Two integers are loosely equal iff they are equal |
| Values.LooselyEqualBooleans | code/settings.rb:33 | Two booleans are loosely equal iff they are equal |
| Values.IntegerNeverBooleanOrNil | code/settings.rb:33 | No integer is loosely equal to `true`, `false` or nil |
| Values.LooseEqualityExamples | code/settings_spec.rb:42-51 | `false`, `true` and `5` equal themselves and their strings; `"05"` and `"True"` do not match; nil matches `""`; `-12` matches `"-12"` |
| Names.UpChar | code/settings.rb:27 | Upper-casing one character leaves no lower-case ASCII letter, shifts `a`..`z` by 32 and keeps every other character |
| Names.UpcaseShape | code/settings.rb:27 | The environment key is as long as the name, keeps every non-lower-case character and contains no lower-case ASCII letter |
| Names.UpcaseIdempotent | code/settings.rb:27 | Upper-casing an environment key again changes nothing |
| Names.UpcaseExamples | code/settings.rb:38-45 | The five class-body names map to `WIFI_NAME`, `WIFI_PASSWORD`, `API_BASE_URL`, `API_USERNAME`, `API_PASSWORD`; names differing only in letter case share a key |
| SettingsRegistry.State.Read | code/settings.rb:26 | The getter succeeds iff the name was registered, otherwise raises NoMethodError naming it; on a valid state it returns the stored value |
| SettingsRegistry.State.Is | code/settings.rb:32-34 | `is?` succeeds iff the name was registered, otherwise NoMethodError; on a valid state it is true iff the stored value and the argument have equal string forms |
| SettingsRegistry.RegisterReadsEnvironment | code/settings.rb:25-27 | With the upper-cased name in the environment, the setting reads back as that environment string, whatever the default |
| SettingsRegistry.RegisterReadsDefault | code/settings.rb:25-27 | Without the key in the environment, the setting reads back as exactly the default, variant preserved, and as nil when no default is given |
| SettingsRegistry.RegisterFrame | code/settings.rb:25-28 | `register` adds exactly its name to the getters, leaves every other setting's reading unchanged and preserves validity |
| SettingsRegistry.RegisterTwice | code/settings.rb:25-28 | Registering a name twice gives exactly the state of the second registration alone, against the second call's environment |
| SettingsRegistry.RegisterMakesReadable | code/settings.rb:26-27 | After `register`, the name has a getter that does not fail and an instance variable behind it |
| SettingsRegistry.RegisterExamples | code/settings_spec.rb:4-40 | An environment value with no default, a string default, a timestamp, `false` and `5` each read back as registered, with their variants |
| SettingsRegistry.SetThenRead | code/settings.rb:17-19 | After `set(name, v)` a registered name reads exactly `v`; an unregistered one still raises NoMethodError |
| SettingsRegistry.SetFrame | code/settings.rb:17-19 | `set` leaves the getters and every other name's reading unchanged and preserves validity |
| SettingsRegistry.SetOverridesRegister | code/settings.rb:67-70 | A `set` after `register` wins over the registered value, wherever that came from |
| SettingsRegistry.SetAllSnoc | code/settings.rb:55-59 | Running a sequence of `set` calls and then one more is the same as running the longer sequence |
| SettingsRegistry.SetAllUntouched | code/settings.rb:55-59 | `set` calls that never mention a name leave its value, its reading, the getters and validity as they were |
| SettingsRegistry.SetAllLastWriteWins | code/settings.rb:55-59 | After a sequence of `set` calls, a name holds the value of the last call that mentions it, and reads it back iff it was registered |
| SettingsRegistry.SetAllKeepsGetters | code/settings.rb:55-59 | `set` calls never add or remove a getter and keep a valid state valid |
| SettingsRegistry.IsAfterRegister | code/settings.rb:25-34 | Right after `register`, `is?` accepts a value iff its string form is the environment string (key present) or the default's string form (key absent), so it accepts the environment string and the default themselves |
| SettingsRegistry.IsReflexive | code/settings.rb:32-34 | A registered setting is loosely equal to its own stored value |
| SettingsRegistry.IsExamples | code/settings_spec.rb:42-51 | After registering `false`, `true` and `5` as defaults, `is?` accepts the value and its string and rejects another value; on an empty registry `is?` raises NoMethodError |
| SettingsRegistry.BootState | code/settings.rb:37-45 | The class body defines exactly the five getters, each with its environment value or its default, and leaves a valid state |
| SettingsRegistry.BootDefaults | code/settings.rb:37-45 | With none of the five keys set, the table holds exactly the five declared defaults, `wifi_name` reading `"XING-GUEST"` |
| SettingsRegistry.BootEnvironmentWins | code/settings.rb:38 | With `WIFI_NAME` set, `wifi_name` reads its environment value |
| SettingsRegistry.StartupKeepsGetters | code/settings.rb:48-59 | Whatever the local configuration file sets, the getters are exactly the five of the class body and the state stays valid |
| SettingsRegistry.StartupExamples | code/settings.rb:59-70 | A local `set :password` without a registration leaves `password` unreadable; a local `set :api_base_url` is what the getter then returns |
| SettingsRegistry.Settings.constructor | code/settings.rb:14-45 | Loading the class leaves exactly the state of the five class-body registrations |
| SettingsRegistry.Settings.Set | code/settings.rb:17-19 | Overwrites one instance variable, keeps the getters, and matches `State.Set` |
| SettingsRegistry.Settings.Register | code/settings.rb:25-28 | Adds the getter, stores the environment value or default, and matches `State.Register` |
| SettingsRegistry.Settings.Get | code/settings.rb:26 | Returns what `State.Read` gives on the current fields: succeeds iff the name is registered, and then the stored value |
| SettingsRegistry.Settings.Is | code/settings.rb:32-34 | Returns what `State.Is` gives on the current fields; succeeds iff the name is registered |

## Left out

- Reading and executing `config/settings.local.rb` and the commented-out per-environment file (code/settings.rb:55, 65) are file I/O; the model takes the file's effect as a sequence of `set` calls (`SetAll`, `Startup`).
- `code/environment.rb` only requires files and boots Rails; it has no logic to model.
- Names.Upcase: only ASCII letters are upper-cased; Ruby's `String#upcase` also upper-cases non-ASCII letters.
- Ruby metaprogramming: `define_singleton_method`, whether `"@#{name}"` is a valid instance-variable name, and a name that already is a public method of the class (`set`, `register`, `name`, `to_s`, ...): calling it as a getter, directly or through `public_send` in `is?`, runs that method in Ruby (`Settings.name` returns `"Settings"`), while the model's `Read` and `Is` give NoMethodError for every unregistered name. A getter is membership in `registered`.
- Values are immutable in the model: Ruby stores and returns the object itself, so changing a stored object in place (`Settings.wifi_name << "-2"` on the unfrozen default string, `Time#localtime` on a stored timestamp), through the getter or through another reference shared by two settings, changes what later reads and `is?` see; the model does not capture that mutation or that aliasing, and `SetFrame` holds only for values that are not changed in place.
- Strings are sequences of characters: string encodings and the encoding-compatibility check of Ruby's `String#==` are not modelled.
- `Time` values and their `to_s`: a timestamp is an opaque `Other("Time", text)`; the spec file's clock-dependent `be_within(3.minutes)` check is not modelled.
- Floating-point values, symbols and other objects have no `to_s` of their own in the model; they are `Other` values carrying their text.
- Concurrency: the registry is unsynchronised process memory and the model is sequential.
