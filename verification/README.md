# go-env in Dafny

go-env is a layered configuration resolver for Go programs. A value is
looked up by name in several providers in turn: the command line, the process
environment, a JSON or YAML configuration file, and the Cloud Foundry `VCAP_*`
variables. The first answer that is not nil wins. A registered property can add
a default value and a converter on top of that answer.

The repository holds two generations of the code side by side, and this model
keeps both, file by file:

- **The newer generation** is the root `*Provider.go` files and `variable.go`.
  Each provider's `Get(name, config)` takes a per-source configuration that can
  carry an alternate name. The command-line provider loads its switches lazily,
  once. The JSON and YAML providers take their filename from a switch (`-j`,
  `-y`). They reread the file only when its modification time is newer, and
  they let a switch (`-J<name>`, `-Y<name>`) override any property.
- **The older generation** is `env.go`, `property.go` and `providers/*`.
  `Get(name)` walks a provider chain (by default: command line, then
  environment variables). It falls back to the property's default and then
  applies its converter.
- Properties (older) and variables (newer) are fluent builders that change
  themselves in place and return themselves.

The modules are:

- `Tokenizer`: the command-line state machine shared by both command-line
  providers. It has three states (start, after a bare switch, after an
  assignment). It is written once as a step function (`Step`, `Run`, `Parse`)
  and once as the in-place loop (`Scan`) proved equal to it, with the
  properties of the map it builds.
- `Values`, `Strings`: the dynamic value (Go's `interface{}`, with nil as
  `Null`), `strings.Split`/`Join` on a separator, and the dotted-name walk that
  the JSON, YAML and Cloud Foundry providers share.
- `Documents`: what the JSON and YAML providers share. This covers their
  options, the filename choice, the override-then-walk answer, and one timed
  refresh of a file.
- One module per provider file: `EnvCmlArguments`, `EnvJsonConfiguration`,
  `EnvYamlConfiguration` (newer), `ProvidersCmlArguments`,
  `ProvidersJsonConfiguration`, `ProvidersYamlConfiguration` (older) and
  `CfEnvironment`. Each provider is a class whose fields are the provider's own
  state.
- `Env`, `EnvProperty`, `EnvVariable`: the older resolver with its property
  registry, and the builders of both generations.
- `Os`, `Provider`, `Wrappers`: the operating-system inputs, the provider and
  source vocabulary, and `Option`/`Result`.

The operating system becomes plain inputs:

- `os.Args` is a sequence of strings.
- The process environment is a map.
- The file system is a map from path to a file with a modification time, a
  readable flag and its bytes.
- A JSON or YAML decoder is a function from bytes (or text) to an optional
  document.

The root JSON and YAML `Refresh` compare the file's modification time with
`timestamp` but never move `timestamp` forward
(JsonConfigurationProvider.go:117-141, YamlConfigurationProvider.go:124-143). So every later refresh rereads
a newer file (`Documents.RepeatedRefreshRereads`), and the YAML provider always
reports "unchanged", even after a successful reread.

## Model

| member | source | states |
|---|---|---|
| Tokenizer.Scan | CmlArgumentsProvider.go:98-139 | the loop over `argv[1:]` leaves exactly the switch map `Parse` defines; well-formed tokens are required because indexing `arg[1]` or `currentSwitch[0]` would panic otherwise |
| Tokenizer.ScanToken | CmlArgumentsProvider.go:104-137 | one iteration of the loop moves the map, the previous context and the current switch exactly as one `Step` does |
| Tokenizer.ScanSwitch | CmlArgumentsProvider.go:105-127 | a switch token: strips `--` or `-` (and a leading `V` in the newer provider); an assignment stores the text after the first `=` and enters the value state; a bare switch stores "" and enters the switch state |
| Tokenizer.RunKeys | CmlArgumentsProvider.go:104-127 | the keys of the map are exactly the keys of the switch tokens; a non-switch token, the program name included, never becomes a key |
| Tokenizer.LastSwitchDecides | CmlArgumentsProvider.go:119-134 | the last occurrence of a switch decides its value, overwriting earlier ones: the assigned text, or the non-switch tokens up to the next switch joined by single spaces ("" when there are none) |
| Tokenizer.LastSwitchPrefix | CmlArgumentsProvider.go:128-134 | while tokens after a bare switch are read, the stored value is the continuation seen so far, joined by single spaces |
| Tokenizer.TracksStep | CmlArgumentsProvider.go:105-136 | a token that is not the same switch keeps the tracked switch's stored value in line with what follows it |
| Tokenizer.TracksContinuation | CmlArgumentsProvider.go:128-134 | in the switch state a token becomes the value when it is empty, otherwise it is appended after one space |
| Tokenizer.TracksOtherSwitch | CmlArgumentsProvider.go:105-127 | a different switch leaves the tracked switch's entry alone |
| Tokenizer.LeadingPositionalIgnored | CmlArgumentsProvider.go:128-136 | tokens before the first switch change nothing: the map is the one built from the rest |
| Tokenizer.PositionalFromStart | CmlArgumentsProvider.go:128-137 | non-switch tokens in the start state leave the whole state unchanged |
| Tokenizer.RunCurrentStored | CmlArgumentsProvider.go:124-133 | in the switch state the current switch always has an entry, so appending to it is defined |
| Tokenizer.AssignmentSplit | CmlArgumentsProvider.go:119-121 | an assignment splits at its first `=`: the key is non-empty, has no `=`, and key, `=` and value give back the name |
| Tokenizer.RunFromConcat | CmlArgumentsProvider.go:104 | processing two runs of tokens one after the other is processing their concatenation |
| Tokenizer.RunSnoc | CmlArgumentsProvider.go:104 | one more token is one more step of the loop |
| Tokenizer.ContinuationOfNoSwitch | CmlArgumentsProvider.go:128-134 | a run without switches continues a bare switch in full |
| Tokenizer.ContinuationSnoc | CmlArgumentsProvider.go:128-134 | a token extends the continuation only while no switch has intervened |
| Tokenizer.WellFormedConcat | CmlArgumentsProvider.go:105-114 | tokens that cannot panic on their own cannot panic together |
| TokenizerExamples.AdHocArguments | env_test.go:55-75 | `app -n1 v1 --n2 v2 -n3=v3` yields exactly `{n1: v1, n2: v2, n3: v3}` in both generations |
| TokenizerExamples.VariableArguments | env_test.go:94-117 | `app -Vn1 v1 -Vn2 v2` yields keys `n1`, `n2` when the `V` is stripped and `Vn1`, `Vn2` when it is not |
| TokenizerExamples.TwoSwitches | env_test.go:178-203 | `app -n1 v1 -n2 v2` (the override tests' command line) yields exactly `{n1: v1, n2: v2}` |
| TokenizerExamples.SwitchThenValue | CmlArgumentsProvider.go:124-133 | a bare switch followed by one value stores that value |
| TokenizerExamples.AssignmentStep | CmlArgumentsProvider.go:119-123 | an assignment token stores its value and enters the value state |
| TokenizerExamples.VariableSwitch | CmlArgumentsProvider.go:114-116 | `-V<name>` is stored under `<name>` when the prefix is stripped, under `V<name>` otherwise |
| TokenizerExamples.SwitchStep | CmlArgumentsProvider.go:107-111 | `-<name>` and `--<name>` are stored under `<name>` |
| TokenizerExamples.ValueStep | CmlArgumentsProvider.go:128-133 | after a bare switch whose value is still empty, a non-switch token becomes that switch's value and the state stays after the switch |
| TokenizerExamples.RunThen | CmlArgumentsProvider.go:104 | extending an argument list by a token takes one step from the state reached so far |
| EnvCmlArguments.CmlArgumentsProvider.constructor | CmlArgumentsProvider.go:59-65 | a new provider holds no switches and has not loaded |
| EnvCmlArguments.CmlArgumentsProvider.Load | CmlArgumentsProvider.go:98-139 | the switch map is rebuilt from the given argument vector with `V` stripping, never fails, and leaves the loaded flag alone |
| EnvCmlArguments.CmlArgumentsProvider.Get | CmlArgumentsProvider.go:69-91 | the first call loads, later calls never reload; the answer is the stored string for the source's alternate name (else the name), or nil |
| EnvCmlArguments.CmlArgumentsProvider.Refresh | CmlArgumentsProvider.go:143-145 | always succeeds and changes nothing |
| EnvCmlArguments.GetTwice | CmlArgumentsProvider.go:70-77 | a second `Get` with a different argument vector still answers from the first load |
| ProvidersCmlArguments.CmlArgumentsProvider.constructor | providers/CmlArgumentsProvider.go:40-46 | a new provider holds the switch map of the given arguments, without `V` stripping |
| ProvidersCmlArguments.CmlArgumentsProvider.Get | providers/CmlArgumentsProvider.go:48-54 | the stored string for the name, or nil |
| ProvidersCmlArguments.CmlArgumentsProvider.Refresh | providers/CmlArgumentsProvider.go:56-93 | the map is rebuilt from scratch from the given arguments (no entry of an earlier call survives, `-Vname` keeps its `V`) and no error is returned |
| Provider.NameFor | JsonConfigurationProvider.go:151-159 | a source of the provider's own kind with an alternate name renames the lookup; every other configuration leaves the name as it is |
| Provider.OtherSourceKindIgnored | CmlArgumentsProvider.go:79-84 | a source meant for another provider never renames a lookup |
| Strings.IndexByte | CmlArgumentsProvider.go:119 | the index of the first occurrence of the character, or -1 exactly when it does not occur |
| Strings.IndexByteOfConcat | CmlArgumentsProvider.go:119 | the first occurrence in a concatenation is in the first part when it occurs there |
| Strings.JoinSplit | JsonConfigurationProvider.go:168 | joining the parts of a split on the same separator gives back the name |
| Strings.SplitJoin | JsonConfigurationProvider.go:168 | splitting a join of separator-free parts gives back the parts |
| Strings.SplitPartsFree | JsonConfigurationProvider.go:168 | no part of a split contains the separator |
| Strings.SplitOfConcat | JsonConfigurationProvider.go:168 | the split of `a.b` is the split of `a` followed by the split of `b` |
| Strings.SplitWithoutSeparator | JsonConfigurationProvider.go:168 | a name without a dot is a single segment |
| Values.GetPath | JsonConfigurationProvider.go:167-184 | the segment walk loop returns the node the path reaches, nil on a missing key or a step into a non-mapping |
| Values.LookupConcat | JsonConfigurationProvider.go:171-183 | walking a path in two legs is walking it at once |
| Values.LookupMissPersists | JsonConfigurationProvider.go:172-179 | once the walk has missed, no longer path finds anything |
| Values.LookupFoundThroughMappings | JsonConfigurationProvider.go:171-184 | a found value means every step met a mapping that held the next segment |
| Values.LookupIgnoresNonStringKeys | YamlConfigurationProvider.go:170-185 | two mappings that agree on their string keys answer every path alike; non-string keys are never reached |
| Values.EmptyDocumentMisses | cfproviders/CfEnvironmentProvider.go:83-99 | every name misses in an empty root |
| Values.GetDottedNested | JsonConfigurationProvider.go:168-184 | `a.b` walks `a` and then `b` below it |
| Values.GetDottedUnder | cfproviders/CfEnvironmentProvider.go:83-99 | a name below two dot-free segments walks those two keys first |
| Values.DottedExample | JsonConfigurationProvider.go:167-184 | in `{a: {b: c}}`, `a.b` is `c`, while a missing key `a.x` and a step below a string `a.b.c` are nil |
| Documents.FilenameFromCml | JsonConfigurationProvider.go:104-110 | with `FileFromCml` the filename is the switch's value, or "" when the switch is absent, discarding the configured name; otherwise the configured name stays |
| Documents.FilenameIfSwitched | providers/JsonConfigurationProvider.go:71-75 | the filename is replaced only when `FileFromCml` is set and the switch is present |
| Documents.OverrideIgnoresDocument | JsonConfigurationProvider.go:162-166 | a present override switch answers its value, whatever the document holds |
| Documents.DocumentAnswersOtherwise | JsonConfigurationProvider.go:167-184 | without an override the answer is the document walk alone, and a found value means the first segment is a key of the document |
| Documents.EmptyDocumentAnswersNil | providers/JsonConfigurationProvider.go:67-70 | before any file is read every name that is not overridden is nil |
| Documents.ReadDocument | JsonConfigurationProvider.go:128-135 | reading succeeds exactly when the file is readable and decodes, and then yields the decoded document |
| Documents.RefreshKeepsDocumentUnlessRead | JsonConfigurationProvider.go:117-141 | the document changes only on an error-free read of a file newer than the timestamp; on an error it is kept and nothing is reported changed |
| Documents.RefreshChangedExactly | JsonConfigurationProvider.go:117-141 | "changed" is reported exactly when the provider reports changes and a newer file was read and decoded |
| Documents.UnmodifiedFileNotRead | JsonConfigurationProvider.go:119-127 | a file that is not newer than the timestamp is not read: its contents do not matter and nothing changes |
| Documents.RepeatedRefreshRereads | JsonConfigurationProvider.go:123-138 | as the timestamp never advances, refreshing again over the same files gives the same outcome |
| EnvJsonConfiguration.JsonConfigurationProvider.constructor | JsonConfigurationProvider.go:86-92 | a new provider takes its filename from switch `j` of the command line (the argument vector given, when the command-line provider has not loaded yet) and performs a first refresh from time zero |
| EnvJsonConfiguration.JsonConfigurationProvider.Load | JsonConfigurationProvider.go:103-113 | the filename comes from switch `j` or is cleared, read from the argument vector given when the command-line provider loads here for the first time; then one refresh runs with the timestamp unchanged |
| EnvJsonConfiguration.JsonConfigurationProvider.Refresh | JsonConfigurationProvider.go:117-141 | one timed refresh that reports a successful reread as changed; options and timestamp stay |
| EnvJsonConfiguration.JsonConfigurationProvider.Get | JsonConfigurationProvider.go:145-185 | nil when no document is loaded, even when an override exists; otherwise the `J<name>` switch for the effective name (loading the command line from the argument vector given when it has not loaded yet), else the document walk; the command-line provider's argument vector changes only by that first load |
| EnvJsonConfiguration.OverrideScenario | env_test.go:178-203 | `app -J<p> v -j f` picks file `f`, answers `v` for `<p>` and the document's value for every other name |
| EnvJsonConfiguration.OverrideThroughProvider | env_test.go:178-203 | through a command-line provider that has not loaded and a JSON provider with the default options: the filename is `f`, `<p>` answers `v`, and every other name answers the document's value |
| EnvYamlConfiguration.YamlConfigurationProvider.constructor | YamlConfigurationProvider.go:93-99 | a new provider takes its filename from switch `y` of the command line (the argument vector given, when the command-line provider has not loaded yet) and performs a first refresh from time zero |
| EnvYamlConfiguration.YamlConfigurationProvider.Load | YamlConfigurationProvider.go:110-120 | the filename comes from switch `y` or is cleared, read from the argument vector given when the command-line provider loads here for the first time; then one refresh runs with the timestamp unchanged |
| EnvYamlConfiguration.YamlConfigurationProvider.Refresh | YamlConfigurationProvider.go:124-143 | one timed refresh that never reports a change, even after a successful reread |
| EnvYamlConfiguration.YamlConfigurationProvider.Get | YamlConfigurationProvider.go:147-187 | nil when no document is loaded, even when an override exists; otherwise the `Y<name>` switch for the effective name (loading the command line from the argument vector given when it has not loaded yet), else the document walk; the command-line provider's argument vector changes only by that first load |
| EnvYamlConfiguration.OverrideScenario | env_test.go:259-285 | `app -Y<p> v -y f` picks file `f`, answers `v` for `<p>` and the document's value for every other name |
| EnvYamlConfiguration.OverrideThroughProvider | env_test.go:259-285 | through a command-line provider that has not loaded and a YAML provider with the default options: the filename is `f`, `<p>` answers `v`, and every other name answers the document's value |
| ProvidersJsonConfiguration.JsonConfigurationProvider.constructor | providers/JsonConfigurationProvider.go:66-78 | starts from an empty document, replaces the filename only when switched, and installs the file when it reads and decodes |
| ProvidersJsonConfiguration.JsonConfigurationProvider.Refresh | providers/JsonConfigurationProvider.go:80-88 | a read or decode error is returned and leaves the document untouched; success installs the decoded document |
| ProvidersJsonConfiguration.JsonConfigurationProvider.Get | providers/JsonConfigurationProvider.go:90-115 | the `J` override when present, else the document walk |
| ProvidersYamlConfiguration.YamlConfigurationProvider.constructor | providers/YamlConfigurationProvider.go:66-73 | starts from an empty document and reads the file chosen by the command line |
| ProvidersYamlConfiguration.YamlConfigurationProvider.Refresh | providers/YamlConfigurationProvider.go:75-91 | re-resolves the filename on every call; a read failure resets the document to empty and is returned |
| ProvidersYamlConfiguration.YamlConfigurationProvider.Get | providers/YamlConfigurationProvider.go:93-118 | the `Y` override when present, else the document walk |
| CfEnvironment.CfTree | cfproviders/CfEnvironmentProvider.go:40-66 | fails with "Not running in CF" without `VCAP_APPLICATION`, or when a present variable does not parse; otherwise the tree is `{vcap: {application: …}}`, with `services` exactly when `VCAP_SERVICES` is set |
| CfEnvironment.CfEnvironmentProvider.constructor | cfproviders/CfEnvironmentProvider.go:35-38 | a new provider holds no tree |
| CfEnvironment.CfEnvironmentProvider.Load | cfproviders/CfEnvironmentProvider.go:40-66 | installs the tree only when it is complete; any failure is returned with the old tree kept |
| CfEnvironment.CfEnvironmentProvider.Refresh | cfproviders/CfEnvironmentProvider.go:68-74 | always succeeds |
| CfEnvironment.CfEnvironmentProvider.Get | cfproviders/CfEnvironmentProvider.go:76-100 | the dotted walk from the root, with no override or alternate name; nil for every name before a successful load |
| CfEnvironment.ApplicationReachable | cfproviders/CfEnvironmentProvider.go:47-51 | `vcap.application.<name>` reads `<name>` in the decoded `VCAP_APPLICATION` |
| CfEnvironment.ServicesReachable | cfproviders/CfEnvironmentProvider.go:54-60 | `vcap.services.<name>` is nil without `VCAP_SERVICES` and reads `<name>` in it otherwise |
| EnvProperty.Providers | property.go:24-28 | one provider per reference, in reference order |
| EnvProperty.ProvidersSnoc | property.go:59-64 | a reference added at the end adds its provider at the end |
| EnvProperty.ProvidersIgnoreSettings | property.go:66-76 | attaching settings never changes which providers the references name |
| EnvProperty.Property.constructor | env.go:19-23 | a new property has only its name set |
| EnvProperty.Property.ProviderChain | property.go:20-32 | built at most once, with the providers of the references in order and count; null while there are no references; later calls return the same chain |
| EnvProperty.Property.WithDefaultValue | property.go:39-42 | sets only the default and returns the receiver |
| EnvProperty.Property.WithConverter | property.go:44-47 | sets only the converter and returns the receiver |
| EnvProperty.Property.WithAliases | property.go:49-52 | appends the aliases in argument order after the existing ones |
| EnvProperty.Property.Required | property.go:54-57 | sets only the flag and returns the receiver |
| EnvProperty.Property.From | property.go:59-64 | appends one reference with nil settings at the end, earlier references untouched, and keeps a built chain valid |
| EnvProperty.Property.WithProviderSettings | property.go:66-76 | panics (a precondition) without references or when the last one already has settings; otherwise sets only the last reference's settings |
| Env.FirstNonNull | env.go:46-52 | nil exactly when every provider answers nil; otherwise an answer of some provider before which every provider answered nil |
| Env.FirstAnswer | env.go:46-52 | the loop that stops at the first non-nil answer returns `FirstNonNull` |
| Env.LaterProvidersIgnored | env.go:47-52 | providers after the first one that answers are never consulted |
| Env.FirstAnswerWins | env.go:47-52 | appending providers to a chain that already answers changes nothing |
| Env.CommandLineBeforeEnvironment | env.go:9 | along the default chain a switch wins over an environment variable, which wins over nil |
| Env.ConverterNeverSeesNil | env.go:55-62 | the converter gets the found value, else the default, and is never applied to nil |
| Env.DefaultOnlyWhenNothingFound | env.go:55-57 | the default is used only when the chain found nothing; an unregistered name keeps what was found |
| Env.RefreshErrorsConcat | env.go:70-74 | the errors of a chain are those of its parts, in order |
| Env.NoErrorsIffAllRefreshed | env.go:76-80 | no error is reported exactly when every provider refreshed cleanly |
| Env.Refresh | env.go:68-81 | every default-chain provider is refreshed even after a failure; the errors come back in chain order, or nil when there are none |
| Env.Environment.constructor | env.go:15-17 | the registry starts empty |
| Env.Environment.AddProperty | env.go:19-23 | stores a new property under the name, silently replacing an earlier one |
| Env.Environment.Get | env.go:35-66 | an unregistered name or a property without references uses the default chain; otherwise the property's chain (built once); then the default for nil and the converter for non-nil; the property's name, required flag, aliases, default, converter and references stay as they were |
| Env.RegisterWithChain | property.go:59-64 | chained builder calls on the returned property add its references in call order |
| Env.CustomChainScenario | env.go:35-66 | a property registered with four providers answers the first non-nil value in the order `From` added them, or its default |
| EnvVariable.VariableSource.constructor | variable.go:25-28 | a new source has nothing cached |
| EnvVariable.Variable.Var | variable.go:30-32 | a variable with its name, no sources, not required, nothing cached |
| EnvVariable.Variable.Default | variable.go:34-37 | sets only the default and returns the receiver |
| EnvVariable.Variable.From | variable.go:39-45 | appends a fresh source with nothing cached after the existing ones, keeping their order |
| EnvVariable.Variable.Required | variable.go:47-50 | sets the flag (idempotently) and returns the receiver |
| EnvVariable.Variable.ListeningWith | variable.go:52-55 | sets only the listener and returns the receiver |
| EnvVariable.BuildChain | variable.go:34-55 | a builder chain mutates one variable, and its sources keep the order they were added in |

## Left out

- Operating-system access (`os.Args`, `os.LookupEnv`, `os.Stat`,
  `ioutil.ReadFile`) is turned into inputs, as described above. The decoders
  (`encoding/json`, `yaml.v2`) are abstract functions. Their quirks are not
  modelled: merging into an existing map, partial results on error, and the
  root being something other than a mapping.
- CfEnvironment.CfEnvironmentProvider.Load: assumes a working decoder. The code
  at cfproviders/CfEnvironmentProvider.go:48 and 56 passes the map rather than
  a pointer to `json.Unmarshal`, and the decoder's behaviour on that is not
  modelled.
- CfEnvironment.CfEnvironmentProvider.Get: `errors.New` values that the code
  creates and discards (cfproviders/CfEnvironmentProvider.go:70, 79) have no
  effect, so none are modelled. The same goes for `Refresh`.
- Mutexes and double-checked singletons (`jcpMutex`, `ycpMutex`, `cmlLock`,
  the property mutex): calls are treated as serialized. Each singleton is an
  object that the caller passes in.
- The environment-variable providers are thin wrappers over `os.LookupEnv`.
  Inside the resolver they are a map lookup (`Env.DefaultAnswers`).
- `provider.go` declares interfaces only. Providers are named by the
  `ProviderKind` datatype, and what each currently answers or reports is a
  parameter of `Env.Environment.Get` and `Env.Refresh`.
- Env.Environment.Get: `env.go:38,42` reads `p.providerChain` as a field, while
  `property.go:20` defines it as a method. The model calls the method and uses
  the default chain when it yields no chain.
- Env.Validate: does nothing in the code, so it has no contract.
- The newer resolver's `addVar`, `Load`, `Validate`, dirty-tracking `Refresh`
  and listener calls are not part of this model. `Variable.Add`
  (variable.go:57-59) only hands the variable to `addVar`, so it is left out
  with it. The `chain` field of a variable is kept but never filled.
- Env.Build: like the code, it returns nothing and drops the errors of the
  refresh it runs, so it carries no contract of its own.
- The value cache of a variable is the field type `Option<ValuePlaceholder>`:
  `None` is "never cached", `Some(ValuePlaceholder(Null))` is "cached nil".
  The code that fills the cache is not part of this model.
- Converters and listeners are opaque functions. Logging is dropped. JSON
  numbers (Go `float64`) are an integer `Num`.
- EnvProperty.Property.From: a nil slice and an empty slice of references are
  not told apart.
