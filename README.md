# Exporter factory model

A Dafny model of the exporter factory of the OpenTelemetry Collector's
`component` package (`component/exporter.go`). An exporter factory is the
registry entry for one exporter type. It holds:

- a configuration type and a default-configuration function;
- a map from data type (traces, metrics, logs) to stability level;
- one nullable constructor function per data type.

`NewExporterFactory` allocates the record with an empty map and no
constructors. It then applies the `With*Exporter` options in order. Each
option writes its signal's map entry and constructor together. After assembly,
`Create*Exporter` returns `ErrDataTypeIsNotSupported` when the signal's
constructor is nil, and otherwise returns the constructor's result unchanged.
`*ExporterStability` looks up the map.

Files and modules:

- `wrappers.dfy` (`Wrappers`): the `Option` type. It stands for Go's nullable
  function values and for absent map entries.
- `component_types.dfy` (`ComponentTypes`): `DataType`, `StabilityLevel`, the
  opaque values that are only passed through, the `(exporter, error)` result
  pair and the `ErrDataTypeIsNotSupported` sentinel. It also holds the nil-checked
  pass-through `CreateExporter` and the stability lookup `GetStabilityLevel`.
- `exporter_factory.dfy` (`Exporter`): the option datatype and the pure
  reference assembly. The reference assembly is `ApplyOption`, `ApplyOptions`
  and `Assemble`, plus the backward search `LastOptionFor`. The module also
  holds the class `ExporterFactory` and the method `NewExporterFactory`.
  `ExporterFactory` has the record's fields, an in-place option method and the
  read-only queries. `NewExporterFactory` has the option loop and is proved to
  build `Assemble` of its arguments.
- `exporter_properties.dfy` (`ExporterProperties`): lemmas about the assembly.
  They cover "last option wins", the frame of each option, commutation of
  options for different signals, the queries on an assembled factory, and the
  empty-option and "otlp" scenarios.

Modelling choices:

- User-supplied constructor functions are opaque identities (`ConstructorRef`).
  What they return is a parameter `invoke` of type
  `(ConstructorRef, Context, ExporterCreateSettings, ExporterConfig) -> CreateResult`.
  The model says nothing about it beyond being a function of those four values.
- The context, the settings, the configuration and the produced exporter are
  opaque values that are only forwarded.
- `baseFactory.getStabilityLevel` is defined outside `component/exporter.go`.
  The model assumes it is a map lookup that yields `Undefined` for an absent
  key (`GetStabilityLevel`).
- A `With*Exporter` option carries an `Option<ConstructorRef>`, because Go
  accepts a nil function there. The options' doc comments
  (component/exporter.go:172, 180, 188) say each one overrides two defaults:
  the "error not supported" create call and the "undefined" stability level.
  Given a nil function, the first override has no effect while the level is
  still recorded.
  - An installed constructor always has a map entry
    (`AssembledConstructorsHaveStability`).
  - An option with a nil constructor records its stability level while the
    create call still fails with the sentinel
    (`NilConstructorOptionSetsOnlyStability`).

## Model

| member | source | states |
|---|---|---|
| `ComponentTypes.CreateExporter` | component/exporter.go:122-150 | a nil constructor yields `(nil, ErrDataTypeIsNotSupported)`; a present one yields exactly `invoke(f, ctx, settings, cfg)`, nothing wrapped |
| `ComponentTypes.GetStabilityLevel` | component/exporter.go:160-161 | the map entry for the data type, `Undefined` when the key is absent (assumed behaviour of `getStabilityLevel`) |
| `Exporter.Initial` | component/exporter.go:198-201 | the freshly allocated record keeps the given config type and default-config function, and every signal has no map entry and no constructor |
| `Exporter.ApplyOption` | component/exporter.go:172-194 | an option sets its own signal's map entry to its level and its constructor to its function, as a pair; the other signals' entries and constructors, the config type and the default-config function are unchanged; the map's key set only gains the option's signal |
| `Exporter.ApplyOptions` | component/exporter.go:202-204 | applying any list of options never changes the config type or the default-config function |
| `Exporter.Assemble` | component/exporter.go:197-206 | the assembled factory's config type and default-config function are exactly the arguments |
| `Exporter.LastOptionFor` | component/exporter.go:202-204 | reference definition of "last option wins": none iff no option in the list is for the signal; otherwise an option for that signal that occurs in the list with no later option for the same signal |
| `Exporter.ApplyOptionsAppend` | component/exporter.go:202-204 | options are applied in list order: applying `a + b` is applying `a`, then `b` |
| `Exporter.ExporterFactory.constructor` | component/exporter.go:198-201 | the allocated object's value is `Initial(cfgType, createDefaultConfig)` |
| `Exporter.ExporterFactory.ApplyExporterFactoryOption` | component/exporter.go:173-194 | the in-place update leaves the object's value equal to `ApplyOption` of its old value |
| `Exporter.ExporterFactory.CreateDefaultConfig` | component/exporter.go:114-117 | the result is the registered default-config function's result |
| `Exporter.ExporterFactory.CreateTracesExporter` | component/exporter.go:122-128 | sentinel error when the traces slot holds no constructor, otherwise that constructor's result for the same arguments |
| `Exporter.ExporterFactory.CreateMetricsExporter` | component/exporter.go:133-139 | sentinel error when the metrics slot holds no constructor, otherwise that constructor's result for the same arguments |
| `Exporter.ExporterFactory.CreateLogsExporter` | component/exporter.go:144-150 | sentinel error when the logs slot holds no constructor, otherwise that constructor's result for the same arguments |
| `Exporter.ExporterFactory.TracesExporterStability` | component/exporter.go:160-162 | the traces map entry, or `Undefined` when absent; a function, so it changes nothing |
| `Exporter.ExporterFactory.MetricsExporterStability` | component/exporter.go:164-166 | the metrics map entry, or `Undefined` when absent; a function, so it changes nothing |
| `Exporter.ExporterFactory.LogsExporterStability` | component/exporter.go:168-170 | the logs map entry, or `Undefined` when absent; a function, so it changes nothing |
| `Exporter.NewExporterFactory` | component/exporter.go:196-206 | the loop over the options builds a fresh object whose value is `Assemble(cfgType, createDefaultConfig, options)` |
| `ExporterProperties.LastOptionWins` | component/exporter.go:173-177 | after any option list, each signal's map entry and constructor are those of the last option for it, or unchanged if there is none |
| `ExporterProperties.AssembledSlot` | component/exporter.go:197-206 | in an assembled factory, each signal's entry and constructor come from the last option for it, or are both absent |
| `ExporterProperties.AssembledStability` | component/exporter.go:160-170 | a stability query on an assembled factory returns the level of the last option for the signal, or `Undefined` if there is none |
| `ExporterProperties.AssembledCreate` | component/exporter.go:123-150 | a create call on an assembled factory calls the constructor of the last option for the signal when that option has one; in every other case it returns the sentinel |
| `ExporterProperties.NoOptionsSupportNothing` | component/exporter.go:197-206 | with no options, the map is empty, every constructor is nil, every stability is `Undefined` and every create call returns the sentinel |
| `ExporterProperties.UnsupportedIgnoresArguments` | component/exporter.go:123-126 | with a nil constructor, the result does not depend on the constructor behaviour, the context, the settings or the config: it is always the sentinel |
| `ExporterProperties.RepeatedSignalLastWins` | component/exporter.go:173-177 | a second option for the same signal replaces both halves of the first: the result equals applying only the second |
| `ExporterProperties.DistinctSignalsCommute` | component/exporter.go:173-194 | two options for different signals give the same record in either order |
| `ExporterProperties.SwapDistinctSignals` | component/exporter.go:202-204 | swapping two neighbouring options for different signals anywhere in the list does not change the assembled factory |
| `ExporterProperties.AssemblyDeterminedByLastOptions` | component/exporter.go:197-206 | two option lists with the same last option for every signal assemble equal factories |
| `ExporterProperties.AssembledConstructorsHaveStability` | component/exporter.go:172-194 | an assembled factory never holds a constructor without a stability entry for that signal |
| `ExporterProperties.NilConstructorOptionSetsOnlyStability` | component/exporter.go:173-177 | `WithTracesExporter(nil, Beta)` records `Beta` for traces while creating traces still returns the sentinel |
| `ExporterProperties.OtlpScenario` | component/exporter.go:197-206 | for factory "otlp" with traces at Beta and logs at Alpha: traces is Beta, metrics is Undefined, logs is Alpha; the metrics create call returns the sentinel; the traces and logs create calls return their constructors' results |
| `ExporterProperties.OtlpClient` | component/exporter.go:197-206 | the same scenario through the class's queries on the object `NewExporterFactory` returns: traces Beta, metrics Undefined, logs Alpha; the traces and logs create calls return their constructors' results and the metrics create call returns the sentinel |

## Left out

- The `Exporter`, `TracesExporter`, `MetricsExporter` and `LogsExporter` interfaces (start/stop and consume) are not modelled. Their behaviour is defined outside this file. An exporter is an opaque `ExporterRef`.
- The contents of `ExporterCreateSettings` (telemetry settings, build info) are not modelled: they are only forwarded.
- What user constructors do (I/O, use of the context, cancellation) is not modelled. Their results are the uninterpreted parameter `invoke`.
- `Exporter.ExporterFactory.CreateDefaultConfig`: does not state that successive results are fresh and unaliased. That is a requirement on the user's function that this code does not enforce. The `configtest.CheckConfigStruct` validation lives elsewhere and is not modelled either.
- The internals of `baseFactory`, and the order of `StabilityLevel` values, are not part of this model. Only the assumed lookup-with-default is.
- Concurrent reads after assembly are not modelled. Dafny's functions over the object cannot modify it, which covers the sequential half: the queries change nothing.
- The `ExporterFactoryOption` interface's dynamic dispatch (`applyExporterFactoryOption` through a closure) becomes a closed datatype with one case per `With*Exporter`. Options defined outside this file are not modelled.
- Go's nil `createDefaultConfig` is not modelled. The function is an opaque reference that is always present.
- A nil `ExporterFactoryOption` in the option list is not modelled. In Go, `opt.applyExporterFactoryOption(f)` on a nil option panics (component/exporter.go:202-203). `FactoryOption` has only the three `With*Exporter` cases, so every list the model accepts assembles without failing.
- The model does not capture that an assembled factory can no longer change. In Go the struct is unexported (component/exporter.go:152), it is returned only as the `ExporterFactory` interface (:197, :205), which cannot be implemented directly (:57-58), and `applyExporterFactoryOption` is unexported (:99). In the model the class's fields and `ApplyExporterFactoryOption` are public. Nothing stops a later caller from changing a factory after `NewExporterFactory` returns it. The queries are functions, so the queries themselves change nothing.
