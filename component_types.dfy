/**
 * The vocabulary shared by every exporter factory: the telemetry signals, the
 * stability levels, the opaque values a factory only passes through, and the
 * two primitive behaviours the factory is assembled from, namely the
 * nil-checked pass-through of a per-signal constructor and the stability
 * lookup with an `Undefined` default.
 */
module ComponentTypes {
  import opened Wrappers

  /** The three telemetry signals an exporter may consume. */
  datatype DataType = Traces | Metrics | Logs

  /** The maturity of one capability; `Undefined` is the zero value. */
  datatype StabilityLevel = Undefined | Unmaintained | Deprecated | Development | Alpha | Beta | Stable

  /** A user-supplied constructor function, known only by its identity. */
  datatype ConstructorRef = ConstructorRef(name: string)

  /** A user-supplied default-configuration function, known only by its identity. */
  datatype DefaultConfigRef = DefaultConfigRef(name: string)

  /** The caller's cancellation token; only forwarded. */
  datatype Context = Context(id: nat)

  /** The settings bundle (telemetry hooks and build information); only forwarded. */
  datatype ExporterCreateSettings = ExporterCreateSettings(telemetry: nat, buildInfo: string)

  /** A typed exporter configuration; only forwarded. */
  datatype ExporterConfig = ExporterConfig(id: nat)

  /** An exporter instance produced by a user constructor. */
  datatype ExporterRef = ExporterRef(id: nat)

  /** The errors visible at this layer: the sentinel, or whatever a constructor reports. */
  datatype Error = ErrDataTypeIsNotSupported | ConstructorError(message: string)

  /** Go's `(exporter, error)` result pair; both halves may be set by a user constructor. */
  datatype CreateResult = CreateResult(exporter: Option<ExporterRef>, err: Option<Error>)

  /** The `(nil, ErrDataTypeIsNotSupported)` pair. */
  const NotSupported: CreateResult := CreateResult(None, Some(ErrDataTypeIsNotSupported))

  /**
   * What a user constructor returns when called with a context, settings and
   * a configuration. It may do anything (I/O included), so it is left as a
   * parameter, uninterpreted.
   */
  type Invoke = (ConstructorRef, Context, ExporterCreateSettings, ExporterConfig) -> CreateResult

  /**
   * `CreateTracesExporterFunc.CreateTracesExporter` and its metrics and logs
   * twins: a nil constructor yields the sentinel error; a present one is called
   * with the arguments unchanged and its result is returned unchanged.
   */
  function CreateExporter(create: Option<ConstructorRef>, invoke: Invoke, ctx: Context,
                          settings: ExporterCreateSettings, cfg: ExporterConfig): (r: CreateResult)
    ensures create.None? ==> r == NotSupported
    ensures create.Some? ==> r == invoke(create.value, ctx, settings, cfg)
  {
    match create
    case None => NotSupported
    case Some(f) => invoke(f, ctx, settings, cfg)
  }

  /**
   * `baseFactory.getStabilityLevel`, which lives outside this model: assumed
   * to be a map lookup that yields `Undefined` for an absent key.
   */
  function GetStabilityLevel(stability: map<DataType, StabilityLevel>, d: DataType): (sl: StabilityLevel)
    ensures d in stability ==> sl == stability[d]
    ensures d !in stability ==> sl == Undefined
  {
    if d in stability then stability[d] else Undefined
  }
}
