/**
 * The exporter factory: the record `NewExporterFactory` allocates, the
 * `With*Exporter` options that update it in place, and the read-only queries
 * on the assembled factory. The pure functions `ApplyOption`, `ApplyOptions`
 * and `Assemble` are the reference specification of the assembly; the class
 * `ExporterFactory` and the method `NewExporterFactory` are proved against it.
 */
module Exporter {
  import opened Wrappers
  import opened ComponentTypes

  /** The three option constructors; Go allows a nil constructor function in each. */
  datatype FactoryOption =
    | WithTracesExporter(create: Option<ConstructorRef>, level: StabilityLevel)
    | WithMetricsExporter(create: Option<ConstructorRef>, level: StabilityLevel)
    | WithLogsExporter(create: Option<ConstructorRef>, level: StabilityLevel)

  /** The signal whose state an option writes. */
  function SignalOf(o: FactoryOption): DataType
  {
    match o
    case WithTracesExporter(_, _) => Traces
    case WithMetricsExporter(_, _) => Metrics
    case WithLogsExporter(_, _) => Logs
  }

  /** The value of the factory record. */
  datatype FactoryState = FactoryState(
    cfgType: string,
    createDefaultConfig: DefaultConfigRef,
    stability: map<DataType, StabilityLevel>,
    createTraces: Option<ConstructorRef>,
    createMetrics: Option<ConstructorRef>,
    createLogs: Option<ConstructorRef>)

  /** Everything the record holds about one signal: its map entry and its constructor. */
  datatype Slot = Slot(stability: Option<StabilityLevel>, create: Option<ConstructorRef>)

  function ConstructorOf(s: FactoryState, d: DataType): Option<ConstructorRef>
  {
    match d
    case Traces => s.createTraces
    case Metrics => s.createMetrics
    case Logs => s.createLogs
  }

  function SlotOf(s: FactoryState, d: DataType): Slot
  {
    Slot(if d in s.stability then Some(s.stability[d]) else None, ConstructorOf(s, d))
  }

  /** The record as allocated, before any option: empty map, no constructor. */
  function Initial(cfgType: string, createDefaultConfig: DefaultConfigRef): (s: FactoryState)
    ensures s.cfgType == cfgType && s.createDefaultConfig == createDefaultConfig
    ensures forall d :: SlotOf(s, d) == Slot(None, None)
  {
    FactoryState(cfgType, createDefaultConfig, map[], None, None, None)
  }

  /**
   * One option applied to the record: it writes its own signal's map entry and
   * constructor as a pair and touches nothing else.
   */
  function ApplyOption(s: FactoryState, o: FactoryOption): (r: FactoryState)
    ensures r.cfgType == s.cfgType && r.createDefaultConfig == s.createDefaultConfig
    ensures SlotOf(r, SignalOf(o)) == Slot(Some(o.level), o.create)
    ensures forall d :: d != SignalOf(o) ==> SlotOf(r, d) == SlotOf(s, d)
    ensures r.stability.Keys == s.stability.Keys + {SignalOf(o)}
  {
    match o
    case WithTracesExporter(c, sl) => s.(stability := s.stability[Traces := sl], createTraces := c)
    case WithMetricsExporter(c, sl) => s.(stability := s.stability[Metrics := sl], createMetrics := c)
    case WithLogsExporter(c, sl) => s.(stability := s.stability[Logs := sl], createLogs := c)
  }

  /** The options applied one after another, first to last. */
  function ApplyOptions(s: FactoryState, options: seq<FactoryOption>): (r: FactoryState)
    ensures r.cfgType == s.cfgType && r.createDefaultConfig == s.createDefaultConfig
    decreases |options|
  {
    if |options| == 0 then s else ApplyOptions(ApplyOption(s, options[0]), options[1..])
  }

  /** The value `NewExporterFactory(cfgType, createDefaultConfig, options...)` builds. */
  function Assemble(cfgType: string, createDefaultConfig: DefaultConfigRef,
                    options: seq<FactoryOption>): (s: FactoryState)
    ensures s.cfgType == cfgType && s.createDefaultConfig == createDefaultConfig
  {
    ApplyOptions(Initial(cfgType, createDefaultConfig), options)
  }

  /**
   * Reference definition of "last option wins": the last option in the list
   * that is for signal `d`, found by searching backwards.
   */
  function LastOptionFor(d: DataType, options: seq<FactoryOption>): (r: Option<FactoryOption>)
    ensures r.None? <==> forall i :: 0 <= i < |options| ==> SignalOf(options[i]) != d
    ensures r.Some? ==> SignalOf(r.value) == d
    ensures r.Some? ==>
      exists i :: 0 <= i < |options| && options[i] == r.value &&
        forall j :: i < j < |options| ==> SignalOf(options[j]) != d
    decreases |options|
  {
    if |options| == 0 then None
    else if SignalOf(options[|options| - 1]) == d then Some(options[|options| - 1])
    else LastOptionFor(d, options[..|options| - 1])
  }

  /** `ApplyOptions` splits over a concatenation: the options are applied in list order. */
  lemma {:induction false} ApplyOptionsAppend(s: FactoryState, a: seq<FactoryOption>, b: seq<FactoryOption>)
    ensures ApplyOptions(s, a + b) == ApplyOptions(ApplyOptions(s, a), b)
    decreases |a|
  {
    if |a| == 0 {
      assert a + b == b;
    } else {
      assert (a + b)[0] == a[0];
      assert (a + b)[1..] == a[1..] + b;
      ApplyOptionsAppend(ApplyOption(s, a[0]), a[1..], b);
    }
  }

  /**
   * The record `exporterFactory`. The configuration type and the default
   * configuration function are set once at allocation; the stability map and
   * the three constructors are what the options overwrite.
   */
  class ExporterFactory {
    const cfgType: string
    const createDefaultConfig: DefaultConfigRef
    var stability: map<DataType, StabilityLevel>
    var createTraces: Option<ConstructorRef>
    var createMetrics: Option<ConstructorRef>
    var createLogs: Option<ConstructorRef>

    /** The record's current value. */
    function State(): FactoryState
      reads this
    {
      FactoryState(cfgType, createDefaultConfig, stability, createTraces, createMetrics, createLogs)
    }

    /** The allocation in `NewExporterFactory`: empty map, no constructors. */
    constructor (cfgType: string, createDefaultConfig: DefaultConfigRef)
      ensures State() == Initial(cfgType, createDefaultConfig)
    {
      this.cfgType := cfgType;
      this.createDefaultConfig := createDefaultConfig;
      stability := map[];
      createTraces, createMetrics, createLogs := None, None, None;
    }

    /** `applyExporterFactoryOption`: the option's closure writes one map entry and one constructor. */
    method ApplyExporterFactoryOption(o: FactoryOption)
      modifies this
      ensures State() == ApplyOption(old(State()), o)
    {
      match o
      case WithTracesExporter(c, sl) =>
        stability := stability[Traces := sl];
        createTraces := c;
      case WithMetricsExporter(c, sl) =>
        stability := stability[Metrics := sl];
        createMetrics := c;
      case WithLogsExporter(c, sl) =>
        stability := stability[Logs := sl];
        createLogs := c;
    }

    /** `CreateDefaultConfig`: calls the registered default-configuration function. */
    function CreateDefaultConfig(makeDefault: DefaultConfigRef -> ExporterConfig): (cfg: ExporterConfig)
      reads this
      ensures cfg == makeDefault(State().createDefaultConfig)
    {
      makeDefault(createDefaultConfig)
    }

    /** `CreateTracesExporter`: the sentinel without a traces constructor, else its result unchanged. */
    function CreateTracesExporter(invoke: Invoke, ctx: Context, settings: ExporterCreateSettings,
                                  cfg: ExporterConfig): (r: CreateResult)
      reads this
      ensures SlotOf(State(), Traces).create.None? ==> r == NotSupported
      ensures SlotOf(State(), Traces).create.Some? ==>
                r == invoke(SlotOf(State(), Traces).create.value, ctx, settings, cfg)
    {
      CreateExporter(createTraces, invoke, ctx, settings, cfg)
    }

    /** `CreateMetricsExporter`: the sentinel without a metrics constructor, else its result unchanged. */
    function CreateMetricsExporter(invoke: Invoke, ctx: Context, settings: ExporterCreateSettings,
                                   cfg: ExporterConfig): (r: CreateResult)
      reads this
      ensures SlotOf(State(), Metrics).create.None? ==> r == NotSupported
      ensures SlotOf(State(), Metrics).create.Some? ==>
                r == invoke(SlotOf(State(), Metrics).create.value, ctx, settings, cfg)
    {
      CreateExporter(createMetrics, invoke, ctx, settings, cfg)
    }

    /** `CreateLogsExporter`: the sentinel without a logs constructor, else its result unchanged. */
    function CreateLogsExporter(invoke: Invoke, ctx: Context, settings: ExporterCreateSettings,
                                cfg: ExporterConfig): (r: CreateResult)
      reads this
      ensures SlotOf(State(), Logs).create.None? ==> r == NotSupported
      ensures SlotOf(State(), Logs).create.Some? ==>
                r == invoke(SlotOf(State(), Logs).create.value, ctx, settings, cfg)
    {
      CreateExporter(createLogs, invoke, ctx, settings, cfg)
    }

    /** `TracesExporterStability`: the traces map entry, `Undefined` when absent. */
    function TracesExporterStability(): (sl: StabilityLevel)
      reads this
      ensures sl == SlotOf(State(), Traces).stability.GetOr(Undefined)
    {
      GetStabilityLevel(stability, Traces)
    }

    /** `MetricsExporterStability`: the metrics map entry, `Undefined` when absent. */
    function MetricsExporterStability(): (sl: StabilityLevel)
      reads this
      ensures sl == SlotOf(State(), Metrics).stability.GetOr(Undefined)
    {
      GetStabilityLevel(stability, Metrics)
    }

    /** `LogsExporterStability`: the logs map entry, `Undefined` when absent. */
    function LogsExporterStability(): (sl: StabilityLevel)
      reads this
      ensures sl == SlotOf(State(), Logs).stability.GetOr(Undefined)
    {
      GetStabilityLevel(stability, Logs)
    }
  }

  /**
   * `NewExporterFactory`: allocate the record, then apply the options in
   * order. The result is the reference assembly of the same arguments.
   */
  method NewExporterFactory(cfgType: string, createDefaultConfig: DefaultConfigRef,
                            options: seq<FactoryOption>) returns (f: ExporterFactory)
    ensures fresh(f)
    ensures f.State() == Assemble(cfgType, createDefaultConfig, options)
  {
    f := new ExporterFactory(cfgType, createDefaultConfig);
    for i := 0 to |options|
      invariant f.State() == ApplyOptions(Initial(cfgType, createDefaultConfig), options[..i])
    {
      f.ApplyExporterFactoryOption(options[i]);
      ApplyOptionsAppend(Initial(cfgType, createDefaultConfig), options[..i], [options[i]]);
      assert options[..i + 1] == options[..i] + [options[i]];
    }
    assert options[..|options|] == options;
  }
}
