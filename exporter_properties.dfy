/**
 * What the assembled exporter factory guarantees, stated over the reference
 * assembly `Assemble` (which `NewExporterFactory` is proved to build).
 */
module ExporterProperties {
  import opened Wrappers
  import opened ComponentTypes
  import opened Exporter

  /** What a signal's slot holds once `last` (if any) was the last option for it. */
  function SlotAfter(last: Option<FactoryOption>, before: Slot): Slot
  {
    match last
    case None => before
    case Some(o) => Slot(Some(o.level), o.create)
  }

  /**
   * Last option wins: after a list of options, a signal's map entry and
   * constructor are those of the last option for that signal, as a pair, or
   * what they were before when the list has no option for it.
   */
  lemma {:induction false} LastOptionWins(s: FactoryState, options: seq<FactoryOption>, d: DataType)
    ensures SlotOf(ApplyOptions(s, options), d) == SlotAfter(LastOptionFor(d, options), SlotOf(s, d))
    decreases |options|
  {
    if |options| > 0 {
      var init, last := options[..|options| - 1], options[|options| - 1];
      assert options == init + [last];
      ApplyOptionsAppend(s, init, [last]);
      assert ApplyOptions(ApplyOption(ApplyOptions(s, init), last), []) == ApplyOption(ApplyOptions(s, init), last);
      LastOptionWins(s, init, d);
    }
  }

  /** A signal's slot in an assembled factory: the last option for it, or nothing at all. */
  lemma AssembledSlot(cfgType: string, createDefaultConfig: DefaultConfigRef,
                      options: seq<FactoryOption>, d: DataType)
    ensures SlotOf(Assemble(cfgType, createDefaultConfig, options), d)
         == SlotAfter(LastOptionFor(d, options), Slot(None, None))
  {
    LastOptionWins(Initial(cfgType, createDefaultConfig), options, d);
  }

  /** The stability query reports the level of the last option for the signal, else `Undefined`. */
  lemma AssembledStability(cfgType: string, createDefaultConfig: DefaultConfigRef,
                           options: seq<FactoryOption>, d: DataType)
    ensures GetStabilityLevel(Assemble(cfgType, createDefaultConfig, options).stability, d)
         == match LastOptionFor(d, options)
            case None => Undefined
            case Some(o) => o.level
  {
    AssembledSlot(cfgType, createDefaultConfig, options, d);
  }

  /**
   * A create call on an assembled factory fails with the sentinel unless the
   * last option for the signal installed a constructor; then it is that
   * constructor's result, arguments and result passed through unchanged.
   */
  lemma AssembledCreate(cfgType: string, createDefaultConfig: DefaultConfigRef,
                        options: seq<FactoryOption>, d: DataType, invoke: Invoke,
                        ctx: Context, settings: ExporterCreateSettings, cfg: ExporterConfig)
    ensures CreateExporter(ConstructorOf(Assemble(cfgType, createDefaultConfig, options), d),
                           invoke, ctx, settings, cfg)
         == match LastOptionFor(d, options)
            case Some(WithTracesExporter(Some(f), _)) => invoke(f, ctx, settings, cfg)
            case Some(WithMetricsExporter(Some(f), _)) => invoke(f, ctx, settings, cfg)
            case Some(WithLogsExporter(Some(f), _)) => invoke(f, ctx, settings, cfg)
            case _ => NotSupported
  {
    AssembledSlot(cfgType, createDefaultConfig, options, d);
  }

  /** A factory built without options supports nothing and reports `Undefined` everywhere. */
  lemma NoOptionsSupportNothing(cfgType: string, createDefaultConfig: DefaultConfigRef, d: DataType,
                                invoke: Invoke, ctx: Context, settings: ExporterCreateSettings,
                                cfg: ExporterConfig)
    ensures Assemble(cfgType, createDefaultConfig, []).stability == map[]
    ensures ConstructorOf(Assemble(cfgType, createDefaultConfig, []), d) == None
    ensures GetStabilityLevel(Assemble(cfgType, createDefaultConfig, []).stability, d) == Undefined
    ensures CreateExporter(ConstructorOf(Assemble(cfgType, createDefaultConfig, []), d),
                           invoke, ctx, settings, cfg) == NotSupported
  {
  }

  /**
   * Without a constructor the create call neither depends on the constructor
   * behaviour nor on any argument: it is always the sentinel.
   */
  lemma UnsupportedIgnoresArguments(invoke1: Invoke, invoke2: Invoke, ctx1: Context, ctx2: Context,
                                    settings1: ExporterCreateSettings, settings2: ExporterCreateSettings,
                                    cfg1: ExporterConfig, cfg2: ExporterConfig)
    ensures CreateExporter(None, invoke1, ctx1, settings1, cfg1)
         == CreateExporter(None, invoke2, ctx2, settings2, cfg2)
         == NotSupported
  {
  }

  /** Two options for the same signal: the second replaces both halves of the first. */
  lemma RepeatedSignalLastWins(s: FactoryState, o1: FactoryOption, o2: FactoryOption)
    requires SignalOf(o1) == SignalOf(o2)
    ensures ApplyOption(ApplyOption(s, o1), o2) == ApplyOption(s, o2)
  {
  }

  /** Two records that agree on the fixed fields and on every signal's slot are equal. */
  lemma SameSlotsSameState(s1: FactoryState, s2: FactoryState)
    requires s1.cfgType == s2.cfgType && s1.createDefaultConfig == s2.createDefaultConfig
    requires forall d :: SlotOf(s1, d) == SlotOf(s2, d)
    ensures s1 == s2
  {
    assert SlotOf(s1, Traces) == SlotOf(s2, Traces);
    assert SlotOf(s1, Metrics) == SlotOf(s2, Metrics);
    assert SlotOf(s1, Logs) == SlotOf(s2, Logs);
    forall d ensures d in s1.stability <==> d in s2.stability {
      assert SlotOf(s1, d) == SlotOf(s2, d);
    }
    forall d | d in s1.stability ensures s1.stability[d] == s2.stability[d] {
      assert SlotOf(s1, d) == SlotOf(s2, d);
    }
    assert s1.stability == s2.stability;
  }

  /** Options for different signals write disjoint state, so they commute. */
  lemma DistinctSignalsCommute(s: FactoryState, o1: FactoryOption, o2: FactoryOption)
    requires SignalOf(o1) != SignalOf(o2)
    ensures ApplyOption(ApplyOption(s, o1), o2) == ApplyOption(ApplyOption(s, o2), o1)
  {
  }

  /**
   * Swapping two neighbouring options for different signals anywhere in the
   * list leaves the assembled factory unchanged.
   */
  lemma SwapDistinctSignals(s: FactoryState, before: seq<FactoryOption>, o1: FactoryOption,
                            o2: FactoryOption, after: seq<FactoryOption>)
    requires SignalOf(o1) != SignalOf(o2)
    ensures ApplyOptions(s, before + [o1, o2] + after) == ApplyOptions(s, before + [o2, o1] + after)
  {
    var mid := ApplyOptions(s, before);
    ApplyOptionsAppend(s, before + [o1, o2], after);
    ApplyOptionsAppend(s, before + [o2, o1], after);
    ApplyOptionsAppend(s, before, [o1, o2]);
    ApplyOptionsAppend(s, before, [o2, o1]);
    assert [o1, o2][1..] == [o2] && [o2, o1][1..] == [o1] && [o1][1..] == [] && [o2][1..] == [];
    assert ApplyOptions(mid, [o1, o2]) == ApplyOptions(ApplyOption(mid, o1), [o2]);
    assert ApplyOptions(ApplyOption(mid, o1), [o2]) == ApplyOptions(ApplyOption(ApplyOption(mid, o1), o2), []);
    assert ApplyOptions(mid, [o2, o1]) == ApplyOptions(ApplyOption(mid, o2), [o1]);
    assert ApplyOptions(ApplyOption(mid, o2), [o1]) == ApplyOptions(ApplyOption(ApplyOption(mid, o2), o1), []);
    DistinctSignalsCommute(mid, o1, o2);
  }

  /**
   * The assembled factory depends on the option list only through the last
   * option for each signal: any reordering or padding that keeps those
   * builds the same factory.
   */
  lemma AssemblyDeterminedByLastOptions(cfgType: string, createDefaultConfig: DefaultConfigRef,
                                        a: seq<FactoryOption>, b: seq<FactoryOption>)
    requires forall d :: LastOptionFor(d, a) == LastOptionFor(d, b)
    ensures Assemble(cfgType, createDefaultConfig, a) == Assemble(cfgType, createDefaultConfig, b)
  {
    forall d ensures SlotOf(Assemble(cfgType, createDefaultConfig, a), d)
                  == SlotOf(Assemble(cfgType, createDefaultConfig, b), d) {
      AssembledSlot(cfgType, createDefaultConfig, a, d);
      AssembledSlot(cfgType, createDefaultConfig, b, d);
    }
    SameSlotsSameState(Assemble(cfgType, createDefaultConfig, a), Assemble(cfgType, createDefaultConfig, b));
  }

  /**
   * An installed constructor always comes with a stability entry: the options
   * write both together, so an assembled factory never has a constructor
   * without a map entry.
   */
  lemma AssembledConstructorsHaveStability(cfgType: string, createDefaultConfig: DefaultConfigRef,
                                           options: seq<FactoryOption>, d: DataType)
    ensures ConstructorOf(Assemble(cfgType, createDefaultConfig, options), d).Some? ==>
              d in Assemble(cfgType, createDefaultConfig, options).stability
  {
    AssembledSlot(cfgType, createDefaultConfig, options, d);
  }

  /**
   * The converse does not hold: an option given a nil constructor records its
   * stability while the create call still fails with the sentinel.
   */
  lemma NilConstructorOptionSetsOnlyStability(cfgType: string, createDefaultConfig: DefaultConfigRef,
                                              invoke: Invoke, ctx: Context,
                                              settings: ExporterCreateSettings, cfg: ExporterConfig)
    ensures Traces in Assemble(cfgType, createDefaultConfig, [WithTracesExporter(None, Beta)]).stability
    ensures GetStabilityLevel(Assemble(cfgType, createDefaultConfig, [WithTracesExporter(None, Beta)]).stability,
                              Traces) == Beta
    ensures CreateExporter(ConstructorOf(Assemble(cfgType, createDefaultConfig, [WithTracesExporter(None, Beta)]),
                                         Traces), invoke, ctx, settings, cfg) == NotSupported
  {
  }

  /**
   * The "otlp" scenario: traces at Beta and logs at Alpha are installed,
   * metrics stays unsupported and `Undefined`.
   */
  lemma OtlpScenario(createDefaultConfig: DefaultConfigRef, t: ConstructorRef, l: ConstructorRef,
                     invoke: Invoke, ctx: Context, settings: ExporterCreateSettings, cfg: ExporterConfig)
    ensures var f := Assemble("otlp", createDefaultConfig,
                              [WithTracesExporter(Some(t), Beta), WithLogsExporter(Some(l), Alpha)]);
      && f.cfgType == "otlp"
      && GetStabilityLevel(f.stability, Traces) == Beta
      && GetStabilityLevel(f.stability, Metrics) == Undefined
      && GetStabilityLevel(f.stability, Logs) == Alpha
      && CreateExporter(ConstructorOf(f, Metrics), invoke, ctx, settings, cfg) == NotSupported
      && CreateExporter(ConstructorOf(f, Traces), invoke, ctx, settings, cfg) == invoke(t, ctx, settings, cfg)
      && CreateExporter(ConstructorOf(f, Logs), invoke, ctx, settings, cfg) == invoke(l, ctx, settings, cfg)
  {
    var options := [WithTracesExporter(Some(t), Beta), WithLogsExporter(Some(l), Alpha)];
    AssembledSlot("otlp", createDefaultConfig, options, Traces);
    AssembledSlot("otlp", createDefaultConfig, options, Metrics);
    AssembledSlot("otlp", createDefaultConfig, options, Logs);
  }

  /** A caller of the factory object sees the same scenario through the class's queries. */
  method OtlpClient(createDefaultConfig: DefaultConfigRef, t: ConstructorRef, l: ConstructorRef,
                    invoke: Invoke, ctx: Context, settings: ExporterCreateSettings, cfg: ExporterConfig)
    returns (traces: StabilityLevel, metrics: StabilityLevel, logs: StabilityLevel,
             createdTraces: CreateResult, refusedMetrics: CreateResult, createdLogs: CreateResult)
    ensures traces == Beta && metrics == Undefined && logs == Alpha
    ensures createdTraces == invoke(t, ctx, settings, cfg)
    ensures refusedMetrics == NotSupported
    ensures createdLogs == invoke(l, ctx, settings, cfg)
  {
    var f := NewExporterFactory("otlp", createDefaultConfig,
                                [WithTracesExporter(Some(t), Beta), WithLogsExporter(Some(l), Alpha)]);
    OtlpScenario(createDefaultConfig, t, l, invoke, ctx, settings, cfg);
    traces := f.TracesExporterStability();
    metrics := f.MetricsExporterStability();
    logs := f.LogsExporterStability();
    createdTraces := f.CreateTracesExporter(invoke, ctx, settings, cfg);
    refusedMetrics := f.CreateMetricsExporter(invoke, ctx, settings, cfg);
    createdLogs := f.CreateLogsExporter(invoke, ctx, settings, cfg);
  }
}
