/** The configuration bean: `DefaultDisruptorConfig` together with the fields
    and steps it inherits from `BaseDisruptorConfig` and
    `AbstractDisruptorLifecycleManager`. The library's Disruptor is modelled
    by what this layer hands to it: the constructor arguments, the default
    exception handler, the DSL commands that wire the handlers, and whether
    it was started. */
module Config {
  import opened Wrappers
  import opened JavaLang
  import opened Strings
  import opened WaitStrategies
  import opened ProducerTypes
  import opened Chains
  import opened ExceptionHandling

  /** Default ring buffer slot count. */
  const DefaultRingBufferSize: int32 := 1024

  /** The message of the validation that rejects a missing chain array. */
  const ChainArrayMessage := "Define a Event Handler Chain."

  /** The event factory, known by identity only. */
  type EventFactory = string

  /** `new NamedThreadFactory(threadName)`: names the consumer threads. */
  datatype NamedThreadFactory = NamedThreadFactory(threadName: Option<string>)

  /** A call this layer makes on the library's wiring DSL. `Then` is issued
      on the handler group that the preceding command returned. */
  datatype DslCommand =
    | HandleEventsWith(handlers: seq<string>)
    | After(handlers: seq<string>)
    | Then(handlers: seq<string>)

  /** The steps of `init()`, recorded as each one completes. */
  datatype InitStep = CreateThreadFactory | ConfigureDisruptor | InstallExceptionHandler | WireEventHandlers | Start

  /** The library Disruptor as this layer sees it. */
  datatype Disruptor = Disruptor(
    eventFactory: EventFactory,
    ringBufferSize: int32,
    threadFactory: NamedThreadFactory,
    producerType: ProducerType,
    waitStrategy: WaitStrategyKind,
    exceptionHandler: Option<DisruptorExceptionHandler>,
    commands: seq<DslCommand>,
    started: bool)

  // ---------------------------------------------------------------------
  // The wiring specification

  /** The commands issued for the chain at position `i`: the group command
      (`handleEventsWith` for the first chain, `after` for every later one)
      and, when its next array is neither null nor empty, `then(next)`. */
  function ChainCommands(chain: EventHandlerChain, i: nat): seq<DslCommand> {
    [if i == 0 then HandleEventsWith(chain.currentEventHandlers) else After(chain.currentEventHandlers)]
    + (if IsEmpty(chain.nextEventHandlers) then [] else [Then(chain.nextEventHandlers.value)])
  }

  /** All commands issued for the chain array, chain by chain in array order. */
  function WiringTrace(chains: seq<EventHandlerChain>): seq<DslCommand>
    decreases |chains|
  {
    if |chains| == 0 then []
    else WiringTrace(chains[..|chains| - 1]) + ChainCommands(chains[|chains| - 1], |chains| - 1)
  }

  /** How many chains declare a non-empty next array. */
  function ThenCount(chains: seq<EventHandlerChain>): nat
    decreases |chains|
  {
    if |chains| == 0 then 0
    else ThenCount(chains[..|chains| - 1]) + (if IsEmpty(chains[|chains| - 1].nextEventHandlers) then 0 else 1)
  }

  /** Where the group command of chain `i` stands in the trace. */
  function GroupIndex(chains: seq<EventHandlerChain>, i: nat): nat
    requires i <= |chains|
  {
    i + ThenCount(chains[..i])
  }

  /** The text `getEventProcessorGraph()` returns: one line per chain, each
      line opened by a newline, in array order. */
  function EventProcessorGraph(chains: seq<EventHandlerChain>): string
    decreases |chains|
  {
    if |chains| == 0 then ""
    else
      var last := chains[|chains| - 1];
      EventProcessorGraph(chains[..|chains| - 1]) + "\n" + DependencyGraph(last.currentEventHandlers, last.nextEventHandlers)
  }

  /** `getDisruptorConfiguration()`: four labelled settings joined by " | "
      between braces. */
  function DisruptorConfiguration(threadName: Option<string>, size: int32, producerType: ProducerType,
                                  waitStrategyType: WaitStrategyType): string
  {
    "{" + Join(ConfigurationParts(threadName, size, producerType, waitStrategyType), Delimiter) + "}"
  }

  function ConfigurationParts(threadName: Option<string>, size: int32, producerType: ProducerType,
                              waitStrategyType: WaitStrategyType): seq<string>
  {
    [ "Thread Name: " + JavaString(threadName),
      "Ringbuffer slot size: " + IntToString(size as int),
      "Producer type: " + ProducerTypes.Name(producerType),
      "Wait strategy: " + WaitStrategies.Name(waitStrategyType) ]
  }

  /** The summary written out: the four labelled settings between braces,
      separated by " | ". */
  lemma ConfigurationLayout(threadName: Option<string>, size: int32, producerType: ProducerType,
                            waitStrategyType: WaitStrategyType)
    ensures DisruptorConfiguration(threadName, size, producerType, waitStrategyType)
            == "{" + (("Thread Name: " + JavaString(threadName))
                      + Delimiter + ("Ringbuffer slot size: " + IntToString(size as int))
                      + Delimiter + ("Producer type: " + ProducerTypes.Name(producerType))
                      + Delimiter + ("Wait strategy: " + WaitStrategies.Name(waitStrategyType))) + "}"
  {
    var ps := ConfigurationParts(threadName, size, producerType, waitStrategyType);
    JoinFour(ps[0], ps[1], ps[2], ps[3], Delimiter);
  }

  class DefaultDisruptorConfig {
    // AbstractDisruptorLifecycleManager
    var threadName: Option<string>
    var disruptor: Option<Disruptor>
    var threadFactory: Option<NamedThreadFactory>
    // BaseDisruptorConfig
    var ringBufferSize: int32
    var producerType: ProducerType
    var waitStrategyType: WaitStrategyType
    var eventFactory: Option<EventFactory>
    // DefaultDisruptorConfig
    var eventHandlerChain: Option<seq<EventHandlerChain>>
    /** The steps of `init()` completed so far. */
    ghost var initSteps: seq<InitStep>

    /** A bean with no setter called: 1024 slots, a single producer, the
        blocking wait strategy; every reference is null. */
    constructor ()
      ensures ringBufferSize == DefaultRingBufferSize && producerType == SINGLE && waitStrategyType == BLOCKING
      ensures threadName == None && eventFactory == None && eventHandlerChain == None
      ensures threadFactory == None && disruptor == None && initSteps == []
    {
      threadName, disruptor, threadFactory := None, None, None;
      ringBufferSize, producerType, waitStrategyType := DefaultRingBufferSize, SINGLE, BLOCKING;
      eventFactory, eventHandlerChain := None, None;
      initSteps := [];
    }

    method SetThreadName(name: Option<string>)
      modifies this`threadName
      ensures threadName == name
    {
      threadName := name;
    }

    method SetRingBufferSize(size: int32)
      modifies this`ringBufferSize
      ensures ringBufferSize == size
    {
      ringBufferSize := size;
    }

    method SetProducerType(p: ProducerType)
      modifies this`producerType
      ensures producerType == p
    {
      producerType := p;
    }

    method SetWaitStrategyType(w: WaitStrategyType)
      modifies this`waitStrategyType
      ensures waitStrategyType == w
    {
      waitStrategyType := w;
    }

    method SetEventFactory(factory: Option<EventFactory>)
      modifies this`eventFactory
      ensures eventFactory == factory
    {
      eventFactory := factory;
    }

    method SetEventHandlerChain(chains: Option<seq<EventHandlerChain>>)
      modifies this`eventHandlerChain
      ensures eventHandlerChain == chains
    {
      eventHandlerChain := chains;
    }

    /** `getDisruptorConfiguration()` on the current settings: a summary from
        which the settings read back whenever the printed thread name holds
        no '|'. */
    function GetDisruptorConfiguration(): (r: string)
      reads this
      ensures NoBar(JavaString(threadName)) ==>
        ParseConfiguration(r) == Some(Settings(JavaString(threadName), ringBufferSize as int, producerType, waitStrategyType))
    {
      var r := DisruptorConfiguration(threadName, ringBufferSize, producerType, waitStrategyType);
      if NoBar(JavaString(threadName)) then
        ParseConfigurationRoundTrip(threadName, ringBufferSize, producerType, waitStrategyType);
        r
      else r
    }

    /** `init()`: rejects a null thread name or event factory before doing
        anything else; otherwise creates the thread factory, builds the
        disruptor, installs the exception handler, wires the handlers and
        starts — in that order, each step only once the previous completed.
        A rejected chain array leaves the disruptor built but not started.
        Only the thread factory, the disruptor and the recorded steps change;
        the settings do not. */
    method Init() returns (r: Outcome<Exception>)
      modifies this`threadFactory, this`disruptor, this`initSteps
      ensures threadName.None? || eventFactory.None? ==>
        && r == Fail(NullPointerException(Some(NotNullMessage)))
        && threadFactory == old(threadFactory) && disruptor == old(disruptor) && initSteps == old(initSteps)
      ensures threadName.Some? && eventFactory.Some? ==>
        && threadFactory == Some(NamedThreadFactory(threadName))
        && disruptor.Some?
        && disruptor.value.eventFactory == eventFactory.value
        && disruptor.value.ringBufferSize == ringBufferSize
        && disruptor.value.threadFactory == NamedThreadFactory(threadName)
        && disruptor.value.producerType == producerType
        && disruptor.value.waitStrategy == Instance(waitStrategyType)
        && disruptor.value.exceptionHandler.Some?
        && fresh(disruptor.value.exceptionHandler.value)
        && disruptor.value.exceptionHandler.value.errorPrefix == ErrorPrefix(threadName)
        && r == ValidateNotEmpty(eventHandlerChain, ChainArrayMessage)
        && (r.Pass? ==>
              && disruptor.value.commands == WiringTrace(eventHandlerChain.value)
              && disruptor.value.started
              && initSteps == old(initSteps) + [CreateThreadFactory] + [ConfigureDisruptor]
                              + [InstallExceptionHandler] + [WireEventHandlers] + [Start])
        && (r.Fail? ==>
              && disruptor.value.commands == []
              && !disruptor.value.started
              && initSteps == old(initSteps) + [CreateThreadFactory] + [ConfigureDisruptor] + [InstallExceptionHandler])
    {
      var nameCheck := ValidateNotNull(threadName);
      if nameCheck.Fail? {
        return nameCheck;
      }
      var factoryCheck := ValidateNotNull(eventFactory);
      if factoryCheck.Fail? {
        return factoryCheck;
      }

      CreateNamedThreadFactory();
      initSteps := initSteps + [CreateThreadFactory];

      ConfigureNewDisruptor();
      initSteps := initSteps + [ConfigureDisruptor];

      var installed := DisruptorExceptionHandler();
      assert installed.Pass?;
      initSteps := initSteps + [InstallExceptionHandler];

      r := DisruptorEventHandler();
      if r.Fail? {
        return;
      }
      initSteps := initSteps + [WireEventHandlers];

      disruptor := Some(disruptor.value.(started := true));
      initSteps := initSteps + [Start];
    }

    /** `createThreadFactory()`: a factory named after the thread name. */
    method CreateNamedThreadFactory()
      modifies this`threadFactory
      ensures threadFactory == Some(NamedThreadFactory(threadName))
    {
      threadFactory := Some(NamedThreadFactory(threadName));
    }

    /** `configureDisruptor()`: a new disruptor built from exactly the
        configured factory, size, thread factory, producer type and the wait
        strategy's `instance()`. Its only caller, `init()`, has already
        checked the factory and created the thread factory. */
    method ConfigureNewDisruptor()
      requires eventFactory.Some? && threadFactory.Some?
      modifies this`disruptor
      ensures disruptor == Some(Disruptor(eventFactory.value, ringBufferSize, threadFactory.value,
                                          producerType, Instance(waitStrategyType), None, [], false))
    {
      disruptor := Some(Disruptor(eventFactory.value, ringBufferSize, threadFactory.value,
                                  producerType, Instance(waitStrategyType), None, [], false));
    }

    /** `disruptorExceptionHandler()`: installs a new handler built from the
        thread name as the disruptor's default; with no disruptor built yet
        the call fails with a NullPointerException. */
    method DisruptorExceptionHandler() returns (r: Outcome<Exception>)
      modifies this`disruptor
      ensures r.Pass? <==> old(disruptor).Some?
      ensures r.Fail? ==> r.error == NullPointerException(None) && disruptor == old(disruptor)
      ensures r.Pass? ==>
        && disruptor.Some?
        && disruptor.value == old(disruptor).value.(exceptionHandler := disruptor.value.exceptionHandler)
        && disruptor.value.exceptionHandler.Some?
        && fresh(disruptor.value.exceptionHandler.value)
        && disruptor.value.exceptionHandler.value.errorPrefix == ErrorPrefix(threadName)
    {
      if disruptor.None? {
        return Fail(NullPointerException(None));
      }
      var handler := new ExceptionHandling.DisruptorExceptionHandler(threadName);
      disruptor := Some(disruptor.value.(exceptionHandler := Some(handler)));
      r := Pass;
    }

    /** `disruptorEventHandler()`: rejects a null or empty chain array before
        issuing any command, then wires the chains. */
    method DisruptorEventHandler() returns (r: Outcome<Exception>)
      modifies this`disruptor
      ensures ValidateNotEmpty(eventHandlerChain, ChainArrayMessage).Fail? ==>
        r == ValidateNotEmpty(eventHandlerChain, ChainArrayMessage) && disruptor == old(disruptor)
      ensures ValidateNotEmpty(eventHandlerChain, ChainArrayMessage).Pass? && old(disruptor).None? ==>
        r == Fail(NullPointerException(None)) && disruptor == old(disruptor)
      ensures ValidateNotEmpty(eventHandlerChain, ChainArrayMessage).Pass? && old(disruptor).Some? ==>
        && r == Pass
        && disruptor == Some(old(disruptor).value.(commands := old(disruptor).value.commands
                                                              + WiringTrace(eventHandlerChain.value)))
    {
      r := ValidateNotEmpty(eventHandlerChain, ChainArrayMessage);
      if r.Fail? {
        return;
      }
      if disruptor.None? {
        return Fail(NullPointerException(None));
      }
      DisruptorEventHandlerChain();
    }

    /** `disruptorEventHandlerChain()`: walks the chains in array order and
        issues each chain's commands; then renders the graph for the log. */
    method DisruptorEventHandlerChain()
      requires eventHandlerChain.Some? && disruptor.Some?
      modifies this`disruptor
      ensures disruptor == Some(old(disruptor).value.(commands := old(disruptor).value.commands
                                                               + WiringTrace(eventHandlerChain.value)))
    {
      var chains := eventHandlerChain.value;
      ghost var start := disruptor.value;
      assert WiringTrace(chains[..0]) == [];
      assert start.commands + [] == start.commands;
      for i := 0 to |chains|
        invariant disruptor == Some(start.(commands := start.commands + WiringTrace(chains[..i])))
      {
        var chain := chains[i];
        var d := disruptor.value;
        var group := if i == 0 then HandleEventsWith(chain.currentEventHandlers) else After(chain.currentEventHandlers);
        d := d.(commands := d.commands + [group]);
        if !IsEmpty(chain.nextEventHandlers) {
          d := d.(commands := d.commands + [Then(chain.nextEventHandlers.value)]);
        }
        disruptor := Some(d);
        ghost var issued := WiringTraceThrough(chains, i);
        if !IsEmpty(chain.nextEventHandlers) {
          Regroup(start.commands + WiringTrace(chains[..i]), [group], [Then(chain.nextEventHandlers.value)]);
        } else {
          assert ChainCommands(chain, i) == [group];
        }
        Regroup(start.commands, WiringTrace(chains[..i]), ChainCommands(chain, i));
      }
      assert chains[..|chains|] == chains;
      var _ := GetEventProcessorGraph();
    }

    /** `getEventProcessorGraph()`: reads the chains and changes nothing; a
        null chain array fails with a NullPointerException. */
    method GetEventProcessorGraph() returns (r: Result<string, Exception>)
      ensures eventHandlerChain.None? ==> r == Failure(NullPointerException(None))
      ensures eventHandlerChain.Some? ==> r == Success(EventProcessorGraph(eventHandlerChain.value))
    {
      if eventHandlerChain.None? {
        return Failure(NullPointerException(None));
      }
      var chains := eventHandlerChain.value;
      var str := "";
      for i := 0 to |chains|
        invariant str == EventProcessorGraph(chains[..i])
      {
        str := str + "\n";
        var graph := chains[i].PrintDependencyGraph();
        str := str + graph;
        assert chains[..i + 1][..i] == chains[..i];
      }
      assert chains[..|chains|] == chains;
      r := Success(str);
    }
  }

  // ---------------------------------------------------------------------
  // What the wiring trace looks like

  /** A prefix of the chain array issues a prefix of the trace. */
  lemma {:induction false} WiringTracePrefix(chains: seq<EventHandlerChain>, k: nat)
    requires k <= |chains|
    ensures WiringTrace(chains[..k]) <= WiringTrace(chains)
    decreases |chains| - k
  {
    if k < |chains| {
      var shorter := chains[..|chains| - 1];
      WiringTracePrefix(shorter, k);
      assert shorter[..k] == chains[..k];
    } else {
      assert chains[..k] == chains;
    }
  }

  /** One group command per chain, plus one `then` per non-empty next array. */
  lemma {:induction false} WiringTraceLength(chains: seq<EventHandlerChain>)
    ensures |WiringTrace(chains)| == |chains| + ThenCount(chains)
    decreases |chains|
  {
    if 0 < |chains| {
      WiringTraceLength(chains[..|chains| - 1]);
    }
  }

  /** Chain `i`'s commands stand together at `GroupIndex(chains, i)`: its group
      command (`handleEventsWith` exactly for the first chain, `after` for every
      other), followed by `then(next)` exactly when next is neither null nor
      empty; otherwise the next chain's group command, or the end of the trace. */
  lemma WiringTraceAt(chains: seq<EventHandlerChain>, i: nat)
    requires i < |chains|
    ensures var trace := WiringTrace(chains);
            var g := GroupIndex(chains, i);
            var chain := chains[i];
            && g < |trace|
            && trace[g] == (if i == 0 then HandleEventsWith(chain.currentEventHandlers)
                            else After(chain.currentEventHandlers))
            && (!IsEmpty(chain.nextEventHandlers) ==>
                  g + 1 < |trace| && trace[g + 1] == Then(chain.nextEventHandlers.value))
            && (IsEmpty(chain.nextEventHandlers) ==>
                  if i + 1 < |chains| then g + 1 < |trace| && trace[g + 1] == After(chains[i + 1].currentEventHandlers)
                  else g + 1 == |trace|)
  {
    WiringTraceGroupAt(chains, i);
    if !IsEmpty(chains[i].nextEventHandlers) {
      WiringTraceThenAt(chains, i);
    } else if i + 1 < |chains| {
      assert GroupIndex(chains, i + 1) == GroupIndex(chains, i) + 1 by {
        assert chains[..i + 1][..i] == chains[..i];
      }
      WiringTraceGroupAt(chains, i + 1);
    } else {
      WiringTraceLength(chains);
      assert chains[..|chains| - 1] == chains[..i];
    }
  }

  lemma WiringTraceGroupAt(chains: seq<EventHandlerChain>, i: nat)
    requires i < |chains|
    ensures GroupIndex(chains, i) < |WiringTrace(chains)|
    ensures WiringTrace(chains)[GroupIndex(chains, i)] == ChainCommands(chains[i], i)[0]
  {
    var pre := WiringTraceThrough(chains, i);
    assert pre[GroupIndex(chains, i)] == ChainCommands(chains[i], i)[0];
  }

  lemma WiringTraceThenAt(chains: seq<EventHandlerChain>, i: nat)
    requires i < |chains| && !IsEmpty(chains[i].nextEventHandlers)
    ensures GroupIndex(chains, i) + 1 < |WiringTrace(chains)|
    ensures WiringTrace(chains)[GroupIndex(chains, i) + 1] == Then(chains[i].nextEventHandlers.value)
  {
    var pre := WiringTraceThrough(chains, i);
    assert pre[GroupIndex(chains, i) + 1] == ChainCommands(chains[i], i)[1];
  }

  /** The trace issued up to and including chain `i` is a prefix of the whole
      trace, and ends with chain `i`'s commands starting at `GroupIndex`. */
  lemma WiringTraceThrough(chains: seq<EventHandlerChain>, i: nat) returns (pre: seq<DslCommand>)
    requires i < |chains|
    ensures pre == WiringTrace(chains[..i + 1])
    ensures pre <= WiringTrace(chains)
    ensures pre == WiringTrace(chains[..i]) + ChainCommands(chains[i], i)
    ensures |WiringTrace(chains[..i])| == GroupIndex(chains, i)
  {
    pre := WiringTrace(chains[..i + 1]);
    assert chains[..i + 1][..i] == chains[..i];
    WiringTraceLength(chains[..i]);
    WiringTracePrefix(chains, i + 1);
  }

  /** `handleEventsWith` is issued once, first, and only for the first chain. */
  lemma WiringTraceStartsOnce(chains: seq<EventHandlerChain>)
    ensures var trace := WiringTrace(chains);
            && (0 < |chains| ==> 0 < |trace| && trace[0] == HandleEventsWith(chains[0].currentEventHandlers))
            && (forall k :: 0 < k < |trace| ==> !trace[k].HandleEventsWith?)
  {
    if 0 < |chains| {
      WiringTraceAt(chains, 0);
      assert chains[..0] == [];
    }
    WiringTraceNoLaterStart(chains);
  }

  lemma {:induction false} WiringTraceNoLaterStart(chains: seq<EventHandlerChain>)
    ensures forall k :: 0 < k < |WiringTrace(chains)| ==> !WiringTrace(chains)[k].HandleEventsWith?
    decreases |chains|
  {
    if 1 < |chains| {
      var shorter := chains[..|chains| - 1];
      WiringTraceNoLaterStart(shorter);
      WiringTraceLength(shorter);
    } else if |chains| == 1 {
      assert chains[..0] == [];
    }
  }

  // ---------------------------------------------------------------------
  // What the processor graph text looks like

  /** The graph of the chains after each other is the graph of the first
      array followed by the graph of the second. */
  lemma {:induction false} EventProcessorGraphAppend(a: seq<EventHandlerChain>, b: seq<EventHandlerChain>)
    ensures EventProcessorGraph(a + b) == EventProcessorGraph(a) + EventProcessorGraph(b)
    decreases |b|
  {
    if |b| == 0 {
      assert a + b == a;
    } else {
      var b' := b[..|b| - 1];
      var last := b[|b| - 1];
      var line := "\n" + DependencyGraph(last.currentEventHandlers, last.nextEventHandlers);
      DropLast(a, b);
      EventProcessorGraphAppend(a, b');
      Regroup(EventProcessorGraph(a), EventProcessorGraph(b'), line);
    }
  }

  lemma DropLast<T>(a: seq<T>, b: seq<T>)
    requires 0 < |b|
    ensures (a + b)[..|a + b| - 1] == a + b[..|b| - 1]
    ensures (a + b)[|a + b| - 1] == b[|b| - 1]
  {
  }

  lemma Regroup<T>(x: seq<T>, y: seq<T>, z: seq<T>)
    ensures x + y + z == x + (y + z)
  {
  }

  /** A chain whose handler names contain no character `c`. */
  predicate ChainExcludes(chain: EventHandlerChain, c: char) {
    && (forall j :: 0 <= j < |chain.currentEventHandlers| ==> Excludes(chain.currentEventHandlers[j], c))
    && (chain.nextEventHandlers.Some? ==>
          forall j :: 0 <= j < |chain.nextEventHandlers.value| ==> Excludes(chain.nextEventHandlers.value[j], c))
  }

  lemma DependencyGraphExcludesNewline(chain: EventHandlerChain)
    requires ChainExcludes(chain, '\n')
    ensures Excludes(DependencyGraph(chain.currentEventHandlers, chain.nextEventHandlers), '\n')
  {
    var current, next := chain.currentEventHandlers, chain.nextEventHandlers;
    var es := GraphElements(current, next);
    forall i | 0 <= i < |es|
      ensures Excludes(es[i], '\n')
    {
      if i < |current| {
        assert es[i] == current[i];
      } else if i > |current| {
        assert es[i] == next.value[i - |current| - 1];
      } else {
        assert es[i] == Arrow;
      }
    }
    JoinExcludes(es, Delimiter, '\n');
    ExcludesConcat("{", Join(es, Delimiter), '\n');
    ExcludesConcat("{" + Join(es, Delimiter), "}", '\n');
  }

  /** Read line by line, the processor graph is an empty first line and then
      exactly one line per chain, holding that chain's dependency graph, in
      array order (for handler names without line breaks). */
  lemma {:induction false} EventProcessorGraphLines(chains: seq<EventHandlerChain>)
    requires forall i :: 0 <= i < |chains| ==> ChainExcludes(chains[i], '\n')
    ensures var lines := SplitLines(EventProcessorGraph(chains));
            && |lines| == |chains| + 1
            && lines[0] == ""
            && forall i :: 0 <= i < |chains| ==>
                 lines[i + 1] == DependencyGraph(chains[i].currentEventHandlers, chains[i].nextEventHandlers)
    decreases |chains|
  {
    if 0 < |chains| {
      var shorter := chains[..|chains| - 1];
      var last := chains[|chains| - 1];
      EventProcessorGraphLines(shorter);
      DependencyGraphExcludesNewline(last);
      SplitLinesAppend(EventProcessorGraph(shorter), DependencyGraph(last.currentEventHandlers, last.nextEventHandlers));
    }
  }

  // ---------------------------------------------------------------------
  // Reading the configuration summary back

  /** The four settings `getDisruptorConfiguration()` reports. */
  datatype Settings = Settings(threadName: string, ringBufferSize: int, producerType: ProducerType,
                               waitStrategyType: WaitStrategyType)

  /** The text after `tag`, when the element opens with it. */
  function StripLabel(tag: string, element: string): (r: Option<string>)
    ensures r.Some? ==> element == tag + r.value
  {
    if tag <= element then Some(element[|tag|..]) else None
  }

  /** Reads a configuration summary back into its four settings. */
  function ParseConfiguration(s: string): Option<Settings> {
    if 2 <= |s| && s[0] == '{' && s[|s| - 1] == '}' then ParseSettings(Split(s[1..|s| - 1]))
    else None
  }

  /** Reads the four labelled elements of a configuration summary. */
  function ParseSettings(es: seq<string>): Option<Settings> {
    if |es| != 4 then None
    else
      var t := StripLabel("Thread Name: ", es[0]);
      var n := StripLabel("Ringbuffer slot size: ", es[1]);
      var p := StripLabel("Producer type: ", es[2]);
      var w := StripLabel("Wait strategy: ", es[3]);
      if t.None? || n.None? || p.None? || w.None? then None
      else
        var size := ParseInt(n.value);
        var producer := ProducerTypes.ValueOf(p.value);
        var wait := WaitStrategies.ValueOf(w.value);
        if size.None? || producer.None? || wait.None? then None
        else Some(Settings(t.value, size.value, producer.value, wait.value))
  }

  lemma IntToStringNoBar(n: int)
    ensures NoBar(IntToString(n))
  {
    if n < 0 {
      NatToStringDigits(-n);
      NoBarConcat("-", NatToString(-n));
    } else {
      NatToStringDigits(n);
    }
  }

  lemma StripLabelConcat(tag: string, x: string)
    ensures StripLabel(tag, tag + x) == Some(x)
  {
    assert (tag + x)[|tag|..] == x;
  }

  lemma LabelsNoBar()
    ensures NoBar("Thread Name: ") && NoBar("Ringbuffer slot size: ")
    ensures NoBar("Producer type: ") && NoBar("Wait strategy: ")
  {
  }

  lemma ProducerNameNoBar(producerType: ProducerType)
    ensures NoBar(ProducerTypes.Name(producerType))
  {
  }

  lemma WaitNameNoBar(waitStrategyType: WaitStrategyType)
    ensures NoBar(WaitStrategies.Name(waitStrategyType))
  {
  }

  lemma ConfigurationPartsNoBar(threadName: Option<string>, size: int32, producerType: ProducerType,
                                waitStrategyType: WaitStrategyType)
    requires NoBar(JavaString(threadName))
    ensures var parts := ConfigurationParts(threadName, size, producerType, waitStrategyType);
            forall i :: 0 <= i < |parts| ==> NoBar(parts[i])
  {
    LabelsNoBar();
    ProducerNameNoBar(producerType);
    WaitNameNoBar(waitStrategyType);
    NoBarConcat("Thread Name: ", JavaString(threadName));
    IntToStringNoBar(size as int);
    NoBarConcat("Ringbuffer slot size: ", IntToString(size as int));
    NoBarConcat("Producer type: ", ProducerTypes.Name(producerType));
    NoBarConcat("Wait strategy: ", WaitStrategies.Name(waitStrategyType));
  }

  /** The configuration summary loses nothing: the thread name as printed,
      the slot count, and both enumerations read back from it, as long as the
      printed thread name holds no '|'. */
  lemma ParseConfigurationRoundTrip(threadName: Option<string>, size: int32, producerType: ProducerType,
                                    waitStrategyType: WaitStrategyType)
    requires NoBar(JavaString(threadName))
    ensures ParseConfiguration(DisruptorConfiguration(threadName, size, producerType, waitStrategyType))
            == Some(Settings(JavaString(threadName), size as int, producerType, waitStrategyType))
  {
    var parts := ConfigurationParts(threadName, size, producerType, waitStrategyType);
    var s := DisruptorConfiguration(threadName, size, producerType, waitStrategyType);
    assert s[1..|s| - 1] == Join(parts, Delimiter);
    ConfigurationPartsNoBar(threadName, size, producerType, waitStrategyType);
    SplitJoin(parts);
    ParseSettingsParts(threadName, size, producerType, waitStrategyType);
  }

  lemma ParseSettingsParts(threadName: Option<string>, size: int32, producerType: ProducerType,
                           waitStrategyType: WaitStrategyType)
    ensures ParseSettings(ConfigurationParts(threadName, size, producerType, waitStrategyType))
            == Some(Settings(JavaString(threadName), size as int, producerType, waitStrategyType))
  {
    StripLabelConcat("Thread Name: ", JavaString(threadName));
    StripLabelConcat("Ringbuffer slot size: ", IntToString(size as int));
    StripLabelConcat("Producer type: ", ProducerTypes.Name(producerType));
    StripLabelConcat("Wait strategy: ", WaitStrategies.Name(waitStrategyType));
    ParseIntToString(size as int);
  }
}
