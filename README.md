# disruptor-spring-manager, configuration layer

This project models the configuration layer that disruptor-spring-manager
adds on top of the LMAX Disruptor library, and proves properties of it in
Dafny. The library itself is not modelled. The layer covers:

- **Handler chains.** `EventHandlerChain` checks a stage descriptor: a
  non-empty array of "current" handlers and an optional array of "next"
  handlers. It also prints the stage as a dependency graph.
- **Wiring.** `DefaultDisruptorConfig` turns the ordered chain array into
  DSL calls on the disruptor: `handleEventsWith`, `after` and `then`. The
  calls are recorded as a trace of `DslCommand` values; what the library
  does with them is not modelled. `getEventProcessorGraph` renders the
  chains as text.
- **The configuration bean.** `BaseDisruptorConfig` holds the defaults,
  the null checks and fixed step order of `init()`, the arguments handed to
  the `Disruptor` constructor, and the one-line configuration summary. The
  Java inheritance chain, `AbstractDisruptorLifecycleManager` →
  `BaseDisruptorConfig` → `DefaultDisruptorConfig`, is one Dafny class. A
  ghost field records the completed `init()` steps.
- **The default exception handler.** `DisruptorExceptionHandler` builds its
  message prefix from the thread name. It logs and rethrows failures of
  event processing, and only logs failures at start and shutdown.
- **The two enumerations.** `WaitStrategyType` has five variants, each
  mapped to a strategy kind. `ProducerType` has two.
- **The JMX descriptions.** These are the texts `JmxDisruptor` gives a JMX
  console for the bean, its attributes, its operations and their
  parameters, plus the two getters that report the enumerations by name.

Java `null` is `Option.None`. Where Java concatenates a null string, the
model writes `"null"` (`JavaLang.JavaString`). A Java exception is a
`Failure`/`Fail` value carrying the exception, and a method that always
throws returns `Thrown`. Log messages are return values. Handlers are given
by the simple class name the source prints for them.

Several lemmas read the printed texts back. They show that a summary keeps
what went into it: the configuration settings, the handler names of a
chain, the lines of the processor graph and the sequence number in an
event message.

## Model

| member | source | states |
|---|---|---|
| JavaLang.ValidateNotNull | src/main/java/org/anair/disruptor/BaseDisruptorConfig.java:33-34 | `Validate.notNull` passes exactly on a non-null value and otherwise fails with a NullPointerException carrying "The validated object is null" |
| JavaLang.ValidateNotEmpty | src/main/java/org/anair/disruptor/EventHandlerChain.java:26 | `Validate.notEmpty` passes exactly on a non-null, non-empty array; null gives a NullPointerException and empty an IllegalArgumentException, both with the caller's message |
| JavaLang.JavaString | src/main/java/org/anair/disruptor/exception/DisruptorExceptionHandler.java:25 | a string concatenated or added to a joiner prints as itself, and a null reference prints as "null" |
| JavaLang.IsEmpty | src/main/java/org/anair/disruptor/EventHandlerChain.java:53 | `ArrayUtils.isEmpty` holds exactly for the arrays that `Validate.notEmpty` rejects: null and zero-length arrays |
| JavaLang.IntToString | src/main/java/org/anair/disruptor/exception/DisruptorExceptionHandler.java:33 | Java's decimal text of a number is non-empty and opens with '-' exactly when the number is negative |
| JavaLang.NatToString | src/main/java/org/anair/disruptor/BaseDisruptorConfig.java:76 | the decimal digits of a non-negative number are non-empty and, for a positive number, have no leading zero |
| JavaLang.ParseIntToString | src/main/java/org/anair/disruptor/exception/DisruptorExceptionHandler.java:33 | the decimal text Java writes for a number (`sequence + ""`, `"" + getRingBufferSize()`) reads back as that number, negatives included |
| JavaLang.ParseNatToString | src/main/java/org/anair/disruptor/BaseDisruptorConfig.java:76 | the digits of a non-negative number read back as that number |
| Strings.StringJoiner.constructor | src/main/java/org/anair/disruptor/EventHandlerChain.java:48 | a new `StringJoiner` keeps its delimiter, prefix and suffix and holds no element |
| Strings.StringJoiner.Add | src/main/java/org/anair/disruptor/EventHandlerChain.java:54 | `add` puts the element after every element added before it |
| Strings.StringJoiner.ToString | src/main/java/org/anair/disruptor/EventHandlerChain.java:57 | `toString` opens with the prefix and closes with the suffix, and with no element added it is exactly prefix then suffix |
| Strings.JoinFour | src/main/java/org/anair/disruptor/BaseDisruptorConfig.java:74-79 | four joined elements are the four texts with the delimiter between each pair |
| Strings.SplitJoin | src/main/java/org/anair/disruptor/EventHandlerChain.java:48 | cutting a text joined with the bar delimiter at every delimiter gives back exactly the joined elements, as long as no element holds a bar character |
| Strings.SplitLinesAppend | src/main/java/org/anair/disruptor/DefaultDisruptorConfig.java:112-113 | a newline followed by a text without newlines adds exactly one line, that text, after the existing lines |
| Chains.EventHandlerChain.Create | src/main/java/org/anair/disruptor/EventHandlerChain.java:24-29 | a chain results exactly when the current array is non-null and non-empty; null fails with a NullPointerException and empty with an IllegalArgumentException, both with the source's message; a new chain holds exactly the arrays given |
| Chains.EventHandlerChain.CreateWithoutNext | src/main/java/org/anair/disruptor/EventHandlerChain.java:31-33 | the same validation and errors as the two-argument constructor, and the new chain's next array is null |
| Chains.EventHandlerChain.constructor | src/main/java/org/anair/disruptor/EventHandlerChain.java:35-41 | the getters return exactly the arrays stored at construction, and no method of the class reassigns them (aliasing through shared arrays is listed under Left out) |
| Chains.EventHandlerChain.PrintDependencyGraph | src/main/java/org/anair/disruptor/EventHandlerChain.java:47-58 | the joiner ends up with the current names in order, then the arrow and the next names only when next is neither null nor empty; the text is `DependencyGraph` of the two arrays |
| Chains.EventHandlerChain.PrintEventHandlers | src/main/java/org/anair/disruptor/EventHandlerChain.java:60-64 | the joiner's elements grow by exactly the handler names, in array order |
| Chains.DependencyGraph | src/main/java/org/anair/disruptor/EventHandlerChain.java:48 | the graph text opens with '{' and closes with '}' |
| Chains.GraphLayout | src/main/java/org/anair/disruptor/EventHandlerChain.java:47-58 | the graph text is '{', the current names joined by the bar delimiter, then the delimited arrow and the joined next names exactly when next is non-empty, then '}' |
| Chains.ParseDependencyGraphRoundTrip | src/main/java/org/anair/disruptor/EventHandlerChain.java:47-64 | for simple class names the graph text reads back as exactly the current names, in order, and the next names (none when next is null or empty) |
| Chains.DependencyGraphElementCount | src/main/java/org/anair/disruptor/EventHandlerChain.java:47-58 | the text between the braces has one element per current handler, plus the arrow and one element per next handler when next is non-empty |
| Chains.GraphExamples | src/main/java/org/anair/disruptor/EventHandlerChain.java:53-56 | chain {A},{B} prints the braces around A, the delimited arrow and B; chains {A},null and {A},{} both print "{A}" |
| ExceptionHandling.ErrorPrefix | src/main/java/org/anair/disruptor/exception/DisruptorExceptionHandler.java:21-26 | the prefix is the fixed opening, then the thread name ("null" when absent), then the bar delimiter |
| ExceptionHandling.DisruptorExceptionHandler.constructor | src/main/java/org/anair/disruptor/exception/DisruptorExceptionHandler.java:24-26 | the constructor leaves the prefix as `ErrorPrefix` of the thread name |
| ExceptionHandling.DisruptorExceptionHandler.HandleEventException | src/main/java/org/anair/disruptor/exception/DisruptorExceptionHandler.java:29-41 | never returns normally: it logs the seven parts joined by the bar delimiter in the fixed order and throws a RuntimeException wrapping the throwable; a null event fails with a NullPointerException before logging; the prefix is unchanged |
| ExceptionHandling.DisruptorExceptionHandler.HandleOnStartException | src/main/java/org/anair/disruptor/exception/DisruptorExceptionHandler.java:44-46 | does not throw; logs the prefix followed by the exception message; the prefix is unchanged |
| ExceptionHandling.DisruptorExceptionHandler.HandleOnShutdownException | src/main/java/org/anair/disruptor/exception/DisruptorExceptionHandler.java:49-51 | does not throw; logs the prefix followed by the exception message; the prefix is unchanged |
| ExceptionHandling.EventMessageCarriesSequence | src/main/java/org/anair/disruptor/exception/DisruptorExceptionHandler.java:30-37 | the event message opens with the prefix, and the sequence number reads back from the place after the "Sequence: " element |
| ExceptionHandling.LifecycleMessageCarriesThreadName | src/main/java/org/anair/disruptor/exception/DisruptorExceptionHandler.java:44-51 | the start and shutdown messages carry the thread name right after the fixed opening |
| WaitStrategies.Instance | src/main/java/org/anair/disruptor/WaitStrategyType.java:20-60 | each variant's `instance()` is the strategy kind that identifies that variant again, so the mapping is injective |
| WaitStrategies.Name | src/main/java/org/anair/disruptor/jmx/JmxDisruptor.java:177-179 | `name()` of a variant reads back as that variant |
| WaitStrategies.ValueOfOnlyNames | src/test/java/org/anair/disruptor/jmx/JmxDisruptorTest.java:242-250 | only a variant's own identifier reads back as that variant |
| WaitStrategies.FiveDistinctStrategies | src/main/java/org/anair/disruptor/WaitStrategyType.java:16-63 | there are exactly five variants, every variant is one of them, and their strategy kinds are pairwise distinct |
| ProducerTypes.Name | src/main/java/org/anair/disruptor/jmx/JmxDisruptor.java:171-174 | `name()` of a producer type reads back as that producer type |
| ProducerTypes.ValueOfOnlyNames | src/test/java/org/anair/disruptor/jmx/JmxDisruptorTest.java:232-240 | only "SINGLE" and "MULTI" read back, each as its own producer type |
| Config.ConfigurationLayout | src/main/java/org/anair/disruptor/BaseDisruptorConfig.java:73-80 | the summary is exactly the four labelled settings (Thread Name, Ringbuffer slot size, Producer type, Wait strategy) joined by the bar delimiter between braces, the two enumerations written by name |
| Config.DefaultDisruptorConfig.GetDisruptorConfiguration | src/main/java/org/anair/disruptor/BaseDisruptorConfig.java:73-80 | the summary of the current settings reads back as the printed thread name, the slot count, the producer type and the wait strategy, when the thread name holds no bar character |
| Config.ParseConfigurationRoundTrip | src/main/java/org/anair/disruptor/BaseDisruptorConfig.java:73-80 | the summary reads back as the printed thread name, the slot count and both enumerations, when the thread name holds no bar character |
| Config.DefaultDisruptorConfig.constructor | src/main/java/org/anair/disruptor/BaseDisruptorConfig.java:25-29 | with no setter called: 1024 slots, SINGLE, BLOCKING, no disruptor, and every reference null |
| Config.DefaultDisruptorConfig.SetThreadName | src/main/java/org/anair/disruptor/AbstractDisruptorLifecycleManager.java:57-63 | the field read by the getter is the value set, and only that field changes |
| Config.DefaultDisruptorConfig.SetRingBufferSize | src/main/java/org/anair/disruptor/BaseDisruptorConfig.java:98-104 | the field read by the getter is the value set, and only that field changes |
| Config.DefaultDisruptorConfig.SetProducerType | src/main/java/org/anair/disruptor/BaseDisruptorConfig.java:106-112 | the field read by the getter is the value set, and only that field changes |
| Config.DefaultDisruptorConfig.SetWaitStrategyType | src/main/java/org/anair/disruptor/BaseDisruptorConfig.java:114-120 | the field read by the getter is the value set, and only that field changes |
| Config.DefaultDisruptorConfig.SetEventFactory | src/main/java/org/anair/disruptor/BaseDisruptorConfig.java:122-128 | the field read by the getter is the value set, and only that field changes |
| Config.DefaultDisruptorConfig.SetEventHandlerChain | src/main/java/org/anair/disruptor/DefaultDisruptorConfig.java:120-122 | the chain array is the value set, and only that field changes |
| Config.DefaultDisruptorConfig.Init | src/main/java/org/anair/disruptor/BaseDisruptorConfig.java:31-43 | a null thread name or event factory fails with a NullPointerException and changes nothing; otherwise the steps run in the fixed order; the disruptor gets exactly the configured factory, size, thread factory, producer type and strategy kind, plus a new handler for the thread name; it is wired with the chain trace and started exactly when the chain array is non-null and non-empty; a rejected chain array leaves it built, unwired and not started; the settings do not change |
| Config.DefaultDisruptorConfig.CreateNamedThreadFactory | src/main/java/org/anair/disruptor/BaseDisruptorConfig.java:69-71 | the thread factory is a new factory named after the thread name |
| Config.DefaultDisruptorConfig.ConfigureNewDisruptor | src/main/java/org/anair/disruptor/BaseDisruptorConfig.java:45-58 | the new disruptor holds exactly the configured factory, size, thread factory, producer type and the wait strategy's `instance()`, with no handler, no command and not started |
| Config.DefaultDisruptorConfig.DisruptorExceptionHandler | src/main/java/org/anair/disruptor/DefaultDisruptorConfig.java:86-89 | installs a new handler whose prefix is built from the thread name as the default, changing nothing else about the disruptor; with no disruptor it fails with a NullPointerException |
| Config.DefaultDisruptorConfig.DisruptorEventHandler | src/main/java/org/anair/disruptor/DefaultDisruptorConfig.java:80-84 | a null or empty chain array is rejected with the source's messages before any command is issued; otherwise the disruptor's commands grow by exactly the wiring trace |
| Config.DefaultDisruptorConfig.DisruptorEventHandlerChain | src/main/java/org/anair/disruptor/DefaultDisruptorConfig.java:91-107 | the loop appends exactly `WiringTrace` of the chain array to the disruptor's commands and changes nothing else |
| Config.DefaultDisruptorConfig.GetEventProcessorGraph | src/main/java/org/anair/disruptor/DefaultDisruptorConfig.java:109-118 | reads only: the result is "\n" plus the chain's graph, for every chain in array order (an empty array gives ""); a null array fails with a NullPointerException |
| Config.WiringTraceAt | src/main/java/org/anair/disruptor/DefaultDisruptorConfig.java:92-104 | chain i's group command stands at `GroupIndex(i)`: `handleEventsWith` for chain 0 and `after` for every other chain; `then(next)` follows exactly when next is non-empty, and otherwise the next chain's group command or the end of the trace follows |
| Config.WiringTraceLength | src/main/java/org/anair/disruptor/DefaultDisruptorConfig.java:92-104 | the trace has one command per chain plus one per chain with a non-empty next array |
| Config.WiringTracePrefix | src/main/java/org/anair/disruptor/DefaultDisruptorConfig.java:92 | chains are processed strictly in array order: the commands of the first k chains are a prefix of the trace |
| Config.WiringTraceStartsOnce | src/main/java/org/anair/disruptor/DefaultDisruptorConfig.java:95-99 | `handleEventsWith` opens a non-empty trace with the first chain's handlers and occurs nowhere else |
| Config.EventProcessorGraphAppend | src/main/java/org/anair/disruptor/DefaultDisruptorConfig.java:109-118 | the graph of two arrays one after the other is the graph of the first followed by the graph of the second |
| Config.EventProcessorGraphLines | src/main/java/org/anair/disruptor/DefaultDisruptorConfig.java:111-114 | read line by line, the graph is an empty line and then exactly one line per chain, holding that chain's dependency graph, in array order |
| Jmx.JmxDisruptor.constructor | src/main/java/org/anair/disruptor/jmx/JmxDisruptor.java:34-39 | the MBean keeps the configuration and the bean name it is given |
| Jmx.JmxDisruptor.GetDescription | src/main/java/org/anair/disruptor/jmx/JmxDisruptor.java:45-47 | the description is "Spring managed LMAX Disruptor bean: " followed by the bean name ("null" when absent) |
| Jmx.AttributeDescription | src/main/java/org/anair/disruptor/jmx/JmxDisruptor.java:53-72 | a text is given exactly for the eight attributes of the MBean interface, and null for any other name |
| Jmx.OperationDescription | src/main/java/org/anair/disruptor/jmx/JmxDisruptor.java:77-91 | a text is given exactly for the five operations of the MBean interface, and null for any other name |
| Jmx.ParameterDescription | src/main/java/org/anair/disruptor/jmx/JmxDisruptor.java:96-114 | a text is given exactly for the (operation, position) pairs where the MBean interface declares a parameter (position 0 of awaitAndShutdown, resetRingbuffer and publishToRingbuffer), and null for every other pair |
| Jmx.ParameterTablesAgree | src/main/java/org/anair/disruptor/jmx/JmxDisruptorMBean.java:12-20 | the parameter switch covers exactly the operations that declare parameters, with one text per parameter |
| Jmx.AttributeDescriptionsExact | src/test/java/org/anair/disruptor/jmx/JmxDisruptorTest.java:50-98 | each attribute name gets exactly its own text, e.g. TotalCapacity gets "Ring buffer capacity." |
| Jmx.OperationDescriptionsExact | src/test/java/org/anair/disruptor/jmx/JmxDisruptorTest.java:101-131 | each operation name gets exactly its own text |
| Jmx.ParameterDescriptionsExact | src/test/java/org/anair/disruptor/jmx/JmxDisruptorTest.java:134-152 | position 0 of awaitAndShutdown gets "Time in seconds"; position 0 of resetRingbuffer and publishToRingbuffer gets "Ring buffer sequence" |
| Jmx.LookupEntry | src/main/java/org/anair/disruptor/jmx/JmxDisruptor.java:53-72 | in an if/else chain over distinct names, every name selects its own branch |
| Jmx.JmxDisruptor.GetProducerType | src/main/java/org/anair/disruptor/jmx/JmxDisruptor.java:171-174 | the reported name reads back as the configured producer type |
| Jmx.JmxDisruptor.GetWaitStrategyType | src/main/java/org/anair/disruptor/jmx/JmxDisruptor.java:176-179 | the reported name reads back as the configured wait strategy |

## Left out

- The ring buffer, its cursor, sequence barriers, the waiting of the wait
  strategies and backpressure. They live in the LMAX library, not in this
  repository. For the same reason, `publish`, `getCurrentLocation`,
  `getRemainingCapacity` and `publishToRingbuffer` are not modelled.
- What the DSL calls `handleEventsWith`, `after` and `then` do in the
  library: building barriers, and rejecting `after` on a handler that was
  never registered. The model records the calls only. Like the code, it
  does not check the chain array for duplicate handlers or for cycles.
- The lifecycle managers (`AbstractDisruptorLifecycleManager`,
  `DisruptorLifecycleManager`): `controlledShutdown`, `halt` and
  `awaitAndShutdown` delegate to the library and to an `ExecutorService`,
  with timeouts and thread interruption. That is concurrency and library
  plumbing. Of the fields of `AbstractDisruptorLifecycleManager`, only
  `threadName` and `disruptor` are modelled. `executor` is not modelled.
- `NamedThreadFactory` creates threads. It is modelled only as the name it
  is given.
- `JmxDisruptorManager` looks beans up in the Spring context and registers
  them with the MBeanServer, which is I/O. `createObjectName` and
  `getObjectName` are not modelled: the `javax.management.ObjectName` class
  canonicalises the name.
- The JMX operations and attribute getters of `JmxDisruptor` that only
  delegate to the configuration are not modelled.
- Jmx.JmxDisruptor.GetProducerType and Jmx.JmxDisruptor.GetWaitStrategyType:
  in the source, the field `disruptorConfig` has the interface type
  `DisruptorConfig`. That interface declares only `publish`,
  `disruptorEventHandler` and `disruptorExceptionHandler`, so the calls to
  `getProducerType()` and `getWaitStrategyType()` at
  src/main/java/org/anair/disruptor/jmx/JmxDisruptor.java:173 and :178
  name methods it does not declare. The model gives the field the type
  `DefaultDisruptorConfig` so that these two getters read the configured
  enumerations. It does not model what happens with any other
  implementation of the interface.
- Logging. Every logged message is modelled as a value the operation
  returns: `HandlerOutcome`, and the `Thrown` message. `configureDisruptor`
  and `getEventProcessorGraph` also log the summaries they compute; those
  log lines are not modelled.
- Reflection. `getClass().getSimpleName()` is modelled as the name each
  handler is given as.
- Null elements inside the handler or chain arrays, a null enumeration
  handed to a setter, and a null throwable given to the exception handler.
  In Java these end in NullPointerExceptions later on. The model's
  elements, enumerations and throwables cannot be null.
- JMX feature names cannot be null in the model. The console always gives
  a name, and Java would throw a NullPointerException on a null one.
- Java's `valueOf` throws an IllegalArgumentException on an unknown name.
  `WaitStrategies.ValueOf` and `ProducerTypes.ValueOf` return `None`
  instead. They serve only to read names back.
- The library's own argument checks in the `Disruptor` constructor, such
  as that the ring size is a power of two, are not modelled.
- The tests that instantiate the `DisruptorConfig` interface, or call
  `resetRingbuffer` on `BaseDisruptorConfig`, belong to an older API. No
  property is taken from them.
- Chains.ParseDependencyGraphRoundTrip: proved only for handler names
  without a space or a '|'. With such a character a name cannot be told
  apart from the delimiter or the arrow. Java simple class names never
  contain either character.
- Config.ParseConfigurationRoundTrip: proved only for thread names without
  a '|', for the same reason.
- Config.EventProcessorGraphLines: proved only for handler names without
  a newline, for the same reason.
- Config.DefaultDisruptorConfig.CreateNamedThreadFactory: `createThreadFactory`
  calls `setThreadFactory` and `configureDisruptor` calls `getThreadFactory`
  (src/main/java/org/anair/disruptor/BaseDisruptorConfig.java:52 and :70).
  Neither method is defined in `AbstractDisruptorLifecycleManager`, which
  declares only `disruptor`, `executor` and `threadName`. The model's
  `threadFactory` field stands in for these missing accessors, as a plain
  field that the setter writes and the getter reads.
- Handler arrays and the chain array are shared, mutable Java arrays. The
  chain constructor and `setEventHandlerChain` store the caller's own array,
  and the getters hand that same array out, so anyone holding it can
  overwrite elements later. The model stores them as immutable `seq`
  values. It therefore does not capture this aliasing, or any change made
  through a shared reference after construction or after
  `setEventHandlerChain`.
- The getters of `BaseDisruptorConfig`, `AbstractDisruptorLifecycleManager`
  and `EventHandlerChain` are not separate members: each reads a field,
  and the model reads that field directly.
- The `if`/`else` chains of the JMX descriptions are modelled as tables
  searched in the same order.
