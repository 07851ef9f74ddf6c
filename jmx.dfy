/** `JmxDisruptor`: the MBean that shows a configuration bean in a JMX
    console. What is modelled is the text it gives the console — the MBean,
    attribute, operation and parameter descriptions — and the two getters
    that turn the configured enumerations into their names. */
module Jmx {
  import opened Wrappers
  import opened JavaLang
  import WaitStrategies
  import ProducerTypes
  import opened Config

  /** The opening of the MBean description; the bean name follows it. */
  const BeanDescriptionStart := "Spring managed LMAX Disruptor bean: "

  /** An operation the MBean interface declares, with its parameter names. */
  datatype Operation = Operation(name: string, parameters: seq<string>)

  /** The attributes the MBean interface declares, one per getter. */
  const Attributes: seq<string> := [
    "DisruptorConfiguration", "EventProcessorGraph", "ThreadName", "TotalCapacity",
    "ProducerType", "WaitStrategyType", "CurrentLocation", "RemainingCapacity"]

  /** The operations the MBean interface declares, in declaration order. */
  const Operations: seq<Operation> := [
    Operation("controlledShutdown", []),
    Operation("halt", []),
    Operation("awaitAndShutdown", ["time"]),
    Operation("resetRingbuffer", ["sequence"]),
    Operation("publishToRingbuffer", ["sequence"])]

  /** Whether the interface declares an operation named `op` with a
      parameter at position `index`. */
  predicate HasParameter(op: string, index: int) {
    exists k :: 0 <= k < |Operations| && Operations[k].name == op && 0 <= index < |Operations[k].parameters|
  }

  /** The value of the first entry whose key is `name`, or null: the shape of
      an `if (name.equals(..)) return ..; else if ..` chain. */
  function Lookup<V>(table: seq<(string, V)>, name: string): (r: Option<V>)
    ensures r.Some? <==> exists k :: 0 <= k < |table| && table[k].0 == name
    ensures r.Some? ==> exists k :: 0 <= k < |table| && table[k] == (name, r.value)
    decreases |table|
  {
    if |table| == 0 then None
    else if table[0].0 == name then
      assert table[0] == (name, table[0].1);
      Some(table[0].1)
    else
      var r := Lookup(table[1..], name);
      assert forall k :: 0 < k < |table| ==> table[k] == table[1..][k - 1];
      r
  }

  /** The texts of `getDescription(MBeanAttributeInfo)`, in test order. */
  const AttributeTexts: seq<(string, string)> := [
    ("DisruptorConfiguration", "Print Disruptor configuration."),
    ("EventProcessorGraph", "Print Event processor graph depicting dependency barriers."),
    ("ThreadName", "Ring buffer thread name."),
    ("TotalCapacity", "Ring buffer capacity."),
    ("ProducerType", "Ring buffer producer type. Can be SINGLE or MULTI."),
    ("WaitStrategyType", "Ring buffer wait strategy. Can be one of BLOCKING, YIELDING, BUSY_SPIN etc."),
    ("CurrentLocation", "Current Ring buffer slot location ready to be consumed."),
    ("RemainingCapacity", "Remaining slots in the ring buffer.")]

  /** The texts of `getDescription(MBeanOperationInfo)`, in test order. */
  const OperationTexts: seq<(string, string)> := [
    ("controlledShutdown", "Shutdown Disruptor and Executor in a controlled manner after all ring buffer events are processed."),
    ("halt", "Halt Disruptor and Executor. Do not wait for ring buffer events to be processed."),
    ("awaitAndShutdown", "Wait for events to finish for a few seconds and then shutdown."),
    ("resetRingbuffer", "Reset the ring buffer cursor to a specific value."),
    ("publishToRingbuffer", "Publish the specified sequence to the ring buffer.")]

  /** The parameter texts of the three-argument `getDescription`: for each
      operation it switches on, the text of each position it has a case for. */
  const ParameterTexts: seq<(string, seq<string>)> := [
    ("awaitAndShutdown", ["Time in seconds"]),
    ("resetRingbuffer", ["Ring buffer sequence"]),
    ("publishToRingbuffer", ["Ring buffer sequence"])]

  /** `getDescription(MBeanAttributeInfo)`: a fixed text for every attribute
      of the interface and null (`None`) for any other name. */
  function AttributeDescription(name: string): (r: Option<string>)
    ensures r.Some? <==> name in Attributes
  {
    assert forall k :: 0 <= k < |Attributes| ==> AttributeTexts[k].0 == Attributes[k];
    Lookup(AttributeTexts, name)
  }

  /** `getDescription(MBeanOperationInfo)`: a fixed text for every operation
      of the interface and null for any other name. */
  function OperationDescription(name: string): (r: Option<string>)
    ensures r.Some? <==> exists k :: 0 <= k < |Operations| && Operations[k].name == name
  {
    assert forall k :: 0 <= k < |Operations| ==> OperationTexts[k].0 == Operations[k].name;
    Lookup(OperationTexts, name)
  }

  /** `getDescription(MBeanOperationInfo, MBeanParameterInfo, int)`: exactly
      the positions at which the interface declares a parameter are
      described; every other (operation, position) pair gives null. */
  function ParameterDescription(op: string, sequence: int32): (r: Option<string>)
    ensures r.Some? <==> HasParameter(op, sequence as int)
  {
    var texts := Lookup(ParameterTexts, op);
    ParameterTablesAgree(op);
    if texts.Some? && 0 <= sequence as int < |texts.value| then Some(texts.value[sequence]) else None
  }

  /** The three-argument table covers exactly the operations that declare
      parameters, each with as many texts as parameters. */
  lemma ParameterTablesAgree(op: string)
    ensures var texts := Lookup(ParameterTexts, op);
            forall index :: HasParameter(op, index) <==> texts.Some? && 0 <= index < |texts.value|
  {
    var texts := Lookup(ParameterTexts, op);
    assert forall k :: 0 <= k < |ParameterTexts| ==>
      ParameterTexts[k].0 == Operations[k + 2].name && |ParameterTexts[k].1| == |Operations[k + 2].parameters|;
    assert |Operations[0].parameters| == 0 && |Operations[1].parameters| == 0;
    forall index
      ensures HasParameter(op, index) <==> texts.Some? && 0 <= index < |texts.value|
    {
      if HasParameter(op, index) {
        var k :| 0 <= k < |Operations| && Operations[k].name == op && 0 <= index < |Operations[k].parameters|;
        assert 2 <= k;
        assert ParameterTexts[k - 2].0 == op;
      }
      if texts.Some? && 0 <= index < |texts.value| {
        var k :| 0 <= k < |ParameterTexts| && ParameterTexts[k] == (op, texts.value);
        assert Operations[k + 2].name == op;
      }
    }
  }

  /** No key occurs twice in a table. */
  predicate DistinctKeys<V>(table: seq<(string, V)>) {
    forall k, l :: 0 <= k < l < |table| ==> table[k].0 != table[l].0
  }

  /** With distinct keys, every entry is found under its own key. */
  lemma {:induction false} LookupEntry<V>(table: seq<(string, V)>, k: nat)
    requires DistinctKeys(table) && k < |table|
    ensures Lookup(table, table[k].0) == Some(table[k].1)
    decreases k
  {
    if 0 < k {
      assert table[0].0 != table[k].0;
      assert table[1..][k - 1] == table[k];
      LookupEntry(table[1..], k - 1);
    }
  }

  /** The three tables have distinct keys (no two names even share a length). */
  lemma TablesHaveDistinctKeys()
    ensures DistinctKeys(AttributeTexts) && DistinctKeys(OperationTexts) && DistinctKeys(ParameterTexts)
  {
    assert forall k, l :: 0 <= k < l < |AttributeTexts| ==> |AttributeTexts[k].0| != |AttributeTexts[l].0|;
    assert forall k, l :: 0 <= k < l < |OperationTexts| ==> |OperationTexts[k].0| != |OperationTexts[l].0|;
    assert forall k, l :: 0 <= k < l < |ParameterTexts| ==> |ParameterTexts[k].0| != |ParameterTexts[l].0|;
  }

  /** Every attribute gets exactly the text written for it (as the tests
      expect them, name by name). */
  lemma AttributeDescriptionsExact()
    ensures forall k :: 0 <= k < |AttributeTexts| ==> AttributeDescription(AttributeTexts[k].0) == Some(AttributeTexts[k].1)
  {
    TablesHaveDistinctKeys();
    forall k | 0 <= k < |AttributeTexts|
      ensures AttributeDescription(AttributeTexts[k].0) == Some(AttributeTexts[k].1)
    {
      LookupEntry(AttributeTexts, k);
    }
  }

  /** Every operation gets exactly the text written for it. */
  lemma OperationDescriptionsExact()
    ensures forall k :: 0 <= k < |OperationTexts| ==> OperationDescription(OperationTexts[k].0) == Some(OperationTexts[k].1)
  {
    TablesHaveDistinctKeys();
    forall k | 0 <= k < |OperationTexts|
      ensures OperationDescription(OperationTexts[k].0) == Some(OperationTexts[k].1)
    {
      LookupEntry(OperationTexts, k);
    }
  }

  /** The one parameter of each operation that has one gets exactly the text
      written for it. */
  lemma ParameterDescriptionsExact()
    ensures forall k :: 0 <= k < |ParameterTexts| ==>
      0 < |ParameterTexts[k].1| && ParameterDescription(ParameterTexts[k].0, 0) == Some(ParameterTexts[k].1[0])
  {
    TablesHaveDistinctKeys();
    forall k | 0 <= k < |ParameterTexts|
      ensures 0 < |ParameterTexts[k].1| && ParameterDescription(ParameterTexts[k].0, 0) == Some(ParameterTexts[k].1[0])
    {
      LookupEntry(ParameterTexts, k);
    }
  }

  class JmxDisruptor {
    const disruptorConfig: DefaultDisruptorConfig
    const beanName: Option<string>

    /** Keeps the configuration it shows and the name it is registered under. */
    constructor (disruptorConfig: DefaultDisruptorConfig, beanName: Option<string>)
      ensures this.disruptorConfig == disruptorConfig && this.beanName == beanName
    {
      this.disruptorConfig := disruptorConfig;
      this.beanName := beanName;
    }

    /** `getDescription(MBeanInfo)`: the bean name, printed "null" when
        absent, closes the description. */
    function GetDescription(): (r: string)
      ensures |r| == |BeanDescriptionStart| + |JavaString(beanName)|
      ensures r[..|BeanDescriptionStart|] == BeanDescriptionStart
      ensures r[|BeanDescriptionStart|..] == JavaString(beanName)
    {
      BeanDescriptionStart + JavaString(beanName)
    }

    /** `getProducerType()`: the configured producer type's name, which
        reads back as that producer type. */
    function GetProducerType(): (r: string)
      reads disruptorConfig
      ensures ProducerTypes.ValueOf(r) == Some(disruptorConfig.producerType)
    {
      ProducerTypes.Name(disruptorConfig.producerType)
    }

    /** `getWaitStrategyType()`: the configured wait strategy's name, which
        reads back as that wait strategy. */
    function GetWaitStrategyType(): (r: string)
      reads disruptorConfig
      ensures WaitStrategies.ValueOf(r) == Some(disruptorConfig.waitStrategyType)
    {
      WaitStrategies.Name(disruptorConfig.waitStrategyType)
    }
  }
}
