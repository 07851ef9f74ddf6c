/** The two closed enumerations of the configuration: the wait strategy a
    consumer uses while idle, and whether one or several threads publish. */
module WaitStrategies {
  import opened Wrappers

  /** `WaitStrategyType`: the five strategies a configuration can name. */
  datatype WaitStrategyType = BLOCKING | BUSY_SPIN | LITE_BLOCKING | SLEEPING_WAIT | YIELDING

  /** The library strategy object `instance()` creates, identified by its class. */
  datatype WaitStrategyKind =
    | BlockingWaitStrategy
    | BusySpinWaitStrategy
    | LiteBlockingWaitStrategy
    | SleepingWaitStrategy
    | YieldingWaitStrategy

  /** Every variant, in declaration order (`values()`). */
  const AllTypes: seq<WaitStrategyType> := [BLOCKING, BUSY_SPIN, LITE_BLOCKING, SLEEPING_WAIT, YIELDING]

  /** `instance()`: each variant builds the library strategy of the same name;
      the kind tells its variant back, so no two variants share a kind. */
  function Instance(w: WaitStrategyType): (k: WaitStrategyKind)
    ensures TypeOfKind(k) == w
  {
    match w
    case BLOCKING => BlockingWaitStrategy
    case BUSY_SPIN => BusySpinWaitStrategy
    case LITE_BLOCKING => LiteBlockingWaitStrategy
    case SLEEPING_WAIT => SleepingWaitStrategy
    case YIELDING => YieldingWaitStrategy
  }

  /** The variant whose `instance()` yields a strategy of this kind. */
  function TypeOfKind(k: WaitStrategyKind): WaitStrategyType {
    match k
    case BlockingWaitStrategy => BLOCKING
    case BusySpinWaitStrategy => BUSY_SPIN
    case LiteBlockingWaitStrategy => LITE_BLOCKING
    case SleepingWaitStrategy => SLEEPING_WAIT
    case YieldingWaitStrategy => YIELDING
  }

  /** `name()`: the identifier the variant is declared with; `ValueOf` reads
      it back, so distinct variants have distinct names. */
  function Name(w: WaitStrategyType): (s: string)
    ensures ValueOf(s) == Some(w)
  {
    match w
    case BLOCKING => "BLOCKING"
    case BUSY_SPIN => "BUSY_SPIN"
    case LITE_BLOCKING => "LITE_BLOCKING"
    case SLEEPING_WAIT => "SLEEPING_WAIT"
    case YIELDING => "YIELDING"
  }

  /** `valueOf(name)`, with null for a name no variant has (where Java throws). */
  function ValueOf(s: string): Option<WaitStrategyType>
  {
    if s == "BLOCKING" then Some(BLOCKING)
    else if s == "BUSY_SPIN" then Some(BUSY_SPIN)
    else if s == "LITE_BLOCKING" then Some(LITE_BLOCKING)
    else if s == "SLEEPING_WAIT" then Some(SLEEPING_WAIT)
    else if s == "YIELDING" then Some(YIELDING)
    else None
  }

  /** Only a variant's own name reads back as that variant. */
  lemma ValueOfOnlyNames(s: string, w: WaitStrategyType)
    requires ValueOf(s) == Some(w)
    ensures s == Name(w)
  {
  }

  /** There are exactly five variants, all distinct, and `instance()` maps
      them onto five distinct strategy kinds. */
  lemma {:induction false} FiveDistinctStrategies()
    ensures |AllTypes| == 5
    ensures forall w: WaitStrategyType :: w in AllTypes
    ensures forall i, j :: 0 <= i < j < |AllTypes| ==> Instance(AllTypes[i]) != Instance(AllTypes[j])
  {
    forall w: WaitStrategyType
      ensures w in AllTypes
    {
      match w
      case BLOCKING => assert AllTypes[0] == w;
      case BUSY_SPIN => assert AllTypes[1] == w;
      case LITE_BLOCKING => assert AllTypes[2] == w;
      case SLEEPING_WAIT => assert AllTypes[3] == w;
      case YIELDING => assert AllTypes[4] == w;
    }
    forall i, j | 0 <= i < j < |AllTypes|
      ensures Instance(AllTypes[i]) != Instance(AllTypes[j])
    {
      assert TypeOfKind(Instance(AllTypes[i])) == AllTypes[i];
      assert TypeOfKind(Instance(AllTypes[j])) == AllTypes[j];
    }
  }
}

module ProducerTypes {
  import opened Wrappers

  /** The library's `ProducerType`: one publishing thread or several. */
  datatype ProducerType = SINGLE | MULTI

  /** `name()` of the variant; `ValueOf` reads it back. */
  function Name(p: ProducerType): (s: string)
    ensures ValueOf(s) == Some(p)
  {
    match p
    case SINGLE => "SINGLE"
    case MULTI => "MULTI"
  }

  /** `valueOf(name)`, with null for a name no variant has. */
  function ValueOf(s: string): Option<ProducerType>
  {
    if s == "SINGLE" then Some(SINGLE)
    else if s == "MULTI" then Some(MULTI)
    else None
  }

  /** Only a variant's own name reads back as that variant. */
  lemma ValueOfOnlyNames(s: string, p: ProducerType)
    requires ValueOf(s) == Some(p)
    ensures s == Name(p)
  {
  }
}
