/** `DisruptorExceptionHandler`: the handler installed as the disruptor's
    default. It stamps every message with the thread name. A failure while
    processing an event is logged and then rethrown; a failure while a
    processor starts or shuts down is only logged. */
module ExceptionHandling {
  import opened Wrappers
  import opened JavaLang
  import opened Strings

  /** The fixed opening of every message; the field's initial value. */
  const PrefixStart := "Ringbuffer Disruptor failed for thread: "

  /** The prefix once the constructor has appended the thread name and the
      delimiter; the thread name can be read back out of it. */
  function ErrorPrefix(threadName: Option<string>): (r: string)
    ensures |r| == |PrefixStart| + |JavaString(threadName)| + |Delimiter|
    ensures r[..|PrefixStart|] == PrefixStart
    ensures r[|PrefixStart|..|r| - |Delimiter|] == JavaString(threadName)
    ensures r[|r| - |Delimiter|..] == Delimiter
  {
    PrefixStart + JavaString(threadName) + Delimiter
  }

  /** The seven parts of the message logged for a failed event, in order. */
  function EventMessageParts(prefix: string, sequence: int64, event: string, exMessage: Option<string>): seq<string> {
    [prefix, "Sequence: ", IntToString(sequence as int), "Event: ", event, "Exception message: ", JavaString(exMessage)]
  }

  /** The message logged for a failed event: its seven parts joined by " | ". */
  function EventMessage(prefix: string, sequence: int64, event: string, exMessage: Option<string>): string {
    Join(EventMessageParts(prefix, sequence, event, exMessage), Delimiter)
  }

  /** What a handler call does: it returns after logging, or it throws
      (having logged a message, unless it failed before it could). */
  datatype HandlerOutcome =
    | Logged(log: string)
    | Thrown(logged: Option<string>, exception: Exception)

  class DisruptorExceptionHandler {
    var errorPrefix: string

    /** The prefix starts as `PrefixStart`; the constructor appends the thread
        name (printed "null" when absent) and " | ". */
    constructor (threadName: Option<string>)
      ensures errorPrefix == ErrorPrefix(threadName)
    {
      errorPrefix := PrefixStart;
      errorPrefix := errorPrefix + JavaString(threadName) + Delimiter;
    }

    /** `handleEventException`: never returns normally. It logs the seven-part
        message and throws a RuntimeException wrapping the original throwable;
        a null event fails on `toString()` before anything is logged. */
    method HandleEventException(ex: Throwable, sequence: int64, event: Option<string>)
      returns (r: HandlerOutcome)
      ensures r.Thrown?
      ensures event.None? ==> r == Thrown(None, NullPointerException(None))
      ensures event.Some? ==>
        r == Thrown(Some(EventMessage(errorPrefix, sequence, event.value, ex.message)), RuntimeException(ex))
    {
      var str := new StringJoiner(Delimiter, "", "");
      str.Add(errorPrefix);
      str.Add("Sequence: ");
      str.Add(IntToString(sequence as int));
      str.Add("Event: ");
      if event.None? {
        return Thrown(None, NullPointerException(None));
      }
      str.Add(event.value);
      str.Add("Exception message: ");
      str.Add(JavaString(ex.message));
      assert str.parts == EventMessageParts(errorPrefix, sequence, event.value, ex.message);
      var message := str.ToString();
      assert message == Join(str.parts, Delimiter);
      r := Thrown(Some(message), RuntimeException(ex));
    }

    /** `handleOnStartException`: only logs the prefix followed by the message. */
    method HandleOnStartException(ex: Throwable) returns (r: HandlerOutcome)
      ensures r == Logged(errorPrefix + JavaString(ex.message))
    {
      r := Logged(errorPrefix + JavaString(ex.message));
    }

    /** `handleOnShutdownException`: only logs the prefix followed by the message. */
    method HandleOnShutdownException(ex: Throwable) returns (r: HandlerOutcome)
      ensures r == Logged(errorPrefix + JavaString(ex.message))
    {
      r := Logged(errorPrefix + JavaString(ex.message));
    }
  }

  /** The event message opens with the handler's prefix, and the sequence
      number can be read back from the place right after the "Sequence: "
      label; the prefix in turn holds the thread name. */
  lemma EventMessageCarriesSequence(threadName: Option<string>, sequence: int64, event: string, exMessage: Option<string>)
    ensures var p := ErrorPrefix(threadName);
            var m := EventMessage(p, sequence, event, exMessage);
            var k := |p| + |Delimiter| + |"Sequence: "| + |Delimiter|;
            var n := |IntToString(sequence as int)|;
            && k + n <= |m|
            && m[..|p|] == p
            && ParseInt(m[k..k + n]) == Some(sequence as int)
  {
    var p := ErrorPrefix(threadName);
    var digits := IntToString(sequence as int);
    var head := p + Delimiter + "Sequence: " + Delimiter;
    var rest := EventMessageAroundSequence(p, sequence, event, exMessage);
    Slices(head, digits, rest, |p|);
    assert head[..|p|] == p;
    ParseIntToString(sequence as int);
  }

  /** The message as the text before the sequence number, the number, and
      the rest. */
  lemma EventMessageAroundSequence(p: string, sequence: int64, event: string, exMessage: Option<string>)
    returns (rest: string)
    ensures EventMessage(p, sequence, event, exMessage)
            == (p + Delimiter + "Sequence: " + Delimiter) + (IntToString(sequence as int) + rest)
  {
    var ps := EventMessageParts(p, sequence, event, exMessage);
    var d := Delimiter;
    var digits := IntToString(sequence as int);
    var j3 := Join(ps[3..], d);
    var j2 := Join(ps[2..], d);
    assert j2 == digits + d + j3 by { assert ps[2..][1..] == ps[3..]; }
    var j1 := Join(ps[1..], d);
    assert j1 == "Sequence: " + d + j2 by { assert ps[1..][1..] == ps[2..]; }
    assert Join(ps, d) == p + d + j1;
    rest := d + j3;
  }

  lemma Slices(head: string, middle: string, tail: string, k: nat)
    requires k <= |head|
    ensures (head + (middle + tail))[|head|..|head| + |middle|] == middle
    ensures (head + (middle + tail))[..k] == head[..k]
  {
  }

  /** The message the start and shutdown handlers log, for thread `t`: the
      thread name can be read back from it. */
  lemma LifecycleMessageCarriesThreadName(threadName: Option<string>, ex: Throwable)
    ensures var m := ErrorPrefix(threadName) + JavaString(ex.message);
            var k := |PrefixStart| + |JavaString(threadName)|;
            && k <= |m|
            && m[..|PrefixStart|] == PrefixStart
            && m[|PrefixStart|..k] == JavaString(threadName)
  {
    var p := ErrorPrefix(threadName);
    var m := p + JavaString(ex.message);
    assert m[..|p|] == p;
  }
}
