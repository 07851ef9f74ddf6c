/** `EventHandlerChain`: one stage of the consumer graph. It holds the handlers
    that consume at this stage ("current") and, optionally, the handlers that
    must wait for them ("next"). Handlers are known by their simple class name. */
module Chains {
  import opened Wrappers
  import opened JavaLang
  import opened Strings

  /** A handler array that passed validation: at least one handler. */
  type Handlers = s: seq<string> | 0 < |s| witness [""]

  /** The message of the validation that rejects a missing current stage. */
  const CurrentHandlersMessage := "Atleast one Event handler should be present to consume off the ring buffer."

  /** The element printed between a stage's current and next handlers. */
  const Arrow := " -> "

  class EventHandlerChain {
    /** `getCurrentEventHandlers()`: never null, never empty. */
    const currentEventHandlers: Handlers
    /** `getNextEventHandlers()`: may be null or empty. */
    const nextEventHandlers: Option<seq<string>>

    /** Stores the arrays once they have passed validation; nothing writes
        them afterwards. */
    constructor (current: Handlers, next: Option<seq<string>>)
      ensures currentEventHandlers == current && nextEventHandlers == next
    {
      currentEventHandlers := current;
      nextEventHandlers := next;
    }

    /** The two-argument constructor: a null or empty current array is
        rejected and no chain results; the next array is kept as given. */
    static method Create(current: Option<seq<string>>, next: Option<seq<string>>)
      returns (r: Result<EventHandlerChain, Exception>)
      ensures r.Success? <==> current.Some? && 0 < |current.value|
      ensures current.None? ==> r == Failure(NullPointerException(Some(CurrentHandlersMessage)))
      ensures current.Some? && |current.value| == 0 ==> r == Failure(IllegalArgumentException(CurrentHandlersMessage))
      ensures r.Success? ==> (fresh(r.value)
        && r.value.currentEventHandlers == current.value
        && r.value.nextEventHandlers == next)
    {
      var valid := ValidateNotEmpty(current, CurrentHandlersMessage);
      if valid.Fail? {
        return Failure(valid.error);
      }
      var chain := new EventHandlerChain(current.value, next);
      return Success(chain);
    }

    /** The one-argument constructor: the same validation, with next = null. */
    static method CreateWithoutNext(current: Option<seq<string>>)
      returns (r: Result<EventHandlerChain, Exception>)
      ensures r.Success? <==> current.Some? && 0 < |current.value|
      ensures r.Failure? ==> r.error == (if current.None? then NullPointerException(Some(CurrentHandlersMessage))
                                         else IllegalArgumentException(CurrentHandlersMessage))
      ensures r.Success? ==> (fresh(r.value)
        && r.value.currentEventHandlers == current.value
        && r.value.nextEventHandlers == None)
    {
      r := Create(current, None);
    }

    /** `printDependencyGraph()`: the current handlers, then — only when next
        is neither null nor empty — the arrow and the next handlers, joined by
        " | " between braces. */
    method PrintDependencyGraph() returns (s: string)
      ensures s == DependencyGraph(currentEventHandlers, nextEventHandlers)
    {
      var str := new StringJoiner(Delimiter, "{", "}");
      PrintEventHandlers(str, currentEventHandlers);
      if !IsEmpty(nextEventHandlers) {
        str.Add(Arrow);
        PrintEventHandlers(str, nextEventHandlers.value);
        assert str.parts == currentEventHandlers + ([Arrow] + nextEventHandlers.value);
      }
      assert str.parts == GraphElements(currentEventHandlers, nextEventHandlers);
      s := str.ToString();
    }

    /** `printEventHandlers(str, handlers)`: adds every handler name to the
        joiner, in array order. */
    static method PrintEventHandlers(str: StringJoiner, handlers: seq<string>)
      modifies str
      ensures str.parts == old(str.parts) + handlers
    {
      for j := 0 to |handlers|
        invariant str.parts == old(str.parts) + handlers[..j]
      {
        str.Add(handlers[j]);
        assert handlers[..j + 1] == handlers[..j] + [handlers[j]];
      }
    }
  }

  /** The elements the dependency graph is joined from. */
  function GraphElements(current: seq<string>, next: Option<seq<string>>): seq<string> {
    current + (if IsEmpty(next) then [] else [Arrow] + next.value)
  }

  /** The text `printDependencyGraph()` returns for a chain. */
  function DependencyGraph(current: Handlers, next: Option<seq<string>>): (r: string)
    ensures 2 <= |r| && r[0] == '{' && r[|r| - 1] == '}'
  {
    "{" + Join(GraphElements(current, next), Delimiter) + "}"
  }

  // ---------------------------------------------------------------------
  // The layout of the graph text

  lemma {:induction false} JoinAppend(a: seq<string>, b: seq<string>, d: string)
    requires 0 < |a| && 0 < |b|
    ensures Join(a + b, d) == Join(a, d) + d + Join(b, d)
    decreases |a|
  {
    var ab := a + b;
    assert ab[0] == a[0];
    if |a| == 1 {
      assert ab[1..] == b;
    } else {
      JoinAppend(a[1..], b, d);
      assert ab[1..] == a[1..] + b;
      var head, ja, jb := a[0] + d, Join(a[1..], d), Join(b, d);
      assert Join(ab, d) == head + (ja + d + jb);
      assert Join(a, d) == head + ja;
      assert head + (ja + d + jb) == (head + ja) + d + jb;
    }
  }

  /** The graph text, written out: the current names joined by " | ", then
      " |  ->  | " and the next names exactly when next is non-empty. */
  lemma GraphLayout(current: Handlers, next: Option<seq<string>>)
    ensures DependencyGraph(current, next) ==
      "{" + Join(current, Delimiter)
          + (if IsEmpty(next) then "" else Delimiter + Arrow + Delimiter + Join(next.value, Delimiter))
          + "}"
  {
    var es := GraphElements(current, next);
    if !IsEmpty(next) {
      var tail := [Arrow] + next.value;
      assert es == current + tail;
      JoinAppend(current, tail, Delimiter);
      JoinAppend([Arrow], next.value, Delimiter);
      assert Join([Arrow], Delimiter) == Arrow;
      var j := Join(es, Delimiter);
      assert j == Join(current, Delimiter) + Delimiter + (Arrow + Delimiter + Join(next.value, Delimiter));
    } else {
      assert es == current;
    }
  }

  /** A Java simple class name holds neither a space nor a '|'. */
  predicate SimpleName(x: string) {
    forall i :: 0 <= i < |x| ==> x[i] != ' ' && x[i] != '|'
  }

  predicate SimpleNames(xs: seq<string>) {
    forall i :: 0 <= i < |xs| ==> SimpleName(xs[i])
  }

  /** The position of the first arrow element, if any. */
  function FindArrow(es: seq<string>): (r: Option<nat>)
    ensures r.Some? ==> r.value < |es| && es[r.value] == Arrow
    decreases |es|
  {
    if |es| == 0 then None
    else if es[0] == Arrow then Some(0)
    else
      var k := FindArrow(es[1..]);
      if k.None? then None else Some(k.value + 1)
  }

  /** Reads a dependency-graph text back into its current and next handler
      names (an absent or empty next stage both read back as no names). */
  function ParseDependencyGraph(s: string): Option<(seq<string>, seq<string>)> {
    if 2 <= |s| && s[0] == '{' && s[|s| - 1] == '}' then
      var es := Split(s[1..|s| - 1]);
      match FindArrow(es)
      case None => Some((es, []))
      case Some(k) => Some((es[..k], es[k + 1..]))
    else None
  }

  lemma {:induction false} FindArrowAfter(current: seq<string>, tail: seq<string>)
    requires SimpleNames(current)
    requires 0 < |tail| && tail[0] == Arrow
    ensures FindArrow(current + tail) == Some(|current|)
    decreases |current|
  {
    if |current| == 0 {
      assert current + tail == tail;
    } else {
      assert current[0] != Arrow by { assert Arrow[0] == ' '; }
      assert (current + tail)[1..] == current[1..] + tail;
      FindArrowAfter(current[1..], tail);
    }
  }

  lemma {:induction false} FindArrowNone(names: seq<string>)
    requires SimpleNames(names)
    ensures FindArrow(names) == None
    decreases |names|
  {
    if 0 < |names| {
      assert names[0] != Arrow by { assert Arrow[0] == ' '; }
      FindArrowNone(names[1..]);
    }
  }

  lemma GraphElementsNoBar(current: Handlers, next: Option<seq<string>>)
    requires forall i :: 0 <= i < |current| ==> NoBar(current[i])
    requires next.Some? ==> forall i :: 0 <= i < |next.value| ==> NoBar(next.value[i])
    ensures forall i :: 0 <= i < |GraphElements(current, next)| ==> NoBar(GraphElements(current, next)[i])
  {
    var es := GraphElements(current, next);
    forall i | 0 <= i < |es|
      ensures NoBar(es[i])
    {
      if i < |current| {
        assert es[i] == current[i];
      } else if i > |current| {
        assert es[i] == next.value[i - |current| - 1];
      } else {
        assert es[i] == Arrow;
      }
    }
  }

  /** The graph text loses nothing: for handlers with simple names it reads
      back as exactly the current names and the non-empty next names. */
  lemma ParseDependencyGraphRoundTrip(current: Handlers, next: Option<seq<string>>)
    requires SimpleNames(current)
    requires next.Some? ==> SimpleNames(next.value)
    ensures ParseDependencyGraph(DependencyGraph(current, next))
            == Some((current, if IsEmpty(next) then [] else next.value))
  {
    var es := GraphElements(current, next);
    var s := DependencyGraph(current, next);
    assert s[1..|s| - 1] == Join(es, Delimiter);
    GraphElementsNoBar(current, next);
    SplitJoin(es);
    if IsEmpty(next) {
      assert es == current;
      FindArrowNone(current);
    } else {
      FindArrowAfter(current, [Arrow] + next.value);
      assert es[..|current|] == current;
      assert es[|current| + 1..] == next.value;
    }
  }

  /** The number of " | "-separated elements is the number of current
      handlers, plus the arrow and the next handlers when next is non-empty. */
  lemma DependencyGraphElementCount(current: Handlers, next: Option<seq<string>>)
    requires forall i :: 0 <= i < |current| ==> NoBar(current[i])
    requires next.Some? ==> forall i :: 0 <= i < |next.value| ==> NoBar(next.value[i])
    ensures var s := DependencyGraph(current, next);
            |Split(s[1..|s| - 1])| == |current| + (if IsEmpty(next) then 0 else 1 + |next.value|)
  {
    var es := GraphElements(current, next);
    var s := DependencyGraph(current, next);
    assert s[1..|s| - 1] == Join(es, Delimiter);
    GraphElementsNoBar(current, next);
    SplitJoin(es);
  }

  /** The two shapes the chain tests describe. */
  lemma GraphExamples()
    ensures DependencyGraph(["A"], Some(["B"])) == "{A |  ->  | B}"
    ensures DependencyGraph(["A"], None) == "{A}"
    ensures DependencyGraph(["A"], Some([])) == "{A}"
  {
  }
}
