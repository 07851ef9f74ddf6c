/** `java.util.StringJoiner`, the one text builder the configuration layer
    uses, and the reading-back of the " | "-separated summaries it produces. */
module Strings {

  /** The delimiter every summary of this layer uses. */
  const Delimiter := " | "

  /** The elements separated by `delim`, as a StringJoiner lays them out
      between its prefix and suffix. */
  function Join(parts: seq<string>, delim: string): (r: string)
    decreases |parts|
  {
    if |parts| == 0 then ""
    else if |parts| == 1 then parts[0]
    else parts[0] + delim + Join(parts[1..], delim)
  }

  /** A mutable `StringJoiner(delimiter, prefix, suffix)`. */
  class StringJoiner {
    const delimiter: string
    const prefix: string
    const suffix: string
    var parts: seq<string>

    constructor (delimiter: string, prefix: string, suffix: string)
      ensures this.delimiter == delimiter && this.prefix == prefix && this.suffix == suffix
      ensures parts == []
    {
      this.delimiter, this.prefix, this.suffix := delimiter, prefix, suffix;
      parts := [];
    }

    /** `add(element)`: the element goes after every element added so far. */
    method Add(element: string)
      modifies this`parts
      ensures parts == old(parts) + [element]
    {
      parts := parts + [element];
    }

    /** `toString()`: with no element added it is just prefix and suffix. */
    function ToString(): (r: string)
      reads this`parts
      ensures |prefix| + |suffix| <= |r|
      ensures r[..|prefix|] == prefix && r[|r| - |suffix|..] == suffix
      ensures parts == [] ==> r == prefix + suffix
    {
      prefix + Join(parts, delimiter) + suffix
    }
  }

  /** Four elements joined, written out. */
  lemma JoinFour(a: string, b: string, c: string, e: string, delim: string)
    ensures Join([a, b, c, e], delim) == a + delim + b + delim + c + delim + e
  {
    var parts := [a, b, c, e];
    assert parts[1..] == [b, c, e];
    assert [b, c, e][1..] == [c, e];
    assert [c, e][1..] == [e];
    assert Join([e], delim) == e;
    assert Join([c, e], delim) == c + delim + e;
    assert Join([b, c, e], delim) == b + delim + (c + delim + e);
    assert Join(parts, delim) == a + delim + (b + delim + (c + delim + e));
    assert a + delim + (b + delim + (c + delim + e)) == a + delim + b + delim + c + delim + e;
  }

  // ---------------------------------------------------------------------
  // Reading a " | "-joined text back into its elements

  /** Cuts `s` at every occurrence of " | ", from left to right. */
  function Split(s: string): (r: seq<string>)
    ensures 0 < |r|
    decreases |s|
  {
    if |s| < |Delimiter| then [s]
    else if s[..|Delimiter|] == Delimiter then [""] + Split(s[|Delimiter|..])
    else
      var rest := Split(s[1..]);
      [[s[0]] + rest[0]] + rest[1..]
  }

  /** An element that cannot be confused with the delimiter: it holds no '|'. */
  predicate NoBar(x: string) {
    forall i :: 0 <= i < |x| ==> x[i] != '|'
  }

  lemma {:induction false} NoBarConcat(x: string, y: string)
    requires NoBar(x) && NoBar(y)
    ensures NoBar(x + y)
  {
    assert forall i :: 0 <= i < |x + y| ==> (x + y)[i] == if i < |x| then x[i] else y[i - |x|];
  }

  lemma {:induction false} SplitNoBar(x: string)
    requires NoBar(x)
    ensures Split(x) == [x]
    decreases |x|
  {
    if |x| >= |Delimiter| {
      assert x[..|Delimiter|][1] == x[1] != Delimiter[1];
      SplitNoBar(x[1..]);
      assert [x[0]] + x[1..] == x;
    }
  }

  lemma {:induction false} SplitFirst(x: string, t: string)
    requires NoBar(x)
    ensures Split(x + Delimiter + t) == [x] + Split(t)
    decreases |x|
  {
    var s := x + Delimiter + t;
    if |x| == 0 {
      assert s[..|Delimiter|] == Delimiter;
      assert s[|Delimiter|..] == t;
    } else {
      assert s[1] != '|' by {
        if |x| > 1 { assert s[1] == x[1]; } else { assert s[1] == Delimiter[0]; }
      }
      assert s[..|Delimiter|] != Delimiter by { assert s[..|Delimiter|][1] == s[1]; }
      assert s[1..] == x[1..] + Delimiter + t;
      SplitFirst(x[1..], t);
      assert [s[0]] + x[1..] == x;
    }
  }

  /** Joining with " | " loses nothing when no element holds a '|'. */
  lemma {:induction false} SplitJoin(parts: seq<string>)
    requires 0 < |parts|
    requires forall i :: 0 <= i < |parts| ==> NoBar(parts[i])
    ensures Split(Join(parts, Delimiter)) == parts
    decreases |parts|
  {
    if |parts| == 1 {
      SplitNoBar(parts[0]);
    } else {
      SplitJoin(parts[1..]);
      SplitFirst(parts[0], Join(parts[1..], Delimiter));
      assert [parts[0]] + parts[1..] == parts;
    }
  }

  // ---------------------------------------------------------------------
  // Characters a text does not contain, and cutting a text into lines

  predicate Excludes(x: string, c: char) {
    forall i :: 0 <= i < |x| ==> x[i] != c
  }

  lemma ExcludesConcat(x: string, y: string, c: char)
    requires Excludes(x, c) && Excludes(y, c)
    ensures Excludes(x + y, c)
  {
    assert forall i :: 0 <= i < |x + y| ==> (x + y)[i] == if i < |x| then x[i] else y[i - |x|];
  }

  lemma {:induction false} JoinExcludes(parts: seq<string>, delim: string, c: char)
    requires Excludes(delim, c)
    requires forall i :: 0 <= i < |parts| ==> Excludes(parts[i], c)
    ensures Excludes(Join(parts, delim), c)
    decreases |parts|
  {
    if |parts| > 1 {
      JoinExcludes(parts[1..], delim, c);
      ExcludesConcat(parts[0], delim, c);
      ExcludesConcat(parts[0] + delim, Join(parts[1..], delim), c);
    }
  }

  /** Cuts a text at every newline; a text with n newlines has n + 1 lines. */
  function SplitLines(s: string): (r: seq<string>)
    ensures 0 < |r|
    decreases |s|
  {
    if |s| == 0 then [""]
    else if s[|s| - 1] == '\n' then SplitLines(s[..|s| - 1]) + [""]
    else
      var r := SplitLines(s[..|s| - 1]);
      r[..|r| - 1] + [r[|r| - 1] + [s[|s| - 1]]]
  }

  /** A newline followed by a line without newlines adds exactly that line. */
  lemma {:induction false} SplitLinesAppend(p: string, line: string)
    requires Excludes(line, '\n')
    ensures SplitLines(p + "\n" + line) == SplitLines(p) + [line]
    decreases |line|
  {
    var s := p + "\n" + line;
    if |line| == 0 {
      assert s == p + "\n";
      assert s[..|s| - 1] == p;
    } else {
      var shorter := line[..|line| - 1];
      assert s[..|s| - 1] == p + "\n" + shorter;
      SplitLinesAppend(p, shorter);
      assert shorter + [line[|line| - 1]] == line;
    }
  }
}
