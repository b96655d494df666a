/** `ExtensionMethods.GetAllMessages`: flattening an exception and its chain of inner
    exceptions into one text, one line per exception. */
module ExtensionMethods {
  import opened Wrappers

  /** An exception as far as message flattening sees it: its message and its
      (possibly null) inner exception. The chain is finite by construction. */
  datatype Exception = Exception(message: string, inner: Option<Exception>)

  /** `Environment.NewLine` on Windows, which `StringBuilder.AppendLine` appends. */
  const NewLine: string := "\r\n"

  /** The messages along the inner-exception chain starting at `e`, outermost first. */
  function ChainFrom(e: Option<Exception>): (ms: seq<string>)
    ensures e.Some? ==> |ms| >= 1 && ms[0] == e.value.message
    ensures e.None? ==> ms == []
  {
    match e
    case None => []
    case Some(x) => [x.message] + ChainFrom(x.inner)
  }

  /** The messages of `ex` and of every exception nested inside it. */
  function Chain(ex: Exception): seq<string>
  {
    ChainFrom(Some(ex))
  }

  /** Each message followed by a line terminator, in order. */
  function Flatten(ms: seq<string>): string
  {
    if ms == [] then "" else ms[0] + NewLine + Flatten(ms[1..])
  }

  /** Flattening distributes over concatenation: the text grows line by line, as the
      `StringBuilder` does, whatever the messages hold. */
  lemma {:induction false} FlattenAppend(a: seq<string>, b: seq<string>)
    ensures Flatten(a + b) == Flatten(a) + Flatten(b)
  {
    if a != [] {
      assert (a + b)[0] == a[0] && (a + b)[1..] == a[1..] + b;
      FlattenAppend(a[1..], b);
    } else {
      assert a + b == b;
    }
  }

  /** Appending the flattened chain at `x` is appending `x`'s line, then the flattened rest of the chain. */
  lemma AppendChainStep(sb: string, x: Exception)
    ensures sb + Flatten(ChainFrom(Some(x))) == (sb + x.message + NewLine) + Flatten(ChainFrom(x.inner))
  {
    assert ChainFrom(Some(x))[1..] == ChainFrom(x.inner);
  }

  /** What `GetAllMessages` promises for a non-null exception. */
  function AllMessages(ex: Exception): string
  {
    Flatten(Chain(ex))
  }

  /** `ex.GetAllMessages()`: null for a null exception, otherwise every message of the
      chain followed by a line terminator, outermost exception first. */
  method GetAllMessages(ex: Option<Exception>) returns (r: Option<string>)
    ensures ex.None? <==> r.None?
    ensures ex.Some? ==> r == Some(AllMessages(ex.value))
  {
    if ex.None? {
      return None;
    }
    var sb := "";
    var tmp := ex.value;
    AppendChainStep(sb, tmp);
    sb := sb + tmp.message + NewLine;
    var next := tmp.inner;
    while next.Some?
      invariant sb + Flatten(ChainFrom(next)) == AllMessages(ex.value)
      decreases next
    {
      tmp := next.value;
      AppendChainStep(sb, tmp);
      sb := sb + tmp.message + NewLine;
      next := tmp.inner;
    }
    assert sb + Flatten(ChainFrom(next)) == sb + "" == sb;
    return Some(sb);
  }

  // ---------------------------------------------------------------------------
  // Reading the flattened text back as lines

  /** The first index at or after k where a line terminator starts, or |s| if none. */
  function TerminatorFrom(s: string, k: nat): (i: nat)
    requires k <= |s|
    ensures k <= i <= |s|
    ensures i < |s| ==> i + 1 < |s| && s[i..i + 2] == NewLine
    ensures forall j :: k <= j < i && j + 1 < |s| ==> !(s[j] == '\r' && s[j + 1] == '\n')
    decreases |s| - k
  {
    if k + 1 >= |s| then |s|
    else if s[k] == '\r' && s[k + 1] == '\n' then k
    else TerminatorFrom(s, k + 1)
  }

  /** Splits text into lines ended by a line terminator; a last unterminated piece is a line too. */
  function Lines(s: string): seq<string>
    decreases |s|
  {
    if s == [] then []
    else
      var i := TerminatorFrom(s, 0);
      if i == |s| then [s] else [s[..i]] + Lines(s[i + 2..])
  }

  lemma {:induction false} TerminatorAfterMessage(m: string, rest: string, k: nat)
    requires '\r' !in m && k <= |m|
    ensures TerminatorFrom(m + NewLine + rest, k) == |m|
    decreases |m| - k
  {
    var s := m + NewLine + rest;
    if k < |m| {
      assert s[k] == m[k];
      TerminatorAfterMessage(m, rest, k + 1);
    } else {
      assert s[k..k + 2] == NewLine;
    }
  }

  /** When no message holds a carriage return, the flattened text splits back into exactly
      the messages, one line per exception of the chain. */
  lemma {:induction false} LinesOfFlatten(ms: seq<string>)
    requires forall m :: m in ms ==> '\r' !in m
    ensures Lines(Flatten(ms)) == ms
  {
    if ms != [] {
      var s := Flatten(ms);
      TerminatorAfterMessage(ms[0], Flatten(ms[1..]), 0);
      assert s[..|ms[0]|] == ms[0];
      assert s[|ms[0]| + 2..] == Flatten(ms[1..]);
      LinesOfFlatten(ms[1..]);
    }
  }

  /** When no message holds a carriage return, the flattened messages of an exception chain
      have one line per exception, and the first line is the outer message. */
  lemma AllMessagesLines(ex: Exception)
    requires forall m :: m in Chain(ex) ==> '\r' !in m
    ensures |Lines(AllMessages(ex))| == |Chain(ex)|
    ensures Lines(AllMessages(ex))[0] == ex.message
  {
    LinesOfFlatten(Chain(ex));
  }

  /** Whatever the messages hold, the text starts with the outer message and its terminator,
      and an exception without an inner one gives exactly that. */
  lemma AllMessagesStartsWithOuter(ex: Exception)
    ensures |ex.message| + |NewLine| <= |AllMessages(ex)|
    ensures AllMessages(ex)[..|ex.message| + |NewLine|] == ex.message + NewLine
    ensures ex.inner.None? ==> AllMessages(ex) == ex.message + NewLine
  {
    var rest := Flatten(Chain(ex)[1..]);
    assert AllMessages(ex) == (ex.message + NewLine) + rest;
  }

  /** The text holds each message and one terminator per exception of the chain. */
  lemma {:induction false} FlattenLength(ms: seq<string>)
    ensures |Flatten(ms)| == TotalLength(ms) + |NewLine| * |ms|
  {
    if ms != [] {
      FlattenLength(ms[1..]);
    }
  }

  function TotalLength(ms: seq<string>): nat
  {
    if ms == [] then 0 else |ms[0]| + TotalLength(ms[1..])
  }
}
