/**
 * The session memory of the chat widget (`sessionMemory`, scripts/scripts.js:15-27):
 * an ordered log of turns that grows by one turn per `add`, is read through a
 * window of its last 20 turns and is emptied by `clear`.
 */
module Session {

  /** One logged turn. The sender is the string the widget passes ("user" or "bot"). */
  datatype Turn = Turn(sender: string, content: string)

  /** The number of turns `getContext` hands out. */
  const ContextWindow: nat := 20

  function Min(a: int, b: int): int
  {
    if a <= b then a else b
  }

  /**
   * `s.slice(-n)` for a positive `n`: the last `n` elements of `s`, or all of
   * them when `s` is shorter, in their original order.
   */
  function SliceLast<T>(s: seq<T>, n: nat): (r: seq<T>)
    requires n > 0
    ensures |r| == Min(n, |s|)
    ensures s == s[..|s| - |r|] + r
  {
    var start := if |s| > n then |s| - n else 0;
    assert s == s[..start] + s[start..];
    s[start..]
  }

  /** A window at least as wide as the sequence returns the whole sequence. */
  lemma SliceLastOfShort<T>(s: seq<T>, n: nat)
    requires 0 < n && |s| <= n
    ensures SliceLast(s, n) == s
  {
  }

  /** Windowing twice keeps the narrower window: the wider one changes nothing. */
  lemma SliceLastTwice<T>(s: seq<T>, n: nat, m: nat)
    requires 0 < n <= m
    ensures SliceLast(SliceLast(s, n), m) == SliceLast(s, n)
  {
    SliceLastOfShort(SliceLast(s, n), m);
  }

  /** The last element of a sequence is the last element of every window onto it. */
  lemma SliceLastEndsWith<T>(s: seq<T>, x: T, n: nat)
    requires n > 0
    ensures var w := SliceLast(s + [x], n); |w| > 0 && w[|w| - 1] == x
  {
    var t := s + [x];
    var w := SliceLast(t, n);
    assert t == t[..|t| - |w|] + w;
  }

  class SessionMemory {
    var history: seq<Turn>

    constructor ()
      ensures history == []
    {
      history := [];
    }

    /** `add`: pushes one turn at the end of the log; every earlier turn stays where it was. */
    method Add(sender: string, content: string)
      modifies this
      ensures history == old(history) + [Turn(sender, content)]
      ensures |history| == |old(history)| + 1 && history[..|old(history)|] == old(history)
      ensures history[|history| - 1].sender == sender && history[|history| - 1].content == content
    {
      history := history + [Turn(sender, content)];
    }

    /**
     * `getContext`: the last `ContextWindow` turns of the log (all of them when the
     * log is shorter), as a contiguous suffix in their original order.
     */
    function GetContext(): (r: seq<Turn>)
      reads this
      ensures |r| == Min(ContextWindow, |history|)
      ensures history == history[..|history| - |r|] + r
    {
      SliceLast(history, ContextWindow)
    }

    /** `clear`: empties the log. */
    method Clear()
      modifies this
      ensures history == []
    {
      history := [];
    }
  }
}
