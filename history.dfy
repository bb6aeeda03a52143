/** The bounded chat history shared by game/chat.js and chat/chat.js. */
module History {

  /** The most entries a history keeps. */
  const Limit: nat := 100

  /** `push(m)`, then one `shift()` when the length exceeds the limit. */
  function Push<T>(history: seq<T>, m: T): (r: seq<T>)
    ensures |history| <= Limit ==> |r| <= Limit
    ensures |r| >= 1 && r[|r| - 1] == m
    ensures |r| == if |history| + 1 > Limit then |history| else |history| + 1
    ensures r == (history + [m])[|history| + 1 - |r|..]
  {
    var h := history + [m];
    if |h| > Limit then h[1..] else h
  }

  /** The last n entries of s (all of s when it is shorter). */
  function LastN<T>(s: seq<T>, n: nat): (r: seq<T>)
    ensures |r| == if |s| <= n then |s| else n
  {
    if |s| <= n then s else s[|s| - n..]
  }

  /**
   * Pushing onto the last hundred messages gives the last hundred of the
   * longer log: the history is always the newest min(100, total) messages,
   * oldest first.
   */
  lemma {:induction false} PushKeepsLastN<T>(log: seq<T>, m: T)
    ensures Push(LastN(log, Limit), m) == LastN(log + [m], Limit)
  {
    var h := LastN(log, Limit);
    if |log| >= Limit {
      assert (h + [m])[1..] == (log + [m])[|log| + 1 - Limit..];
    }
  }
}
