/** The module-level chat store of chat/chat.js. */
module GlobalChat {
  import opened History

  /** The `chat` object: its `messages` array, of whatever messages callers add. */
  class ChatStore<T> {
    var messages: seq<T>
    /** Every message ever added, oldest first. */
    ghost var log: seq<T>

    ghost predicate Valid()
      reads this
    {
      messages == LastN(log, Limit)
    }

    constructor ()
      ensures Valid() && messages == [] && log == []
    {
      messages := [];
      log := [];
    }

    /** `addMessage`: push, then shift once when the length exceeds the limit. */
    method AddMessage(m: T)
      requires Valid()
      modifies this
      ensures Valid() && log == old(log) + [m]
      ensures messages == Push(old(messages), m)
    {
      messages := messages + [m];
      if |messages| > Limit {
        messages := messages[1..];
      }
      PushKeepsLastN(log, m);
      log := log + [m];
    }
  }
}
