/** The table chat (game/chat.js). Broadcasting and logging are not modelled. */
module RoomChat {
  import opened Wrappers
  import opened Users
  import opened History

  /** The sender record attached to a player's message. */
  datatype Sender = Sender(id: string, email: Option<string>, displayName: Option<string>, image: Option<string>)

  /** A chat message; system messages have no sender and no timestamp. */
  datatype Message = Message(text: string, user: Option<Sender>, timestamp: Option<string>)

  const JoinSuffix: string := " has joined the game."
  const LeaveSuffix: string := " has left the game."

  /** The system message announcing a join. */
  function JoinMessage(user: User): (m: Message)
    ensures m.user == None && m.timestamp == None
    ensures m.text == Interpolated(if Truthy(user.name) then user.name else user.email) + " has joined the game."
  {
    Message(Interpolated(NameOrEmail(user)) + JoinSuffix, None, None)
  }

  /** The system message announcing a departure. */
  function LeaveMessage(user: User): (m: Message)
    ensures m.user == None && m.timestamp == None
    ensures m.text == Interpolated(if Truthy(user.name) then user.name else user.email) + " has left the game."
  {
    Message(Interpolated(NameOrEmail(user)) + LeaveSuffix, None, None)
  }

  /** A player's message: the text as sent, the sender's identity and the caller-supplied local time. */
  function UserMessage(user: User, text: string, timestamp: string): (m: Message)
    ensures m.text == text && m.timestamp == Some(timestamp)
    ensures m.user == Some(Sender(user.uid, user.email, if Truthy(user.name) then user.name else user.email, user.picture))
  {
    Message(text, Some(Sender(user.uid, user.email, NameOrEmail(user), user.picture)), Some(timestamp))
  }

  /** A join announcement never reads like a departure announcement. */
  lemma JoinIsNotLeave(u1: User, u2: User)
    ensures JoinMessage(u1).text != LeaveMessage(u2).text
  {
    var j, l := JoinMessage(u1).text, LeaveMessage(u2).text;
    assert j[|j| - 11] == 'd';
    assert l[|l| - 11] == 't';
  }

  /** The announced name can be read back from a join announcement. */
  lemma {:induction false} JoinNameRecoverable(u1: User, u2: User)
    requires JoinMessage(u1).text == JoinMessage(u2).text
    ensures Interpolated(NameOrEmail(u1)) == Interpolated(NameOrEmail(u2))
  {
    var a, b := Interpolated(NameOrEmail(u1)), Interpolated(NameOrEmail(u2));
    assert |a| == |b|;
    assert a == (a + JoinSuffix)[..|a|];
    assert b == (b + JoinSuffix)[..|b|];
  }

  /** System announcements carry no sender; player messages always do. */
  lemma SystemAndPlayerMessagesDiffer(u: User, v: User, text: string, timestamp: string)
    ensures JoinMessage(u).user.None? && LeaveMessage(u).user.None?
    ensures UserMessage(v, text, timestamp).user.Some?
    ensures UserMessage(v, text, timestamp).text == text
    ensures UserMessage(v, text, timestamp).user.value.displayName == (if Truthy(v.name) then v.name else v.email)
  {
  }

  class Chat {
    var messages: seq<Message>
    /** Every message ever added, oldest first. */
    ghost var log: seq<Message>

    /** The history is the newest hundred messages of the log. */
    ghost predicate Valid()
      reads this
    {
      messages == LastN(log, Limit)
    }

    constructor ()
      ensures Valid() && messages == [] && log == []
    {
      messages := [];
      log := [];
    }

    /** `addMessage`: append, and drop the oldest once the history exceeds the limit. */
    method AddMessage(m: Message)
      requires Valid()
      modifies this
      ensures Valid() && log == old(log) + [m]
      ensures messages == Push(old(messages), m)
    {
      messages := messages + [m];
      if |messages| > Limit {
        messages := messages[1..];
      }
      PushKeepsLastN(log, m);
      log := log + [m];
    }

    /** `addJoinMessage`. */
    method AddJoinMessage(user: User)
      requires Valid()
      modifies this
      ensures Valid() && log == old(log) + [JoinMessage(user)]
      ensures messages == Push(old(messages), JoinMessage(user))
    {
      AddMessage(JoinMessage(user));
    }

    /** `addLeaveMessage`. */
    method AddLeaveMessage(user: User)
      requires Valid()
      modifies this
      ensures Valid() && log == old(log) + [LeaveMessage(user)]
      ensures messages == Push(old(messages), LeaveMessage(user))
    {
      AddMessage(LeaveMessage(user));
    }

    /** `sendMessage` from the socket of `user`; the local time is a parameter. */
    method SendMessage(user: User, text: string, timestamp: string)
      requires Valid()
      modifies this
      ensures Valid() && log == old(log) + [UserMessage(user, text, timestamp)]
      ensures messages == Push(old(messages), UserMessage(user, text, timestamp))
    {
      AddMessage(UserMessage(user, text, timestamp));
    }
  }
}
