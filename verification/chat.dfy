/**
 * The chat window (src/components/chat/ChatWindow.tsx). The conversation is
 * loaded from the `messages` table (held here in memory) once both the
 * signed-in user and the receiver are known, oldest first; afterwards every
 * inserted message addressed to the user is appended, whoever sent it,
 * while the user's own sent messages are not appended.
 */
module Chat {

  import opened Wrappers
  import opened Strings
  import opened Queries
  import opened Entities

  datatype Message = Message(id: string, senderId: UserId, receiverId: UserId, appointmentId: Option<string>,
                             text: string, createdAt: int)

  /** The fetch's `or(...)` filter: sent from one of the two users to the other. */
  function Between(me: UserId, other: UserId): Message -> bool {
    (m: Message) => (m.senderId == me && m.receiverId == other) || (m.senderId == other && m.receiverId == me)
  }

  /** The filter does not depend on which side is asking. */
  lemma BetweenSymmetric(m: Message, a: UserId, b: UserId)
    ensures Between(a, b)(m) == Between(b, a)(m)
  {
  }

  function CreatedAt(): Message -> int {
    (m: Message) => m.createdAt
  }

  /** The loaded conversation: exactly the messages between the two users, oldest first. */
  function Conversation(table: seq<Message>, me: UserId, other: UserId): (r: seq<Message>)
    ensures forall m :: m in r <==> m in table && Between(me, other)(m)
    ensures forall i, j :: 0 <= i < j < |r| ==> r[i].createdAt <= r[j].createdAt
  {
    var mine := Filter(table, Between(me, other));
    var sorted := OrderAscending(mine, CreatedAt());
    OrderedMembers(mine, sorted);
    sorted
  }

  /** The realtime subscription's filter: messages addressed to the user. */
  function Appends(m: Message, me: UserId): (b: bool)
    ensures b <==> m.receiverId == me
  {
    m.receiverId == me
  }

  /**
   * The appended messages and the conversation differ both ways: a message
   * from a third user is appended though it is not part of the conversation,
   * and the user's own message to the receiver is part of the conversation
   * but is not appended.
   */
  lemma AppendRuleIsNotTheConversation(me: UserId, other: UserId, third: UserId, m: Message)
    requires me != other && third != other && third != me
    ensures var foreign := m.(senderId := third, receiverId := me);
            Appends(foreign, me) && !Between(me, other)(foreign)
    ensures var own := m.(senderId := me, receiverId := other);
            !Appends(own, me) && Between(me, other)(own)
  {
  }

  /** `sendMessage`'s guard: a non-blank text and a known user. */
  function CanSend(text: string, user: Option<UserId>): (b: bool)
    ensures b <==> !AllSpace(text) && user.Some?
  {
    TrimEmptyIffBlank(text);
    Trim(text) != "" && user.Some?
  }

  /** The inserted row: the text as typed, and a null appointment id when none is given. */
  function Outgoing(id: string, me: UserId, receiverId: UserId, appointmentId: Option<string>, text: string, now: int): (m: Message)
    ensures m.senderId == me && m.receiverId == receiverId && m.text == text && m.createdAt == now
    ensures m.appointmentId.None? <==> appointmentId.GetOr("") == ""
    ensures m.appointmentId.Some? ==> m.appointmentId == appointmentId
  {
    Message(id, me, receiverId, NullIfEmpty(appointmentId.GetOr("")), text, now)
  }

  class Window {
    const receiverId: UserId
    const appointmentId: Option<string>
    var currentUserId: Option<UserId>
    var messages: seq<Message>
    var newMessage: string
    var subscribed: bool
    /** The `messages` table. */
    var table: seq<Message>

    constructor (receiverId: UserId, appointmentId: Option<string>, table: seq<Message>)
      ensures this.receiverId == receiverId && this.appointmentId == appointmentId && this.table == table
      ensures currentUserId == None && messages == [] && newMessage == "" && !subscribed
    {
      this.receiverId := receiverId;
      this.appointmentId := appointmentId;
      this.table := table;
      currentUserId := None;
      messages := [];
      newMessage := "";
      subscribed := false;
    }

    /** The first effect: remembers the signed-in user, if any. */
    method GetUser(user: Option<UserId>)
      modifies this`currentUserId
      ensures currentUserId == if user.Some? then user else old(currentUserId)
    {
      if user.Some? {
        currentUserId := user;
      }
    }

    /**
     * The second effect: nothing happens until both users are known; then the
     * conversation is fetched (an error, `!ok`, keeps the list) and the
     * subscription starts.
     */
    method Load(ok: bool)
      modifies this`messages, this`subscribed
      ensures currentUserId.None? || receiverId == "" ==> messages == old(messages) && subscribed == old(subscribed)
      ensures currentUserId.Some? && receiverId != "" ==>
                subscribed && messages == (if ok then Conversation(table, currentUserId.value, receiverId) else old(messages))
    {
      if currentUserId.None? || receiverId == "" {
        return;
      }
      if ok {
        messages := Conversation(table, currentUserId.value, receiverId);
      }
      subscribed := true;
    }

    /** A row lands in the table; the subscription appends it when it is addressed to the user. */
    method Deliver(m: Message)
      modifies this`table, this`messages
      ensures table == old(table) + [m]
      ensures subscribed && currentUserId.Some? && Appends(m, currentUserId.value) ==> messages == old(messages) + [m]
      ensures !(subscribed && currentUserId.Some? && Appends(m, currentUserId.value)) ==> messages == old(messages)
    {
      table := table + [m];
      if subscribed && currentUserId.Some? && Appends(m, currentUserId.value) {
        messages := messages + [m];
      }
    }

    method SetNewMessage(text: string)
      modifies this`newMessage
      ensures newMessage == text
    {
      newMessage := text;
    }

    /**
     * `sendMessage`: does nothing for a blank text or an unknown user; a
     * successful insert clears the input, a failed one keeps it.
     */
    method SendMessage(id: string, now: int, ok: bool)
      modifies this`table, this`messages, this`newMessage
      ensures !CanSend(old(newMessage), currentUserId) || !ok ==>
                table == old(table) && messages == old(messages) && newMessage == old(newMessage)
      ensures CanSend(old(newMessage), currentUserId) && ok ==>
                table == old(table) + [Outgoing(id, currentUserId.value, receiverId, appointmentId, old(newMessage), now)]
                && newMessage == ""
      ensures CanSend(old(newMessage), currentUserId) && ok ==>
                var m := Outgoing(id, currentUserId.value, receiverId, appointmentId, old(newMessage), now);
                messages == if subscribed && Appends(m, currentUserId.value) then old(messages) + [m] else old(messages)
    {
      if !CanSend(newMessage, currentUserId) {
        return;
      }
      if ok {
        Deliver(Outgoing(id, currentUserId.value, receiverId, appointmentId, newMessage, now));
        newMessage := "";
      }
    }
  }
}
