/**
 * One open conversation: the initial load of the messages exchanged with the
 * other user, the realtime inserts that extend it, and the send button.
 * Realtime delivery and the insert call are inputs; each handler is one
 * atomic step on the screen state.
 */
module ChatScreen {
  import opened DataModels
  import Lists
  import Session

  /**
   * Does message `m` pass between `me` and `other`, in either direction?
   * Equivalently: its two parties are exactly the two users.
   */
  predicate InConversation(me: string, other: string, m: Message)
    ensures InConversation(me, other, m) <==> {m.senderUsername, m.receiverUsername} == {me, other}
  {
    || (m.senderUsername == other && m.receiverUsername == me)
    || (m.senderUsername == me && m.receiverUsername == other)
  }

  /** The two directions play the same part: swapping the users changes nothing. */
  lemma ConversationSymmetric(me: string, other: string, m: Message)
    ensures InConversation(me, other, m) <==> InConversation(other, me, m)
  {
  }

  /** A bubble is drawn as mine when I sent it. */
  predicate IsMine(me: string, m: Message) {
    m.senderUsername == me
  }

  /** In a conversation with someone else, a bubble not drawn as mine came from the other user to me. */
  lemma NotMineIsIncoming(me: string, other: string, m: Message)
    requires InConversation(me, other, m)
    ensures !IsMine(me, m) ==> m.senderUsername == other && m.receiverUsername == me
    ensures IsMine(me, m) ==> m.receiverUsername == other
  {
  }

  /** The initial query's filter: the table's rows in this conversation, in the table's order. */
  function ConversationOf(me: string, other: string, rows: seq<Message>): (r: seq<Message>)
    ensures forall m :: m in r <==> m in rows && InConversation(me, other, m)
    ensures |r| <= |rows|
  {
    Lists.FilterMembers(rows, (m: Message) => InConversation(me, other, m));
    Lists.Filter(rows, (m: Message) => InConversation(me, other, m))
  }

  /** One realtime insert: appended at the end when it belongs to the conversation, dropped otherwise. */
  function Deliver(me: string, other: string, msgs: seq<Message>, rec: Message): (r: seq<Message>)
    ensures |r| == if InConversation(me, other, rec) then |msgs| + 1 else |msgs|
    ensures r[..|msgs|] == msgs
    ensures |r| > |msgs| ==> r[|msgs|] == rec
  {
    if InConversation(me, other, rec) then msgs + [rec] else msgs
  }

  /** A run of realtime inserts, delivered in order: the list only grows at its end, by at most one per insert. */
  function DeliverAll(me: string, other: string, msgs: seq<Message>, events: seq<Message>): (r: seq<Message>)
    ensures |msgs| <= |r| <= |msgs| + |events|
    ensures r[..|msgs|] == msgs
    decreases |events|
  {
    if events == [] then msgs
    else
      var next := Deliver(me, other, msgs, events[0]);
      var r := DeliverAll(me, other, next, events[1..]);
      assert r[..|msgs|] == r[..|next|][..|msgs|];
      r
  }

  /** The conversation filter on a list with a first element. */
  lemma ConversationOfCons(me: string, other: string, e: Message, rest: seq<Message>)
    ensures ConversationOf(me, other, [e] + rest)
         == (if InConversation(me, other, e) then [e] else []) + ConversationOf(me, other, rest)
  {
    Lists.FilterCons(e, rest, (m: Message) => InConversation(me, other, m));
  }

  /**
   * Whatever arrives, the list becomes the earlier list followed by exactly
   * the arrivals that belong to the conversation, in arrival order.
   */
  lemma {:induction false} DeliverAllAppendsConversation(me: string, other: string, msgs: seq<Message>, events: seq<Message>)
    ensures DeliverAll(me, other, msgs, events) == msgs + ConversationOf(me, other, events)
    decreases |events|
  {
    if events == [] {
      assert msgs + [] == msgs;
    } else {
      var e, rest := events[0], events[1..];
      var next := Deliver(me, other, msgs, e);
      var pre: seq<Message> := if InConversation(me, other, e) then [e] else [];
      var tail := ConversationOf(me, other, rest);
      calc {
        DeliverAll(me, other, msgs, events);
        DeliverAll(me, other, next, rest);
        { DeliverAllAppendsConversation(me, other, next, rest); }
        next + tail;
        { assert next == msgs + pre; }
        (msgs + pre) + tail;
        { assert (msgs + pre) + tail == msgs + (pre + tail); }
        msgs + (pre + tail);
        { assert events == [e] + rest;
          ConversationOfCons(me, other, e, rest); }
        msgs + ConversationOf(me, other, events);
      }
    }
  }

  /** The same record delivered `n` times shows up `n` times: nothing is de-duplicated by id. */
  lemma RepeatedDeliveryGrows(me: string, other: string, msgs: seq<Message>, rec: Message, n: nat)
    requires InConversation(me, other, rec)
    ensures var r := DeliverAll(me, other, msgs, seq(n, _ => rec));
      && |r| == |msgs| + n
      && r[..|msgs|] == msgs
      && forall i :: |msgs| <= i < |r| ==> r[i] == rec
  {
    var events := seq(n, _ => rec);
    DeliverAllAppendsConversation(me, other, msgs, events);
    Lists.FilterKeepsAll(events, m => InConversation(me, other, m));
  }

  /**
   * The open conversation: the bubbles shown, the text being typed, and
   * whether the realtime subscription has been made.
   */
  class ChatScreen {
    const me: string
    const other: string
    var messages: seq<Message>
    var draft: string
    var subscribed: bool

    /** `email` is the signed-in user's address, if there is one; `other` is the user chatted with. */
    constructor (email: Option<string>, other: string)
      ensures me == Session.CurrentUsername(email) && this.other == other
      ensures messages == [] && draft == "" && !subscribed
    {
      me := Session.CurrentUsername(email);
      this.other := other;
      messages := [];
      draft := "";
      subscribed := false;
    }

    /**
     * The launch effect's first step. `rows` is the messages table in
     * ascending creation order, or None when the query threw (the effect
     * then stops before subscribing). The shown list is replaced wholesale,
     * and only then is the realtime subscription made.
     */
    method LoadInitial(rows: Option<seq<Message>>)
      modifies this`messages, this`subscribed
      ensures rows.Some? ==> messages == ConversationOf(me, other, rows.value)
      ensures rows == None ==> messages == old(messages)
      ensures subscribed == (old(subscribed) || rows.Some?)
    {
      if rows.Some? {
        messages := ConversationOf(me, other, rows.value);
        subscribed := true;
      }
    }

    /** The realtime handler: one inserted row of the messages table, delivered once subscribed. */
    method OnInsert(rec: Message)
      requires subscribed
      modifies this`messages
      ensures messages == Deliver(me, other, old(messages), rec)
    {
      if InConversation(me, other, rec) {
        messages := messages + [rec];
      }
    }

    /** Typing replaces the draft. */
    method EditDraft(text: string)
      modifies this`draft
      ensures draft == text
    {
      draft := text;
    }

    /**
     * The send button. With an empty draft nothing happens. Otherwise the
     * message built from the draft is handed to the insert (`attempted`);
     * the shown list is never touched here, since the row comes back through
     * the realtime handler, and the draft is cleared only when the insert
     * returned normally.
     */
    method Send(insertOk: bool) returns (attempted: Option<Message>)
      modifies this`draft
      ensures messages == old(messages)
      ensures old(draft) == "" ==> attempted == None && draft == old(draft)
      ensures old(draft) != "" ==> attempted == Some(NewMessage(me, other, Some(old(draft))))
      ensures draft == if old(draft) != "" && insertOk then "" else old(draft)
    {
      if draft == "" {
        return None;
      }
      attempted := Some(NewMessage(me, other, Some(draft)));
      if insertOk {
        draft := "";
      }
    }
  }
}
