/**
 * The support conversation: `/support` puts the user in a waiting state, the
 * next message from a waiting user becomes a ticket in the support
 * collection, and `SupportFilter` routes messages by that state.
 */
module Support {
  import opened Documents
  import opened Messages

  const SUPPORT_MESSAGE: string := "support.message"
  const SUPPORT_RESPONSE: string := "support.response"

  /** Field names of a stored ticket. */
  const TICKET_USER_ID: string := "user_id"
  const TICKET_USERNAME: string := "username"
  const TICKET_MESSAGE: string := "message"
  const TICKET_BOT_NAME: string := "bot_name"
  const TICKET_TIMESTAMP: string := "timestamp"
  const TICKET_RESOLVED: string := "resolved"

  /**
   * `SupportFilter`: whether a user's messages go to support. The flag as
   * stored, and false for a user who never asked for support.
   */
  predicate AwaitingSupport(waiting: map<int, bool>, uid: int)
    ensures AwaitingSupport(waiting, uid) ==> uid in waiting
  {
    uid in waiting && waiting[uid]
  }

  /** For a user with a flag, the filter answers the flag itself. */
  lemma FilterReturnsFlag(waiting: map<int, bool>, uid: int)
    requires uid in waiting
    ensures AwaitingSupport(waiting, uid) == waiting[uid]
  {
  }

  /** The filter answers false for a user with no flag at all. */
  lemma NoFlagIsNotWaiting(waiting: map<int, bool>, uid: int)
    requires uid !in waiting
    ensures !AwaitingSupport(waiting, uid)
  {
  }

  /** The ticket a support message becomes: who sent what, to which bot, when, not yet resolved. */
  function Ticket(uid: int, username: string, text: string, botName: string, now: Instant): (t: Document)
    ensures t.Keys == {TICKET_USER_ID, TICKET_USERNAME, TICKET_MESSAGE, TICKET_BOT_NAME, TICKET_TIMESTAMP, TICKET_RESOLVED}
    ensures t[TICKET_USER_ID] == Int(uid) && t[TICKET_USERNAME] == Str(username)
    ensures t[TICKET_MESSAGE] == Str(text) && t[TICKET_BOT_NAME] == Str(botName)
    ensures t[TICKET_TIMESTAMP] == Time(now)
    ensures t[TICKET_RESOLVED] == Bool(false)
  {
    map[
      TICKET_USER_ID := Int(uid),
      TICKET_USERNAME := Str(username),
      TICKET_MESSAGE := Str(text),
      TICKET_BOT_NAME := Str(botName),
      TICKET_TIMESTAMP := Time(now),
      TICKET_RESOLVED := Bool(false)]
  }

  /**
   * The per-user conversation flags (`context.user_data[SUPPORT_WAITING]`)
   * and the support collection.
   */
  class SupportDesk {
    var waiting: map<int, bool>
    var tickets: seq<Document>

    constructor ()
      ensures waiting == map[] && tickets == []
    {
      waiting, tickets := map[], [];
    }

    /** `/support`: asks for the message, marks the user as waiting and logs the command. */
    method HandleSupportCommand(uid: int, lang: string, botName: string) returns (reply: Reply, entry: ActionLog)
      modifies this`waiting
      ensures waiting == old(waiting)[uid := true]
      ensures AwaitingSupport(waiting, uid)
      ensures reply == Say(SUPPORT_MESSAGE, lang, map[])
      ensures entry == ActionLog(uid, "support_command", botName, map[])
    {
      waiting := waiting[uid := true];
      reply := Say(SUPPORT_MESSAGE, lang, map[]);
      entry := ActionLog(uid, "support_command", botName, map[]);
    }

    /**
     * A message from the user. When the user is waiting, it is stored as one
     * unresolved ticket, acknowledged, logged, and the waiting flag is
     * cleared; otherwise nothing is stored, sent or logged.
     */
    method HandleUserResponse(uid: int, username: string, text: string, lang: string, botName: string, now: Instant)
      returns (replies: seq<Reply>, entries: seq<ActionLog>)
      modifies this`waiting, this`tickets
      ensures old(AwaitingSupport(waiting, uid)) ==>
        && tickets == old(tickets) + [Ticket(uid, username, text, botName, now)]
        && waiting == old(waiting)[uid := false]
        && replies == [Say(SUPPORT_RESPONSE, lang, map[])]
        && entries == [ActionLog(uid, "support_message_sent", botName, map[TICKET_MESSAGE := Str(text)])]
      ensures !old(AwaitingSupport(waiting, uid)) ==>
        tickets == old(tickets) && waiting == old(waiting) && replies == [] && entries == []
      ensures !AwaitingSupport(waiting, uid)
    {
      if AwaitingSupport(waiting, uid) {
        tickets := tickets + [Ticket(uid, username, text, botName, now)];
        replies := [Say(SUPPORT_RESPONSE, lang, map[])];
        waiting := waiting[uid := false];
        entries := [ActionLog(uid, "support_message_sent", botName, map[TICKET_MESSAGE := Str(text)])];
      } else {
        replies, entries := [], [];
      }
    }
  }

  /**
   * One full conversation: after `/support`, the user's next message becomes
   * exactly one unresolved ticket and the user is no longer waiting; other
   * users' flags are as before.
   */
  method SupportRoundTrip(desk: SupportDesk, uid: int, username: string, text: string, lang: string, botName: string, now: Instant)
    modifies desk
    ensures desk.tickets == old(desk.tickets) + [Ticket(uid, username, text, botName, now)]
    ensures desk.waiting == old(desk.waiting)[uid := false]
    ensures forall u :: u != uid ==> (AwaitingSupport(desk.waiting, u) <==> old(AwaitingSupport(desk.waiting, u)))
  {
    var _, _ := desk.HandleSupportCommand(uid, lang, botName);
    var _, _ := desk.HandleUserResponse(uid, username, text, lang, botName, now);
  }
}
