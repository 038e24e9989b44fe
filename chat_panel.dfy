/** The chat of one intervention (`src/components/dashboard/ChatPanel.tsx`):
    the send procedure, the Enter key and the sender avatar. The REST call is
    an outcome passed in; `handleSendMessage` is also split at its `await`,
    so that the state while the request is in flight can be stated. */
module ChatPanel {
  import opened Wrappers
  import opened Types
  import opened Text
  import Store
  import Connection

  /** What the toast reports. */
  datatype Outcome = Sent | Failed

  /** The input after a send with the given REST outcome: blank input stays
      as it is, a success clears it, a failure puts the trimmed text back. */
  function InputAfterSend(input: string, restOk: bool): (r: string)
    ensures Trim(input) == [] ==> r == input
    ensures Trim(input) != [] && restOk ==> r == []
    ensures Trim(input) != [] && !restOk ==> r == Trim(input)
  {
    if Trim(input) == [] then input else if restOk then [] else Trim(input)
  }

  /** After a failed send, sending again sends the same content. */
  lemma RetrySendsSameContent(input: string)
    requires Trim(input) != []
    ensures Trim(InputAfterSend(input, false)) == Trim(input)
  {
    TrimIdempotent(input);
  }

  /** `e.key === 'Enter' && !e.shiftKey`. */
  predicate TriggersSend(key: string, shift: bool)
  {
    key == "Enter" && !shift
  }

  /** `getSenderInitials`: "U" without a name. */
  function SenderInitials(senderName: Option<string>): (r: string)
    ensures senderName.None? || senderName.value == [] ==> r == "U"
    ensures senderName.Some? && senderName.value != [] ==> r == Upper(WordStarts(senderName.value, true))
  {
    if senderName.None? || senderName.value == [] then "U"
    else Initials(senderName.value)
  }

  /** The chat tab. It has no `key`, so the typed text survives a switch
      to another intervention while the hook moves to the new id. */
  class ChatView {
    /** `intervention.id` of the latest render. */
    var interventionId: int
    const store: Store.AppStore
    /** The connection of `useWebSocket(intervention.id)`. */
    const conn: Connection.ConnectionManager
    var messageInput: string

    constructor (interventionId: int, store: Store.AppStore, conn: Connection.ConnectionManager)
      ensures this.interventionId == interventionId && this.store == store && this.conn == conn
      ensures messageInput == []
    {
      this.interventionId, this.store, this.conn := interventionId, store, conn;
      messageInput := [];
    }

    /** A re-render with the intervention id `id`: the typed text is kept;
      a changed id re-runs the hook's effect (cleanup, then connect). */
    method Rerender(id: int, fails: bool)
      requires conn.Valid()
      modifies this, conn, conn.store
      ensures conn.Valid()
      ensures interventionId == id && messageInput == old(messageInput)
      ensures id != old(interventionId) ==>
        && conn.Snapshot() == Connection.Connected(Connection.Disconnected(old(conn.Snapshot())), Some(id), fails)
        && conn.store.State() == old(conn.store.State()).(websocketConnected := false)
      ensures id == old(interventionId) ==>
        conn.Snapshot() == old(conn.Snapshot()) && conn.store.State() == old(conn.store.State())
    {
      if id != interventionId {
        conn.ChangeSubject(Some(id), fails);
      }
      interventionId := id;
    }

    /** `handleSendMessage` up to its `await`: blank input does nothing;
      otherwise the trimmed text is taken, the input cleared and the store
      marked as sending. */
    method BeginSend() returns (content: Option<string>)
      modifies this, store
      ensures Trim(old(messageInput)) == [] ==>
        content.None? && messageInput == old(messageInput) && store.State() == old(store.State())
      ensures Trim(old(messageInput)) != [] ==>
        && content == Some(Trim(old(messageInput)))
        && messageInput == []
        && store.State() == old(store.State()).(sendingMessage := true)
    {
      var trimmed := Trim(messageInput);
      if trimmed == [] {
        return None;
      }
      content := Some(trimmed);
      messageInput := [];
      store.SetSendingMessage(true);
    }

    /** `handleSendMessage` after the REST call settles. On success the
      frame goes out over the socket only if the hook reported a connection
      when the handler was called, and a socket error is swallowed; on
      failure the content goes back into the input. Either way the store
      stops sending. */
    method SendSettled(content: string, restOk: bool, wasConnected: bool, now: int) returns (outcome: Outcome)
      requires conn.Valid()
      modifies this, store, conn
      ensures conn.Valid()
      ensures outcome == (if restOk then Sent else Failed)
      ensures messageInput == if restOk then old(messageInput) else content
      ensures store.State() == old(store.State()).(sendingMessage := false)
      ensures restOk && wasConnected && old(Connection.CanSend(conn.Snapshot())) ==>
        conn.Snapshot() == old(conn.Snapshot()).(sent := old(conn.sent) + [Connection.OutFrame(old(conn.current).value, content, now)])
      ensures !(restOk && wasConnected && old(Connection.CanSend(conn.Snapshot()))) ==>
        conn.Snapshot() == old(conn.Snapshot())
    {
      if restOk {
        if wasConnected {
          var _ := conn.Send(content, now);
        }
        outcome := Sent;
      } else {
        messageInput := content;
        outcome := Failed;
      }
      store.SetSendingMessage(false);
    }

    /** The whole handler run without interleaving. */
    method SendMessage(restOk: bool, wasConnected: bool, now: int) returns (outcome: Option<Outcome>)
      requires conn.Valid()
      modifies this, store, conn
      ensures conn.Valid()
      ensures messageInput == InputAfterSend(old(messageInput), restOk)
      ensures Trim(old(messageInput)) == [] ==> outcome.None? && store.State() == old(store.State())
      ensures Trim(old(messageInput)) != [] ==>
        outcome == Some(if restOk then Sent else Failed) && store.State() == old(store.State()).(sendingMessage := false)
      ensures !restOk || !wasConnected ==> conn.Snapshot() == old(conn.Snapshot())
      ensures Trim(old(messageInput)) == [] ==> conn.Snapshot() == old(conn.Snapshot())
      ensures Trim(old(messageInput)) != [] && restOk && wasConnected && old(Connection.CanSend(conn.Snapshot())) ==>
        conn.Snapshot() == old(conn.Snapshot()).(sent := old(conn.sent) + [Connection.OutFrame(old(conn.current).value, Trim(old(messageInput)), now)])
      ensures Trim(old(messageInput)) != [] && !(restOk && wasConnected && old(Connection.CanSend(conn.Snapshot()))) ==>
        conn.Snapshot() == old(conn.Snapshot())
    {
      var content := BeginSend();
      if content.None? {
        return None;
      }
      var o := SendSettled(content.value, restOk, wasConnected, now);
      outcome := Some(o);
    }

    /** `handleKeyPress`. */
    method KeyPress(key: string, shift: bool, restOk: bool, wasConnected: bool, now: int) returns (outcome: Option<Outcome>)
      requires conn.Valid()
      modifies this, store, conn
      ensures conn.Valid()
      ensures !TriggersSend(key, shift) ==>
        && outcome.None? && messageInput == old(messageInput)
        && store.State() == old(store.State()) && conn.Snapshot() == old(conn.Snapshot())
      ensures TriggersSend(key, shift) ==> messageInput == InputAfterSend(old(messageInput), restOk)
      ensures TriggersSend(key, shift) && Trim(old(messageInput)) == [] ==>
        outcome.None? && store.State() == old(store.State()) && conn.Snapshot() == old(conn.Snapshot())
      ensures TriggersSend(key, shift) && Trim(old(messageInput)) != [] ==>
        outcome == Some(if restOk then Sent else Failed) && store.State() == old(store.State()).(sendingMessage := false)
      ensures TriggersSend(key, shift) && Trim(old(messageInput)) != [] && restOk && wasConnected && old(Connection.CanSend(conn.Snapshot())) ==>
        conn.Snapshot() == old(conn.Snapshot()).(sent := old(conn.sent) + [Connection.OutFrame(old(conn.current).value, Trim(old(messageInput)), now)])
      ensures TriggersSend(key, shift) && !(Trim(old(messageInput)) != [] && restOk && wasConnected && old(Connection.CanSend(conn.Snapshot()))) ==>
        conn.Snapshot() == old(conn.Snapshot())
    {
      if TriggersSend(key, shift) {
        outcome := SendMessage(restOk, wasConnected, now);
      } else {
        outcome := None;
      }
    }
  }
}
