/** components/chat/ChatWindow.tsx: one open conversation between the
    signed-in user and a selected peer.

    The message list only grows: incoming messages of this conversation are
    appended unless a listed message already has the same `id` or the same
    `tempId`, and a send appends an optimistic copy whose `id` is its
    `tempId`. The `tempId` comparison is `===` on an optional field, so two
    messages without a `tempId` count as the same message. Fresh `tempId`s,
    timestamps and timeout handles are parameters. */
module ChatWindow {
  import opened Js
  import opened Types
  import opened SocketContext

  const TypingTimeoutMs := 2000

  /** The receive filter: from me to the peer, or from the peer to me. */
  predicate InConversation(m: ChatMessage, meId: string, peerId: string) {
    || (m.sender.id == meId && m.recipient.id == peerId)
    || (m.sender.id == peerId && m.recipient.id == meId)
  }

  /** The de-duplication test `m.id === message.id || m.tempId === message.tempId`. */
  predicate SameMessage(listed: ChatMessage, incoming: ChatMessage) {
    listed.id == incoming.id || listed.tempId == incoming.tempId
  }

  predicate IsDuplicate(messages: seq<ChatMessage>, incoming: ChatMessage) {
    exists k | 0 <= k < |messages| :: SameMessage(messages[k], incoming)
  }

  /** The `setMessages` updater for a message of this conversation. */
  function MergeIncoming(messages: seq<ChatMessage>, incoming: ChatMessage): (r: seq<ChatMessage>)
    ensures IsDuplicate(messages, incoming) ==> r == messages
    ensures !IsDuplicate(messages, incoming) ==> r == messages + [incoming]
  {
    if IsDuplicate(messages, incoming) then messages else messages + [incoming]
  }

  /** No two listed messages count as the same message. */
  predicate Distinct(messages: seq<ChatMessage>) {
    forall i, j | 0 <= i < j < |messages| :: !SameMessage(messages[i], messages[j])
  }

  /** The list only grows at its end, by at most one message. */
  lemma MergeIsAppendOnly(messages: seq<ChatMessage>, incoming: ChatMessage)
    ensures var r := MergeIncoming(messages, incoming);
      |messages| <= |r| <= |messages| + 1 && r[..|messages|] == messages
  {
  }

  /** A merged list stays free of duplicates. */
  lemma MergeKeepsDistinct(messages: seq<ChatMessage>, incoming: ChatMessage)
    requires Distinct(messages)
    ensures Distinct(MergeIncoming(messages, incoming))
  {
    if !IsDuplicate(messages, incoming) {
      var r := messages + [incoming];
      forall i, j | 0 <= i < j < |r| ensures !SameMessage(r[i], r[j]) {
        if j == |messages| {
          assert r[i] == messages[i];
        }
      }
    }
  }

  /** Delivering the same message twice is delivering it once. */
  lemma MergeIsIdempotent(messages: seq<ChatMessage>, incoming: ChatMessage)
    ensures MergeIncoming(MergeIncoming(messages, incoming), incoming) == MergeIncoming(messages, incoming)
  {
    var once := MergeIncoming(messages, incoming);
    if !IsDuplicate(messages, incoming) {
      assert SameMessage(once[|messages|], incoming);
    }
  }

  /** The server echo of one's own send, carrying its `tempId`, is dropped:
      the optimistic copy stays the only one. */
  lemma EchoOfOwnSendIsDropped(messages: seq<ChatMessage>, k: nat, echo: ChatMessage)
    requires k < |messages| && messages[k].tempId.Some? && echo.tempId == messages[k].tempId
    ensures MergeIncoming(messages, echo) == messages
  {
    assert SameMessage(messages[k], echo);
  }

  /** Once a message without a `tempId` is listed, every later message
      without one is dropped, whatever its `id`. */
  lemma UntaggedMessagesCollide(messages: seq<ChatMessage>, k: nat, incoming: ChatMessage)
    requires k < |messages| && messages[k].tempId.None? && incoming.tempId.None?
    ensures MergeIncoming(messages, incoming) == messages
  {
    assert SameMessage(messages[k], incoming);
  }

  /** A message is appended exactly when no listed message shares its `id`
      or its `tempId`. */
  lemma AppendedIffNew(messages: seq<ChatMessage>, incoming: ChatMessage)
    ensures MergeIncoming(messages, incoming) == messages + [incoming] <==>
      forall k | 0 <= k < |messages| :: messages[k].id != incoming.id && messages[k].tempId != incoming.tempId
  {
    if MergeIncoming(messages, incoming) == messages + [incoming] {
      assert |messages + [incoming]| != |messages|;
    }
  }

  /** The message a send appends and emits: `id` and `tempId` both the fresh
      id, the trimmed content, sender me and recipient the peer. */
  function Optimistic(me: User, peer: User, tempId: string, content: string, createdAt: string): (m: ChatMessage)
    ensures m.id == tempId && m.tempId == Some(tempId)
    ensures InConversation(m, me.id, peer.id)
  {
    ChatMessage(tempId, Some(tempId), AsChatUser(me), AsChatUser(peer), content, createdAt)
  }

  /** An id no listed message uses as `id` or `tempId`. */
  predicate FreshId(messages: seq<ChatMessage>, tempId: string) {
    forall k | 0 <= k < |messages| :: messages[k].id != tempId && messages[k].tempId != Some(tempId)
  }

  /** An optimistic message with a fresh id keeps the list free of
      duplicates. */
  lemma SendKeepsDistinct(messages: seq<ChatMessage>, m: ChatMessage)
    requires Distinct(messages) && m.tempId.Some? && FreshId(messages, m.tempId.value) && m.id == m.tempId.value
    ensures Distinct(messages + [m])
  {
    var r := messages + [m];
    forall i, j | 0 <= i < j < |r| ensures !SameMessage(r[i], r[j]) {
      if j == |messages| {
        assert r[i] == messages[i];
      }
    }
  }

  class Conversation {
    /** The signed-in user (`state.auth.user`), possibly missing. */
    const me: Option<User>
    /** The `selectedUser` prop. The page renders the window without a
        `key`, so choosing another user changes this field of the same
        instance instead of creating a new one. */
    var peer: User
    const provider: SocketProvider
    var messages: seq<ChatMessage>
    var inputValue: string
    var isTyping: bool
    var typingTimeout: Option<nat>
    /** The peer id captured by the closure of the pending typing timeout:
        the stop it announces goes to this id. */
    var stopTarget: string
    var messageSubscription: Option<Listener>

    constructor (me: Option<User>, peer: User, provider: SocketProvider)
      ensures this.me == me && this.peer == peer && this.provider == provider
      ensures messages == [] && inputValue == "" && !isTyping && typingTimeout == None && messageSubscription == None
      ensures stopTarget == peer.id
    {
      this.me := me;
      this.peer := peer;
      this.provider := provider;
      messages := [];
      inputValue := "";
      isTyping := false;
      typingTimeout := None;
      stopTarget := peer.id;
      messageSubscription := None;
    }

    /** The first effect's body: with a signed-in user, join the peer's room
        and subscribe to incoming messages under `callback`. */
    method Mount(callback: nat)
      requires provider.Valid()
      modifies this, provider
      ensures provider.Valid()
      ensures messages == old(messages) && inputValue == old(inputValue) && isTyping == old(isTyping)
      ensures typingTimeout == old(typingTimeout) && stopTarget == old(stopTarget) && peer == old(peer)
      ensures me.None? ==>
        && messageSubscription == old(messageSubscription) && provider.emitted == old(provider.emitted)
        && provider.listeners == old(provider.listeners)
      ensures me.Some? ==>
        && provider.emitted == old(provider.emitted) + old(provider.Sent(JoinConversation(peer.id)))
        && (messageSubscription.Some? <==> old(provider.socket).Some?)
        && provider.listeners == old(provider.listeners) + (if messageSubscription.Some? then [messageSubscription.value] else [])
      ensures provider.socket == old(provider.socket) && provider.isConnected == old(provider.isConnected)
      ensures provider.onlineUsers == old(provider.onlineUsers)
    {
      if me.Some? {
        provider.Emit(JoinConversation(peer.id));
        messageSubscription := provider.Subscribe(ReceiveMessage, callback);
      }
    }

    /** The first effect's cleanup: leave the room and unsubscribe. */
    method Unmount()
      requires provider.Valid()
      modifies this, provider
      ensures provider.Valid()
      ensures messages == old(messages) && inputValue == old(inputValue) && isTyping == old(isTyping)
      ensures typingTimeout == old(typingTimeout) && stopTarget == old(stopTarget) && peer == old(peer)
      ensures me.Some? ==>
        && provider.emitted == old(provider.emitted) + old(provider.Sent(LeaveConversation(peer.id)))
        && provider.listeners == (if old(messageSubscription).Some?
             then RemoveFirst(old(provider.listeners), old(messageSubscription).value)
             else old(provider.listeners))
      ensures me.None? ==> provider.emitted == old(provider.emitted) && provider.listeners == old(provider.listeners)
      ensures messageSubscription == (if me.Some? then None else old(messageSubscription))
      ensures provider.socket == old(provider.socket) && provider.isConnected == old(provider.isConnected)
      ensures provider.onlineUsers == old(provider.onlineUsers)
    {
      if me.Some? {
        provider.Emit(LeaveConversation(peer.id));
        provider.Unsubscribe(messageSubscription);
        messageSubscription := None;
      }
    }

    /** The `receive_message` callback: a message of this conversation is
        merged in; any other message is ignored. */
    method OnReceiveMessage(message: ChatMessage)
      requires me.Some?
      modifies this
      ensures messages == if InConversation(message, me.value.id, peer.id)
        then MergeIncoming(old(messages), message) else old(messages)
      ensures inputValue == old(inputValue) && isTyping == old(isTyping) && typingTimeout == old(typingTimeout)
      ensures messageSubscription == old(messageSubscription) && stopTarget == old(stopTarget) && peer == old(peer)
    {
      if InConversation(message, me.value.id, peer.id) {
        messages := MergeIncoming(messages, message);
      }
    }

    /** The `user_typing_start` callback. */
    method OnUserTypingStart(userId: string)
      modifies this
      ensures isTyping == (old(isTyping) || userId == peer.id)
      ensures messages == old(messages) && inputValue == old(inputValue) && typingTimeout == old(typingTimeout)
      ensures messageSubscription == old(messageSubscription) && stopTarget == old(stopTarget) && peer == old(peer)
    {
      if userId == peer.id {
        isTyping := true;
      }
    }

    /** The `user_typing_stop` callback. */
    method OnUserTypingStop(userId: string)
      modifies this
      ensures isTyping == (old(isTyping) && userId != peer.id)
      ensures messages == old(messages) && inputValue == old(inputValue) && typingTimeout == old(typingTimeout)
      ensures messageSubscription == old(messageSubscription) && stopTarget == old(stopTarget) && peer == old(peer)
    {
      if userId == peer.id {
        isTyping := false;
      }
    }

    /** `handleInputChange`: store the text; announce typing only when no
        stop is pending; replace any pending stop by a new one, `handle`,
        due in 2000 ms, whose closure captures the current peer. */
    method HandleInputChange(value: string, handle: nat)
      requires provider.Valid()
      modifies this, provider
      ensures provider.Valid()
      ensures inputValue == value && typingTimeout == Some(handle) && stopTarget == peer.id && peer == old(peer)
      ensures provider.emitted == old(provider.emitted) +
        (if old(typingTimeout).None? then old(provider.Sent(TypingStart(peer.id))) else [])
      ensures messages == old(messages) && isTyping == old(isTyping) && messageSubscription == old(messageSubscription)
      ensures provider.socket == old(provider.socket) && provider.isConnected == old(provider.isConnected)
      ensures provider.listeners == old(provider.listeners)
    {
      inputValue := value;
      if typingTimeout.None? {
        provider.Emit(TypingStart(peer.id));
      }
      typingTimeout := Some(handle);
      stopTarget := peer.id;
    }

    /** A typing timeout fires. Only the pending one can fire (replaced and
        cleared ones never do): it announces the stop to the peer its
        closure captured, which need not be the current one, and clears
        itself. */
    method OnTypingTimeout(handle: nat)
      requires provider.Valid()
      modifies this, provider
      ensures provider.Valid()
      ensures old(typingTimeout) == Some(handle) ==>
        typingTimeout == None && provider.emitted == old(provider.emitted) + old(provider.Sent(TypingStop(stopTarget)))
      ensures old(typingTimeout) != Some(handle) ==>
        typingTimeout == old(typingTimeout) && provider.emitted == old(provider.emitted)
      ensures messages == old(messages) && inputValue == old(inputValue) && isTyping == old(isTyping)
      ensures messageSubscription == old(messageSubscription) && stopTarget == old(stopTarget) && peer == old(peer)
      ensures provider.socket == old(provider.socket) && provider.isConnected == old(provider.isConnected)
      ensures provider.listeners == old(provider.listeners)
    {
      if typingTimeout == Some(handle) {
        provider.Emit(TypingStop(stopTarget));
        typingTimeout := None;
      }
    }

    /** `handleSendMessage` with the fresh `tempId` and the clock's
        `createdAt`. Blank input or no signed-in user: nothing happens.
        Otherwise the optimistic copy is appended, the trimmed text is sent
        with its `tempId`, the input is cleared, the stop of typing is
        announced and any pending timeout cleared. */
    method HandleSendMessage(tempId: string, createdAt: string)
      requires provider.Valid()
      modifies this, provider
      ensures provider.Valid()
      ensures Trim(old(inputValue)) == [] || me.None? ==>
        && messages == old(messages) && inputValue == old(inputValue) && typingTimeout == old(typingTimeout)
        && provider.emitted == old(provider.emitted)
      ensures Trim(old(inputValue)) != [] && me.Some? ==>
        var content := Trim(old(inputValue));
        && messages == old(messages) + [Optimistic(me.value, peer, tempId, content, createdAt)]
        && inputValue == "" && typingTimeout == None
        && provider.emitted == old(provider.emitted)
             + old(provider.Sent(SendMessage(peer.id, content, Some(tempId))))
             + old(provider.Sent(TypingStop(peer.id)))
      ensures isTyping == old(isTyping) && messageSubscription == old(messageSubscription)
      ensures stopTarget == old(stopTarget) && peer == old(peer)
      ensures provider.socket == old(provider.socket) && provider.isConnected == old(provider.isConnected)
      ensures provider.listeners == old(provider.listeners)
    {
      if Trim(inputValue) == [] || me.None? {
        return;
      }
      var content := Trim(inputValue);
      messages := messages + [Optimistic(me.value, peer, tempId, content, createdAt)];
      provider.Emit(SendMessage(peer.id, content, Some(tempId)));
      inputValue := "";
      provider.Emit(TypingStop(peer.id));
      if typingTimeout.Some? {
        typingTimeout := None;
      }
    }

    /** The page selects another user while this window is open. The window
        is the same instance with a new `selectedUser` prop: its state
        (messages, input, typing flag, pending timeout) is kept, and only
        the first effect re-runs, leaving the old peer's room and joining
        the new one. Selecting the user already shown re-renders nothing. */
    method ChangePeer(newPeer: User, callback: nat)
      requires provider.Valid()
      modifies this, provider
      ensures provider.Valid()
      ensures peer == newPeer
      ensures messages == old(messages) && inputValue == old(inputValue) && isTyping == old(isTyping)
      ensures typingTimeout == old(typingTimeout) && stopTarget == old(stopTarget)
      ensures newPeer == old(peer) || me.None? ==>
        && provider.emitted == old(provider.emitted) && provider.listeners == old(provider.listeners)
        && messageSubscription == old(messageSubscription)
      ensures newPeer != old(peer) && me.Some? ==>
        && provider.emitted == old(provider.emitted)
             + old(provider.Sent(LeaveConversation(peer.id))) + old(provider.Sent(JoinConversation(newPeer.id)))
        && (messageSubscription.Some? <==> old(provider.socket).Some?)
        && provider.listeners ==
             (if old(messageSubscription).Some?
              then RemoveFirst(old(provider.listeners), old(messageSubscription).value)
              else old(provider.listeners))
             + (if messageSubscription.Some? then [messageSubscription.value] else [])
      ensures provider.socket == old(provider.socket) && provider.isConnected == old(provider.isConnected)
      ensures provider.onlineUsers == old(provider.onlineUsers)
    {
      if newPeer == peer {
        return;
      }
      Unmount();
      peer := newPeer;
      Mount(callback);
    }
  }

  /** The first half of a switch: A's conversation is open on a connected
      socket, holds A's untagged message, shows A typing, and has a stop of
      typing pending for A under handle 7. */
  method OpenWithPendingStop(me: User, a: User, fromA: ChatMessage)
    returns (provider: SocketProvider, window: Conversation)
    requires fromA.sender.id == a.id && fromA.recipient.id == me.id
    ensures fresh(provider) && fresh(window)
    ensures window.provider == provider && window.me == Some(me) && window.peer == a
    ensures provider.Valid() && provider.socket == Some(0) && provider.isConnected
    ensures window.messages == [fromA] && window.isTyping
    ensures window.typingTimeout == Some(7) && window.stopTarget == a.id
    ensures provider.emitted == [(0, JoinConversation(a.id)), (0, TypingStart(a.id))]
  {
    provider := new SocketProvider();
    provider.RenderWithAuth(true);
    provider.OnSocketEvent(Connect);
    assert provider.socket == Some(0) && provider.isConnected;
    window := new Conversation(Some(me), a, provider);
    window.Mount(1);
    assert provider.emitted == [(0, JoinConversation(a.id))];
    window.OnReceiveMessage(fromA);
    assert window.messages == [fromA];
    window.OnUserTypingStart(a.id);
    window.HandleInputChange("h", 7);
  }

  /** Switching from A's conversation to B's: A's untagged message stays
      listed under B and makes B's untagged message a duplicate, A's typing
      flag still shows, and the stop of typing still pending from A's
      conversation is announced to A after the switch. */
  method SwitchConversationScenario(me: User, a: User, b: User, fromA: ChatMessage, fromB: ChatMessage)
    returns (messages: seq<ChatMessage>, isTyping: bool, emitted: seq<(nat, Outgoing)>)
    requires a != b
    requires fromA.sender.id == a.id && fromA.recipient.id == me.id && fromA.tempId.None?
    requires fromB.sender.id == b.id && fromB.recipient.id == me.id && fromB.tempId.None?
    ensures messages == [fromA] && isTyping
    ensures emitted == [(0, JoinConversation(a.id)), (0, TypingStart(a.id)), (0, LeaveConversation(a.id)),
                        (0, JoinConversation(b.id)), (0, TypingStop(a.id))]
  {
    var provider, window := OpenWithPendingStop(me, a, fromA);
    window.ChangePeer(b, 2);
    assert window.peer == b && window.messages == [fromA] && window.typingTimeout == Some(7);
    assert provider.emitted == [(0, JoinConversation(a.id)), (0, TypingStart(a.id)), (0, LeaveConversation(a.id)),
                                (0, JoinConversation(b.id))];
    UntaggedMessagesCollide(window.messages, 0, fromB);
    window.OnReceiveMessage(fromB);
    window.OnTypingTimeout(7);
    messages := window.messages;
    isTyping := window.isTyping;
    emitted := provider.emitted;
  }

  /** Sending a message and then receiving the server's echo of it (same
      `tempId`, the server's own `id`) leaves exactly one copy, the
      optimistic one. */
  method SendThenEchoScenario(me: User, peer: User, text: string, tempId: string, serverId: string, createdAt: string)
    returns (messages: seq<ChatMessage>)
    requires Trim(text) != []
    ensures messages == [Optimistic(me, peer, tempId, Trim(text), createdAt)]
  {
    var provider := new SocketProvider();
    var window := new Conversation(Some(me), peer, provider);
    window.HandleInputChange(text, 1);
    window.HandleSendMessage(tempId, createdAt);
    var optimistic := Optimistic(me, peer, tempId, Trim(text), createdAt);
    var echo := ChatMessage(serverId, Some(tempId), AsChatUser(me), AsChatUser(peer), Trim(text), createdAt);
    EchoOfOwnSendIsDropped(window.messages, 0, echo);
    window.OnReceiveMessage(echo);
    messages := window.messages;
  }

  /** Typing twice and waiting: one start, one stop, and the first timeout
      (replaced by the second keystroke) never announces anything. */
  method TypingDebounceScenario(me: User, peer: User) returns (emitted: seq<(nat, Outgoing)>)
    ensures emitted == [(0, TypingStart(peer.id)), (0, TypingStop(peer.id))]
  {
    var provider := new SocketProvider();
    provider.RenderWithAuth(true);
    provider.OnSocketEvent(Connect);
    var window := new Conversation(Some(me), peer, provider);
    assert provider.socket == Some(0) && provider.isConnected;
    window.HandleInputChange("h", 1);
    assert provider.emitted == [(0, TypingStart(peer.id))];
    window.HandleInputChange("hi", 2);
    assert provider.emitted == [(0, TypingStart(peer.id))];
    window.OnTypingTimeout(1);
    assert window.typingTimeout == Some(2);
    window.OnTypingTimeout(2);
    emitted := provider.emitted;
  }
}
