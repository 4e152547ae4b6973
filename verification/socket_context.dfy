/** lib/socket/SocketContext.tsx: the socket provider's state (the current
    socket, the connection flag and the presence list), the effect that
    opens and tears down the socket as authentication changes, the guarded
    emits and the listener subscriptions.

    Socket instances are numbered by a counter standing for `io(...)`. A
    socket that was disconnected delivers no further events, so transport
    and presence events are those of the current socket. Emitted events are
    recorded in `emitted` with the socket that carried them. */
module SocketContext {
  import opened Js
  import opened Types

  // ----- presence list updaters -----

  /** Some entry of the presence list has this `userId`. */
  predicate HasUserId(users: seq<OnlineUser>, userId: string) {
    exists k | 0 <= k < |users| :: users[k].userId == userId
  }

  /** No two entries of the presence list share a `userId`. */
  predicate UniqueIds(users: seq<OnlineUser>) {
    forall i, j | 0 <= i < j < |users| :: users[i].userId != users[j].userId
  }

  /** The `user_online` updater: append the user unless an entry with the
      same `userId` is already listed. */
  function AddOnlineUser(prev: seq<OnlineUser>, user: OnlineUser): (r: seq<OnlineUser>)
    ensures HasUserId(prev, user.userId) ==> r == prev
    ensures !HasUserId(prev, user.userId) ==> r == prev + [user]
  {
    if HasUserId(prev, user.userId) then prev else prev + [user]
  }

  /** The `user_offline` updater: drop every entry with that `userId`,
      keeping the others in order. */
  function RemoveOfflineUser(prev: seq<OnlineUser>, userId: string): (r: seq<OnlineUser>)
    ensures |r| <= |prev|
    ensures forall u :: u in r <==> u in prev && u.userId != userId
    ensures !HasUserId(r, userId)
  {
    if prev == [] then []
    else if prev[0].userId != userId then [prev[0]] + RemoveOfflineUser(prev[1..], userId)
    else RemoveOfflineUser(prev[1..], userId)
  }

  /** Removing an absent id leaves the list as it was. */
  lemma {:induction false} RemoveAbsentIsIdentity(prev: seq<OnlineUser>, userId: string)
    requires !HasUserId(prev, userId)
    ensures RemoveOfflineUser(prev, userId) == prev
    decreases |prev|
  {
    if prev != [] {
      assert prev[0].userId != userId;
      assert !HasUserId(prev[1..], userId) by {
        forall k | 0 <= k < |prev[1..]| ensures prev[1..][k].userId != userId {
          assert prev[1..][k] == prev[k + 1];
        }
      }
      RemoveAbsentIsIdentity(prev[1..], userId);
      assert prev == [prev[0]] + prev[1..];
    }
  }

  /** `user_online` keeps the ids unique. */
  lemma AddKeepsUniqueIds(prev: seq<OnlineUser>, user: OnlineUser)
    requires UniqueIds(prev)
    ensures UniqueIds(AddOnlineUser(prev, user))
  {
    if !HasUserId(prev, user.userId) {
      var r := prev + [user];
      forall i, j | 0 <= i < j < |r| ensures r[i].userId != r[j].userId {
        if j == |prev| {
          assert r[i] == prev[i];
        }
      }
    }
  }

  /** `user_offline` keeps the ids unique. */
  lemma {:induction false} RemoveKeepsUniqueIds(prev: seq<OnlineUser>, userId: string)
    requires UniqueIds(prev)
    ensures UniqueIds(RemoveOfflineUser(prev, userId))
    decreases |prev|
  {
    if prev != [] {
      var tail := prev[1..];
      TailKeepsUniqueIds(prev);
      RemoveKeepsUniqueIds(tail, userId);
      if prev[0].userId != userId {
        var rest := RemoveOfflineUser(tail, userId);
        HeadNotInRest(prev, userId);
        var r := [prev[0]] + rest;
        forall i, j | 0 <= i < j < |r| ensures r[i].userId != r[j].userId {
          assert r[j] == rest[j - 1];
          if i > 0 {
            assert r[i] == rest[i - 1];
          }
        }
      }
    }
  }

  /** Dropping the first entry keeps the ids unique. */
  lemma TailKeepsUniqueIds(prev: seq<OnlineUser>)
    requires prev != [] && UniqueIds(prev)
    ensures UniqueIds(prev[1..])
  {
    var tail := prev[1..];
    forall i, j | 0 <= i < j < |tail| ensures tail[i].userId != tail[j].userId {
      assert tail[i] == prev[i + 1] && tail[j] == prev[j + 1];
    }
  }

  /** With unique ids, the first entry's id is absent from what is left of
      the others. */
  lemma HeadNotInRest(prev: seq<OnlineUser>, userId: string)
    requires prev != [] && UniqueIds(prev)
    ensures forall k | 0 <= k < |RemoveOfflineUser(prev[1..], userId)| ::
      RemoveOfflineUser(prev[1..], userId)[k].userId != prev[0].userId
  {
    var tail := prev[1..];
    var rest := RemoveOfflineUser(tail, userId);
    forall k | 0 <= k < |rest| ensures rest[k].userId != prev[0].userId {
      assert rest[k] in tail;
      var m :| 0 <= m < |tail| && tail[m] == rest[k];
      assert tail[m] == prev[m + 1];
    }
  }

  /** A repeated `user_online` for the same user changes nothing. */
  lemma AddIsIdempotent(prev: seq<OnlineUser>, user: OnlineUser)
    ensures AddOnlineUser(AddOnlineUser(prev, user), user) == AddOnlineUser(prev, user)
  {
    var once := AddOnlineUser(prev, user);
    assert HasUserId(once, user.userId) by {
      if !HasUserId(prev, user.userId) {
        assert once[|prev|] == user;
      }
    }
  }

  /** After `user_online` the user's id is listed, and every other id is
      listed exactly when it was before. */
  lemma OnlineAfterAdd(prev: seq<OnlineUser>, user: OnlineUser, userId: string)
    ensures HasUserId(AddOnlineUser(prev, user), userId) <==> HasUserId(prev, userId) || userId == user.userId
  {
    var r := AddOnlineUser(prev, user);
    if !HasUserId(prev, user.userId) {
      assert r[|prev|] == user;
      if HasUserId(r, userId) && userId != user.userId {
        var k :| 0 <= k < |r| && r[k].userId == userId;
        assert r[k] == prev[k];
      }
      if HasUserId(prev, userId) {
        var k :| 0 <= k < |prev| && prev[k].userId == userId;
        assert r[k] == prev[k];
      }
    }
  }

  /** After `user_offline` the id is not listed, and every other id is
      listed exactly when it was before. */
  lemma OnlineAfterRemove(prev: seq<OnlineUser>, userId: string, other: string)
    requires other != userId
    ensures HasUserId(RemoveOfflineUser(prev, userId), other) <==> HasUserId(prev, other)
  {
    var r := RemoveOfflineUser(prev, userId);
    if HasUserId(prev, other) {
      var k :| 0 <= k < |prev| && prev[k].userId == other;
      assert prev[k] in r;
      var j :| 0 <= j < |r| && r[j] == prev[k];
    }
    if HasUserId(r, other) {
      var k :| 0 <= k < |r| && r[k].userId == other;
      assert r[k] in prev;
      var j :| 0 <= j < |prev| && prev[j] == r[k];
    }
  }

  // ----- listener bookkeeping -----

  /** `socket.off(event, fn)` removes the first registration of `fn`. */
  function RemoveFirst<T(==)>(s: seq<T>, x: T): (r: seq<T>)
    ensures x in s ==> |r| == |s| - 1
    ensures x !in s ==> r == s
  {
    if s == [] then []
    else if s[0] == x then s[1..]
    else [s[0]] + RemoveFirst(s[1..], x)
  }

  /** Removing the first registration takes exactly one copy out. */
  lemma {:induction false} RemoveFirstMultiset<T>(s: seq<T>, x: T)
    requires x in s
    ensures multiset(RemoveFirst(s, x)) == multiset(s) - multiset{x}
    decreases |s|
  {
    assert s == [s[0]] + s[1..];
    if s[0] != x {
      RemoveFirstMultiset(s[1..], x);
    }
  }

  /** Registering a listener and then removing it gives back the listeners
      there were, as a multiset; when the listener was not registered
      already, the very same list. */
  lemma {:induction false} SubscribeThenUnsubscribe<T>(s: seq<T>, x: T)
    ensures multiset(RemoveFirst(s + [x], x)) == multiset(s)
    ensures x !in s ==> RemoveFirst(s + [x], x) == s
  {
    RemoveFirstMultiset(s + [x], x);
    assert multiset(s + [x]) == multiset(s) + multiset{x};
    if x !in s {
      RemoveAppendedAbsent(s, x);
    }
  }

  /** A registration appended to a list without it is the one removed. */
  lemma {:induction false} RemoveAppendedAbsent<T>(s: seq<T>, x: T)
    requires x !in s
    ensures RemoveFirst(s + [x], x) == s
    decreases |s|
  {
    if s != [] {
      assert (s + [x])[1..] == s[1..] + [x];
      RemoveAppendedAbsent(s[1..], x);
      assert s == [s[0]] + s[1..];
    }
  }

  // ----- the provider -----

  /** The events the client emits. */
  datatype Outgoing =
    | SendMessage(recipientId: string, content: string, tempId: Option<string>)
    | JoinConversation(otherUserId: string)
    | LeaveConversation(otherUserId: string)
    | TypingStart(recipientId: string)
    | TypingStop(recipientId: string)

  /** The events the provider handles on the current socket. The two toast
      notifications change no state. */
  datatype Incoming =
    | Connect
    | Disconnect
    | ConnectError
    | OnlineUsers(users: seq<OnlineUser>)
    | UserOnline(user: OnlineUser)
    | UserOffline(userId: string)
    | PostCreated
    | CommentCreated

  /** The events a component may subscribe to. */
  datatype Subscribable = ReceiveMessage | UserTypingStart | UserTypingStop | UserOnlineEvent | UserOfflineEvent

  /** One `socket.on(event, callback)` registration; `callback` identifies
      the function by reference. */
  datatype Listener = Listener(socketId: nat, event: Subscribable, callback: nat)

  class SocketProvider {
    var socket: Option<nat>
    var isConnected: bool
    var onlineUsers: seq<OnlineUser>
    /** The `isAuthenticated` value the effect last ran with; `None` before
        the first render. */
    var lastAuth: Option<bool>
    var nextSocketId: nat
    var emitted: seq<(nat, Outgoing)>
    var listeners: seq<Listener>

    /** A socket exists exactly while the effect last ran authenticated; a
        connection needs a socket, and without one nobody is listed online. */
    ghost predicate Valid()
      reads this
    {
      && (socket.Some? <==> lastAuth == Some(true))
      && (isConnected ==> socket.Some?)
      && (socket.None? ==> onlineUsers == [])
      && (socket.Some? ==> socket.value < nextSocketId)
    }

    constructor ()
      ensures Valid() && socket == None && !isConnected && onlineUsers == [] && lastAuth == None
      ensures emitted == [] && listeners == [] && nextSocketId == 0
    {
      socket := None;
      isConnected := false;
      onlineUsers := [];
      lastAuth := None;
      nextSocketId := 0;
      emitted := [];
      listeners := [];
    }

    /** What an emit guarded by `socket && isConnected` sends. */
    function Sent(message: Outgoing): (r: seq<(nat, Outgoing)>)
      reads this
      ensures r != [] <==> socket.Some? && isConnected
      ensures r != [] ==> r == [(socket.value, message)]
    {
      if socket.Some? && isConnected then [(socket.value, message)] else []
    }

    /** A render with `isAuthenticated == auth`. The effect re-runs only when
        the value changed. Its previous run's cleanup disconnects the socket
        that run opened (whose `disconnect` handler lowers the flag). On
        losing authentication the socket is dropped and presence emptied;
        on gaining it a new socket is opened, not yet connected. */
    method RenderWithAuth(auth: bool)
      requires Valid()
      modifies this
      ensures Valid()
      ensures lastAuth == Some(auth)
      ensures emitted == old(emitted) && listeners == old(listeners)
      ensures old(lastAuth) == Some(auth) ==>
        socket == old(socket) && isConnected == old(isConnected) && onlineUsers == old(onlineUsers) && nextSocketId == old(nextSocketId)
      ensures old(lastAuth) != Some(auth) && !auth ==>
        socket == None && !isConnected && onlineUsers == [] && nextSocketId == old(nextSocketId)
      ensures old(lastAuth) != Some(auth) && auth ==>
        socket == Some(old(nextSocketId)) && !isConnected && onlineUsers == old(onlineUsers) && nextSocketId == old(nextSocketId) + 1
    {
      if lastAuth == Some(auth) {
        return;
      }
      if lastAuth == Some(true) {
        isConnected := false;
      }
      lastAuth := Some(auth);
      if !auth {
        if socket.Some? {
          socket := None;
          isConnected := false;
          onlineUsers := [];
        }
        return;
      }
      socket := Some(nextSocketId);
      nextSocketId := nextSocketId + 1;
    }

    /** An event on the current socket. `connect` raises the flag,
        `disconnect` and `connect_error` lower it, `online_users` replaces
        the presence list, `user_online`/`user_offline` update it. */
    method OnSocketEvent(event: Incoming)
      requires Valid() && socket.Some?
      modifies this
      ensures Valid()
      ensures socket == old(socket) && lastAuth == old(lastAuth) && nextSocketId == old(nextSocketId)
      ensures emitted == old(emitted) && listeners == old(listeners)
      ensures isConnected == match event
        case Connect => true
        case Disconnect => false
        case ConnectError => false
        case _ => old(isConnected)
      ensures onlineUsers == match event
        case OnlineUsers(users) => users
        case UserOnline(user) => AddOnlineUser(old(onlineUsers), user)
        case UserOffline(userId) => RemoveOfflineUser(old(onlineUsers), userId)
        case _ => old(onlineUsers)
    {
      match event {
        case Connect => isConnected := true;
        case Disconnect => isConnected := false;
        case ConnectError => isConnected := false;
        case OnlineUsers(users) => onlineUsers := users;
        case UserOnline(user) => onlineUsers := AddOnlineUser(onlineUsers, user);
        case UserOffline(userId) => onlineUsers := RemoveOfflineUser(onlineUsers, userId);
        case PostCreated =>
        case CommentCreated =>
      }
    }

    /** `sendMessage`, `joinConversation`, `leaveConversation`,
        `startTyping`, `stopTyping`: emitted on the current socket when it is
        connected, silently dropped otherwise. */
    method Emit(message: Outgoing)
      requires Valid()
      modifies this
      ensures Valid()
      ensures emitted == old(emitted) + old(Sent(message))
      ensures socket == old(socket) && isConnected == old(isConnected) && onlineUsers == old(onlineUsers)
      ensures lastAuth == old(lastAuth) && nextSocketId == old(nextSocketId) && listeners == old(listeners)
    {
      if socket.Some? && isConnected {
        emitted := emitted + [(socket.value, message)];
      }
    }

    /** `onReceiveMessage` and the other subscribers: with a socket, register
        the callback on it and hand back the registration its unsubscribe
        removes; without one, register nothing and hand back a no-op. */
    method Subscribe(event: Subscribable, callback: nat) returns (unsubscribe: Option<Listener>)
      requires Valid()
      modifies this
      ensures Valid()
      ensures unsubscribe.Some? <==> socket.Some?
      ensures unsubscribe.Some? ==>
        unsubscribe.value == Listener(socket.value, event, callback) && listeners == old(listeners) + [unsubscribe.value]
      ensures unsubscribe.None? ==> listeners == old(listeners)
      ensures socket == old(socket) && isConnected == old(isConnected) && onlineUsers == old(onlineUsers)
      ensures lastAuth == old(lastAuth) && nextSocketId == old(nextSocketId) && emitted == old(emitted)
    {
      if socket.None? {
        return None;
      }
      var registration := Listener(socket.value, event, callback);
      listeners := listeners + [registration];
      unsubscribe := Some(registration);
    }

    /** Calling the function a subscriber returned: `socket.off` on the socket
        it was registered with, or nothing for the no-op. */
    method Unsubscribe(unsubscribe: Option<Listener>)
      requires Valid()
      modifies this
      ensures Valid()
      ensures listeners == if unsubscribe.Some? then RemoveFirst(old(listeners), unsubscribe.value) else old(listeners)
      ensures socket == old(socket) && isConnected == old(isConnected) && onlineUsers == old(onlineUsers)
      ensures lastAuth == old(lastAuth) && nextSocketId == old(nextSocketId) && emitted == old(emitted)
    {
      if unsubscribe.Some? {
        listeners := RemoveFirst(listeners, unsubscribe.value);
      }
    }
  }

  /** Logging out while connected: the socket goes away, the flag drops,
      presence empties, and a later send is dropped. */
  method LogoutTeardownScenario(user: OnlineUser) returns (online: seq<OnlineUser>, sent: seq<(nat, Outgoing)>)
    ensures online == [] && sent == []
  {
    var p := new SocketProvider();
    p.RenderWithAuth(true);
    p.OnSocketEvent(Connect);
    p.OnSocketEvent(UserOnline(user));
    assert p.onlineUsers == [user];
    p.RenderWithAuth(false);
    p.Emit(SendMessage(user.userId, "hi", None));
    online := p.onlineUsers;
    sent := p.emitted;
  }
}
