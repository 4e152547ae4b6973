/** app/chat/page.tsx: the list of people one can chat with, their online
    markers, the Dashboard button, and which conversation is open. */
module ChatPage {
  import opened Js
  import opened Types
  import opened SocketContext
  import Proxy

  /** The `otherUsers` predicate: not the signed-in user (with nobody signed
      in, `user?._id` is undefined and matches no id), active, not deleted. */
  predicate Listed(u: User, me: Option<User>) {
    (me.None? || u.id != me.value.id) && u.isActive && !u.isDeleted
  }

  /** `allUsers.filter(...)`. */
  function OtherUsers(all: seq<User>, me: Option<User>): (r: seq<User>)
    ensures |r| <= |all|
    ensures forall u :: u in r <==> u in all && Listed(u, me)
  {
    if all == [] then []
    else if Listed(all[0], me) then [all[0]] + OtherUsers(all[1..], me)
    else OtherUsers(all[1..], me)
  }

  /** The filter keeps the users in the order the server sent them: it
      distributes over concatenation. */
  lemma {:induction false} OtherUsersKeepsOrder(a: seq<User>, b: seq<User>, me: Option<User>)
    ensures OtherUsers(a + b, me) == OtherUsers(a, me) + OtherUsers(b, me)
    decreases |a|
  {
    if a == [] {
      assert a + b == b;
    } else {
      assert (a + b)[0] == a[0];
      assert (a + b)[1..] == a[1..] + b;
      OtherUsersKeepsOrder(a[1..], b, me);
    }
  }

  /** The signed-in user never lists themselves. */
  lemma MeIsNotListed(all: seq<User>, me: User)
    ensures forall u | u in OtherUsers(all, Some(me)) :: u.id != me.id
  {
  }

  /** `isUserOnline(userId)`: some presence entry has that id. */
  function IsUserOnline(onlineUsers: seq<OnlineUser>, userId: string): (r: bool)
    ensures r <==> exists u | u in onlineUsers :: u.userId == userId
  {
    HasUserId(onlineUsers, userId)
  }

  /** The online marker follows the presence events: `user_online` turns a
      user's marker on, `user_offline` turns it off, and neither touches
      anybody else's. */
  lemma OnlineMarkerFollowsPresence(prev: seq<OnlineUser>, user: OnlineUser, userId: string, other: string)
    requires other != userId
    ensures IsUserOnline(AddOnlineUser(prev, user), user.userId)
    ensures !IsUserOnline(RemoveOfflineUser(prev, userId), userId)
    ensures IsUserOnline(RemoveOfflineUser(prev, userId), other) <==> IsUserOnline(prev, other)
  {
    OnlineAfterAdd(prev, user, user.userId);
    OnlineAfterRemove(prev, userId, other);
  }

  /** The Dashboard button is shown to admins and superadmins only. */
  predicate ShowsDashboardButton(me: Option<User>) {
    me.Some? && (me.value.role == "admin" || me.value.role == "superadmin")
  }

  /** The button is offered exactly to the signed-in users whose role the
      route gate lets into the dashboard. */
  lemma DashboardButtonIffDashboardRole(me: Option<User>)
    ensures ShowsDashboardButton(me) <==> me.Some? && me.value.role in Proxy.AllowedRoles("/dashboard")
  {
    Proxy.DashboardIsItsOwnArea("/dashboard");
  }

  /** Which user's conversation is open, and whether the small-screen
      layout shows it instead of the list. */
  class Page {
    var selectedUser: Option<User>
    var showMobileChat: bool

    /** The conversation pane is shown exactly while a user is selected. */
    ghost predicate Valid()
      reads this
    {
      showMobileChat <==> selectedUser.Some?
    }

    constructor ()
      ensures Valid() && selectedUser == None && !showMobileChat
    {
      selectedUser := None;
      showMobileChat := false;
    }

    /** `handleUserSelect(user)`. */
    method HandleUserSelect(u: User)
      requires Valid()
      modifies this
      ensures Valid() && selectedUser == Some(u) && showMobileChat
    {
      selectedUser := Some(u);
      showMobileChat := true;
    }

    /** `handleBackToList()`. */
    method HandleBackToList()
      requires Valid()
      modifies this
      ensures Valid() && selectedUser == None && !showMobileChat
    {
      showMobileChat := false;
      selectedUser := None;
    }
  }
}
