/** components/admin/UserCard.tsx: what the admin dashboard shows of one
    user: the name, the masked Aadhaar number, the role and provider
    badges, and whether the delete button is offered. Everything here is
    derived from the user record and the viewer's id. */
module UserCard {
  import opened Js
  import opened Types
  import Proxy
  import Dashboard

  const RoleBadgePrivileged := "bg-purple-100 text-purple-800 border-purple-200"
  const RoleBadgeDefault := "bg-blue-100 text-blue-800 border-blue-200"
  const ProviderBadgeGoogle := "bg-red-100 text-red-800 border-red-200"
  const ProviderBadgeOther := "bg-gray-100 text-gray-800 border-gray-200"
  const NoName := "No Name"
  const Mask := "****"

  /** `currentUserId === user._id`: without a viewer id nobody is the
      current user. */
  predicate IsCurrentUser(currentUserId: Option<string>, user: User) {
    currentUserId == Some(user.id)
  }

  /** The delete button is offered on every card but the viewer's own. */
  predicate ShowsDeleteButton(currentUserId: Option<string>, user: User) {
    !IsCurrentUser(currentUserId, user)
  }

  /** The viewer's id as the dashboard passes it: `currentUser?._id`. */
  function ViewerId(viewer: Option<User>): Option<string> {
    if viewer.Some? then Some(viewer.value.id) else None
  }

  /** A click on a card's delete button, on the dashboard, followed by a
      confirmation whose call settles with `deleteOk`. The card's
      `onDelete` opens the dialog on the card's user, named by `name ||
      email`; the confirmation sends that id when it is non-empty. So the
      viewer's own id is never sent, and any other non-empty id is. */
  method DeleteFromCard(dashboard: Dashboard.Page, viewer: Option<User>, user: User, deleteOk: bool)
    returns (deleted: Option<string>)
    requires ShowsDeleteButton(ViewerId(viewer), user)
    modifies dashboard
    ensures viewer.Some? ==> deleted != Some(viewer.value.id)
    ensures deleted == (if user.id != "" then Some(user.id) else None)
    ensures deleted.Some? && !deleteOk ==>
      dashboard.isOpen && dashboard.userId == Some(user.id)
      && dashboard.userName == Some(if Truthy(user.name) then user.name.value else user.email)
  {
    var userName := if Truthy(user.name) then user.name.value else user.email;
    dashboard.HandleDeleteClick(user.id, userName);
    deleted := dashboard.HandleDeleteConfirm(deleteOk);
  }

  /** `user.name || 'No Name'`. */
  function DisplayName(user: User): (r: string)
    ensures r != ""
    ensures Truthy(user.name) ==> r == user.name.value
    ensures !Truthy(user.name) ==> r == NoName
  {
    if Truthy(user.name) then user.name.value else NoName
  }

  /** `s.slice(-4)`: the last four characters, or all of a shorter string. */
  function LastFour(s: string): (r: string)
    ensures |r| == if |s| < 4 then |s| else 4
    ensures r == s[|s| - |r|..]
  {
    if |s| < 4 then s else s[|s| - 4..]
  }

  /** The Aadhaar line: shown only for a non-empty number, as four stars
      and the number's last four characters. */
  function MaskedAadhaar(aadhaar: Option<string>): (r: Option<string>)
    ensures r.Some? <==> Truthy(aadhaar)
    ensures r.Some? ==> 4 < |r.value| <= 8 && r.value[..4] == Mask
  {
    if Truthy(aadhaar) then Some(Mask + LastFour(aadhaar.value)) else None
  }

  /** The mask reveals a suffix of the number of at most four characters,
      so a valid twelve-digit number shows its last four digits and hides
      the other eight. */
  lemma MaskRevealsOnlyTheTail(a: string)
    requires a != ""
    ensures var shown := MaskedAadhaar(Some(a)).value[4..];
      |shown| <= 4 && shown == a[|a| - |shown|..]
    ensures |a| == 12 ==> MaskedAadhaar(Some(a)) == Some(Mask + a[8..])
  {
    var m := MaskedAadhaar(Some(a)).value;
    assert m == Mask + LastFour(a);
    assert m[4..] == LastFour(a);
  }

  /** `getRoleBadgeColor(role)`. */
  function RoleBadge(role: string): (r: string)
    ensures r == RoleBadgePrivileged <==> role == "admin" || role == "superadmin"
    ensures r == RoleBadgePrivileged || r == RoleBadgeDefault
  {
    if role == "admin" || role == "superadmin" then RoleBadgePrivileged else RoleBadgeDefault
  }

  /** The purple badge marks exactly the roles the route gate lets into the
      dashboard. */
  lemma PurpleBadgeIffDashboardRole(role: string)
    ensures Proxy.Matches("/dashboard", "/dashboard")
    ensures RoleBadge(role) == RoleBadgePrivileged <==> role in Proxy.AllowedRoles("/dashboard")
  {
    Proxy.DashboardIsItsOwnArea("/dashboard");
  }

  /** `user.provider && <badge colored by getProviderBadgeColor>`: no badge
      without a non-empty provider; red for Google, gray for any other. */
  function ProviderBadge(provider: Option<string>): (r: Option<string>)
    ensures r.Some? <==> Truthy(provider)
    ensures r == Some(ProviderBadgeGoogle) <==> provider == Some("google")
    ensures r.Some? && provider != Some("google") ==> r.value == ProviderBadgeOther
  {
    if !Truthy(provider) then None
    else if provider == Some("google") then Some(ProviderBadgeGoogle)
    else Some(ProviderBadgeOther)
  }
}
