/**
 * The team page (`TeamMembers`): the member list with avatar initials and admin controls,
 * the invite dialog, and removal after confirmation.
 */
module TeamMembersView {
  import opened Common
  import opened Text
  import opened Browser
  import opened UserModel
  import opened Tables

  // ---------------------------------------------------------------------------
  // initials

  /** The first character of every non-empty piece: `.map(n => n[0]).join("")`. */
  function FirstLetters(parts: seq<string>): (r: string)
    ensures |r| <= |parts|
    ensures |parts| > 0 && parts[0] != "" ==> |r| >= 1 && r[0] == parts[0][0]
  {
    if |parts| == 0 then ""
    else (if parts[0] == "" then "" else [parts[0][0]]) + FirstLetters(parts[1..])
  }

  /** `s.slice(0, n)`. */
  function Take(s: string, n: nat): (r: string)
    ensures |r| == Min(n, |s|) && r == s[..|r|]
  {
    if |s| <= n then s else s[..n]
  }

  /**
   * `getInitials(name)`: "U" for an empty name; otherwise the first letter of each
   * space-separated word, upper-cased, at most two of them. A name of spaces only has no
   * initials at all.
   */
  function GetInitials(name: string): (r: string)
    ensures name == "" ==> r == "U"
    ensures |r| <= 2
    ensures name != "" ==> (r == "" <==> forall i :: 0 <= i < |name| ==> name[i] == ' ')
  {
    if name == "" then "U"
    else
      var letters := FirstLetters(Split(name, ' '));
      FirstLettersEmpty(name);
      Take(ToUpper(letters), 2)
  }

  /** The words of `s` have no first letters exactly when `s` is all spaces. */
  lemma {:induction false} FirstLettersEmpty(s: string)
    ensures FirstLetters(Split(s, ' ')) == "" <==> forall i :: 0 <= i < |s| ==> s[i] == ' '
  {
    if |s| > 0 {
      FirstLettersEmpty(s[1..]);
      var rest := Split(s[1..], ' ');
      if s[0] == ' ' {
        assert Split(s, ' ') == [""] + rest;
        assert ([""] + rest)[1..] == rest;
        assert forall i :: 1 <= i < |s| ==> s[i] == s[1..][i - 1];
      } else {
        var parts := Split(s, ' ');
        assert parts[0] == [s[0]] + rest[0];
        assert FirstLetters(parts)[0] == s[0];
      }
    }
  }

  /** Two words give the two upper-cased first letters. */
  lemma TwoWordInitials(first: string, last: string)
    requires first != "" && last != "" && ' ' !in first && ' ' !in last
    ensures GetInitials(first + " " + last) == [UpperChar(first[0]), UpperChar(last[0])]
  {
    SplitPrefix(first, last, ' ');
    SplitSeparatorFree(last, ' ');
    assert first + " " + last == first + [' '] + last;
    var parts := Split(first + " " + last, ' ');
    assert parts == [first, last];
    assert FirstLetters(parts) == [first[0]] + FirstLetters([last]);
    assert FirstLetters([last]) == [last[0]] + FirstLetters([]);
  }

  // ---------------------------------------------------------------------------
  // the member list

  /**
   * A member as the page reads it from the JSON of `GET /users/` or `POST /users/`; a key the
   * response does not carry reads as `None`.
   */
  datatype TeamMember = TeamMember(
    id: Id,
    email: string,
    fullName: Option<string>,
    role: string,
    isActive: bool,
    isPendingInvitation: Option<bool>,
    invitationToken: Option<string>
  )

  /** The name shown for a member: the full name, or the email. */
  function DisplayName(m: TeamMember): string
  {
    OrElse(m.fullName, m.email)
  }

  /** The role select and the remove button: only an admin sees them, and never on their own row. */
  predicate ShowsAdminControls(currentUser: Option<TeamMember>, m: TeamMember)
  {
    currentUser.Some? && currentUser.value.role == "admin" && m.id != currentUser.value.id
  }

  /** The "You" label. */
  predicate ShowsYou(currentUser: Option<TeamMember>, m: TeamMember)
  {
    currentUser.Some? && m.id == currentUser.value.id
  }

  /** A row carries either the admin controls or the "You" label, never both. */
  lemma ControlsOrYou(currentUser: Option<TeamMember>, m: TeamMember)
    ensures !(ShowsAdminControls(currentUser, m) && ShowsYou(currentUser, m))
    ensures currentUser.Some? && currentUser.value.role == "admin" ==> ShowsAdminControls(currentUser, m) || ShowsYou(currentUser, m)
  {
  }

  const INVITE_PATH: string := "/accept-invitation?token="

  /** The link an admin shares with the invitee. */
  function InviteUrl(origin: string, token: string): (url: string)
    ensures |url| == |origin| + |INVITE_PATH| + |token|
    ensures url[..|origin|] == origin && url[|origin| + |INVITE_PATH|..] == token
  {
    origin + INVITE_PATH + token
  }

  /** The link goes with exactly one token: two tokens never share a link. */
  lemma InviteUrlInjective(origin: string, a: string, b: string)
    requires InviteUrl(origin, a) == InviteUrl(origin, b)
    ensures a == b
  {
    assert a == InviteUrl(origin, a)[|origin| + |INVITE_PATH|..];
  }

  /** The link offered after an invite, when the response carries a token. */
  function InviteLink(origin: string, m: TeamMember): (link: Option<string>)
    ensures link.Some? <==> Truthy(m.invitationToken)
    ensures link.Some? ==> link.value == InviteUrl(origin, m.invitationToken.value)
  {
    if Truthy(m.invitationToken) then Some(InviteUrl(origin, m.invitationToken.value)) else None
  }

  /**
   * What the backend sends for a user: the columns of its `UserResponse` schema, which has
   * neither `invitation_token` nor `is_pending_invitation`.
   */
  function AsServed(u: User): (m: TeamMember)
    ensures m.id == u.id && m.email == u.email && m.fullName == u.fullName && m.isActive == u.isActive
    ensures m.role == RoleValue(u.role)
    ensures m.invitationToken == None && m.isPendingInvitation == None
  {
    TeamMember(u.id, u.email, u.fullName, RoleValue(u.role), u.isActive, None, None)
  }

  /** The response with the two invitation columns the page reads. */
  function WithInvitation(u: User): (m: TeamMember)
    ensures m.id == u.id && m.email == u.email && m.fullName == u.fullName && m.isActive == u.isActive
    ensures m.role == RoleValue(u.role)
    ensures m.invitationToken == u.invitationToken && m.isPendingInvitation == Some(u.isPendingInvitation)
  {
    TeamMember(u.id, u.email, u.fullName, RoleValue(u.role), u.isActive, Some(u.isPendingInvitation), u.invitationToken)
  }

  /**
   * As served, no invitee ever gets a link and no member shows the "Pending Invitation"
   * badge, although every invitation stores a token and marks the user pending.
   */
  lemma InviteLinkNeverShown(origin: string, u: User)
    requires u.isPendingInvitation && Truthy(u.invitationToken)
    ensures InviteLink(origin, AsServed(u)) == None
    ensures AsServed(u).isPendingInvitation != Some(true)
  {
  }

  /**
   * With the invitation columns served, the invitee gets the link carrying their own
   * token, and the badge shows.
   */
  lemma InviteLinkCarriesToken(origin: string, u: User)
    requires u.isPendingInvitation && Truthy(u.invitationToken)
    ensures InviteLink(origin, WithInvitation(u)) == Some(InviteUrl(origin, u.invitationToken.value))
    ensures InviteUrl(origin, u.invitationToken.value)[|origin| + |INVITE_PATH|..] == u.invitationToken.value
    ensures WithInvitation(u).isPendingInvitation == Some(true)
  {
  }

  // ---------------------------------------------------------------------------
  // the page's state and handlers

  class TeamPage {
    var inviteOpen: bool
    var inviteEmail: string
    var inviteName: string
    var inviteRole: string
    var members: seq<TeamMember>
    var inviting: bool
    var currentUser: Option<TeamMember>

    constructor ()
      ensures !inviteOpen && inviteEmail == "" && inviteName == "" && inviteRole == "member"
      ensures members == [] && !inviting && currentUser == None
    {
      inviteOpen, inviteEmail, inviteName, inviteRole := false, "", "", "member";
      members, inviting, currentUser := [], false, None;
    }

    /**
     * `handleInvite`: without a name or an email nothing is sent. A successful invite
     * reloads the list (`refreshed`, `None` when the reload fails), closes the dialog,
     * resets the form to an empty member invite and offers the link; a failure keeps the
     * form as it was.
     */
    method HandleInvite(reply: Fetch<TeamMember>, refreshed: Option<seq<TeamMember>>, origin: string)
      returns (sent: bool, link: Option<string>)
      modifies this
      ensures sent <==> old(inviteEmail) != "" && old(inviteName) != ""
      ensures currentUser == old(currentUser)
      ensures !sent ==>
        && inviteOpen == old(inviteOpen) && inviteEmail == old(inviteEmail) && inviteName == old(inviteName)
        && inviteRole == old(inviteRole) && members == old(members) && inviting == old(inviting) && link == None
      ensures sent ==> !inviting
      ensures sent && reply.Fine? ==>
        && !inviteOpen && inviteEmail == "" && inviteName == "" && inviteRole == "member"
        && members == (if refreshed.Some? then refreshed.value else old(members))
        && link == InviteLink(origin, reply.body)
      ensures sent && !reply.Fine? ==>
        && inviteOpen == old(inviteOpen) && inviteEmail == old(inviteEmail) && inviteName == old(inviteName)
        && inviteRole == old(inviteRole) && members == old(members) && link == None
    {
      link := None;
      if inviteEmail == "" || inviteName == "" {
        return false, None;
      }
      sent := true;
      inviting := true;
      if reply.Fine? {
        var newMember := reply.body;
        if refreshed.Some? {
          members := refreshed.value;
        }
        inviteOpen := false;
        inviteEmail := "";
        inviteName := "";
        inviteRole := "member";
        if Truthy(newMember.invitationToken) {
          link := Some(InviteUrl(origin, newMember.invitationToken.value));
        }
      }
      inviting := false;
    }

    /**
     * `handleRemoveMember`: nothing is sent unless the admin confirms; a successful removal
     * reloads the list.
     */
    method HandleRemoveMember(userId: Id, confirmed: bool, reply: Fetch<string>, refreshed: Option<seq<TeamMember>>)
      returns (sent: bool)
      modifies this
      ensures sent == confirmed
      ensures sent && reply.Fine? && refreshed.Some? ==> members == refreshed.value
      ensures !(sent && reply.Fine? && refreshed.Some?) ==> members == old(members)
      ensures inviteOpen == old(inviteOpen) && inviteEmail == old(inviteEmail) && inviteName == old(inviteName)
      ensures inviteRole == old(inviteRole) && inviting == old(inviting) && currentUser == old(currentUser)
    {
      if !confirmed {
        return false;
      }
      sent := true;
      if reply.Fine? && refreshed.Some? {
        members := refreshed.value;
      }
    }
  }
}
