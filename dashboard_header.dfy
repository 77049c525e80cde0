/**
 * The header on every dashboard page (`DashboardHeader`): navigation, the signed-in user
 * and workspace, creating a workspace and signing out.
 */
module DashboardHeaderView {
  import opened Common
  import opened Text
  import opened Browser
  import opened TeamMembersView

  /** The navigation entries, in the order they are shown. */
  const NAVIGATION: seq<string> := ["/dashboard", "/documents", "/admin", "/billing"]

  /** `isActive(href)`: the entry is highlighted when the path is exactly its link. */
  predicate IsActive(pathname: string, href: string)
  {
    pathname == href
  }

  /** At most one entry is highlighted, and a path outside the navigation highlights none. */
  lemma AtMostOneActive(pathname: string, i: int, j: int)
    requires 0 <= i < |NAVIGATION| && 0 <= j < |NAVIGATION|
    requires IsActive(pathname, NAVIGATION[i]) && IsActive(pathname, NAVIGATION[j])
    ensures i == j
  {
    assert NAVIGATION[0][2] == 'a' && NAVIGATION[1][2] == 'o';
    assert |NAVIGATION[2]| == 6 && |NAVIGATION[3]| == 8 && |NAVIGATION[0]| == 10 && |NAVIGATION[1]| == 10;
  }

  /** The user object the header shows; the guest stand-in has only a name. */
  datatype Person = Person(fullName: Option<string>, email: Option<string>, role: Option<string>)

  /** The workspace object the header shows; the stand-in has only a name. */
  datatype Workspace = Workspace(name: Option<string>, planType: Option<string>)

  const GUEST: Person := Person(Some("Guest"), None, None)
  const NO_WORKSPACE: Workspace := Workspace(Some("No Workspace"), None)

  /** The avatar of the user menu: the initials of the name, or of "User". */
  function UserAvatar(p: Option<Person>): (r: string)
    ensures |r| <= 2
    ensures p.None? || p.value.fullName.None? || p.value.fullName.value == "" ==> r == "U"
  {
    GetInitials(OrElse(if p.Some? then p.value.fullName else None, "User"))
  }

  class Header {
    var currentUser: Option<Person>
    var currentOrg: Option<Workspace>
    var showCreateWorkspace: bool
    var workspaceName: string
    var isCreating: bool

    constructor ()
      ensures currentUser == None && currentOrg == None
      ensures !showCreateWorkspace && workspaceName == "" && !isCreating
    {
      currentUser, currentOrg := None, None;
      showCreateWorkspace, workspaceName, isCreating := false, "", false;
    }

    /**
     * `fetchUserData`: without a token both stand-ins are shown and nothing is requested.
     * Otherwise the profile and then the workspace are requested; a response that is not ok
     * gives that one's stand-in, and a request that throws gives both stand-ins, even after a
     * profile that loaded. `requests` counts the requests sent: a profile request that throws
     * is the only one.
     */
    method FetchUserData(storage: LocalStorage, userReply: Fetch<Person>, orgReply: Fetch<Workspace>)
      returns (requests: nat)
      modifies this
      ensures showCreateWorkspace == old(showCreateWorkspace) && workspaceName == old(workspaceName) && isCreating == old(isCreating)
      ensures !Truthy(storage.GetItem(ACCESS_TOKEN)) ==>
        requests == 0 && currentUser == Some(GUEST) && currentOrg == Some(NO_WORKSPACE)
      ensures Truthy(storage.GetItem(ACCESS_TOKEN)) && (userReply.Raised? || orgReply.Raised?) ==>
        currentUser == Some(GUEST) && currentOrg == Some(NO_WORKSPACE)
      ensures Truthy(storage.GetItem(ACCESS_TOKEN)) && userReply.Raised? ==> requests == 1
      ensures Truthy(storage.GetItem(ACCESS_TOKEN)) && !userReply.Raised? && orgReply.Raised? ==> requests == 2
      ensures Truthy(storage.GetItem(ACCESS_TOKEN)) && !userReply.Raised? && !orgReply.Raised? ==>
        && requests == 2
        && currentUser == Some(if userReply.Fine? then userReply.body else GUEST)
        && currentOrg == Some(if orgReply.Fine? then orgReply.body else NO_WORKSPACE)
      ensures requests <= 2
    {
      var token := storage.GetItem(ACCESS_TOKEN);
      if !Truthy(token) {
        currentUser := Some(GUEST);
        currentOrg := Some(NO_WORKSPACE);
        return 0;
      }
      requests := 1;
      if userReply.Raised? {
        currentUser := Some(GUEST);
        currentOrg := Some(NO_WORKSPACE);
        return;
      }
      currentUser := Some(if userReply.Fine? then userReply.body else GUEST);
      requests := 2;
      if orgReply.Raised? {
        currentUser := Some(GUEST);
        currentOrg := Some(NO_WORKSPACE);
        return;
      }
      currentOrg := Some(if orgReply.Fine? then orgReply.body else NO_WORKSPACE);
    }

    /**
     * `handleCreateWorkspace`: a name that is blank after trimming does nothing. Otherwise
     * the name is sent as typed; on success the dialog closes, the field clears and the
     * header shows the new workspace.
     */
    method HandleCreateWorkspace(reply: Fetch<Workspace>) returns (sent: bool)
      modifies this
      ensures sent <==> Strip(old(workspaceName)) != ""
      ensures currentUser == old(currentUser)
      ensures !sent ==>
        && currentOrg == old(currentOrg) && showCreateWorkspace == old(showCreateWorkspace)
        && workspaceName == old(workspaceName) && isCreating == old(isCreating)
      ensures sent ==> !isCreating
      ensures sent && reply.Fine? ==> !showCreateWorkspace && workspaceName == "" && currentOrg == Some(reply.body)
      ensures sent && !reply.Fine? ==>
        currentOrg == old(currentOrg) && showCreateWorkspace == old(showCreateWorkspace) && workspaceName == old(workspaceName)
    {
      if Strip(workspaceName) == "" {
        return false;
      }
      sent := true;
      isCreating := true;
      if reply.Fine? {
        showCreateWorkspace := false;
        workspaceName := "";
        currentOrg := Some(reply.body);
      }
      isCreating := false;
    }
  }

  /** `handleSignOut`: both tokens are removed and the login page opens. */
  method HandleSignOut(storage: LocalStorage) returns (nav: Navigation)
    modifies storage
    ensures storage.items == WithoutTokens(old(storage.items))
    ensures nav == GoTo("/login")
  {
    RemoveTokens(storage);
    nav := GoTo("/login");
  }
}
