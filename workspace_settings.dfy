/**
 * The workspace settings card (`WorkspaceSettings`): it loads the organization into a
 * form, saves the form back, and deletes the workspace after a double confirmation.
 */
module WorkspaceSettingsView {
  import opened Common
  import opened Browser
  import opened OrganizationModel
  import opened OrganizationsEndpoint

  /** The organization as the card reads it from JSON; a null or missing key reads as `None`. */
  datatype OrganizationJson = OrganizationJson(
    name: Option<string>,
    domain: Option<string>,
    autoGenerateSummaries: Option<bool>,
    emailNotifications: Option<bool>,
    requireApproval: Option<bool>,
    twoFactorAuth: Option<bool>,
    documentRetentionDays: Option<int>,
    allowDataExport: Option<bool>
  )

  /** What `GET /organizations/` serializes for an organization: every column the card reads. */
  function Served(o: Organization): OrganizationJson
  {
    OrganizationJson(Some(o.name), o.domain, Some(o.autoGenerateSummaries), Some(o.emailNotifications),
                     Some(o.requireApproval), Some(o.twoFactorAuth), Some(o.documentRetentionDays),
                     Some(o.allowDataExport))
  }

  /** JavaScript's `x ?? d`: only a missing value is replaced, so `false` and `0` are kept. */
  function Nullish<T>(x: Option<T>, d: T): (r: T)
    ensures x.Some? ==> r == x.value
    ensures x.None? ==> r == d
  {
    if x.Some? then x.value else d
  }

  /** The days a newly enabled retention switch sets. */
  const DEFAULT_RETENTION: int := 90

  /** The values of the form's eight inputs. */
  datatype FormValues = FormValues(
    name: string,
    domain: string,
    autoGenerate: bool,
    emailNotifications: bool,
    requireApproval: bool,
    twoFactorAuth: bool,
    retentionDays: int,
    allowExport: bool
  )

  /**
   * The form after loading `d`: a missing or empty name or domain reads as empty (`||`);
   * any other missing value takes its default, while a loaded `false` or `0` is kept (`??`).
   */
  function Loaded(d: OrganizationJson): FormValues
  {
    FormValues(OrElse(d.name, ""), OrElse(d.domain, ""), Nullish(d.autoGenerateSummaries, true),
               Nullish(d.emailNotifications, false), Nullish(d.requireApproval, false),
               Nullish(d.twoFactorAuth, false), Nullish(d.documentRetentionDays, DEFAULT_RETENTION),
               Nullish(d.allowDataExport, true))
  }

  class SettingsForm {
    var organization: Option<OrganizationJson>
    var loading: bool
    var workspaceName: string
    var workspaceDomain: string
    var autoGenerate: bool
    var emailNotifications: bool
    var requireApproval: bool
    var twoFactorAuth: bool
    var retentionDays: int
    var allowExport: bool

    /** The form before anything is loaded. */
    constructor ()
      ensures organization == None && loading
      ensures workspaceName == "" && workspaceDomain == ""
      ensures autoGenerate && !emailNotifications && !requireApproval && !twoFactorAuth
      ensures retentionDays == DEFAULT_RETENTION && allowExport
    {
      organization, loading := None, true;
      workspaceName, workspaceDomain := "", "";
      autoGenerate, emailNotifications, requireApproval, twoFactorAuth := true, false, false, false;
      retentionDays, allowExport := DEFAULT_RETENTION, true;
    }

    /** The eight edited values, in the order the card lays them out. */
    function Form(): FormValues
      reads this
    {
      FormValues(workspaceName, workspaceDomain, autoGenerate, emailNotifications,
                 requireApproval, twoFactorAuth, retentionDays, allowExport)
    }

    /**
     * `fetchOrganization`: on an ok response the form takes the loaded values (`Loaded`);
     * otherwise it keeps its values. Loading ends either way.
     */
    method ApplyFetched(reply: Fetch<OrganizationJson>)
      modifies this
      ensures !loading
      ensures organization == if reply.Fine? then Some(reply.body) else old(organization)
      ensures Form() == if reply.Fine? then Loaded(reply.body) else old(Form())
    {
      if reply.Fine? {
        var f := Loaded(reply.body);
        organization := Some(reply.body);
        workspaceName, workspaceDomain := f.name, f.domain;
        autoGenerate, emailNotifications := f.autoGenerate, f.emailNotifications;
        requireApproval, twoFactorAuth := f.requireApproval, f.twoFactorAuth;
        retentionDays, allowExport := f.retentionDays, f.allowExport;
      }
      loading := false;
    }

    /** The retention switch shows on exactly when some retention is set. */
    predicate RetentionOn()
      reads this
    {
      retentionDays > 0
    }

    /** Flipping the retention switch: on sets 90 days, off sets 0; the switch then shows the choice. */
    method ToggleRetention(checked: bool)
      modifies this
      ensures retentionDays == if checked then DEFAULT_RETENTION else 0
      ensures RetentionOn() == checked
      ensures workspaceName == old(workspaceName) && workspaceDomain == old(workspaceDomain)
      ensures autoGenerate == old(autoGenerate) && emailNotifications == old(emailNotifications)
      ensures requireApproval == old(requireApproval) && twoFactorAuth == old(twoFactorAuth) && allowExport == old(allowExport)
      ensures organization == old(organization) && loading == old(loading)
    {
      retentionDays := if checked then DEFAULT_RETENTION else 0;
    }

    /**
     * `handleSaveChanges`: sends the payload; an ok response replaces the loaded
     * organization, and the form fields stay as they are in every outcome.
     */
    method HandleSaveChanges(reply: Fetch<OrganizationJson>) returns (payload: OrganizationUpdate)
      modifies this
      ensures payload == Payload(old(Form()))
      ensures Form() == old(Form())
      ensures organization == if reply.Fine? then Some(reply.body) else old(organization)
    {
      payload := Payload(Form());
      if reply.Fine? {
        organization := Some(reply.body);
      }
    }

    /**
     * `handleDeleteWorkspace`: the request goes out only after the dialog is confirmed and
     * the typed text equals the workspace name exactly (a cancelled prompt is `None`). A
     * successful deletion removes both tokens and opens the sign-up page.
     */
    method HandleDeleteWorkspace(confirmed: bool, typed: Option<string>, reply: Fetch<string>, storage: LocalStorage)
      returns (sent: bool, nav: Navigation)
      modifies storage
      ensures sent <==> confirmed && typed == Some(workspaceName)
      ensures sent && reply.Fine? ==> storage.items == WithoutTokens(old(storage.items)) && nav == GoTo("/signup")
      ensures !(sent && reply.Fine?) ==> storage.items == old(storage.items) && nav == Stay
    {
      nav := Stay;
      if !confirmed {
        return false, Stay;
      }
      if typed != Some(workspaceName) {
        return false, Stay;
      }
      sent := true;
      if reply.Fine? {
        RemoveTokens(storage);
        nav := GoTo("/signup");
      }
    }
  }

  /** The body `handleSaveChanges` sends: all eight inputs, the active flag left unsent. */
  function Payload(f: FormValues): (u: OrganizationUpdate)
    ensures u.isActive == None
    ensures u.name == Some(f.name) && u.domain == Some(f.domain)
    ensures u.autoGenerateSummaries == Some(f.autoGenerate) && u.emailNotifications == Some(f.emailNotifications)
    ensures u.requireApproval == Some(f.requireApproval) && u.twoFactorAuth == Some(f.twoFactorAuth)
    ensures u.documentRetentionDays == Some(f.retentionDays) && u.allowDataExport == Some(f.allowExport)
  {
    OrganizationUpdate(Some(f.name), Some(f.domain), None, Some(f.autoGenerate), Some(f.emailNotifications),
                       Some(f.requireApproval), Some(f.twoFactorAuth), Some(f.retentionDays), Some(f.allowExport))
  }

  /**
   * Loading what the server serializes shows the organization itself: the name, the domain
   * (empty when there is none) and every setting, a stored `false` or `0` included.
   */
  lemma LoadedShowsOrganization(o: Organization)
    ensures Loaded(Served(o)) == FormValues(o.name, OrElse(o.domain, ""), o.autoGenerateSummaries, o.emailNotifications,
                                            o.requireApproval, o.twoFactorAuth, o.documentRetentionDays, o.allowDataExport)
  {
  }

  /** An unedited save repeats every setting, so no setting gets a change line. */
  lemma UneditedSettingsUnchanged(o: Organization)
    ensures SettingsChanges(o, Payload(Loaded(Served(o)))) == []
  {
    LoadedShowsOrganization(o);
    var u := Payload(Loaded(Served(o)));
    assert !Differs(u.autoGenerateSummaries, o.autoGenerateSummaries) && !Differs(u.emailNotifications, o.emailNotifications);
    assert !Differs(u.requireApproval, o.requireApproval) && !Differs(u.twoFactorAuth, o.twoFactorAuth);
    assert !Differs(u.documentRetentionDays, o.documentRetentionDays) && !Differs(u.allowDataExport, o.allowDataExport);
  }

  /**
   * Loading and saving without edits records no change, except for a workspace without a
   * domain, which gets the empty domain and one "domain: none → " line.
   */
  lemma SaveWithoutEdits(o: Organization)
    ensures o.domain.Some? ==> Changes(o, Payload(Loaded(Served(o)))) == [] && Applied(o, Payload(Loaded(Served(o)))) == o
    ensures o.domain.None? ==>
      Changes(o, Payload(Loaded(Served(o)))) == [DomainLine(None, "")] && Applied(o, Payload(Loaded(Served(o)))) == o.(domain := Some(""))
  {
    LoadedShowsOrganization(o);
    UneditedSettingsUnchanged(o);
    var u := Payload(Loaded(Served(o)));
    assert u.name == Some(o.name) && u.isActive == None;
    assert u.domain == Some(OrElse(o.domain, ""));
    if o.domain.Some? {
      assert BasicChanges(o, u) == [];
      ChangesEmptyIffUnchanged(o, u);
    } else {
      assert BasicChanges(o, u) == [DomainLine(None, "")];
    }
  }
}
