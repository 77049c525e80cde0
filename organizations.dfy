/**
 * The `/organizations` endpoints: create a workspace, change its name, domain and settings
 * with an audit entry listing what changed, and delete it.
 */
module OrganizationsEndpoint {
  import opened Common
  import opened Text
  import opened OrganizationModel
  import opened UserModel
  import opened Records
  import opened Store
  import opened ActivityLogger

  /** The body of `POST /organizations/`. */
  datatype OrganizationCreate = OrganizationCreate(name: string, domain: Option<string>)

  /** The body of `PUT /organizations/`: `None` means the field was not supplied. */
  datatype OrganizationUpdate = OrganizationUpdate(
    name: Option<string>,
    domain: Option<string>,
    isActive: Option<bool>,
    autoGenerateSummaries: Option<bool>,
    emailNotifications: Option<bool>,
    requireApproval: Option<bool>,
    twoFactorAuth: Option<bool>,
    documentRetentionDays: Option<int>,
    allowDataExport: Option<bool>
  )

  const ORG_NOT_FOUND: string := "Organization not found"
  const ARROW: string := " → "
  const SETTINGS_TARGET: string := "workspace settings"

  /**
   * `POST /organizations/`: a new trial organization with 100 summaries a month, none used,
   * active. The requested domain is not stored, and the caller is not moved into it.
   */
  method CreateOrganization(db: Database, caller: User, data: OrganizationCreate, newId: Id, now: Time)
    returns (o: Organization)
    requires db.Valid()
    requires newId !in db.organizations
    modifies db
    ensures o == NewOrganization(newId, data.name, now)
    ensures o.subscriptionStatus == "trial" && o.summariesLimit == 100 && o.summariesUsedCurrentMonth == 0 && o.isActive
    ensures o.domain == None
    ensures db.State() == old(db.State()).(organizations := old(db.organizations)[newId := o])
    ensures db.Valid()
  {
    o := NewOrganization(newId, data.name, now).(subscriptionStatus := "trial", summariesLimit := 100, summariesUsedCurrentMonth := 0, isActive := true);
    db.organizations := db.organizations[newId := o];
  }

  // ---------------------------------------------------------------------------
  // the partial update

  /** A field is written when it is supplied and differs from the stored value. */
  predicate Differs<T(==)>(supplied: Option<T>, current: T)
  {
    supplied.Some? && supplied.value != current
  }

  /** The value a field has after the update. */
  function Pick<T(==)>(supplied: Option<T>, current: T): (r: T)
    ensures supplied.Some? ==> r == supplied.value
    ensures supplied.None? ==> r == current
  {
    if Differs(supplied, current) then supplied.value else current
  }

  /** The organization after the update: supplied fields take their new values, all others are kept. */
  function Applied(o: Organization, u: OrganizationUpdate): (r: Organization)
    ensures r.name == Pick(u.name, o.name)
    ensures r.domain == (if u.domain.Some? then u.domain else o.domain)
    ensures r.isActive == Pick(u.isActive, o.isActive)
    ensures r.autoGenerateSummaries == Pick(u.autoGenerateSummaries, o.autoGenerateSummaries)
    ensures r.emailNotifications == Pick(u.emailNotifications, o.emailNotifications)
    ensures r.requireApproval == Pick(u.requireApproval, o.requireApproval)
    ensures r.twoFactorAuth == Pick(u.twoFactorAuth, o.twoFactorAuth)
    ensures r.documentRetentionDays == Pick(u.documentRetentionDays, o.documentRetentionDays)
    ensures r.allowDataExport == Pick(u.allowDataExport, o.allowDataExport)
    ensures r.(name := o.name, domain := o.domain, isActive := o.isActive,
               autoGenerateSummaries := o.autoGenerateSummaries, emailNotifications := o.emailNotifications,
               requireApproval := o.requireApproval, twoFactorAuth := o.twoFactorAuth,
               documentRetentionDays := o.documentRetentionDays, allowDataExport := o.allowDataExport) == o
  {
    o.(name := Pick(u.name, o.name),
       domain := if u.domain.Some? then u.domain else o.domain,
       isActive := Pick(u.isActive, o.isActive),
       autoGenerateSummaries := Pick(u.autoGenerateSummaries, o.autoGenerateSummaries),
       emailNotifications := Pick(u.emailNotifications, o.emailNotifications),
       requireApproval := Pick(u.requireApproval, o.requireApproval),
       twoFactorAuth := Pick(u.twoFactorAuth, o.twoFactorAuth),
       documentRetentionDays := Pick(u.documentRetentionDays, o.documentRetentionDays),
       allowDataExport := Pick(u.allowDataExport, o.allowDataExport))
  }

  function ActiveText(b: bool): string
  {
    if b then "active" else "inactive"
  }

  /** `[line]` when the field changes, `[]` otherwise. */
  function When(changed: bool, line: string): seq<string>
  {
    if changed then [line] else []
  }

  /** The change line of a boolean setting, `f"{field}: {old} → {new}"` with Python's `True`/`False`. */
  function BoolLine(field: string, from: bool, to: bool): string
  {
    field + ": " + BoolToString(from) + ARROW + BoolToString(to)
  }

  function BoolChange(field: string, supplied: Option<bool>, current: bool): seq<string>
  {
    When(Differs(supplied, current), BoolLine(field, current, Pick(supplied, current)))
  }

  function NameLine(from: string, to: string): string
  {
    "name: " + from + ARROW + to
  }

  function DomainLine(from: Option<string>, to: string): string
  {
    "domain: " + OrElse(from, "none") + ARROW + to
  }

  function StatusLine(from: bool, to: bool): string
  {
    "status: " + ActiveText(from) + ARROW + ActiveText(to)
  }

  function RetentionLine(from: int, to: int): string
  {
    "document retention: " + IntToString(from) + ARROW + IntToString(to) + " days"
  }

  /** The change lines of name, domain and status. A missing or empty old domain is written "none". */
  function BasicChanges(o: Organization, u: OrganizationUpdate): seq<string>
  {
    When(Differs(u.name, o.name), NameLine(o.name, Pick(u.name, o.name)))
    + When(u.domain.Some? && Some(u.domain.value) != o.domain, DomainLine(o.domain, if u.domain.Some? then u.domain.value else ""))
    + When(Differs(u.isActive, o.isActive), StatusLine(o.isActive, Pick(u.isActive, o.isActive)))
  }

  /** The change lines of the six settings, in their order. */
  function SettingsChanges(o: Organization, u: OrganizationUpdate): seq<string>
  {
    BoolChange("auto-generate summaries", u.autoGenerateSummaries, o.autoGenerateSummaries)
    + BoolChange("email notifications", u.emailNotifications, o.emailNotifications)
    + BoolChange("require approval", u.requireApproval, o.requireApproval)
    + BoolChange("two-factor auth", u.twoFactorAuth, o.twoFactorAuth)
    + When(Differs(u.documentRetentionDays, o.documentRetentionDays),
           RetentionLine(o.documentRetentionDays, Pick(u.documentRetentionDays, o.documentRetentionDays)))
    + BoolChange("allow data export", u.allowDataExport, o.allowDataExport)
  }

  /**
   * The change lines in their fixed order: name, domain, status, auto-generate, email
   * notifications, approval, two-factor auth, retention, data export.
   */
  function Changes(o: Organization, u: OrganizationUpdate): (c: seq<string>)
  {
    BasicChanges(o, u) + SettingsChanges(o, u)
  }

  /** There is a change line exactly when the update changes the organization. */
  lemma ChangesEmptyIffUnchanged(o: Organization, u: OrganizationUpdate)
    ensures Changes(o, u) == [] <==> Applied(o, u) == o
  {
    if Applied(o, u) == o {
      assert Applied(o, u).name == o.name && Applied(o, u).domain == o.domain;
      assert Applied(o, u).documentRetentionDays == o.documentRetentionDays;
    }
  }

  /** Sending the same update again changes nothing and produces no change line. */
  lemma ReapplyIsNoop(o: Organization, u: OrganizationUpdate)
    ensures Applied(Applied(o, u), u) == Applied(o, u)
    ensures Changes(Applied(o, u), u) == []
  {
    ChangesEmptyIffUnchanged(Applied(o, u), u);
  }

  /** Setting a domain on an organization without one records "none" as the old domain. */
  lemma DomainFromNone(o: Organization, d: string)
    requires o.domain == None
    ensures Changes(o, OrganizationUpdate(None, Some(d), None, None, None, None, None, None, None)) == ["domain: none" + ARROW + d]
  {
    assert "domain: " + "none" == "domain: none";
    assert DomainLine(None, d) == "domain: none" + ARROW + d;
  }

  /**
   * One boolean setting of the walk: when supplied and different it is overwritten and its
   * line is appended to `changes`.
   */
  method TrackBool(changes: seq<string>, field: string, supplied: Option<bool>, current: bool)
    returns (value: bool, after: seq<string>)
    ensures value == Pick(supplied, current)
    ensures after == changes + BoolChange(field, supplied, current)
  {
    value := current;
    after := changes;
    if supplied.Some? && supplied.value != current {
      after := after + [BoolLine(field, current, supplied.value)];
      value := supplied.value;
    }
  }

  /** The first part of the walk: name, domain and active status. */
  method TrackBasic(original: Organization, u: OrganizationUpdate)
    returns (name: string, domain: Option<string>, isActive: bool, changes: seq<string>)
    ensures name == Pick(u.name, original.name)
    ensures domain == (if u.domain.Some? then u.domain else original.domain)
    ensures isActive == Pick(u.isActive, original.isActive)
    ensures changes == BasicChanges(original, u)
  {
    name, domain, isActive := original.name, original.domain, original.isActive;
    changes := [];
    if u.name.Some? && u.name.value != name {
      changes := changes + [NameLine(name, u.name.value)];
      name := u.name.value;
    }
    var prefix := changes;
    if u.domain.Some? && Some(u.domain.value) != domain {
      changes := changes + [DomainLine(domain, u.domain.value)];
      domain := u.domain;
    }
    assert changes == prefix + When(u.domain.Some? && Some(u.domain.value) != original.domain,
      DomainLine(original.domain, if u.domain.Some? then u.domain.value else ""));
    prefix := changes;
    if u.isActive.Some? && u.isActive.value != isActive {
      changes := changes + [StatusLine(isActive, u.isActive.value)];
      isActive := u.isActive.value;
    }
    assert changes == prefix + When(Differs(u.isActive, original.isActive),
      StatusLine(original.isActive, Pick(u.isActive, original.isActive)));
  }

  /** The document-retention step of the walk. */
  method TrackRetention(changes: seq<string>, supplied: Option<int>, current: int)
    returns (value: int, after: seq<string>)
    ensures value == Pick(supplied, current)
    ensures after == changes + When(Differs(supplied, current), RetentionLine(current, Pick(supplied, current)))
  {
    value := current;
    after := changes;
    if supplied.Some? && supplied.value != current {
      after := after + [RetentionLine(current, supplied.value)];
      value := supplied.value;
    }
  }

  /**
   * The walk over the fields in their fixed order: each one supplied and different from the
   * stored value is overwritten and recorded.
   */
  method TrackChanges(original: Organization, u: OrganizationUpdate) returns (o: Organization, changes: seq<string>)
    ensures o == Applied(original, u)
    ensures changes == Changes(original, u)
  {
    var name, domain, isActive, basic := TrackBasic(original, u);
    var autoGenerate, notifications, approval, twoFactor, retention, dataExport;
    var c1, c2, c3, c4, c5, c6;
    autoGenerate, c1 := TrackBool([], "auto-generate summaries", u.autoGenerateSummaries, original.autoGenerateSummaries);
    notifications, c2 := TrackBool(c1, "email notifications", u.emailNotifications, original.emailNotifications);
    approval, c3 := TrackBool(c2, "require approval", u.requireApproval, original.requireApproval);
    twoFactor, c4 := TrackBool(c3, "two-factor auth", u.twoFactorAuth, original.twoFactorAuth);
    retention, c5 := TrackRetention(c4, u.documentRetentionDays, original.documentRetentionDays);
    dataExport, c6 := TrackBool(c5, "allow data export", u.allowDataExport, original.allowDataExport);
    assert c1 == BoolChange("auto-generate summaries", u.autoGenerateSummaries, original.autoGenerateSummaries);
    assert c6 == SettingsChanges(original, u);
    changes := basic + c6;
    o := original.(name := name, domain := domain, isActive := isActive,
                   autoGenerateSummaries := autoGenerate, emailNotifications := notifications,
                   requireApproval := approval, twoFactorAuth := twoFactor,
                   documentRetentionDays := retention, allowDataExport := dataExport);
  }

  /**
   * `PUT /organizations/`: walks the fields in order, overwriting each one that is supplied
   * and differs and recording a change line for it, then appends one SETTINGS_UPDATE entry
   * joining the lines with ", " when there is at least one. When the caller's organization
   * does not exist the endpoint fails with an unhandled error.
   */
  method UpdateOrganization(db: Database, caller: User, u: OrganizationUpdate, logId: Id, now: Time)
    returns (resp: Response<Organization>)
    requires caller.role == Admin
    requires db.Valid()
    requires logId !in db.activityLogs
    modifies db
    ensures db.Valid()
    ensures caller.organizationId !in old(db.organizations) ==> resp == Unhandled() && db.State() == old(db.State())
    ensures caller.organizationId in old(db.organizations) ==>
      var o := old(db.organizations[caller.organizationId]);
      var changes := Changes(o, u);
      && resp == Ok(Applied(o, u))
      && db.organizations == old(db.organizations)[caller.organizationId := Applied(o, u)]
      && (changes != [] ==> db.activityLogs == old(db.activityLogs)[logId := Entry(logId, caller, SettingsUpdate, SETTINGS_TARGET, Some(Join(changes, ", ")), now)])
      && (changes == [] ==> db.activityLogs == old(db.activityLogs))
      && db.State().(organizations := old(db.organizations), activityLogs := old(db.activityLogs)) == old(db.State())
  {
    if caller.organizationId !in db.organizations {
      return Unhandled();
    }
    var original := db.organizations[caller.organizationId];
    var o, changes := TrackChanges(original, u);
    db.organizations := db.organizations[caller.organizationId := o];
    if |changes| > 0 {
      var _ := LogActivity(db, caller, SettingsUpdate, SETTINGS_TARGET, Some(Join(changes, ", ")), logId, now);
    }
    resp := Ok(o);
  }

  /** `DELETE /organizations/`: removes the caller's organization and names it in the message. */
  method DeleteOrganization(db: Database, caller: User) returns (resp: Response<string>)
    requires caller.role == Admin
    requires db.Valid()
    modifies db
    ensures db.Valid()
    ensures caller.organizationId !in old(db.organizations) ==> resp == Fail(NOT_FOUND, ORG_NOT_FOUND) && db.State() == old(db.State())
    ensures caller.organizationId in old(db.organizations) ==>
      && resp == Ok("Organization '" + old(db.organizations[caller.organizationId].name) + "' and all associated data have been deleted")
      && db.State() == old(db.State()).(organizations := old(db.organizations) - {caller.organizationId})
  {
    if caller.organizationId !in db.organizations {
      return Fail(NOT_FOUND, ORG_NOT_FOUND);
    }
    var name := db.organizations[caller.organizationId].name;
    db.organizations := db.organizations - {caller.organizationId};
    resp := Ok("Organization '" + name + "' and all associated data have been deleted");
  }
}
