/** The `organizations` table: a tenant, its subscription and its workspace settings. */
module OrganizationModel {
  import opened Common

  datatype Organization = Organization(
    id: Id,
    name: string,
    domain: Option<string>,
    stripeCustomerId: Option<string>,
    stripeSubscriptionId: Option<string>,
    subscriptionStatus: string,
    planType: string,
    summariesLimit: int,
    summariesUsedCurrentMonth: int,
    autoGenerateSummaries: bool,
    emailNotifications: bool,
    requireApproval: bool,
    twoFactorAuth: bool,
    documentRetentionDays: int,
    allowDataExport: bool,
    isActive: bool,
    createdAt: Time
  )

  /** A row inserted with only its id, name and creation time: every other column takes its default. */
  function NewOrganization(id: Id, name: string, createdAt: Time): (o: Organization)
    ensures o.id == id && o.name == name && o.createdAt == createdAt
    ensures o.domain == None && o.stripeCustomerId == None && o.stripeSubscriptionId == None
    ensures o.subscriptionStatus == "trial" && o.planType == "basic"
    ensures o.summariesLimit == 100 && o.summariesUsedCurrentMonth == 0
    ensures o.autoGenerateSummaries && !o.emailNotifications && !o.requireApproval && !o.twoFactorAuth
    ensures o.documentRetentionDays == 90 && o.allowDataExport && o.isActive
  {
    Organization(
      id := id, name := name, domain := None,
      stripeCustomerId := None, stripeSubscriptionId := None,
      subscriptionStatus := "trial", planType := "basic",
      summariesLimit := 100, summariesUsedCurrentMonth := 0,
      autoGenerateSummaries := true, emailNotifications := false,
      requireApproval := false, twoFactorAuth := false,
      documentRetentionDays := 90, allowDataExport := true,
      isActive := true, createdAt := createdAt)
  }

  /** `can_create_summary`: this month's usage is still below the plan's limit. */
  predicate CanCreateSummary(o: Organization)
  {
    o.summariesUsedCurrentMonth < o.summariesLimit
  }

  /** `increment_summary_usage`: one more summary this month. */
  function IncrementSummaryUsage(o: Organization): (r: Organization)
    ensures r.summariesUsedCurrentMonth == o.summariesUsedCurrentMonth + 1
    ensures r.(summariesUsedCurrentMonth := o.summariesUsedCurrentMonth) == o
  {
    o.(summariesUsedCurrentMonth := o.summariesUsedCurrentMonth + 1)
  }

  /** Usage within the limit. */
  predicate WithinQuota(o: Organization)
  {
    0 <= o.summariesUsedCurrentMonth <= o.summariesLimit
  }

  /**
   * An increment guarded by `can_create_summary` keeps usage within the limit, and it
   * reaches the limit exactly when it uses the last allowed summary.
   */
  lemma GuardedIncrementStaysWithinQuota(o: Organization)
    requires WithinQuota(o)
    requires CanCreateSummary(o)
    ensures WithinQuota(IncrementSummaryUsage(o))
    ensures !CanCreateSummary(IncrementSummaryUsage(o)) <==> o.summariesUsedCurrentMonth + 1 == o.summariesLimit
  {
  }

  /** A new organization can create at most `summariesLimit` summaries before the guard refuses. */
  lemma {:induction false} QuotaRunsOut(o: Organization, k: nat)
    requires WithinQuota(o)
    requires k == o.summariesLimit - o.summariesUsedCurrentMonth
    ensures !CanCreateSummary(Repeat(o, k)) && WithinQuota(Repeat(o, k))
    ensures forall j :: 0 <= j < k ==> CanCreateSummary(Repeat(o, j))
    decreases k
  {
    if k > 0 {
      QuotaRunsOut(IncrementSummaryUsage(o), k - 1);
      RepeatUsage(o, k);
      forall j | 0 <= j < k
        ensures CanCreateSummary(Repeat(o, j))
      {
        RepeatUsage(o, j);
      }
    } else {
      RepeatUsage(o, 0);
    }
  }

  /** `k` guarded increments applied one after another. */
  function Repeat(o: Organization, k: nat): Organization
    decreases k
  {
    if k == 0 then o else Repeat(IncrementSummaryUsage(o), k - 1)
  }

  lemma {:induction false} RepeatUsage(o: Organization, k: nat)
    ensures Repeat(o, k) == o.(summariesUsedCurrentMonth := o.summariesUsedCurrentMonth + k)
    decreases k
  {
    if k > 0 {
      RepeatUsage(IncrementSummaryUsage(o), k - 1);
    }
  }
}
