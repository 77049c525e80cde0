/** The rows of the `documents`, `summaries` and `activity_logs` tables. */
module Records {
  import opened Common

  /** An uploaded file and the text extracted from it; `status` is "uploaded", "completed" or "failed". */
  datatype Document = Document(
    id: Id,
    filename: string,
    originalFilename: string,
    filePath: string,
    fileType: string,
    fileSize: int,
    extractedText: Option<string>,
    pageCount: Option<int>,
    organizationId: Id,
    uploadedBy: Id,
    status: string,
    createdAt: Time
  )

  /** A generated summary of one document. */
  datatype Summary = Summary(
    id: Id,
    documentId: Id,
    summaryText: string,
    summaryType: string,
    tokensUsed: Option<int>,
    organizationId: Id,
    createdAt: Time
  )

  /** `ActivityType`: the kinds of action the audit log records. */
  datatype ActivityType = Upload | Delete | Invite | RoleChange | SettingsUpdate | WorkspaceCreate | SummaryCreate

  /** The enum's string value, as the API serialises it. */
  function ActivityTypeValue(t: ActivityType): string
  {
    match t
    case Upload => "upload"
    case Delete => "delete"
    case Invite => "invite"
    case RoleChange => "role_change"
    case SettingsUpdate => "settings_update"
    case WorkspaceCreate => "workspace_create"
    case SummaryCreate => "summary_create"
  }

  /** Distinct activity types have distinct values. */
  lemma ActivityTypeValueInjective(t: ActivityType, u: ActivityType)
    ensures ActivityTypeValue(t) == ActivityTypeValue(u) ==> t == u
  {
  }

  /** One audit-log entry: who did what to which target, in which organization. */
  datatype ActivityLog = ActivityLog(
    id: Id,
    userId: Id,
    actionType: ActivityType,
    target: string,
    details: Option<string>,
    organizationId: Id,
    createdAt: Time
  )

  function DocumentCreatedAt(d: Document): int { d.createdAt }
  function SummaryCreatedAt(s: Summary): int { s.createdAt }
  function ActivityCreatedAt(a: ActivityLog): int { a.createdAt }
}
