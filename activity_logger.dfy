/** `log_activity`: appends one audit-log entry on behalf of a user. */
module ActivityLogger {
  import opened Common
  import opened UserModel
  import opened Records
  import opened Store

  /** The entry `log_activity` builds: the actor's id and organization, and the action as given. */
  function Entry(id: Id, user: User, actionType: ActivityType, target: string, details: Option<string>, now: Time): (e: ActivityLog)
    ensures e.userId == user.id && e.organizationId == user.organizationId
    ensures e.actionType == actionType && e.target == target && e.details == details
    ensures e.id == id && e.createdAt == now
  {
    ActivityLog(id, user.id, actionType, target, details, user.organizationId, now)
  }

  /**
   * Adds the entry under the fresh id `id` and changes nothing else. Callers that pass no
   * details pass `None`, the parameter's default.
   */
  method LogActivity(db: Database, user: User, actionType: ActivityType, target: string, details: Option<string>, id: Id, now: Time)
    returns (entry: ActivityLog)
    requires id !in db.activityLogs
    requires db.Valid()
    modifies db
    ensures entry == Entry(id, user, actionType, target, details, now)
    ensures db.State() == old(db.State()).(activityLogs := old(db.activityLogs)[id := entry])
    ensures |db.activityLogs| == |old(db.activityLogs)| + 1
    ensures db.Valid()
  {
    entry := Entry(id, user, actionType, target, details, now);
    db.activityLogs := db.activityLogs[id := entry];
  }
}
