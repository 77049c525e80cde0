/** `GET /activity/`: the organization's audit log, newest first, with each actor's name. */
module ActivityEndpoint {
  import opened Common
  import opened UserModel
  import opened Records
  import opened Store
  import opened Tables

  /** The page size when the caller gives none. */
  const DEFAULT_LIMIT: nat := 50

  const UNKNOWN_USER: string := "Unknown User"

  /** One entry of the response: the stored row with the actor's name beside it. */
  datatype ActivityView = ActivityView(
    id: Id,
    userId: Id,
    organizationId: Id,
    actionType: ActivityType,
    target: string,
    details: Option<string>,
    createdAt: Time,
    userName: Option<string>
  )

  function OfOrganization(org: Id): ActivityLog -> bool
  {
    (a: ActivityLog) => a.organizationId == org
  }

  /**
   * The view of one entry: the columns as stored, and the actor's full name, which may be
   * empty, or "Unknown User" when the actor is gone.
   */
  function View(a: ActivityLog, users: map<Id, User>): (v: ActivityView)
    ensures v.id == a.id && v.userId == a.userId && v.organizationId == a.organizationId
    ensures v.actionType == a.actionType && v.target == a.target && v.details == a.details && v.createdAt == a.createdAt
    ensures a.userId in users ==> v.userName == users[a.userId].fullName
    ensures a.userId !in users ==> v.userName == Some(UNKNOWN_USER)
  {
    ActivityView(a.id, a.userId, a.organizationId, a.actionType, a.target, a.details, a.createdAt,
                 if a.userId in users then users[a.userId].fullName else Some(UNKNOWN_USER))
  }

  /**
   * Lists the newest `limit` entries of the caller's organization, newest first, each as its
   * view; when fewer than `limit` exist, all of them.
   */
  method ListActivityLogs(db: Database, caller: User, limit: nat, scan: seq<Id>) returns (r: seq<ActivityView>)
    requires IsScanOf(scan, db.activityLogs)
    ensures var rows := Latest(RowsOf(scan, db.activityLogs), OfOrganization(caller.organizationId), ActivityCreatedAt, limit);
      |r| == |rows| && forall i :: 0 <= i < |r| ==> r[i] == View(rows[i], db.users)
    ensures |r| <= limit
    ensures forall i :: 0 <= i < |r| ==> r[i].organizationId == caller.organizationId
    ensures forall i, j :: 0 <= i < j < |r| ==> r[i].createdAt >= r[j].createdAt
  {
    var rows := Latest(RowsOf(scan, db.activityLogs), OfOrganization(caller.organizationId), ActivityCreatedAt, limit);
    r := Views(rows, db.users);
    assert forall i, j :: 0 <= i < j < |r| ==> ActivityCreatedAt(rows[i]) >= ActivityCreatedAt(rows[j]);
    forall i | 0 <= i < |r|
      ensures r[i].organizationId == caller.organizationId
    {
      assert rows[i] in rows;
      assert OfOrganization(caller.organizationId)(rows[i]);
    }
  }

  /** The loop of the endpoint: one view per entry, in the entries' order. */
  method Views(rows: seq<ActivityLog>, users: map<Id, User>) returns (r: seq<ActivityView>)
    ensures |r| == |rows| && forall i :: 0 <= i < |r| ==> r[i] == View(rows[i], users)
  {
    r := [];
    for i := 0 to |rows|
      invariant |r| == i
      invariant forall k :: 0 <= k < i ==> r[k] == View(rows[k], users)
    {
      var a := rows[i];
      var actor := Lookup(users, a.userId);
      var name := if actor.Some? then actor.value.fullName else Some(UNKNOWN_USER);
      r := r + [ActivityView(a.id, a.userId, a.organizationId, a.actionType, a.target, a.details, a.createdAt, name)];
    }
  }
}
