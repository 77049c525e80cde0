/**
 * The `/analytics` endpoints behind the dashboard: the organization's counters, its most
 * recent documents and its daily summary counts over the last 30 days. Storage in
 * gigabytes is a float and is not modelled; its byte total is.
 */
module AnalyticsEndpoint {
  import opened Common
  import opened OrganizationModel
  import opened UserModel
  import opened Records
  import opened Store
  import opened Tables

  /** One day in milliseconds. */
  const DAY: int := 86400000

  /** The quota assumed when the caller's organization is missing. */
  const FALLBACK_LIMIT: int := 100

  // ---------------------------------------------------------------------------
  // stats

  datatype DashboardStats = DashboardStats(
    documentsProcessed: nat,
    summariesThisMonth: nat,
    summariesRemaining: nat,
    activeTeamMembers: nat,
    totalBytes: int
  )

  /** `max(0, limit - used)`: what is left of the quota, never negative. */
  function Remaining(limit: int, used: nat): (r: nat)
    ensures r == 0 <==> used >= limit
    ensures r > 0 ==> used + r == limit
    ensures r >= limit - used
  {
    if limit - used > 0 then limit - used else 0
  }

  function DocumentOfOrg(org: Id): Document -> bool
  {
    (d: Document) => d.organizationId == org
  }

  function SummaryOfOrgSince(org: Id, since: Time): Summary -> bool
  {
    (s: Summary) => s.organizationId == org && s.createdAt >= since
  }

  function ActiveMemberOf(org: Id): User -> bool
  {
    (u: User) => u.organizationId == org && u.isActive
  }

  /** `func.sum(file_size) or 0`. */
  function TotalSize(docs: seq<Document>): (r: int)
    ensures |docs| == 0 ==> r == 0
    ensures (forall i :: 0 <= i < |docs| ==> docs[i].fileSize >= 0) ==>
      r >= 0 && forall i :: 0 <= i < |docs| ==> docs[i].fileSize <= r
  {
    if |docs| == 0 then 0 else docs[0].fileSize + TotalSize(docs[1..])
  }

  /** The quota the stats compare against: the organization's, or 100 when it is missing. */
  function StatsLimit(organizations: map<Id, Organization>, org: Id): (limit: int)
    ensures org !in organizations ==> limit == FALLBACK_LIMIT
    ensures org in organizations ==> limit == organizations[org].summariesLimit
  {
    if org in organizations then organizations[org].summariesLimit else FALLBACK_LIMIT
  }

  /**
   * `GET /analytics/stats`: the organization's documents, its summaries since `monthStart`
   * (the first instant of the current month), the quota left, its active members and the
   * bytes its documents take. Every count is taken over the caller's organization only.
   */
  method GetDashboardStats(db: Database, caller: User, monthStart: Time, docScan: seq<Id>, summaryScan: seq<Id>, userScan: seq<Id>)
    returns (s: DashboardStats)
    requires IsScanOf(docScan, db.documents) && IsScanOf(summaryScan, db.summaries) && IsScanOf(userScan, db.users)
    ensures s.documentsProcessed == Count(RowsOf(docScan, db.documents), DocumentOfOrg(caller.organizationId))
    ensures s.summariesThisMonth == Count(RowsOf(summaryScan, db.summaries), SummaryOfOrgSince(caller.organizationId, monthStart))
    ensures s.summariesRemaining == Remaining(StatsLimit(db.organizations, caller.organizationId), s.summariesThisMonth)
    ensures s.activeTeamMembers == Count(RowsOf(userScan, db.users), ActiveMemberOf(caller.organizationId))
    ensures s.totalBytes == TotalSize(Filter(RowsOf(docScan, db.documents), DocumentOfOrg(caller.organizationId)))
  {
    var org := caller.organizationId;
    var documents := Count(RowsOf(docScan, db.documents), DocumentOfOrg(org));
    var thisMonth := Count(RowsOf(summaryScan, db.summaries), SummaryOfOrgSince(org, monthStart));
    var limit := if org in db.organizations then db.organizations[org].summariesLimit else FALLBACK_LIMIT;
    var remaining := if limit - thisMonth > 0 then limit - thisMonth else 0;
    var members := Count(RowsOf(userScan, db.users), ActiveMemberOf(org));
    var bytes := TotalSize(Filter(RowsOf(docScan, db.documents), DocumentOfOrg(org)));
    s := DashboardStats(documents, thisMonth, remaining, members, bytes);
  }

  /** What the quota shows is consistent with the counter: it is exhausted exactly when the month's count reached the limit. */
  lemma RemainingMatchesQuota(o: Organization, thisMonth: nat)
    requires thisMonth == o.summariesUsedCurrentMonth
    ensures Remaining(o.summariesLimit, thisMonth) > 0 <==> CanCreateSummary(o)
  {
  }

  // ---------------------------------------------------------------------------
  // recent documents

  /** One line of the recent-documents card. */
  datatype RecentDocument = RecentDocument(id: Id, name: string, status: string, uploadedBy: string, uploadedAt: Time, size: int)

  /**
   * The newest `limit` documents of the organization, newest first: all of them when it has
   * fewer, and every document of it newer than the last one listed is listed.
   */
  function Newest(rows: seq<Document>, org: Id, limit: nat): (r: seq<Document>)
    ensures |r| == Min(limit, Count(rows, DocumentOfOrg(org)))
    ensures SortedDesc(r, DocumentCreatedAt)
    ensures forall d :: d in r ==> d in rows && d.organizationId == org
    ensures multiset(r) <= multiset(Filter(rows, DocumentOfOrg(org)))
    ensures |r| < limit ==> forall d :: d in rows && d.organizationId == org ==> d in r
    ensures |r| > 0 ==> forall d :: d in rows && d.organizationId == org && d.createdAt > r[|r| - 1].createdAt ==> d in r
  {
    LatestOfOrg(rows, org, limit);
    Latest(rows, DocumentOfOrg(org), DocumentCreatedAt, limit)
  }

  /** `Latest`'s guarantees with the organization filter and the timestamp key spelled out. */
  lemma LatestOfOrg(rows: seq<Document>, org: Id, limit: nat)
    ensures var r := Latest(rows, DocumentOfOrg(org), DocumentCreatedAt, limit);
      && (forall d :: d in r ==> d in rows && d.organizationId == org)
      && (|r| < limit ==> forall d :: d in rows && d.organizationId == org ==> d in r)
      && (|r| > 0 ==> forall d :: d in rows && d.organizationId == org && d.createdAt > r[|r| - 1].createdAt ==> d in r)
  {
    var r := Latest(rows, DocumentOfOrg(org), DocumentCreatedAt, limit);
    forall d | d in r
      ensures d in rows && d.organizationId == org
    {
      assert DocumentOfOrg(org)(d);
    }
    if |r| < limit {
      forall d | d in rows && d.organizationId == org
        ensures d in r
      {
        assert DocumentOfOrg(org)(d);
      }
    }
    if |r| > 0 {
      forall d | d in rows && d.organizationId == org && d.createdAt > r[|r| - 1].createdAt
        ensures d in r
      {
        assert DocumentOfOrg(org)(d) && DocumentCreatedAt(d) > DocumentCreatedAt(r[|r| - 1]);
      }
    }
  }

  /** Some summary, of any organization, is about this document. */
  predicate Summarized(summaries: map<Id, Summary>, documentId: Id)
  {
    exists k :: k in summaries && summaries[k].documentId == documentId
  }

  /** The uploader's name: the full name, or the email when it is empty; "Unknown" when the user is gone. */
  function UploaderName(uploader: Option<User>): (r: string)
    ensures uploader.None? ==> r == "Unknown"
    ensures uploader.Some? && uploader.value.fullName.Some? && uploader.value.fullName.value != "" ==> r == uploader.value.fullName.value
    ensures uploader.Some? && (uploader.value.fullName.None? || uploader.value.fullName.value == "") ==> r == uploader.value.email
  {
    if uploader.Some? then OrElse(uploader.value.fullName, uploader.value.email) else "Unknown"
  }

  /** The line shown for one document. */
  function RecentEntry(d: Document, users: map<Id, User>, summaries: map<Id, Summary>): (e: RecentDocument)
    ensures e.id == d.id && e.name == d.originalFilename && e.uploadedAt == d.createdAt && e.size == d.fileSize
    ensures e.status == "completed" <==> Summarized(summaries, d.id)
    ensures e.status == "completed" || e.status == "processing"
    ensures d.uploadedBy !in users ==> e.uploadedBy == "Unknown"
    ensures d.uploadedBy in users ==> e.uploadedBy == OrElse(users[d.uploadedBy].fullName, users[d.uploadedBy].email)
  {
    RecentDocument(d.id, d.originalFilename, if Summarized(summaries, d.id) then "completed" else "processing",
                   UploaderName(Lookup(users, d.uploadedBy)), d.createdAt, d.fileSize)
  }

  /**
   * `GET /analytics/recent-documents` with the uploader named by the user's own columns: the
   * newest `limit` documents of the organization (by default 5), newest first, each with its
   * summary status and uploader.
   */
  method GetRecentDocuments(db: Database, caller: User, limit: nat, scan: seq<Id>) returns (r: seq<RecentDocument>)
    requires IsScanOf(scan, db.documents)
    ensures var docs := Newest(RowsOf(scan, db.documents), caller.organizationId, limit);
      |r| == |docs| && forall i :: 0 <= i < |r| ==> r[i] == RecentEntry(docs[i], db.users, db.summaries)
    ensures |r| <= limit
    ensures forall i, j :: 0 <= i < j < |r| ==> r[i].uploadedAt >= r[j].uploadedAt
  {
    var docs := Newest(RowsOf(scan, db.documents), caller.organizationId, limit);
    r := Entries(docs, db.users, db.summaries);
    assert forall i, j :: 0 <= i < j < |r| ==> DocumentCreatedAt(docs[i]) >= DocumentCreatedAt(docs[j]);
  }

  /** The loop of the endpoint: one line per document, in the documents' order. */
  method Entries(docs: seq<Document>, users: map<Id, User>, summaries: map<Id, Summary>) returns (r: seq<RecentDocument>)
    ensures |r| == |docs| && forall i :: 0 <= i < |r| ==> r[i] == RecentEntry(docs[i], users, summaries)
  {
    r := [];
    for i := 0 to |docs|
      invariant |r| == i
      invariant forall k :: 0 <= k < i ==> r[k] == RecentEntry(docs[k], users, summaries)
    {
      var d := docs[i];
      var summarized := exists k :: k in summaries && summaries[k].documentId == d.id;
      var uploader := Lookup(users, d.uploadedBy);
      var name := if uploader.Some? then OrElse(uploader.value.fullName, uploader.value.email) else "Unknown";
      r := r + [RecentDocument(d.id, d.originalFilename, if summarized then "completed" else "processing", name, d.createdAt, d.fileSize)];
    }
  }

  /**
   * What the endpoint does as written: it reads `first_name` and `last_name`, which users do
   * not have, so any listed document whose uploader still exists makes it fail unhandled;
   * only documents of deleted users are listed, as "Unknown".
   */
  function RecentAsWritten(docs: seq<Document>, users: map<Id, User>, summaries: map<Id, Summary>): (r: Response<seq<RecentDocument>>)
    ensures r.Ok? ==> |r.value| == |docs| && forall i :: 0 <= i < |docs| ==> r.value[i].uploadedBy == "Unknown" && r.value[i] == RecentEntry(docs[i], users, summaries)
    ensures r.Error? <==> exists i :: 0 <= i < |docs| && docs[i].uploadedBy in users
    ensures r.Error? ==> r == Unhandled()
  {
    if |docs| == 0 then Ok([])
    else if docs[0].uploadedBy in users then Unhandled()
    else
      match RecentAsWritten(docs[1..], users, summaries)
      case Ok(rest) =>
        assert forall i :: 1 <= i < |docs| ==> docs[i] == docs[1..][i - 1];
        Ok([RecentEntry(docs[0], users, summaries)] + rest)
      case Error(s, d, h) =>
        var j :| 0 <= j < |docs[1..]| && docs[1..][j].uploadedBy in users;
        assert docs[j + 1].uploadedBy in users;
        Error(s, d, h)
  }

  /** The loop as written: the first document whose uploader exists raises. */
  method EntriesAsWritten(docs: seq<Document>, users: map<Id, User>, summaries: map<Id, Summary>) returns (resp: Response<seq<RecentDocument>>)
    ensures resp == RecentAsWritten(docs, users, summaries)
  {
    var r: seq<RecentDocument> := [];
    for i := 0 to |docs|
      invariant |r| == i
      invariant forall k :: 0 <= k < i ==> docs[k].uploadedBy !in users && r[k] == RecentEntry(docs[k], users, summaries)
    {
      var d := docs[i];
      if d.uploadedBy in users {
        return Unhandled();
      }
      var summarized := exists k :: k in summaries && summaries[k].documentId == d.id;
      r := r + [RecentDocument(d.id, d.originalFilename, if summarized then "completed" else "processing", "Unknown", d.createdAt, d.fileSize)];
    }
    AsWrittenSucceeds(docs, users, summaries, r);
    resp := Ok(r);
  }

  /** When no listed uploader exists, the as-written card lists every document. */
  lemma AsWrittenSucceeds(docs: seq<Document>, users: map<Id, User>, summaries: map<Id, Summary>, r: seq<RecentDocument>)
    requires |r| == |docs|
    requires forall k :: 0 <= k < |docs| ==> docs[k].uploadedBy !in users && r[k] == RecentEntry(docs[k], users, summaries)
    ensures RecentAsWritten(docs, users, summaries) == Ok(r)
  {
    var w := RecentAsWritten(docs, users, summaries);
    assert w.Ok?;
    assert w.value == r;
  }

  /** `GET /analytics/recent-documents` as written. */
  method GetRecentDocumentsAsWritten(db: Database, caller: User, limit: nat, scan: seq<Id>) returns (resp: Response<seq<RecentDocument>>)
    requires IsScanOf(scan, db.documents)
    ensures resp == RecentAsWritten(Newest(RowsOf(scan, db.documents), caller.organizationId, limit), db.users, db.summaries)
  {
    var docs := Newest(RowsOf(scan, db.documents), caller.organizationId, limit);
    resp := EntriesAsWritten(docs, db.users, db.summaries);
  }

  /**
   * The discrepancy on one document uploaded by an existing member: as written the card fails
   * unhandled, while the intended version names the uploader.
   */
  lemma KnownUploaderBreaksRecentDocuments(d: Document, u: User)
    requires d.uploadedBy == u.id
    ensures RecentAsWritten([d], map[u.id := u], map[]) == Unhandled()
    ensures RecentEntry(d, map[u.id := u], map[]).uploadedBy == OrElse(u.fullName, u.email)
  {
    assert [d][0].uploadedBy in map[u.id := u];
  }

  // ---------------------------------------------------------------------------
  // usage over time

  /** One day of the usage chart: the day's start and the organization's summaries in it. */
  datatype UsagePoint = UsagePoint(date: Time, summaries: nat)

  /** The organization's summaries created in `[from, to)`. */
  function InWindow(org: Id, from: Time, to: Time): Summary -> bool
  {
    (s: Summary) => s.organizationId == org && from <= s.createdAt < to
  }

  /** The chart's entry for day `i` of the 30 starting at `start`. */
  function DayPoint(rows: seq<Summary>, org: Id, start: Time, i: int): UsagePoint
  {
    UsagePoint(DayStart(start, i), Count(rows, InWindow(org, DayStart(start, i), DayStart(start, i + 1))))
  }

  /** The first instant of day `i` counted from `start`. */
  function DayStart(start: Time, i: int): Time
  {
    start + i * DAY
  }

  /**
   * `GET /analytics/usage-overtime`: 30 consecutive one-day windows ending with the one that
   * starts at `now`, each with the organization's summaries created in it.
   */
  method GetUsageOverTime(db: Database, caller: User, now: Time, scan: seq<Id>) returns (usage: seq<UsagePoint>)
    requires IsScanOf(scan, db.summaries)
    ensures |usage| == 30
    ensures forall i :: 0 <= i < 30 ==> usage[i] == DayPoint(RowsOf(scan, db.summaries), caller.organizationId, now - 29 * DAY, i)
    ensures usage[29].date == now
  {
    usage := DailyCounts(RowsOf(scan, db.summaries), caller.organizationId, now - 29 * DAY);
  }

  /** The loop of the endpoint: one count per day for 30 days from `start`. */
  method DailyCounts(rows: seq<Summary>, org: Id, start: Time) returns (usage: seq<UsagePoint>)
    ensures |usage| == 30
    ensures forall i :: 0 <= i < 30 ==> usage[i] == DayPoint(rows, org, start, i)
    ensures usage[29].date == start + 29 * DAY
  {
    usage := [];
    for i := 0 to 30
      invariant |usage| == i
      invariant forall k :: 0 <= k < i ==> usage[k] == DayPoint(rows, org, start, k)
    {
      var current := DayStart(start, i);
      var next := current + DAY;
      assert next == DayStart(start, i + 1);
      usage := usage + [UsagePoint(current, Count(rows, InWindow(org, current, next)))];
    }
  }

  /** The counts of the first `k` days. */
  function DaysTotal(rows: seq<Summary>, org: Id, start: Time, k: nat): nat
  {
    if k == 0 then 0 else DaysTotal(rows, org, start, k - 1) + DayPoint(rows, org, start, k - 1).summaries
  }

  /** Counting nothing gives zero. */
  lemma {:induction false} CountEmptyWindow(rows: seq<Summary>, org: Id, t: Time)
    ensures Count(rows, InWindow(org, t, t)) == 0
  {
    if |rows| > 0 {
      CountEmptyWindow(rows[1..], org, t);
    }
  }

  /**
   * The windows are disjoint and contiguous: the day counts add up to the count over the
   * whole span, so no summary is counted twice or falls between two days.
   */
  lemma {:induction false} DaysAddUp(rows: seq<Summary>, org: Id, start: Time, k: nat)
    ensures DaysTotal(rows, org, start, k) == Count(rows, InWindow(org, start, start + k * DAY))
  {
    if k == 0 {
      CountEmptyWindow(rows, org, start);
    } else {
      DaysAddUp(rows, org, start, k - 1);
      var mid := start + (k - 1) * DAY;
      CountSplit(rows, InWindow(org, start, mid), InWindow(org, mid, mid + DAY), InWindow(org, start, start + k * DAY));
    }
  }

  /** A summary of the span lies in exactly one day's window. */
  lemma OneWindowPerSummary(org: Id, start: Time, s: Summary)
    requires InWindow(org, start, start + 30 * DAY)(s)
    ensures var i := (s.createdAt - start) / DAY;
      0 <= i < 30 && InWindow(org, start + i * DAY, start + (i + 1) * DAY)(s)
      && forall j :: 0 <= j < 30 && j != i ==> !InWindow(org, start + j * DAY, start + (j + 1) * DAY)(s)
  {
    var i := (s.createdAt - start) / DAY;
    var off := s.createdAt - start;
    assert i * DAY <= off < (i + 1) * DAY;
    forall j | 0 <= j < 30 && j != i
      ensures !InWindow(org, start + j * DAY, start + (j + 1) * DAY)(s)
    {
      if j < i {
        assert (j + 1) * DAY <= i * DAY;
      } else {
        assert (i + 1) * DAY <= j * DAY;
      }
    }
  }
}
