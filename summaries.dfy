/**
 * The `/summaries` endpoints: generate a summary of one of the caller's documents within
 * the organization's monthly quota, and list, read and delete the organization's summaries.
 */
module SummariesEndpoint {
  import opened Common
  import opened Text
  import opened OrganizationModel
  import opened UserModel
  import opened Records
  import opened Store
  import opened Tables
  import opened AiService

  const DOCUMENT_NOT_FOUND: string := "Document not found"
  const TEXT_NOT_AVAILABLE: string := "Document text not available"
  const SUMMARY_NOT_FOUND: string := "Summary not found"
  const SUMMARY_DELETED: string := "Summary deleted successfully"
  const GENERATION_FAILED: string := "Failed to generate summary: "

  /** The 403 detail once the month's quota is used up. */
  function LimitDetail(limit: int): string
  {
    "Monthly summary limit reached (" + IntToString(limit) + "). Please upgrade your plan."
  }

  /** `document.extracted_text` is truthy: present and not empty. */
  predicate HasText(d: Document)
  {
    d.extractedText.Some? && d.extractedText.value != ""
  }

  /**
   * `POST /summaries/`: the checks run in order. An unknown or foreign document is not found,
   * a document without text is refused, a missing organization fails unhandled, an exhausted
   * quota is refused, a failing model call gives 500. Only when all pass is one summary
   * stored and the month's usage raised by one; on every refusal nothing changes.
   */
  method CreateSummary(db: Database, caller: User, documentId: Id, summaryType: string,
                       gemini: (string, int) -> GeminiReply, newId: Id, now: Time)
    returns (resp: Response<Summary>)
    requires db.Valid()
    requires newId !in db.summaries
    modifies db
    ensures db.Valid()
    ensures resp.Error? ==> db.State() == old(db.State())
    ensures old(DocumentIn(db, caller.organizationId, documentId)).None? ==> resp == Fail(NOT_FOUND, DOCUMENT_NOT_FOUND)
    ensures old(DocumentIn(db, caller.organizationId, documentId)).Some? ==>
      var doc := old(db.documents[documentId]);
      var org := caller.organizationId;
      && (!HasText(doc) ==> resp == Fail(BAD_REQUEST, TEXT_NOT_AVAILABLE))
      && (HasText(doc) && org !in old(db.organizations) ==> resp == Unhandled())
      && (HasText(doc) && org in old(db.organizations) ==>
            var o := old(db.organizations[org]);
            var g := Generation(ContextPrefix(doc.originalFilename) + doc.extractedText.value, summaryType, None, gemini);
            && (!CanCreateSummary(o) ==> resp == Fail(FORBIDDEN, LimitDetail(o.summariesLimit)))
            && (CanCreateSummary(o) && g.Failed? ==> resp == Fail(INTERNAL_SERVER_ERROR, GENERATION_FAILED + g.message))
            && (CanCreateSummary(o) && g.Generated? ==>
                  var s := Summary(newId, documentId, g.summary, summaryType, Some(g.tokensUsed), org, now);
                  && resp == Ok(s)
                  && db.State() == old(db.State()).(
                       summaries := old(db.summaries)[newId := s],
                       organizations := old(db.organizations)[org := IncrementSummaryUsage(o)])))
    ensures resp.Ok? ==> old(WithinQuota(db.organizations[caller.organizationId])) ==> WithinQuota(db.organizations[caller.organizationId])
  {
    var doc := DocumentIn(db, caller.organizationId, documentId);
    if doc.None? {
      return Fail(NOT_FOUND, DOCUMENT_NOT_FOUND);
    }
    var text := doc.value.extractedText;
    if text.None? || text.value == "" {
      return Fail(BAD_REQUEST, TEXT_NOT_AVAILABLE);
    }
    if caller.organizationId !in db.organizations {
      return Unhandled();
    }
    var o := db.organizations[caller.organizationId];
    if !CanCreateSummary(o) {
      return Fail(FORBIDDEN, LimitDetail(o.summariesLimit));
    }
    var g := GenerateSummaryWithContext(text.value, doc.value.originalFilename, summaryType, gemini);
    if g.Failed? {
      return Fail(INTERNAL_SERVER_ERROR, GENERATION_FAILED + g.message);
    }
    var s := Summary(newId, documentId, g.summary, summaryType, Some(g.tokensUsed), caller.organizationId, now);
    PutSummary(db, s);
    PutOrganization(db, IncrementSummaryUsage(o));
    resp := Ok(s);
  }

  /** The summaries of one document within one organization. */
  function OfDocument(documentId: Id, org: Id): Summary -> bool
  {
    (s: Summary) => s.documentId == documentId && s.organizationId == org
  }

  function SummaryInOrg(org: Id): Summary -> bool
  {
    (s: Summary) => s.organizationId == org
  }

  /**
   * `GET /summaries/document/{document_id}`: a document outside the caller's organization is
   * not found; otherwise exactly the summaries matching both the document and the organization,
   * in the order the query visits the table.
   */
  method GetDocumentSummaries(db: Database, caller: User, documentId: Id, scan: seq<Id>)
    returns (resp: Response<seq<Summary>>)
    requires IsScanOf(scan, db.summaries)
    ensures DocumentIn(db, caller.organizationId, documentId).None? <==> resp == Fail(NOT_FOUND, DOCUMENT_NOT_FOUND)
    ensures resp.Ok? || resp == Fail(NOT_FOUND, DOCUMENT_NOT_FOUND)
    ensures resp.Ok? ==> forall s :: s in resp.value <==>
      s in db.summaries.Values && s.documentId == documentId && s.organizationId == caller.organizationId
    ensures resp.Ok? ==> resp.value == Filter(RowsOf(scan, db.summaries), OfDocument(documentId, caller.organizationId))
  {
    if DocumentIn(db, caller.organizationId, documentId).None? {
      return Fail(NOT_FOUND, DOCUMENT_NOT_FOUND);
    }
    FilterScan(scan, db.summaries, OfDocument(documentId, caller.organizationId));
    resp := Ok(Filter(RowsOf(scan, db.summaries), OfDocument(documentId, caller.organizationId)));
  }

  /** `GET /summaries/{summary_id}`: a summary of another organization is not found. */
  method GetSummary(db: Database, caller: User, summaryId: Id) returns (resp: Response<Summary>)
    ensures resp.Ok? <==> summaryId in db.summaries && db.summaries[summaryId].organizationId == caller.organizationId
    ensures resp.Ok? ==> resp.value == db.summaries[summaryId]
    ensures resp.Error? ==> resp == Fail(NOT_FOUND, SUMMARY_NOT_FOUND)
  {
    var s := SummaryIn(db, caller.organizationId, summaryId);
    if s.None? {
      return Fail(NOT_FOUND, SUMMARY_NOT_FOUND);
    }
    resp := Ok(s.value);
  }

  /**
   * `GET /summaries/`: the organization's summaries in scan order, from position `skip`, at
   * most `limit` of them (by default 0 and 100).
   */
  method ListSummaries(db: Database, caller: User, scan: seq<Id>, skip: nat, limit: nat) returns (r: seq<Summary>)
    requires IsScanOf(scan, db.summaries)
    ensures |r| <= limit
    ensures forall s :: s in r ==> s in db.summaries.Values && s.organizationId == caller.organizationId
    ensures r == Page(Filter(RowsOf(scan, db.summaries), SummaryInOrg(caller.organizationId)), skip, limit)
  {
    var mine := Filter(RowsOf(scan, db.summaries), SummaryInOrg(caller.organizationId));
    r := Page(mine, skip, limit);
    forall s | s in r
      ensures s in mine
    {
      PageSubset(mine, skip, limit, s);
    }
  }

  /** `DELETE /summaries/{summary_id}`: removes only that summary, when it is the caller's organization's. */
  method DeleteSummary(db: Database, caller: User, summaryId: Id) returns (resp: Response<string>)
    requires db.Valid()
    modifies db
    ensures db.Valid()
    ensures old(SummaryIn(db, caller.organizationId, summaryId)).None? ==>
      resp == Fail(NOT_FOUND, SUMMARY_NOT_FOUND) && db.State() == old(db.State())
    ensures old(SummaryIn(db, caller.organizationId, summaryId)).Some? ==>
      resp == Ok(SUMMARY_DELETED) && db.State() == old(db.State()).(summaries := old(db.summaries) - {summaryId})
  {
    var s := SummaryIn(db, caller.organizationId, summaryId);
    if s.None? {
      return Fail(NOT_FOUND, SUMMARY_NOT_FOUND);
    }
    db.summaries := db.summaries - {summaryId};
    resp := Ok(SUMMARY_DELETED);
  }
}
