/**
 * The `/documents` endpoints: upload a PDF or DOCX file into the caller's organization and
 * record the outcome of text extraction, and list, read, delete and download the
 * organization's documents. Disk writes, the uuid and the extractor are parameters.
 */
module DocumentsEndpoint {
  import opened Common
  import opened Text
  import opened Config
  import opened UserModel
  import opened Records
  import opened Store
  import opened Tables

  const DOCUMENT_NOT_FOUND: string := "Document not found"
  const FILE_NOT_ON_DISK: string := "File not found on disk"
  const DOCUMENT_DELETED: string := "Document deleted successfully"

  // ---------------------------------------------------------------------------
  // POSIX path helpers

  /** The position of the last `c` in `s`, or -1: Python's `str.rfind`. */
  function LastIndex(s: string, c: char): (i: int)
    ensures -1 <= i < |s|
    ensures i >= 0 ==> s[i] == c
    ensures forall j :: i < j < |s| ==> s[j] != c
  {
    if |s| == 0 then -1
    else if s[|s| - 1] == c then |s| - 1
    else LastIndex(s[..|s| - 1], c)
  }

  /** Every character of `s` from `lo` up to `hi` is a dot. */
  predicate OnlyDots(s: string, lo: int, hi: int)
    requires 0 <= lo <= hi <= |s|
  {
    forall k :: lo <= k < hi ==> s[k] == '.'
  }

  /**
   * `os.path.splitext(name)[1]`: from the last dot of the last path component to the end,
   * unless that dot only follows leading dots (a hidden file such as ".env" has none).
   */
  function Extension(name: string): (ext: string)
    ensures ext == "" || (ext[0] == '.' && |ext| <= |name| && name[|name| - |ext|..] == ext)
    ensures forall k :: 0 <= k < |ext| ==> ext[k] != '/'
    ensures forall k :: 1 <= k < |ext| ==> ext[k] != '.'
  {
    var sep := LastIndex(name, '/');
    var dot := LastIndex(name, '.');
    if dot > sep && !OnlyDots(name, sep + 1, dot) then ExtensionFrom(name, sep, dot) else ""
  }

  /** The tail of `name` from its last dot, past its last slash. */
  function ExtensionFrom(name: string, sep: int, dot: int): (ext: string)
    requires -1 <= sep < dot < |name| && name[dot] == '.'
    requires forall j :: sep < j < |name| ==> name[j] != '/'
    requires forall j :: dot < j < |name| ==> name[j] != '.'
    ensures 1 <= |ext| <= |name| && ext[0] == '.' && name[|name| - |ext|..] == ext
    ensures forall k :: 0 <= k < |ext| ==> ext[k] != '/'
    ensures forall k :: 1 <= k < |ext| ==> ext[k] != '.'
  {
    var ext := name[dot..];
    assert forall k :: 0 <= k < |ext| ==> ext[k] == name[dot + k];
    ext
  }

  /** A stem with a non-dot character and no slash, and an extension without dots or slashes, split apart again. */
  lemma ExtensionOfName(stem: string, ext: string)
    requires '/' !in stem && !OnlyDots(stem, 0, |stem|)
    requires '/' !in ext && '.' !in ext
    ensures Extension(stem + "." + ext) == "." + ext
  {
    var name := stem + "." + ext;
    assert name[|stem|] == '.';
    assert forall j :: |stem| < j < |name| ==> name[j] == ext[j - |stem| - 1];
    assert LastIndex(name, '.') == |stem|;
    assert forall j :: 0 <= j < |name| ==> name[j] != '/';
    assert name[0..|stem|] == stem;
    assert name[|stem|..] == "." + ext;
  }

  /** A name made of one leading dot and no other dot has no extension. */
  lemma HiddenFileHasNoExtension(rest: string)
    requires '/' !in rest && '.' !in rest
    ensures Extension("." + rest) == ""
  {
    var name := "." + rest;
    assert name[0] == '.';
    assert forall j :: 0 < j < |name| ==> name[j] == rest[j - 1];
    assert LastIndex(name, '.') == 0;
  }

  /** `os.path.join(a, b)` on POSIX: an absolute `b` replaces `a`; otherwise a single "/" separates them. */
  function PathJoin(a: string, b: string): (r: string)
    ensures |b| > 0 && b[0] == '/' ==> r == b
    ensures |r| >= |b| && r[|r| - |b|..] == b
  {
    if |b| > 0 && b[0] == '/' then b
    else if a == "" || a[|a| - 1] == '/' then a + b
    else a + "/" + b
  }

  // ---------------------------------------------------------------------------
  // upload

  /** What `extract_text_from_file` gives: the text and page count, or the exception's message. */
  datatype Extraction = Extracted(text: string, pageCount: int) | ExtractionFailed(error: string)

  function TypeDetail(cfg: Settings): string
  {
    "File type not supported. Allowed types: " + cfg.allowedFileTypes
  }

  function SizeDetail(cfg: Settings): string
  {
    "File too large. Max size: " + IntToString(cfg.maxFileSizeMb) + "MB"
  }

  /** The stored name: the fresh uuid followed by the extension of the client's file name. */
  function StoredName(uuid: string, filename: string): string
  {
    uuid + Extension(filename)
  }

  /** The record as first inserted: status "uploaded", no text yet. */
  function NewDocument(id: Id, caller: User, filename: string, stored: string, path: string, contentType: string, size: nat, now: Time): (d: Document)
    ensures d.status == "uploaded" && d.organizationId == caller.organizationId && d.uploadedBy == caller.id
    ensures d.extractedText == None && d.pageCount == None
    ensures d.id == id && d.filename == stored && d.originalFilename == filename && d.filePath == path
    ensures d.fileType == contentType && d.fileSize == size
  {
    Document(id, stored, filename, path, contentType, size, None, None, caller.organizationId, caller.id, "uploaded", now)
  }

  /**
   * The record after extraction: "completed" with the text and page count, or "failed"
   * with the error as its text and no page count.
   */
  function AfterExtraction(d: Document, e: Extraction): (r: Document)
    ensures e.Extracted? ==> r.status == "completed" && r.extractedText == Some(e.text) && r.pageCount == Some(e.pageCount)
    ensures e.ExtractionFailed? ==> r.status == "failed" && r.extractedText == Some("Error: " + e.error) && r.pageCount == d.pageCount
    ensures r.(status := d.status, extractedText := d.extractedText, pageCount := d.pageCount) == d
  {
    match e
    case Extracted(text, pages) => d.(extractedText := Some(text), pageCount := Some(pages), status := "completed")
    case ExtractionFailed(err) => d.(status := "failed", extractedText := Some("Error: " + err))
  }

  /**
   * The two commits of an accepted upload: the record is inserted as it is, then overwritten
   * with the extraction outcome.
   */
  method RecordUpload(db: Database, inserted: Document, extraction: Extraction) returns (d: Document)
    requires db.Valid()
    modifies db
    ensures d == AfterExtraction(inserted, extraction)
    ensures db.State() == old(db.State()).(documents := old(db.documents)[inserted.id := d])
    ensures db.Valid()
  {
    PutDocument(db, inserted);
    d := AfterExtraction(inserted, extraction);
    PutDocument(db, d);
    UpdateTwice(old(db.documents), inserted.id, inserted, d);
  }

  /**
   * `POST /documents/upload`: the media type is checked first, then the size (a file of
   * exactly the maximum is accepted), then the file is written under
   * `{UPLOAD_DIR}/{organization id}/{uuid}{extension}`. `saveFailure` is the message of the
   * exception the write raises, if any. The record is inserted as "uploaded" and then
   * updated with the extraction outcome; a failed extraction still answers with the record.
   */
  method UploadDocument(db: Database, caller: User, cfg: Settings, contentType: string, filename: string,
                        size: nat, uuid: string, saveFailure: Option<string>, extraction: Extraction,
                        newId: Id, now: Time)
    returns (resp: Response<Document>)
    requires db.Valid()
    requires newId !in db.documents
    modifies db
    ensures db.Valid()
    ensures
      if contentType !in AllowedFileTypesList(cfg) then resp == Fail(BAD_REQUEST, TypeDetail(cfg)) && db.State() == old(db.State())
      else if size > MaxFileSizeBytes(cfg) then resp == Fail(BAD_REQUEST, SizeDetail(cfg)) && db.State() == old(db.State())
      else if saveFailure.Some? then
        resp == Fail(INTERNAL_SERVER_ERROR, "Failed to save file: " + saveFailure.value) && db.State() == old(db.State())
      else
        var stored := StoredName(uuid, filename);
        var path := PathJoin(PathJoin(cfg.uploadDir, caller.organizationId), stored);
        var d := AfterExtraction(NewDocument(newId, caller, filename, stored, path, contentType, size, now), extraction);
        resp == Ok(d) && db.State() == old(db.State()).(documents := old(db.documents)[newId := d])
  {
    if contentType !in AllowedFileTypesList(cfg) {
      return Fail(BAD_REQUEST, TypeDetail(cfg));
    }
    if size > MaxFileSizeBytes(cfg) {
      return Fail(BAD_REQUEST, SizeDetail(cfg));
    }
    var stored := uuid + Extension(filename);
    var dir := PathJoin(cfg.uploadDir, caller.organizationId);
    if saveFailure.Some? {
      return Fail(INTERNAL_SERVER_ERROR, "Failed to save file: " + saveFailure.value);
    }
    var path := PathJoin(dir, stored);
    var d := NewDocument(newId, caller, filename, stored, path, contentType, size, now);
    d := RecordUpload(db, d, extraction);
    resp := Ok(d);
  }

  /** Only files the extractor succeeded on end up "completed". */
  lemma UploadStatus(d: Document, e: Extraction)
    requires d.status == "uploaded"
    ensures AfterExtraction(d, e).status == "completed" <==> e.Extracted?
    ensures AfterExtraction(d, e).status != "uploaded"
  {
  }

  // ---------------------------------------------------------------------------
  // reads and delete

  function DocumentInOrg(org: Id): Document -> bool
  {
    (d: Document) => d.organizationId == org
  }

  /** `GET /documents/`: the organization's documents in scan order, from `skip`, at most `limit` (by default 0 and 100). */
  method ListDocuments(db: Database, caller: User, scan: seq<Id>, skip: nat, limit: nat) returns (r: seq<Document>)
    requires IsScanOf(scan, db.documents)
    ensures |r| <= limit
    ensures forall d :: d in r ==> d in db.documents.Values && d.organizationId == caller.organizationId
    ensures r == Page(Filter(RowsOf(scan, db.documents), DocumentInOrg(caller.organizationId)), skip, limit)
  {
    var mine := Filter(RowsOf(scan, db.documents), DocumentInOrg(caller.organizationId));
    r := Page(mine, skip, limit);
    forall d | d in r
      ensures d in mine
    {
      PageSubset(mine, skip, limit, d);
    }
  }

  /** `GET /documents/{document_id}`: a document of another organization is not found. */
  method GetDocument(db: Database, caller: User, documentId: Id) returns (resp: Response<Document>)
    ensures resp.Ok? <==> documentId in db.documents && db.documents[documentId].organizationId == caller.organizationId
    ensures resp.Ok? ==> resp.value == db.documents[documentId]
    ensures resp.Error? ==> resp == Fail(NOT_FOUND, DOCUMENT_NOT_FOUND)
  {
    var d := DocumentIn(db, caller.organizationId, documentId);
    if d.None? {
      return Fail(NOT_FOUND, DOCUMENT_NOT_FOUND);
    }
    resp := Ok(d.value);
  }

  /**
   * The summaries left once the document `documentId` is deleted: the relationship's
   * `delete-orphan` cascade removes every summary of that document, and only those.
   */
  function WithoutSummariesOf(summaries: map<Id, Summary>, documentId: Id): (r: map<Id, Summary>)
    ensures forall k :: k in r ==> r[k].documentId != documentId
    ensures forall k :: k in summaries && summaries[k].documentId != documentId ==> k in r && r[k] == summaries[k]
    ensures r.Keys <= summaries.Keys
  {
    map k | k in summaries && summaries[k].documentId != documentId :: summaries[k]
  }

  /**
   * `DELETE /documents/{document_id}`: removes that record and, by the cascade, its
   * summaries; the file removal on disk is not modelled.
   */
  method DeleteDocument(db: Database, caller: User, documentId: Id) returns (resp: Response<string>)
    requires db.Valid()
    modifies db
    ensures db.Valid()
    ensures old(DocumentIn(db, caller.organizationId, documentId)).None? ==>
      resp == Fail(NOT_FOUND, DOCUMENT_NOT_FOUND) && db.State() == old(db.State())
    ensures old(DocumentIn(db, caller.organizationId, documentId)).Some? ==>
      && resp == Ok(DOCUMENT_DELETED)
      && db.State() == old(db.State()).(documents := old(db.documents) - {documentId},
                                        summaries := WithoutSummariesOf(old(db.summaries), documentId))
  {
    var d := DocumentIn(db, caller.organizationId, documentId);
    if d.None? {
      return Fail(NOT_FOUND, DOCUMENT_NOT_FOUND);
    }
    db.documents := db.documents - {documentId};
    db.summaries := WithoutSummariesOf(db.summaries, documentId);
    resp := Ok(DOCUMENT_DELETED);
  }

  /** The file response: the stored path, served under the original name with the stored media type. */
  datatype FileReply = FileReply(path: string, filename: string, mediaType: string)

  /**
   * `GET /documents/{document_id}/download`: not found for a foreign document, and not
   * found on disk when `onDisk(path)` is false.
   */
  method DownloadDocument(db: Database, caller: User, documentId: Id, onDisk: string -> bool) returns (resp: Response<FileReply>)
    ensures DocumentIn(db, caller.organizationId, documentId).None? ==> resp == Fail(NOT_FOUND, DOCUMENT_NOT_FOUND)
    ensures DocumentIn(db, caller.organizationId, documentId).Some? ==>
      var d := db.documents[documentId];
      && (!onDisk(d.filePath) ==> resp == Fail(NOT_FOUND, FILE_NOT_ON_DISK))
      && (onDisk(d.filePath) ==> resp == Ok(FileReply(d.filePath, d.originalFilename, d.fileType)))
  {
    var d := DocumentIn(db, caller.organizationId, documentId);
    if d.None? {
      return Fail(NOT_FOUND, DOCUMENT_NOT_FOUND);
    }
    if !onDisk(d.value.filePath) {
      return Fail(NOT_FOUND, FILE_NOT_ON_DISK);
    }
    resp := Ok(FileReply(d.value.filePath, d.value.originalFilename, d.value.fileType));
  }
}
