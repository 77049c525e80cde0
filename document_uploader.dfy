/**
 * The upload card (`DocumentUploader`): a list of chosen files, filled by dropping or
 * browsing, and an upload that sends them one by one.
 */
module DocumentUploaderView {
  import opened Common
  import opened Text
  import opened Browser
  import opened Tables
  import opened Config

  /** A chosen file: its name, media type and size in bytes. */
  datatype FileItem = FileItem(name: string, mimeType: string, size: nat)

  /** A dropped file is kept when it is a PDF or its type mentions "document". */
  predicate DropAccepted(f: FileItem)
  {
    f.mimeType == PDF_TYPE || Contains(f.mimeType, "document")
  }

  /** Both types the backend accepts by default pass the drop filter. */
  lemma BackendTypesPassDrop(name: string, size: nat)
    ensures DropAccepted(FileItem(name, PDF_TYPE, size))
    ensures DropAccepted(FileItem(name, DOCX_TYPE, size))
  {
    var n := |DOCX_TYPE| - 8;
    assert DOCX_TYPE[n..] == "document";
    assert OccursAt(DOCX_TYPE, "document", n);
  }

  /** `prev.filter((_, i) => i !== index)`, with `offset` the position of `s[0]`. */
  function KeepOthers<T>(s: seq<T>, index: int, offset: int): (r: seq<T>)
    ensures |r| == if offset <= index < offset + |s| then |s| - 1 else |s|
    ensures forall x :: x in r ==> x in s
  {
    if |s| == 0 then []
    else (if offset == index then [] else [s[0]]) + KeepOthers(s[1..], index, offset + 1)
  }

  /** Filtering out a position removes exactly that element, and nothing when it is out of range. */
  lemma {:induction false} KeepOthersRemoves<T>(s: seq<T>, index: int, offset: int)
    ensures KeepOthers(s, index, offset) ==
      if offset <= index < offset + |s| then s[..index - offset] + s[index - offset + 1..] else s
  {
    if |s| > 0 {
      KeepOthersRemoves(s[1..], index, offset + 1);
      if offset == index {
        assert s[..0] + s[1..] == s[1..];
      } else if offset < index < offset + |s| {
        assert s[..index - offset] == [s[0]] + s[1..][..index - offset - 1];
        assert s[index - offset + 1..] == s[1..][index - offset..];
      } else {
        assert s == [s[0]] + s[1..];
      }
    }
  }

  /** How one request of the upload loop ends. */
  datatype UploadReply = Stored | Refused(status: int) | Raised

  /** Why the loop stopped. */
  datatype Stop = AllSent | SessionExpired | Crashed

  /** The loop's outcome: why it stopped, how many files were stored, how many requests went out. */
  datatype UploadEnd = UploadEnd(stop: Stop, uploaded: nat, requests: nat)

  /**
   * The loop from the current file on, having stored `uploaded` files with `requests`
   * requests: a 401 ends it as an expired session, a throw ends it as a crash, any other
   * refusal moves on to the next file.
   */
  function Run(replies: seq<UploadReply>, uploaded: nat, requests: nat): (e: UploadEnd)
    ensures e.stop == AllSent <==> forall i :: 0 <= i < |replies| ==> !replies[i].Raised? && replies[i] != Refused(UNAUTHORIZED)
    ensures requests <= e.requests <= requests + |replies| && uploaded <= e.uploaded
    ensures |replies| > 0 ==> e.requests > requests
  {
    if |replies| == 0 then UploadEnd(AllSent, uploaded, requests)
    else match replies[0]
      case Stored => Run(replies[1..], uploaded + 1, requests + 1)
      case Refused(status) =>
        if status == UNAUTHORIZED then UploadEnd(SessionExpired, uploaded, requests + 1)
        else Run(replies[1..], uploaded, requests + 1)
      case Raised => UploadEnd(Crashed, uploaded, requests + 1)
  }

  function IsStored(r: UploadReply): bool { r.Stored? }

  /**
   * The counters only grow by what the remaining replies add: no more files stored than
   * requests sent, no more requests than files, and when every file was sent the stored
   * ones are exactly the successful replies.
   */
  lemma {:induction false} RunCounts(replies: seq<UploadReply>, uploaded: nat, requests: nat)
    requires uploaded <= requests
    ensures var e := Run(replies, uploaded, requests);
      && uploaded <= e.uploaded <= e.requests <= requests + |replies|
      && e.uploaded - uploaded <= e.requests - requests
      && (e.stop == AllSent ==> e.uploaded == uploaded + Count(replies, IsStored) && e.requests == requests + |replies|)
  {
    if |replies| > 0 {
      match replies[0]
      case Stored => RunCounts(replies[1..], uploaded + 1, requests + 1);
      case Refused(status) =>
        if status != UNAUTHORIZED {
          RunCounts(replies[1..], uploaded, requests + 1);
        }
      case Raised =>
    }
  }

  class Uploader {
    var files: seq<FileItem>
    var uploading: bool

    constructor ()
      ensures files == [] && !uploading
    {
      files, uploading := [], false;
    }

    /** `handleDrop`: the accepted dropped files go after the chosen ones, in order. */
    method HandleDrop(dropped: seq<FileItem>)
      modifies this
      ensures files == old(files) + Filter(dropped, DropAccepted)
      ensures uploading == old(uploading)
    {
      files := files + Filter(dropped, DropAccepted);
    }

    /** `handleFileSelect`: browsed files are appended unfiltered; a cancelled dialog adds nothing. */
    method HandleFileSelect(selected: Option<seq<FileItem>>)
      modifies this
      ensures files == old(files) + (if selected.Some? then selected.value else [])
      ensures uploading == old(uploading)
    {
      if selected.Some? {
        files := files + selected.value;
      }
    }

    /** `removeFile(index)`: drops the file at `index` and keeps the others in order. */
    method RemoveFile(index: int)
      modifies this
      ensures files == KeepOthers(old(files), index, 0)
      ensures 0 <= index < |old(files)| ==> files == old(files)[..index] + old(files)[index + 1..]
      ensures !(0 <= index < |old(files)|) ==> files == old(files)
      ensures uploading == old(uploading)
    {
      KeepOthersRemoves(files, index, 0);
      files := KeepOthers(files, index, 0);
    }

    /**
     * `handleUpload`, given the reply to each file's request. An empty list does nothing;
     * without a token the login page opens before any request. After the loop, some
     * stored file opens the document list; none resets the card with an alert. An expired
     * session removes the access token and opens the login page; a throw resets the card.
     */
    method HandleUpload(storage: LocalStorage, replies: seq<UploadReply>) returns (e: UploadEnd, nav: Navigation)
      requires |replies| == |files|
      modifies this, storage
      ensures files == old(files)
      ensures e.uploaded <= e.requests <= |files|
      ensures |files| == 0 ==>
        e.requests == 0 && nav == Stay && uploading == old(uploading) && storage.items == old(storage.items)
      ensures |files| > 0 && !Truthy(old(storage.GetItem(ACCESS_TOKEN))) ==>
        e.requests == 0 && nav == GoTo("/login") && uploading && storage.items == old(storage.items)
      ensures |files| > 0 && Truthy(old(storage.GetItem(ACCESS_TOKEN))) ==>
        && e == Run(replies, 0, 0)
        && (e.stop == AllSent && e.uploaded > 0 ==> nav == GoTo("/documents") && uploading)
        && (e.stop == AllSent && e.uploaded == 0 ==> nav == Stay && !uploading)
        && (e.stop == SessionExpired ==> nav == GoTo("/login") && uploading)
        && (e.stop == Crashed ==> nav == Stay && !uploading)
        && storage.items == (if e.stop == SessionExpired then old(storage.items) - {ACCESS_TOKEN} else old(storage.items))
    {
      e, nav := UploadEnd(AllSent, 0, 0), Stay;
      if |files| == 0 {
        return;
      }
      uploading := true;
      var token := storage.GetItem(ACCESS_TOKEN);
      if !Truthy(token) {
        nav := GoTo("/login");
        return;
      }
      RunCounts(replies, 0, 0);
      var uploaded: nat := 0;
      var requests: nat := 0;
      assert replies[0..] == replies;
      for i := 0 to |files|
        invariant requests == i && uploaded <= i
        invariant Run(replies[i..], uploaded, requests) == Run(replies, 0, 0)
        invariant storage.items == old(storage.items) && files == old(files)
      {
        assert replies[i..][1..] == replies[i + 1..];
        requests := requests + 1;
        match replies[i]
        case Stored =>
          uploaded := uploaded + 1;
        case Refused(status) =>
          if status == UNAUTHORIZED {
            storage.RemoveItem(ACCESS_TOKEN);
            e, nav := UploadEnd(SessionExpired, uploaded, requests), GoTo("/login");
            return;
          }
        case Raised =>
          uploading := false;
          e := UploadEnd(Crashed, uploaded, requests);
          return;
      }
      assert replies[|files|..] == [];
      e := UploadEnd(AllSent, uploaded, requests);
      if uploaded > 0 {
        nav := GoTo("/documents");
      } else {
        uploading := false;
      }
    }
  }
}
