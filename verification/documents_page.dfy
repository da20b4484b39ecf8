/**
  The document list page (frontend/src/pages/Documents.jsx): the uploaded documents, newest
  first; an upload handler that marks the page busy while the file is sent and puts the
  returned document at the head of the list; a confirmed delete; the drop zone's highlight;
  and a case-insensitive search on the original file name.
*/
module DocumentsPage {
  import opened Wrappers
  import opened Text
  import opened Uploads

  // ---------------------------------------------------------------------------
  // Messages

  /** What the failed request carries: `response.data.detail`, `response.data.message`, `err.message`. */
  datatype UploadError = UploadError(detail: Option<string>, message: Option<string>, errMessage: Option<string>)

  /** Missing or empty: falsy in a JavaScript `||`. */
  predicate Blank(a: Option<string>) {
    a.None? || a.value == ""
  }

  /** A JavaScript `a || b` on an optional string: `a` unless it is missing or empty. */
  function OrElse(a: Option<string>, b: string): (r: string)
    ensures !Blank(a) ==> r == a.value
    ensures Blank(a) ==> r == b
  {
    if !Blank(a) then a.value else b
  }

  /** The reason shown for a failed upload: the first of the three that is present and non-empty. */
  function ErrorText(e: UploadError): (r: string)
    ensures r != ""
    ensures !Blank(e.detail) ==> r == e.detail.value
    ensures Blank(e.detail) && !Blank(e.message) ==> r == e.message.value
    ensures Blank(e.detail) && Blank(e.message) && Blank(e.errMessage) ==> r == "Unknown error occurred"
    ensures !(Blank(e.detail) && Blank(e.message) && Blank(e.errMessage)) ==>
      Some(r) == e.detail || Some(r) == e.message || Some(r) == e.errMessage
  {
    OrElse(e.detail, OrElse(e.message, OrElse(e.errMessage, "Unknown error occurred")))
  }

  function UploadedToast(f: FileRef): Toast {
    SuccessToast("Document \"" + f.name + "\" uploaded successfully!")
  }

  function UploadFailedToast(e: UploadError): Toast {
    ErrorToast("Failed to upload document: " + ErrorText(e))
  }

  const DeletedToast := SuccessToast("Document deleted successfully")
  const DeleteFailedToast := ErrorToast("Failed to delete document")

  // ---------------------------------------------------------------------------
  // Filtering and deleting

  function NameContains(searchTerm: string): DocumentItem -> bool {
    (d: DocumentItem) => Contains(ToLower(d.originalFilename), ToLower(searchTerm))
  }

  /** `filteredDocuments`. */
  function FilteredDocuments(docs: seq<DocumentItem>, searchTerm: string): (r: seq<DocumentItem>)
    ensures |r| <= |docs|
    ensures forall k :: 0 <= k < |r| ==> Contains(ToLower(r[k].originalFilename), ToLower(searchTerm))
  {
    Filter(docs, NameContains(searchTerm))
  }

  /** The shown documents are those whose lowercased name contains the lowercased term, in list order. */
  lemma FilteredDocumentsAreMatches(docs: seq<DocumentItem>, searchTerm: string, d: DocumentItem)
    ensures d in FilteredDocuments(docs, searchTerm) <==> d in docs && Contains(ToLower(d.originalFilename), ToLower(searchTerm))
    ensures IsSublist(FilteredDocuments(docs, searchTerm), docs)
  {
    FilterMembership(docs, NameContains(searchTerm), d);
    FilterIsSublist(docs, NameContains(searchTerm));
  }

  /** An empty search shows every document. */
  lemma EmptySearchShowsAll(docs: seq<DocumentItem>)
    ensures FilteredDocuments(docs, "") == docs
  {
    assert ToLower("") == "";
    forall k | 0 <= k < |docs| ensures NameContains("")(docs[k]) {
      EmptyIsContained(ToLower(docs[k].originalFilename));
    }
    FilterKeepsAll(docs, NameContains(""));
  }

  /** A document's id, the key `deleteDocument` filters on. */
  function DocumentId(d: DocumentItem): int {
    d.id
  }

  // ---------------------------------------------------------------------------
  // The page

  /** The page's state cells. */
  class DocumentsPageState {
    var documents: seq<DocumentItem>
    var loading: bool
    var uploading: bool
    var searchTerm: string
    var dragActive: bool

    /** The first render. */
    constructor()
      ensures documents == [] && loading && !uploading && searchTerm == "" && !dragActive
    {
      documents := [];
      loading := true;
      uploading := false;
      searchTerm := "";
      dragActive := false;
    }

    /** The list the page renders. */
    function Shown(): seq<DocumentItem>
      reads this
    {
      FilteredDocuments(documents, searchTerm)
    }

    /** `fetchDocuments`: a reply replaces the list, a failure keeps it; loading ends either way. */
    method FetchDocuments(reply: Result<seq<DocumentItem>, string>)
      modifies this
      ensures reply.Success? ==> documents == reply.value
      ensures reply.Failure? ==> documents == old(documents)
      ensures !loading
      ensures uploading == old(uploading) && searchTerm == old(searchTerm) && dragActive == old(dragActive)
    {
      if reply.Success? {
        documents := reply.value;
      }
      loading := false;
    }

    /** The search box's change handler. */
    method SetSearchTerm(text: string)
      modifies this
      ensures searchTerm == text
      ensures documents == old(documents) && loading == old(loading) && uploading == old(uploading) && dragActive == old(dragActive)
    {
      searchTerm := text;
    }

    /**
      The synchronous start of `handleFileUpload`: with no file nothing happens; otherwise
      the page is marked busy before the request is sent.
    */
    method BeginUpload(files: seq<FileRef>) returns (file: Option<FileRef>)
      modifies this
      ensures file == FirstFile(files)
      ensures file.Some? ==> uploading
      ensures file.None? ==> uploading == old(uploading)
      ensures documents == old(documents) && loading == old(loading) && searchTerm == old(searchTerm) && dragActive == old(dragActive)
    {
      file := FirstFile(files);
      if file.None? {
        return;
      }
      uploading := true;
    }

    /**
      The rest of `handleFileUpload` once the request settled: the returned document goes
      to the head of the list, a failure leaves the list alone, and the busy mark is
      cleared in every case.
    */
    method FinishUpload(file: FileRef, reply: Result<DocumentItem, UploadError>) returns (toast: Toast)
      modifies this
      ensures reply.Success? ==> documents == [reply.value] + old(documents) && toast == UploadedToast(file)
      ensures reply.Failure? ==> documents == old(documents) && toast == UploadFailedToast(reply.error)
      ensures !uploading
      ensures loading == old(loading) && searchTerm == old(searchTerm) && dragActive == old(dragActive)
    {
      if reply.Success? {
        documents := [reply.value] + documents;
        toast := UploadedToast(file);
      } else {
        toast := UploadFailedToast(reply.error);
      }
      uploading := false;
    }

    /** `handleFileUpload` from start to end: no file is a no-op, otherwise the two phases above. */
    method HandleFileUpload(files: seq<FileRef>, reply: Result<DocumentItem, UploadError>) returns (toast: Option<Toast>)
      modifies this
      ensures files == [] ==> toast.None? && documents == old(documents) && uploading == old(uploading)
      ensures files != [] && reply.Success? ==>
        documents == [reply.value] + old(documents) && toast == Some(UploadedToast(files[0])) && !uploading
      ensures files != [] && reply.Failure? ==>
        documents == old(documents) && toast == Some(UploadFailedToast(reply.error)) && !uploading
      ensures loading == old(loading) && searchTerm == old(searchTerm) && dragActive == old(dragActive)
    {
      var file := BeginUpload(files);
      if file.None? {
        return None;
      }
      var shown := FinishUpload(file.value, reply);
      toast := Some(shown);
    }

    /**
      `deleteDocument`: nothing happens unless the user confirms; a delete the backend
      accepts drops every document with that id, one it refuses leaves the list alone.
    */
    method DeleteDocument(id: int, confirmed: bool, reply: Result<(), string>) returns (toast: Option<Toast>)
      modifies this
      ensures confirmed && reply.Success? ==> documents == WithoutKey(old(documents), DocumentId, id) && toast == Some(DeletedToast)
      ensures confirmed && reply.Failure? ==> documents == old(documents) && toast == Some(DeleteFailedToast)
      ensures !confirmed ==> documents == old(documents) && toast.None?
      ensures loading == old(loading) && uploading == old(uploading) && searchTerm == old(searchTerm) && dragActive == old(dragActive)
    {
      if !confirmed {
        return None;
      }
      if reply.Success? {
        documents := WithoutKey(documents, DocumentId, id);
        toast := Some(DeletedToast);
      } else {
        toast := Some(DeleteFailedToast);
      }
    }

    /** `handleDrag`. */
    method HandleDrag(eventType: string)
      modifies this
      ensures dragActive == DragActiveAfter(eventType, old(dragActive))
      ensures documents == old(documents) && loading == old(loading) && uploading == old(uploading) && searchTerm == old(searchTerm)
    {
      dragActive := DragActiveAfter(eventType, dragActive);
    }

    /** `handleDrop`: the highlight goes off, and the first dropped file, if any, is uploaded. */
    method HandleDrop(files: seq<FileRef>, reply: Result<DocumentItem, UploadError>) returns (toast: Option<Toast>)
      modifies this
      ensures !dragActive
      ensures files == [] ==> toast.None? && documents == old(documents) && uploading == old(uploading)
      ensures files != [] && reply.Success? ==> documents == [reply.value] + old(documents) && !uploading
      ensures files != [] && reply.Failure? ==> documents == old(documents) && !uploading
      ensures files != [] ==> toast == Some(if reply.Success? then UploadedToast(files[0]) else UploadFailedToast(reply.error))
      ensures loading == old(loading) && searchTerm == old(searchTerm)
    {
      dragActive := false;
      toast := None;
      if files != [] {
        toast := HandleFileUpload(files, reply);
      }
    }
  }
}
