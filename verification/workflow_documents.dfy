/**
  The documents panel of the workflow editor
  (frontend/src/components/workflow/WorkflowDocuments.jsx): the documents attached to one
  workflow, reloaded whenever the workflow id changes; uploads that are refused until the
  workflow has an id; and a parent callback that receives every new list.
*/
module WorkflowDocumentsPanel {
  import opened Wrappers
  import opened Uploads

  /** `!workflowId` is false: an id is present and is not 0. */
  predicate HasWorkflowId(workflowId: Option<int>) {
    workflowId.Some? && workflowId.value != 0
  }

  const SaveFirstToast := ErrorToast("Please save the workflow first before uploading documents")
  const UploadFailedText := "Failed to upload document. Please try again."

  function UploadedToast(f: FileRef): Toast {
    SuccessToast("Document \"" + f.name + "\" uploaded successfully")
  }

  // ---------------------------------------------------------------------------
  // The failure branch of the upload

  /**
    What the name `error` is bound to where the failure toast is raised: the toast
    function of the component, or an exception object that a `catch` clause bound to
    the same name.
  */
  datatype ErrorBinding = ToastFunction | CaughtException(message: string)

  /** What a `catch` block ends with: a toast raised, or a new exception thrown out of it. */
  datatype CatchOutcome = Raised(toast: Toast) | Throws(typeError: string)

  /** `error(text)`: raises an error toast when `error` is the toast function, and throws when it is not callable. */
  function CallError(binding: ErrorBinding, text: string): (o: CatchOutcome)
    ensures o.Raised? <==> binding.ToastFunction?
    ensures o.Raised? ==> o.toast == ErrorToast(text)
  {
    match binding
    case ToastFunction => Raised(ErrorToast(text))
    case CaughtException(_) => Throws("TypeError: error is not a function")
  }

  /**
    The upload's `catch (error)` block as written: its parameter hides the toast function,
    so the call meant to raise the failure toast calls the caught exception instead.
  */
  function UploadCatchAsWritten(caughtMessage: string): (o: CatchOutcome)
    ensures o.Throws?
  {
    CallError(CaughtException(caughtMessage), UploadFailedText)
  }

  /** The same block with the parameter renamed, so `error` is the toast function again. */
  function UploadCatch(): (o: CatchOutcome)
    ensures o.Raised? && o.toast == ErrorToast(UploadFailedText)
  {
    CallError(ToastFunction, UploadFailedText)
  }

  /** Whatever the request failed with, the block as written shows no toast, while the renamed one does. */
  lemma UploadFailureShowsNoToast(caughtMessage: string)
    ensures UploadCatchAsWritten(caughtMessage) != UploadCatch()
  {
  }

  // ---------------------------------------------------------------------------
  // The panel

  /** The panel's props and state cells. */
  class WorkflowDocumentsState {
    var workflowId: Option<int>
    const hasListener: bool            // whether `onDocumentsChange` was passed
    var documents: seq<DocumentItem>
    var loading: bool
    var uploading: bool
    var dragActive: bool

    /** The first render, before the effect runs. */
    constructor(workflowId: Option<int>, hasListener: bool)
      ensures this.workflowId == workflowId && this.hasListener == hasListener
      ensures documents == [] && loading && !uploading && !dragActive
    {
      this.workflowId := workflowId;
      this.hasListener := hasListener;
      documents := [];
      loading := true;
      uploading := false;
      dragActive := false;
    }

    /**
      `fetchWorkflowDocuments`: a reply replaces the list and, when a listener was passed,
      is handed to it unchanged; a failure keeps the list; loading ends either way.
    */
    method FetchWorkflowDocuments(reply: Result<seq<DocumentItem>, string>) returns (notified: Option<seq<DocumentItem>>)
      modifies this
      ensures reply.Success? ==> documents == reply.value
      ensures reply.Success? && hasListener ==> notified == Some(reply.value)
      ensures reply.Failure? || !hasListener ==> notified.None?
      ensures reply.Failure? ==> documents == old(documents)
      ensures !loading
      ensures workflowId == old(workflowId) && uploading == old(uploading) && dragActive == old(dragActive)
    {
      notified := None;
      if reply.Success? {
        documents := reply.value;
        if hasListener {
          notified := Some(reply.value);
        }
      }
      loading := false;
    }

    /**
      The effect on `[workflowId]`: with an id the panel loads that workflow's documents;
      without one it empties the list, stops loading and fetches nothing.
    */
    method WorkflowIdChanged(newId: Option<int>, reply: Result<seq<DocumentItem>, string>) returns (notified: Option<seq<DocumentItem>>)
      modifies this
      ensures workflowId == newId && !loading
      ensures !HasWorkflowId(newId) ==> documents == [] && notified.None?
      ensures HasWorkflowId(newId) && reply.Success? ==>
        documents == reply.value && (hasListener ==> notified == Some(reply.value))
      ensures HasWorkflowId(newId) && reply.Failure? ==> documents == old(documents) && notified.None?
      ensures uploading == old(uploading) && dragActive == old(dragActive)
    {
      workflowId := newId;
      if HasWorkflowId(newId) {
        notified := FetchWorkflowDocuments(reply);
      } else {
        documents := [];
        loading := false;
        notified := None;
      }
    }

    /**
      The synchronous start of `handleFileUpload`: no file is a no-op; without a workflow
      id the save-first toast is raised and nothing else changes; otherwise the panel is
      marked busy and the file is sent.
    */
    method BeginUpload(files: seq<FileRef>) returns (sent: Option<FileRef>, toast: Option<Toast>)
      modifies this
      ensures files == [] ==> sent.None? && toast.None? && uploading == old(uploading)
      ensures files != [] && !HasWorkflowId(workflowId) ==> sent.None? && toast == Some(SaveFirstToast) && uploading == old(uploading)
      ensures files != [] && HasWorkflowId(workflowId) ==> sent == Some(files[0]) && toast.None? && uploading
      ensures workflowId == old(workflowId) && documents == old(documents) && loading == old(loading) && dragActive == old(dragActive)
    {
      sent, toast := None, None;
      var file := FirstFile(files);
      if file.None? {
        return;
      }
      if !HasWorkflowId(workflowId) {
        toast := Some(SaveFirstToast);
        return;
      }
      uploading := true;
      sent := file;
    }

    /**
      The rest of `handleFileUpload` once the request settled: the returned document goes
      to the head of the list and the listener receives that same new list; a failure
      leaves the list alone and raises the failure toast; the busy mark is cleared in
      every case.
    */
    method FinishUpload(file: FileRef, reply: Result<DocumentItem, string>) returns (toast: Toast, notified: Option<seq<DocumentItem>>)
      modifies this
      ensures reply.Success? ==> documents == [reply.value] + old(documents) && toast == UploadedToast(file)
      ensures reply.Success? && hasListener ==> notified == Some(documents)
      ensures reply.Failure? || !hasListener ==> notified.None?
      ensures reply.Failure? ==> documents == old(documents) && Raised(toast) == UploadCatch()
      ensures !uploading
      ensures workflowId == old(workflowId) && loading == old(loading) && dragActive == old(dragActive)
    {
      notified := None;
      if reply.Success? {
        var newDocuments := [reply.value] + documents;
        documents := newDocuments;
        if hasListener {
          notified := Some(newDocuments);
        }
        toast := UploadedToast(file);
      } else {
        var outcome := UploadCatch();
        toast := outcome.toast;
      }
      uploading := false;
    }

    /** `handleDrag`. */
    method HandleDrag(eventType: string)
      modifies this
      ensures dragActive == DragActiveAfter(eventType, old(dragActive))
      ensures workflowId == old(workflowId) && documents == old(documents) && loading == old(loading) && uploading == old(uploading)
    {
      dragActive := DragActiveAfter(eventType, dragActive);
    }

    /** `handleDrop`: the highlight goes off and the start of an upload of the first dropped file, if any. */
    method HandleDrop(files: seq<FileRef>) returns (sent: Option<FileRef>, toast: Option<Toast>)
      modifies this
      ensures !dragActive
      ensures files == [] ==> sent.None? && toast.None? && uploading == old(uploading)
      ensures files != [] && !HasWorkflowId(workflowId) ==> sent.None? && toast == Some(SaveFirstToast) && uploading == old(uploading)
      ensures files != [] && HasWorkflowId(workflowId) ==> sent == Some(files[0]) && toast.None? && uploading
      ensures workflowId == old(workflowId) && documents == old(documents) && loading == old(loading)
    {
      dragActive := false;
      sent, toast := None, None;
      if files != [] {
        sent, toast := BeginUpload(files);
      }
    }
  }
}
