/**
  What the document list page (frontend/src/pages/Documents.jsx) and the workflow
  documents panel (frontend/src/components/workflow/WorkflowDocuments.jsx) have in common:
  the listed document, the file picked or dropped, the toast shown to the user, and the
  drag-highlight rule both drop zones follow.
*/
module Uploads {
  import opened Wrappers

  /** The fields of an uploaded document the pages use. */
  datatype DocumentItem = DocumentItem(id: int, originalFilename: string)

  /** A picked or dropped file; only its name reaches the state (size and type are only logged). */
  datatype FileRef = FileRef(name: string)

  /** A toast message. */
  datatype Toast = SuccessToast(text: string) | ErrorToast(text: string)

  /** `files[0]`: the first file, or `undefined` for an empty selection. */
  function FirstFile(files: seq<FileRef>): (f: Option<FileRef>)
    ensures f.Some? <==> files != []
    ensures f.Some? ==> f.value == files[0]
  {
    if files == [] then None else Some(files[0])
  }

  /**
    `handleDrag`: "dragenter" and "dragover" switch the highlight on, "dragleave" switches
    it off, and any other event type leaves it as it was.
  */
  function DragActiveAfter(eventType: string, active: bool): (r: bool)
    ensures eventType == "dragenter" || eventType == "dragover" ==> r
    ensures eventType == "dragleave" ==> !r
    ensures eventType != "dragenter" && eventType != "dragover" && eventType != "dragleave" ==> r == active
  {
    if eventType == "dragenter" || eventType == "dragover" then true
    else if eventType == "dragleave" then false
    else active
  }
}
