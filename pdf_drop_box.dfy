/**
 * PdfDropBox.jsx: a drop zone and file picker that accept a PDF only. An accepted file
 * is named on the zone and handed to `onFileUpload`; anything else raises an alert
 * toast through the global toast provider.
 */
module PdfDropBox {
  import opened Wrappers
  import opened ItemScheduler
  import opened SnackbarMessages
  import opened SnackbarProvider

  /** A file from a drop or from the picker: its name and its MIME type. */
  datatype File = File(name: string, mimeType: string)

  const PdfMimeType: string := "application/pdf"
  const RejectMessage: string := "Only PDF files are allowed!"
  const RejectDurationMs: int := 5000
  const Prompt: string := "Drag & Drop your notes / lecture slides or click to upload"

  /** `files[0]`, undefined for an empty file list. */
  function FirstFile(files: seq<File>): (f: Option<File>)
    ensures f.Some? <==> |files| > 0
    ensures f.Some? ==> f.value == files[0]
  {
    if |files| > 0 then Some(files[0]) else None
  }

  /** The acceptance rule: a file is present and its type is exactly the PDF type. */
  predicate Accepts(f: Option<File>) {
    f.Some? && f.value.mimeType == PdfMimeType
  }

  /** What receiving a file list does: the name shown, the file handed on, the alert raised. */
  datatype Reception = Reception(fileName: string, uploaded: Option<File>, alert: Option<Snackbar>)

  /**
   * The shared body of the drop and picker handlers. An accepted file replaces the shown
   * name and goes to `onFileUpload` when the parent passed one; a missing or non-PDF file
   * leaves the name alone and raises the 5-second alert.
   */
  function Received(fileName: string, files: seq<File>, hasUploadHandler: bool, key: int): (r: Reception)
    ensures r.uploaded.Some? ==> r.alert.None? && Accepts(r.uploaded) && r.uploaded == FirstFile(files)
    ensures Accepts(FirstFile(files)) ==>
              && r.fileName == files[0].name && r.alert.None?
              && (r.uploaded.Some? <==> hasUploadHandler)
    ensures !Accepts(FirstFile(files)) ==>
              && r.fileName == fileName && r.uploaded.None?
              && r.alert == Some(Snackbar(Alert, RejectMessage, RejectDurationMs, key))
  {
    var f := FirstFile(files);
    if Accepts(f) then
      Reception(f.value.name, if hasUploadHandler then f else None, None)
    else
      Reception(fileName, None, Some(NewSnackbar(Alert, RejectMessage, Some(RejectDurationMs), key)))
  }

  /** The zone's caption: the last accepted file's name, or the prompt while there is none. */
  function Label(fileName: string): (l: string)
    ensures |l| > 0
    ensures fileName != "" ==> l == fileName
    ensures fileName == "" ==> l == Prompt
  {
    if fileName != "" then fileName else Prompt
  }

  /**
   * A rejected file puts exactly one alert behind whatever the provider already holds, and
   * when the provider holds nothing the alert is shown at once.
   */
  lemma RejectedFileRaisesAlert(p: Provider, fileName: string, files: seq<File>, hasUploadHandler: bool, key: int)
    requires Settled(p.sched) && !Accepts(FirstFile(files))
    ensures var alert := Snackbar(Alert, RejectMessage, RejectDurationMs, key);
            var q := Handle(p, Event.Enqueue(Received(fileName, files, hasUploadHandler, key).alert.value));
            && Items(q.sched) == Items(p.sched) + [alert]
            && (Items(p.sched) == [] ==> q.sched.current == Some(alert))
  {
    var alert := Snackbar(Alert, RejectMessage, RejectDurationMs, key);
    HandleEffects(p, Event.Enqueue(alert));
  }

  /** PdfDropBox's two state cells and its four handlers. */
  class PdfDropBox {
    var isDragging: bool
    var fileName: string

    constructor ()
      ensures !isDragging && fileName == ""
    {
      isDragging := false;
      fileName := "";
    }

    method HandleDragOver()
      modifies this
      ensures isDragging && fileName == old(fileName)
    {
      isDragging := true;
    }

    method HandleDragLeave()
      modifies this
      ensures !isDragging && fileName == old(fileName)
    {
      isDragging := false;
    }

    /** A drop: the drag highlight goes off, then the dropped list is received. */
    method HandleDrop(files: seq<File>, hasUploadHandler: bool, snackbar: FeedbackSnackbarProvider, key: int)
      returns (uploaded: Option<File>)
      modifies this, snackbar.sched
      ensures !isDragging
      ensures var r := Received(old(fileName), files, hasUploadHandler, key);
              && fileName == r.fileName && uploaded == r.uploaded
              && snackbar.Model() == (if r.alert.Some? then Handle(old(snackbar.Model()), Event.Enqueue(r.alert.value))
                                      else old(snackbar.Model()))
    {
      isDragging := false;
      uploaded := Receive(files, hasUploadHandler, snackbar, key);
    }

    /** A pick from the hidden file input: the picked list is received; the highlight is untouched. */
    method HandleFileSelect(files: seq<File>, hasUploadHandler: bool, snackbar: FeedbackSnackbarProvider, key: int)
      returns (uploaded: Option<File>)
      modifies this, snackbar.sched
      ensures isDragging == old(isDragging)
      ensures var r := Received(old(fileName), files, hasUploadHandler, key);
              && fileName == r.fileName && uploaded == r.uploaded
              && snackbar.Model() == (if r.alert.Some? then Handle(old(snackbar.Model()), Event.Enqueue(r.alert.value))
                                      else old(snackbar.Model()))
    {
      uploaded := Receive(files, hasUploadHandler, snackbar, key);
    }

    method Receive(files: seq<File>, hasUploadHandler: bool, snackbar: FeedbackSnackbarProvider, key: int)
      returns (uploaded: Option<File>)
      modifies this, snackbar.sched
      ensures isDragging == old(isDragging)
      ensures var r := Received(old(fileName), files, hasUploadHandler, key);
              && fileName == r.fileName && uploaded == r.uploaded
              && snackbar.Model() == (if r.alert.Some? then Handle(old(snackbar.Model()), Event.Enqueue(r.alert.value))
                                      else old(snackbar.Model()))
    {
      if |files| > 0 && files[0].mimeType == PdfMimeType {
        fileName := files[0].name;
        uploaded := if hasUploadHandler then Some(files[0]) else None;
      } else {
        uploaded := None;
        snackbar.EnqueueAlertFeedbackSnackbar(RejectMessage, Some(RejectDurationMs), key);
      }
    }

    function Caption(): string
      reads this
    {
      Label(fileName)
    }
  }
}
