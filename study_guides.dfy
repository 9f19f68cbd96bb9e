/** The study-guide page of src/pages/StudyGuides.tsx: the status badge,
    the size shown in KB, the flashcard preview with its "+N more" line, and
    the upload form's state. */
module StudyGuides {
  import opened Common

  datatype Flashcard = Flashcard(front: string, back: string)

  datatype Guide = Guide(
    id: string,
    title: string,
    originalFileName: string,
    fileSize: nat,
    summary: string,
    flashcards: seq<Flashcard>,
    mindMap: string,
    audioUrl: string,
    processingStatus: string,
    createdAt: string)

  datatype Variant = Secondary | Primary | Destructive

  datatype Badge = Badge(text: string, variant: Variant)

  const Uploaded := "Study guide uploaded successfully!"
  const UploadFailed := "Upload failed"
  const PreviewSize := 2

  /** `getStatusBadge`. */
  function StatusBadge(status: string): Badge {
    if status == "pending" then Badge("Pending", Secondary)
    else if status == "processing" then Badge("Processing", Secondary)
    else if status == "completed" then Badge("Ready", Primary)
    else if status == "failed" then Badge("Failed", Destructive)
    else Badge("Unknown", Secondary)
  }

  /** Whether the summary, flashcard and mind-map tabs are rendered. */
  predicate ShowsContent(guide: Guide) {
    guide.processingStatus == "completed"
  }

  /** `flashcards.slice(0, 2)`. */
  function PreviewCards(cards: seq<Flashcard>): seq<Flashcard> {
    if |cards| <= PreviewSize then cards else cards[..PreviewSize]
  }

  /** The N of "+N more flashcards", when that line is shown. */
  function MoreCount(cards: seq<Flashcard>): Option<nat> {
    if |cards| > PreviewSize then Some(|cards| - PreviewSize) else None
  }

  /** `Math.round(fileSize / 1024)`. */
  function SizeKb(fileSize: nat): nat {
    RoundHalfUp(fileSize, 1024)
  }

  // ---------------------------------------------------------------------

  /** The mapping is total and each known status has its own badge; every
      other string shows "Unknown". */
  lemma BadgeTable(status: string)
    ensures StatusBadge(status).text == "Pending" <==> status == "pending"
    ensures StatusBadge(status).text == "Processing" <==> status == "processing"
    ensures StatusBadge(status).text == "Ready" <==> status == "completed"
    ensures StatusBadge(status).text == "Failed" <==> status == "failed"
    ensures StatusBadge(status).text == "Unknown" <==>
      status !in {"pending", "processing", "completed", "failed"}
    ensures StatusBadge(status).variant == Destructive <==> status == "failed"
  {
  }

  /** Content is shown exactly for the guides whose badge reads "Ready". */
  lemma ContentOnlyWhenReady(guide: Guide)
    ensures ShowsContent(guide) <==> StatusBadge(guide.processingStatus).text == "Ready"
  {
  }

  /** The preview is the first cards, at most two of them; "+N more" is
      shown exactly when there are more than two, and the preview and N
      together account for every card. */
  lemma PreviewPartition(cards: seq<Flashcard>)
    ensures |PreviewCards(cards)| <= PreviewSize
    ensures PreviewCards(cards) <= cards
    ensures MoreCount(cards).Some? <==> |cards| > PreviewSize
    ensures |PreviewCards(cards)| + (if MoreCount(cards).Some? then MoreCount(cards).value else 0) == |cards|
    ensures MoreCount(cards).Some? ==> MoreCount(cards).value >= 1
  {
  }

  /** The size shown is the whole number of KB nearest to the size, halves
      rounded up. */
  lemma SizeKbNearest(fileSize: nat)
    ensures 2048 * SizeKb(fileSize) - 1024 <= 2 * fileSize < 2048 * SizeKb(fileSize) + 1024
  {
    RoundHalfUpNearest(fileSize, 1024);
  }

  // ---------------------------------------------------------------------

  class GuidesPage {
    var guides: seq<Guide>
    var selectedFile: Option<File>
    var isUploading: bool
    var error: string
    var success: string

    constructor()
      ensures guides == [] && selectedFile.None? && !isUploading && error == "" && success == ""
    {
      guides := [];
      selectedFile := None;
      isUploading := false;
      error := "";
      success := "";
    }

    /** `fetchGuides`: a failure leaves the list as it was. */
    method FetchGuides(reply: Reply<seq<Guide>>)
      modifies this`guides
      ensures guides == if reply.Ok? then reply.data else old(guides)
    {
      if reply.Ok? {
        guides := reply.data;
      }
    }

    /** The file input: `files?.[0] || null`. */
    method ChooseFile(files: seq<File>)
      modifies this`selectedFile
      ensures selectedFile == if |files| > 0 then Some(files[0]) else None
    {
      selectedFile := if |files| > 0 then Some(files[0]) else None;
    }

    predicate UploadDisabled()
      reads this
    {
      selectedFile.None? || isUploading
    }

    /** `handleFileUpload`; `reply` is the server's answer to the upload. It
        returns the file posted, if any, and whether the list is fetched
        again afterwards. */
    method HandleFileUpload(reply: Reply<()>) returns (posted: Option<File>, refetch: bool)
      modifies this`selectedFile, this`isUploading, this`error, this`success
      ensures old(selectedFile).None? ==>
        posted.None? && !refetch && unchanged(this)
      ensures old(selectedFile).Some? ==>
        posted == old(selectedFile) && !isUploading && refetch == reply.Ok? &&
        (reply.Ok? ==> success == Uploaded && error == "" && selectedFile.None?) &&
        (reply.Failed? ==>
          error == OrElse(reply.message, UploadFailed) && success == "" && selectedFile == old(selectedFile))
    {
      posted := None;
      refetch := false;
      if selectedFile.None? {
        return;
      }
      posted := selectedFile;
      isUploading := true;
      error := "";
      success := "";
      match reply {
        case Ok(_) =>
          success := Uploaded;
          selectedFile := None;
          refetch := true;
        case Failed(m) =>
          error := OrElse(m, UploadFailed);
      }
      isUploading := false;
    }
  }
}
