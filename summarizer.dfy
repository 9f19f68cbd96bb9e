/** The summarize panel of src/Pages/Dashboard.jsx: feature tabs and input
    types, a file picker, and `handleSummarize`, which stands in for a server
    call with a fixed result that depends only on the file's name. */
module Summarizer {
  import opened Common

  datatype SummaryResult = SummaryResult(title: string, summary: string, keywords: seq<string>)

  datatype Outcome = Summarized(result: SummaryResult) | SummarizeFailed(message: string)

  const FeatureTabs: seq<string> := [
    "Summary", "YouTube", "AI Chat", "Presentation", "AI PDF", "Writer", "AI Math", "Flashcards", "Diagram"
  ]
  const InputTypes: seq<string> := ["PDF", "YouTube", "Audio, Video", "Link", "Long Text"]

  const NoFileChosen := "Please select a PDF file to upload."
  const SummarizeError := "Failed to summarize PDF. Please try again."
  const TitlePrefix := "Summary of "
  const DummySummary :=
    "This is a dummy summary of the uploaded PDF document. It highlights the main sections, key arguments, and conclusions, providing a quick understanding of the content. StudyGenie's AI can intelligently process your documents."
  const Keywords: seq<string> := ["PDF", "Document", "Summary", "AI", "StudyGenie"]

  /** The placeholder answer for a file called `name`. */
  function Summarize(name: string): Outcome {
    if Contains(name, "error") then SummarizeFailed(SummarizeError)
    else Summarized(SummaryResult(TitlePrefix + name, DummySummary, Keywords))
  }

  // ---------------------------------------------------------------------

  /** A name containing "error" fails with the fixed message; any other name
      gets the fixed summary and keywords under a title from which the name
      can be read back. */
  lemma SummarizeTable(name: string)
    ensures Summarize(name).SummarizeFailed? <==> Contains(name, "error")
    ensures Summarize(name).SummarizeFailed? ==> Summarize(name).message == SummarizeError
    ensures Summarize(name).Summarized? ==>
      var r := Summarize(name).result;
      TitlePrefix <= r.title && r.title[|TitlePrefix|..] == name &&
      r.summary == DummySummary && r.keywords == Keywords
  {
  }

  // ---------------------------------------------------------------------

  class SummaryPanel {
    var activeFeatureTab: string
    var activeInputType: string
    var selectedFile: Option<File>
    var loadingSummary: bool
    var summaryResult: Option<SummaryResult>
    var summaryError: Option<string>

    constructor()
      ensures activeFeatureTab == "Summary" && activeInputType == "PDF"
      ensures selectedFile.None? && !loadingSummary && summaryResult.None? && summaryError.None?
      ensures UploadPanelShown()
    {
      activeFeatureTab := "Summary";
      activeInputType := "PDF";
      selectedFile := None;
      loadingSummary := false;
      summaryResult := None;
      summaryError := None;
    }

    /** The input types and the file picker are shown only on the
        "Summary" tab with the "PDF" input selected. */
    predicate UploadPanelShown()
      reads this
    {
      activeFeatureTab == "Summary" && activeInputType == "PDF"
    }

    predicate SummarizeDisabled()
      reads this
    {
      loadingSummary || selectedFile.None?
    }

    method SelectFeatureTab(i: nat)
      requires i < |FeatureTabs|
      modifies this`activeFeatureTab
      ensures activeFeatureTab == FeatureTabs[i]
    {
      activeFeatureTab := FeatureTabs[i];
    }

    method SelectInputType(i: nat)
      requires i < |InputTypes|
      modifies this`activeInputType
      ensures activeInputType == InputTypes[i]
    {
      activeInputType := InputTypes[i];
    }

    /** `handleFileChange`: an empty selection keeps the previous file. */
    method HandleFileChange(files: seq<File>)
      modifies this`selectedFile, this`summaryError
      ensures |files| > 0 ==> selectedFile == Some(files[0]) && summaryError.None?
      ensures |files| == 0 ==> selectedFile == old(selectedFile) && summaryError == old(summaryError)
    {
      if |files| > 0 {
        selectedFile := Some(files[0]);
        summaryError := None;
      }
    }

    /** `handleSummarize`, with the simulated delay left out. */
    method HandleSummarize()
      modifies this`loadingSummary, this`summaryResult, this`summaryError
      ensures old(selectedFile).None? ==>
        summaryError == Some(NoFileChosen) &&
        summaryResult == old(summaryResult) && loadingSummary == old(loadingSummary)
      ensures old(selectedFile).Some? ==>
        !loadingSummary && (summaryResult.Some? != summaryError.Some?) &&
        match Summarize(old(selectedFile).value.name)
        case Summarized(r) => summaryResult == Some(r)
        case SummarizeFailed(m) => summaryError == Some(m)
    {
      if selectedFile.None? {
        summaryError := Some(NoFileChosen);
        return;
      }
      loadingSummary := true;
      summaryResult := None;
      summaryError := None;
      var name := selectedFile.value.name;
      if Contains(name, "error") {
        summaryError := Some(SummarizeError);
      } else {
        summaryResult := Some(SummaryResult(TitlePrefix + name, DummySummary, Keywords));
      }
      loadingSummary := false;
    }
  }
}
