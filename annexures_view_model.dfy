/**
 * The annexure list and its document viewer: opening a document records its position
 * in the list, and the viewer steps to the previous or next document within bounds.
 */
module Annexures {
  import opened Wrappers

  datatype Annexure = Annexure(id: string, title: string, annexureCode: string, fileUrl: string, docId: string)

  datatype AnnexuresUiState = AnnexuresUiState(
    isLoading: bool,
    annexures: seq<Annexure>,
    openDocument: Option<Annexure>,
    currentDocIndex: int,
    error: string)

  const DefaultAnnexuresUiState := AnnexuresUiState(true, [], None, 0, "")

  /** Kotlin's `List.indexOf`: the first position of `doc`, or -1 when it is not in the list. */
  function IndexOfDocument(list: seq<Annexure>, doc: Annexure): (i: int)
    ensures -1 <= i < |list|
    ensures i == -1 <==> doc !in list
    ensures 0 <= i ==> list[i] == doc && forall j | 0 <= j < i :: list[j] != doc
  {
    if list == [] then -1
    else if list[0] == doc then 0
    else
      var rest := IndexOfDocument(list[1..], doc);
      if rest == -1 then -1 else rest + 1
  }

  /**
   * The index the viewer can hold: -1 after opening a document that is not in the list,
   * 0 before anything is loaded, and otherwise a position in the list.
   */
  predicate IndexInRange(s: AnnexuresUiState) {
    -1 <= s.currentDocIndex && (s.currentDocIndex == 0 || s.currentDocIndex < |s.annexures|)
  }

  /** `navigateDocument(direction)` on a state whose index is in range. */
  function Navigated(s: AnnexuresUiState, direction: string): (t: AnnexuresUiState)
    requires IndexInRange(s)
    ensures IndexInRange(t)
    ensures t.annexures == s.annexures && t.isLoading == s.isLoading && t.error == s.error
    ensures direction == "next" ==>
              t.currentDocIndex == if s.currentDocIndex < |s.annexures| - 1 then s.currentDocIndex + 1
                                   else s.currentDocIndex
    ensures direction == "prev" ==>
              t.currentDocIndex == if s.currentDocIndex > 0 then s.currentDocIndex - 1 else s.currentDocIndex
    ensures direction != "next" && direction != "prev" ==> t == s
    ensures t.currentDocIndex == s.currentDocIndex ==> t == s
    ensures t.currentDocIndex != s.currentDocIndex ==>
              0 <= t.currentDocIndex < |t.annexures| && t.openDocument == Some(t.annexures[t.currentDocIndex])
    ensures 0 <= s.currentDocIndex < |s.annexures| ==> 0 <= t.currentDocIndex < |t.annexures|
  {
    var i := s.currentDocIndex;
    if direction == "next" && i < |s.annexures| - 1 then
      s.(currentDocIndex := i + 1, openDocument := Some(s.annexures[i + 1]))
    else if direction == "prev" && i > 0 then
      s.(currentDocIndex := i - 1, openDocument := Some(s.annexures[i - 1]))
    else
      s
  }

  /** A step forward followed by a step back returns to the same document. */
  lemma NextThenPrevReturns(s: AnnexuresUiState)
    requires IndexInRange(s) && 0 <= s.currentDocIndex < |s.annexures| - 1
    requires s.openDocument == Some(s.annexures[s.currentDocIndex])
    ensures Navigated(Navigated(s, "next"), "prev") == s
  {
  }

  class AnnexuresViewModel {
    var uiState: AnnexuresUiState

    constructor ()
      ensures uiState == DefaultAnnexuresUiState && IndexInRange(uiState)
    {
      uiState := DefaultAnnexuresUiState;
    }

    /** The mock list arriving from `getAnnexures`; loading ends. */
    method AnnexuresLoaded(annexures: seq<Annexure>)
      modifies this
      ensures uiState == old(uiState).(annexures := annexures, isLoading := false)
      ensures old(uiState).currentDocIndex == 0 ==> IndexInRange(uiState)
    {
      uiState := uiState.(annexures := annexures, isLoading := false);
    }

    method OpenDocument(document: Annexure)
      modifies this
      ensures uiState == old(uiState).(openDocument := Some(document),
                                       currentDocIndex := IndexOfDocument(old(uiState).annexures, document))
      ensures IndexInRange(uiState)
      ensures document in uiState.annexures ==> uiState.annexures[uiState.currentDocIndex] == document
    {
      uiState := uiState.(openDocument := Some(document),
                          currentDocIndex := IndexOfDocument(uiState.annexures, document));
    }

    /** Closes the viewer; the index is kept. */
    method CloseDocument()
      modifies this
      ensures uiState == old(uiState).(openDocument := None)
      ensures old(IndexInRange(uiState)) ==> IndexInRange(uiState)
    {
      uiState := uiState.(openDocument := None);
    }

    method NavigateDocument(direction: string)
      requires IndexInRange(uiState)
      modifies this
      ensures uiState == Navigated(old(uiState), direction)
    {
      var currentIndex := uiState.currentDocIndex;
      var documents := uiState.annexures;
      if direction == "next" && currentIndex < |documents| - 1 {
        uiState := uiState.(currentDocIndex := currentIndex + 1, openDocument := Some(documents[currentIndex + 1]));
      } else if direction == "prev" && currentIndex > 0 {
        uiState := uiState.(currentDocIndex := currentIndex - 1, openDocument := Some(documents[currentIndex - 1]));
      }
    }
  }
}
