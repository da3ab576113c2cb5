/** The document advisor's state: the document categories, a selection and an expansion set. */
module DocumentAdvisor {
  import opened Expansion

  datatype Document = Document(id: string, title: string, description: string, category: string,
                               isRequired: bool, notes: string)

  datatype DocumentCategory = DocumentCategory(id: string, title: string, description: string,
                                               documents: seq<Document>)

  datatype DocumentAdvisorUiState = DocumentAdvisorUiState(
    documentCategories: seq<DocumentCategory>,
    selectedCategoryId: string,
    expandedDocumentIds: set<string>,
    isLoading: bool,
    error: string)

  class DocumentAdvisorViewModel {
    var uiState: DocumentAdvisorUiState

    /** `init`: the categories are in place, loading is over and nothing is expanded. */
    constructor (documentCategories: seq<DocumentCategory>)
      ensures uiState == DocumentAdvisorUiState(documentCategories, "", {}, false, "")
    {
      uiState := DocumentAdvisorUiState(documentCategories, "", {}, false, "");
    }

    method SelectCategory(categoryId: string)
      modifies this
      ensures uiState == old(uiState).(selectedCategoryId := categoryId)
    {
      uiState := uiState.(selectedCategoryId := categoryId);
    }

    method ExpandDocument(documentId: string)
      modifies this
      ensures uiState == old(uiState).(expandedDocumentIds := Toggled(old(uiState).expandedDocumentIds, documentId))
    {
      var currentExpanded := uiState.expandedDocumentIds;
      if documentId in currentExpanded {
        currentExpanded := currentExpanded - {documentId};
      } else {
        currentExpanded := currentExpanded + {documentId};
      }
      uiState := uiState.(expandedDocumentIds := currentExpanded);
    }
  }

  /** Expanding and collapsing a document leaves the screen as it was. */
  method ExpandDocumentTwice(vm: DocumentAdvisorViewModel, documentId: string)
    modifies vm
    ensures vm.uiState == old(vm.uiState)
  {
    vm.ExpandDocument(documentId);
    vm.ExpandDocument(documentId);
    ToggledTwice(old(vm.uiState).expandedDocumentIds, documentId);
  }
}
