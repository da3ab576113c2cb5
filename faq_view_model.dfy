/** The FAQ screen's state: the question tree, three expansion sets and a search query. */
module Faq {
  import opened Expansion

  datatype FaqQuestion = FaqQuestion(id: string, title: string, answer: string)

  datatype FaqSubcategory = FaqSubcategory(id: string, title: string, questions: seq<FaqQuestion>)

  datatype FaqCategory = FaqCategory(id: string, title: string, subcategories: seq<FaqSubcategory>)

  datatype FaqUiState = FaqUiState(
    isLoading: bool,
    faqCategories: seq<FaqCategory>,
    expandedCategoryIds: set<string>,
    expandedSubcategoryIds: set<string>,
    expandedQuestionIds: set<string>,
    searchQuery: string,
    error: string)

  class FaqViewModel {
    var uiState: FaqUiState

    /** `init`: the FAQ content is in place, nothing is expanded and there is no query. */
    constructor (faqData: seq<FaqCategory>)
      ensures uiState == FaqUiState(false, faqData, {}, {}, {}, "", "")
    {
      uiState := FaqUiState(false, faqData, {}, {}, {}, "", "");
    }

    method ToggleCategory(categoryId: string)
      modifies this
      ensures uiState == old(uiState).(expandedCategoryIds := Toggled(old(uiState).expandedCategoryIds, categoryId))
    {
      var currentExpanded := uiState.expandedCategoryIds;
      if categoryId in currentExpanded {
        currentExpanded := currentExpanded - {categoryId};
      } else {
        currentExpanded := currentExpanded + {categoryId};
      }
      uiState := uiState.(expandedCategoryIds := currentExpanded);
    }

    method ToggleSubcategory(subcategoryId: string)
      modifies this
      ensures uiState == old(uiState).(expandedSubcategoryIds :=
                                         Toggled(old(uiState).expandedSubcategoryIds, subcategoryId))
    {
      var currentExpanded := uiState.expandedSubcategoryIds;
      if subcategoryId in currentExpanded {
        currentExpanded := currentExpanded - {subcategoryId};
      } else {
        currentExpanded := currentExpanded + {subcategoryId};
      }
      uiState := uiState.(expandedSubcategoryIds := currentExpanded);
    }

    method ToggleQuestion(questionId: string)
      modifies this
      ensures uiState == old(uiState).(expandedQuestionIds := Toggled(old(uiState).expandedQuestionIds, questionId))
    {
      var currentExpanded := uiState.expandedQuestionIds;
      if questionId in currentExpanded {
        currentExpanded := currentExpanded - {questionId};
      } else {
        currentExpanded := currentExpanded + {questionId};
      }
      uiState := uiState.(expandedQuestionIds := currentExpanded);
    }

    method UpdateSearchQuery(query: string)
      modifies this
      ensures uiState == old(uiState).(searchQuery := query)
    {
      uiState := uiState.(searchQuery := query);
    }
  }

  /** Expanding and collapsing a category leaves the screen as it was. */
  method ToggleCategoryTwice(vm: FaqViewModel, categoryId: string)
    modifies vm
    ensures vm.uiState == old(vm.uiState)
  {
    vm.ToggleCategory(categoryId);
    vm.ToggleCategory(categoryId);
    ToggledTwice(old(vm.uiState).expandedCategoryIds, categoryId);
  }
}
