/**
 * The FAQ search: questions matching the query (in title or answer, ignoring case)
 * narrow their subcategory, subcategories that survive narrow their category, and a
 * subcategory or category with no match below it survives whole only on its own title.
 */
module FaqSearch {
  import opened Wrappers
  import opened Strings
  import opened Sequences
  import opened Faq

  predicate QuestionMatches(q: FaqQuestion, query: string) {
    ContainsIgnoreCase(q.title, query) || ContainsIgnoreCase(q.answer, query)
  }

  /** A result subcategory is the original one with some of its questions, in order. */
  predicate SubcategoryNarrows(x: FaqSubcategory, y: FaqSubcategory) {
    x.id == y.id && x.title == y.title && IsSubsequence(x.questions, y.questions)
  }

  /** A result category is the original one with some of its subcategories, each narrowed, in order. */
  predicate CategoryNarrows(x: FaqCategory, y: FaqCategory) {
    x.id == y.id && x.title == y.title && Embeds(x.subcategories, y.subcategories, SubcategoryNarrows)
  }

  /** The questions that match, in their order. */
  function MatchingQuestions(questions: seq<FaqQuestion>, query: string): (r: seq<FaqQuestion>)
    ensures forall q | q in r :: q in questions && QuestionMatches(q, query)
    ensures forall q | q in questions && QuestionMatches(q, query) :: q in r
    ensures IsSubsequence(r, questions)
    ensures forall q :: multiset(r)[q] == if QuestionMatches(q, query) then multiset(questions)[q] else 0
  {
    if questions == [] then []
    else
      assert questions == [questions[0]] + questions[1..];
      var rest := MatchingQuestions(questions[1..], query);
      if QuestionMatches(questions[0], query) then
        assert ([questions[0]] + rest)[1..] == rest;
        [questions[0]] + rest
      else
        rest
  }

  predicate HasMatchingQuestion(sub: FaqSubcategory, query: string) {
    exists q | q in sub.questions :: QuestionMatches(q, query)
  }

  /** One subcategory of the search result, or `None` when it is dropped. */
  function FilterSubcategory(sub: FaqSubcategory, query: string): (r: Option<FaqSubcategory>)
    ensures r.Some? <==> HasMatchingQuestion(sub, query) || ContainsIgnoreCase(sub.title, query)
    ensures r.Some? ==> SubcategoryNarrows(r.value, sub)
    ensures HasMatchingQuestion(sub, query) ==>
              r.Some? && r.value.questions != [] && forall q | q in r.value.questions :: QuestionMatches(q, query)
    ensures HasMatchingQuestion(sub, query) ==>
              forall q | q in sub.questions && QuestionMatches(q, query) :: q in r.value.questions
    ensures !HasMatchingQuestion(sub, query) && r.Some? ==> r.value == sub
  {
    var matchingQuestions := MatchingQuestions(sub.questions, query);
    if matchingQuestions != [] then
      assert matchingQuestions[0] in matchingQuestions;
      Some(sub.(questions := matchingQuestions))
    else if ContainsIgnoreCase(sub.title, query) then
      SubsequenceReflexive(sub.questions);
      Some(sub)
    else None
  }

  /** `mapNotNull` of `FilterSubcategory`. */
  function FilterSubcategories(subs: seq<FaqSubcategory>, query: string): (r: seq<FaqSubcategory>)
    ensures Embeds(r, subs, SubcategoryNarrows)
    ensures forall s | s in subs && FilterSubcategory(s, query).Some? :: FilterSubcategory(s, query).value in r
    ensures forall x | x in r :: exists s | s in subs :: FilterSubcategory(s, query) == Some(x)
  {
    if subs == [] then []
    else
      var rest := FilterSubcategories(subs[1..], query);
      match FilterSubcategory(subs[0], query)
      case Some(kept) =>
        assert ([kept] + rest)[1..] == rest;
        [kept] + rest
      case None => rest
  }

  predicate HasSurvivingSubcategory(c: FaqCategory, query: string) {
    exists s | s in c.subcategories :: FilterSubcategory(s, query).Some?
  }

  /** One category of the search result, or `None` when it is dropped. */
  function FilterCategory(c: FaqCategory, query: string): (r: Option<FaqCategory>)
    ensures r.Some? <==> HasSurvivingSubcategory(c, query) || ContainsIgnoreCase(c.title, query)
    ensures r.Some? ==> CategoryNarrows(r.value, c)
    ensures HasSurvivingSubcategory(c, query) ==>
              r.Some? && r.value.subcategories == FilterSubcategories(c.subcategories, query)
    ensures !HasSurvivingSubcategory(c, query) && r.Some? ==> r.value == c
  {
    var matchingSubcategories := FilterSubcategories(c.subcategories, query);
    if matchingSubcategories != [] then
      assert matchingSubcategories[0] in matchingSubcategories;
      Some(c.(subcategories := matchingSubcategories))
    else if ContainsIgnoreCase(c.title, query) then
      SubcategoriesEmbedSelf(c.subcategories);
      Some(c)
    else None
  }

  /** `mapNotNull` of `FilterCategory`. */
  function FilterCategories(cats: seq<FaqCategory>, query: string): (r: seq<FaqCategory>)
    ensures Embeds(r, cats, CategoryNarrows)
    ensures forall c | c in cats && FilterCategory(c, query).Some? :: FilterCategory(c, query).value in r
    ensures forall x | x in r :: exists c | c in cats :: FilterCategory(c, query) == Some(x)
  {
    if cats == [] then []
    else
      var rest := FilterCategories(cats[1..], query);
      match FilterCategory(cats[0], query)
      case Some(kept) =>
        assert ([kept] + rest)[1..] == rest;
        [kept] + rest
      case None => rest
  }

  /** The categories the FAQ screen lists for a query; a blank query lists them all. */
  function FilteredCategories(cats: seq<FaqCategory>, query: string): (r: seq<FaqCategory>)
    ensures IsBlank(query) ==> r == cats
    ensures !IsBlank(query) ==> r == FilterCategories(cats, query)
    ensures Embeds(r, cats, CategoryNarrows)
    ensures |r| <= |cats|
  {
    var r := if IsBlank(query) then
               CategoriesEmbedSelf(cats);
               cats
             else FilterCategories(cats, query);
    EmbedsNoLonger(r, cats, CategoryNarrows);
    r
  }

  lemma SubcategoriesEmbedSelf(subs: seq<FaqSubcategory>)
    ensures Embeds(subs, subs, SubcategoryNarrows)
  {
    forall i | 0 <= i < |subs|
      ensures SubcategoryNarrows(subs[i], subs[i])
    {
      SubsequenceReflexive(subs[i].questions);
    }
    EmbedsReflexive(subs, SubcategoryNarrows);
  }

  lemma CategoriesEmbedSelf(cats: seq<FaqCategory>)
    ensures Embeds(cats, cats, CategoryNarrows)
  {
    forall i | 0 <= i < |cats|
      ensures CategoryNarrows(cats[i], cats[i])
    {
      SubcategoriesEmbedSelf(cats[i].subcategories);
    }
    EmbedsReflexive(cats, CategoryNarrows);
  }

  lemma {:induction false} MatchingQuestionsIdempotent(questions: seq<FaqQuestion>, query: string)
    ensures MatchingQuestions(MatchingQuestions(questions, query), query) == MatchingQuestions(questions, query)
  {
    if questions != [] {
      MatchingQuestionsIdempotent(questions[1..], query);
      var rest := MatchingQuestions(questions[1..], query);
      if QuestionMatches(questions[0], query) {
        assert ([questions[0]] + rest)[1..] == rest;
      }
    }
  }

  lemma FilterSubcategoryIdempotent(sub: FaqSubcategory, query: string)
    requires FilterSubcategory(sub, query).Some?
    ensures FilterSubcategory(FilterSubcategory(sub, query).value, query) == FilterSubcategory(sub, query)
  {
    MatchingQuestionsIdempotent(sub.questions, query);
  }

  lemma {:induction false} FilterSubcategoriesIdempotent(subs: seq<FaqSubcategory>, query: string)
    ensures FilterSubcategories(FilterSubcategories(subs, query), query) == FilterSubcategories(subs, query)
  {
    if subs != [] {
      FilterSubcategoriesIdempotent(subs[1..], query);
      var rest := FilterSubcategories(subs[1..], query);
      match FilterSubcategory(subs[0], query)
      case Some(kept) =>
        FilterSubcategoryIdempotent(subs[0], query);
        assert ([kept] + rest)[1..] == rest;
      case None =>
    }
  }

  lemma FilterCategoryIdempotent(c: FaqCategory, query: string)
    requires FilterCategory(c, query).Some?
    ensures FilterCategory(FilterCategory(c, query).value, query) == FilterCategory(c, query)
  {
    FilterSubcategoriesIdempotent(c.subcategories, query);
  }

  lemma {:induction false} FilterCategoriesIdempotent(cats: seq<FaqCategory>, query: string)
    ensures FilterCategories(FilterCategories(cats, query), query) == FilterCategories(cats, query)
  {
    if cats != [] {
      FilterCategoriesIdempotent(cats[1..], query);
      var rest := FilterCategories(cats[1..], query);
      match FilterCategory(cats[0], query)
      case Some(kept) =>
        FilterCategoryIdempotent(cats[0], query);
        assert ([kept] + rest)[1..] == rest;
      case None =>
    }
  }

  /** Searching the search result again with the same query changes nothing. */
  lemma FilteredCategoriesIdempotent(cats: seq<FaqCategory>, query: string)
    ensures FilteredCategories(FilteredCategories(cats, query), query) == FilteredCategories(cats, query)
  {
    if !IsBlank(query) {
      FilterCategoriesIdempotent(cats, query);
    }
  }
}
