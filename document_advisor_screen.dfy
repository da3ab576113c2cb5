/**
 * The document advisor search: each category's documents are narrowed to those whose
 * title, description or notes contain the query (ignoring case), and a category stays
 * when a document survived or its own title matches.
 */
module DocumentSearch {
  import opened Strings
  import opened Sequences
  import opened DocumentAdvisor

  predicate DocumentMatches(d: Document, query: string) {
    ContainsIgnoreCase(d.title, query) || ContainsIgnoreCase(d.description, query)
    || ContainsIgnoreCase(d.notes, query)
  }

  /** A result category is its original with some of its documents, in order. */
  predicate CategoryNarrows(x: DocumentCategory, y: DocumentCategory) {
    x.id == y.id && x.title == y.title && x.description == y.description && IsSubsequence(x.documents, y.documents)
  }

  /** The documents that match, in their order. */
  function MatchingDocuments(documents: seq<Document>, query: string): (r: seq<Document>)
    ensures forall d | d in r :: d in documents && DocumentMatches(d, query)
    ensures forall d | d in documents && DocumentMatches(d, query) :: d in r
    ensures IsSubsequence(r, documents)
    ensures forall d :: multiset(r)[d] == if DocumentMatches(d, query) then multiset(documents)[d] else 0
  {
    if documents == [] then []
    else
      assert documents == [documents[0]] + documents[1..];
      var rest := MatchingDocuments(documents[1..], query);
      if DocumentMatches(documents[0], query) then
        assert ([documents[0]] + rest)[1..] == rest;
        [documents[0]] + rest
      else
        rest
  }

  /** The `map` step: every category, its documents narrowed. */
  function NarrowedCategories(cats: seq<DocumentCategory>, query: string): (r: seq<DocumentCategory>)
    ensures |r| == |cats|
    ensures forall i | 0 <= i < |cats| ::
              r[i] == cats[i].(documents := MatchingDocuments(cats[i].documents, query))
  {
    seq(|cats|, i requires 0 <= i < |cats| => cats[i].(documents := MatchingDocuments(cats[i].documents, query)))
  }

  predicate KeepCategory(c: DocumentCategory, query: string) {
    c.documents != [] || ContainsIgnoreCase(c.title, query)
  }

  /** The `filter` step. */
  function KeptCategories(cats: seq<DocumentCategory>, query: string): (r: seq<DocumentCategory>)
    ensures forall c | c in r :: c in cats && KeepCategory(c, query)
    ensures forall c | c in cats && KeepCategory(c, query) :: c in r
    ensures IsSubsequence(r, cats)
    ensures forall c :: multiset(r)[c] == if KeepCategory(c, query) then multiset(cats)[c] else 0
  {
    if cats == [] then []
    else
      assert cats == [cats[0]] + cats[1..];
      var rest := KeptCategories(cats[1..], query);
      if KeepCategory(cats[0], query) then
        assert ([cats[0]] + rest)[1..] == rest;
        [cats[0]] + rest
      else
        rest
  }

  /** The categories the document advisor lists for a query; a blank query lists them all. */
  function FilteredCategories(cats: seq<DocumentCategory>, query: string): (r: seq<DocumentCategory>)
    ensures IsBlank(query) ==> r == cats
  {
    if IsBlank(query) then cats else KeptCategories(NarrowedCategories(cats, query), query)
  }

  /** Every listed category comes from the input with only matching documents left, and in order. */
  lemma {:induction false} FilterNarrowsInOrder(cats: seq<DocumentCategory>, query: string)
    requires !IsBlank(query)
    ensures Embeds(FilteredCategories(cats, query), cats, CategoryNarrows)
    ensures forall c | c in FilteredCategories(cats, query) :: forall d | d in c.documents :: DocumentMatches(d, query)
  {
    KeptNarrowedEmbeds(cats, query);
  }

  lemma {:induction false} KeptNarrowedEmbeds(cats: seq<DocumentCategory>, query: string)
    ensures Embeds(KeptCategories(NarrowedCategories(cats, query), query), cats, CategoryNarrows)
  {
    if cats != [] {
      var narrowed := NarrowedCategories(cats, query);
      assert narrowed[1..] == NarrowedCategories(cats[1..], query);
      KeptNarrowedEmbeds(cats[1..], query);
      var rest := KeptCategories(narrowed[1..], query);
      if KeepCategory(narrowed[0], query) {
        assert KeptCategories(narrowed, query) == [narrowed[0]] + rest;
        assert ([narrowed[0]] + rest)[1..] == rest;
        assert CategoryNarrows(narrowed[0], cats[0]);
      } else {
        assert KeptCategories(narrowed, query) == rest;
      }
    }
  }

  /**
   * Nothing is lost: a category is listed, narrowed to its matching documents, exactly
   * when a document matches or its title does, possibly with no documents left.
   */
  lemma FilterKeepsMatches(cats: seq<DocumentCategory>, query: string, c: DocumentCategory)
    requires !IsBlank(query) && c in cats
    ensures var narrowed := c.(documents := MatchingDocuments(c.documents, query));
            ((exists d | d in c.documents :: DocumentMatches(d, query)) || ContainsIgnoreCase(c.title, query))
            <==> narrowed in FilteredCategories(cats, query)
  {
    var narrowed := c.(documents := MatchingDocuments(c.documents, query));
    var i :| 0 <= i < |cats| && cats[i] == c;
    var n := NarrowedCategories(cats, query);
    assert n[i] == narrowed;
    assert narrowed in n;
    SomeDocumentMatches(c.documents, query);
    assert narrowed in KeptCategories(n, query) <==> KeepCategory(narrowed, query);
  }

  /** A category keeps a document exactly when one of its documents matches. */
  lemma SomeDocumentMatches(documents: seq<Document>, query: string)
    ensures MatchingDocuments(documents, query) != [] <==> exists d | d in documents :: DocumentMatches(d, query)
  {
    var r := MatchingDocuments(documents, query);
    if r != [] {
      assert r[0] in r;
    }
  }

  /** The categories with their descriptions blanked out. */
  function WithoutDescriptions(cats: seq<DocumentCategory>): (r: seq<DocumentCategory>)
    ensures |r| == |cats| && forall i | 0 <= i < |cats| :: r[i] == cats[i].(description := "")
  {
    if cats == [] then [] else [cats[0].(description := "")] + WithoutDescriptions(cats[1..])
  }

  lemma {:induction false} KeptCommutesWithoutDescriptions(cats: seq<DocumentCategory>, query: string)
    ensures KeptCategories(WithoutDescriptions(cats), query) == WithoutDescriptions(KeptCategories(cats, query))
  {
    if cats != [] {
      var c, tail := cats[0], cats[1..];
      var blank := c.(description := "");
      assert cats == [c] + tail;
      WithoutDescriptionsCons(c, tail);
      KeptCategoriesCons(blank, WithoutDescriptions(tail), query);
      KeptCategoriesCons(c, tail, query);
      KeptCommutesWithoutDescriptions(tail, query);
      if KeepCategory(c, query) {
        WithoutDescriptionsCons(c, KeptCategories(tail, query));
      }
    }
  }

  lemma WithoutDescriptionsCons(c: DocumentCategory, cats: seq<DocumentCategory>)
    ensures WithoutDescriptions([c] + cats) == [c.(description := "")] + WithoutDescriptions(cats)
  {
    assert ([c] + cats)[1..] == cats;
  }

  lemma KeptCategoriesCons(c: DocumentCategory, cats: seq<DocumentCategory>, query: string)
    ensures KeptCategories([c] + cats, query)
            == if KeepCategory(c, query) then [c] + KeptCategories(cats, query) else KeptCategories(cats, query)
  {
    assert ([c] + cats)[1..] == cats;
  }

  /** The search never looks at a category's description: changing descriptions only changes them in the result. */
  lemma FilterIgnoresCategoryDescription(cats: seq<DocumentCategory>, other: seq<DocumentCategory>, query: string)
    requires WithoutDescriptions(other) == WithoutDescriptions(cats)
    ensures WithoutDescriptions(FilteredCategories(other, query)) == WithoutDescriptions(FilteredCategories(cats, query))
  {
    if !IsBlank(query) {
      var na := NarrowedCategories(cats, query);
      var nb := NarrowedCategories(other, query);
      assert WithoutDescriptions(na) == WithoutDescriptions(nb) by {
        forall i | 0 <= i < |cats|
          ensures WithoutDescriptions(na)[i] == WithoutDescriptions(nb)[i]
        {
          assert WithoutDescriptions(other)[i] == WithoutDescriptions(cats)[i];
        }
      }
      KeptCommutesWithoutDescriptions(na, query);
      KeptCommutesWithoutDescriptions(nb, query);
    }
  }
}
