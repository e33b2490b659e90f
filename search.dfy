/** The filter of `performSearch` in App.tsx: which library items a query keeps, given
    the keywords the extractor returned. */
module Search {
  import opened Types
  import opened Text
  import opened Seqs
  import GeminiService

  /** The text an item is searched by: its title, description and space-joined tags,
      lower-cased. The item's `content` is not part of it. */
  function ItemText(item: LibraryItem): string {
    Lower(item.title + " " + item.description + " " + Join(item.tags, ' '))
  }

  /** `keywords.some(keyword => text.includes(keyword))`. */
  predicate AnyContained(text: string, keywords: seq<string>) {
    keywords != [] && (Contains(text, keywords[0]) || AnyContained(text, keywords[1..]))
  }

  /** `some` holds exactly when one of the keywords is included in the text. */
  lemma {:induction false} AnyContainedIff(text: string, keywords: seq<string>)
    ensures AnyContained(text, keywords) <==> exists i :: 0 <= i < |keywords| && Contains(text, keywords[i])
  {
    if keywords != [] {
      AnyContainedIff(text, keywords[1..]);
      if exists i :: 0 <= i < |keywords| && Contains(text, keywords[i]) {
        var i :| 0 <= i < |keywords| && Contains(text, keywords[i]);
        if i > 0 {
          assert keywords[1..][i - 1] == keywords[i];
        }
      }
      if AnyContained(text, keywords[1..]) {
        var i :| 0 <= i < |keywords[1..]| && Contains(text, keywords[1..][i]);
        assert Contains(text, keywords[i + 1]);
      }
    }
  }

  /** The filter predicate of `performSearch`. */
  predicate Matches(item: LibraryItem, keywords: seq<string>) {
    AnyContained(ItemText(item), keywords)
  }

  /** `library.filter(item => Matches(item, keywords))`: the matching items, in library
      order. */
  function FilterLibrary(library: seq<LibraryItem>, keywords: seq<string>): (r: seq<LibraryItem>)
    ensures IsSubsequence(r, library)
  {
    if library == [] then []
    else
      var rest := FilterLibrary(library[1..], keywords);
      assert library == [library[0]] + library[1..];
      if Matches(library[0], keywords) then
        var r := [library[0]] + rest;
        assert r[1..] == rest;
        r
      else
        assert IsSubsequence(rest, library[1..]);
        rest
  }

  /** The filter keeps exactly the matching items of the library, each as often as it
      occurs there. */
  lemma {:induction false} FilterLibraryKeeps(library: seq<LibraryItem>, keywords: seq<string>)
    ensures forall x :: x in FilterLibrary(library, keywords) <==> x in library && Matches(x, keywords)
    ensures forall x ::
      multiset(FilterLibrary(library, keywords))[x] == if Matches(x, keywords) then multiset(library)[x] else 0
  {
    if library != [] {
      FilterLibraryKeeps(library[1..], keywords);
      assert library == [library[0]] + library[1..];
    }
  }

  /** `keywords.map(k => k.toLowerCase())`. */
  function LowerAll(keywords: seq<string>): (r: seq<string>)
    ensures |r| == |keywords|
    ensures forall i :: 0 <= i < |r| ==> r[i] == Lower(keywords[i])
  {
    seq(|keywords|, i requires 0 <= i < |keywords| => Lower(keywords[i]))
  }

  /** The words of a `filter(word => word.length > 2)`, in order. */
  function LongWords(words: seq<string>): (r: seq<string>)
    ensures IsSubsequence(r, words)
    ensures forall i :: 0 <= i < |r| ==> |r[i]| > 2
    ensures forall i :: 0 <= i < |words| && |words[i]| > 2 ==> words[i] in r
  {
    if words == [] then []
    else
      var rest := LongWords(words[1..]);
      assert forall i :: 1 <= i < |words| ==> words[i] == words[1..][i - 1];
      if |words[0]| > 2 then
        var r := [words[0]] + rest;
        assert r[1..] == rest;
        r
      else rest
  }

  /** `filter` keeps every occurrence of a longer word: each word longer than two
      characters is kept as often as it occurs, and no other word is kept. */
  lemma {:induction false} LongWordsCounts(words: seq<string>)
    ensures forall w :: multiset(LongWords(words))[w] == if |w| > 2 then multiset(words)[w] else 0
  {
    if words != [] {
      LongWordsCounts(words[1..]);
      assert words == [words[0]] + words[1..];
    }
  }

  /** The fallback tokenizer of `performSearch`: the lower-cased query split on single
      spaces, keeping the words longer than two characters. */
  function FallbackKeywords(query: string): (r: seq<string>)
    ensures forall i :: 0 <= i < |r| ==> |r[i]| > 2 && ' ' !in r[i]
    ensures IsSubsequence(r, Split(Lower(query), ' '))
    ensures forall w :: w in Split(Lower(query), ' ') && |w| > 2 ==> w in r
  {
    var pieces := Split(Lower(query), ' ');
    var r := LongWords(pieces);
    SubsequenceMembers(r, pieces);
    forall i | 0 <= i < |r| ensures ' ' !in r[i] {
      assert r[i] in r;
      var j :| 0 <= j < |pieces| && pieces[j] == r[i];
    }
    r
  }

  /** The fallback keeps each piece of the split longer than two characters as often as
      it occurs there, and nothing else. */
  lemma FallbackKeywordsCounts(query: string)
    ensures var pieces := Split(Lower(query), ' ');
      forall w :: multiset(FallbackKeywords(query))[w] == if |w| > 2 then multiset(pieces)[w] else 0
  {
    LongWordsCounts(Split(Lower(query), ' '));
  }

  /** The keywords `performSearch` filters with: the extractor's, or the fallback when
      the extractor returned none; lower-cased. */
  function SearchKeywords(query: string, extracted: seq<string>): seq<string> {
    LowerAll(if |extracted| == 0 then FallbackKeywords(query) else extracted)
  }

  /** The results `performSearch` stores for a query: the whole library for a blank
      query, else the items matching one of the search keywords. */
  function Search(library: seq<LibraryItem>, query: string, extracted: seq<string>): seq<LibraryItem> {
    if Trim(query) == [] then library
    else FilterLibrary(library, SearchKeywords(query, extracted))
  }

  /** The steps of `performSearch` for a query that is not blank: push the fallback
      keywords onto the extracted ones when there are none, lower-case, filter. */
  lemma SearchSteps(library: seq<LibraryItem>, query: string, extracted: seq<string>, keywords: seq<string>)
    requires !IsBlank(query)
    requires keywords == if |extracted| == 0 then extracted + FallbackKeywords(query) else extracted
    ensures Search(library, query, extracted) == FilterLibrary(library, LowerAll(keywords))
  {
    TrimEmptyIffBlank(query);
    assert |extracted| == 0 ==> extracted + FallbackKeywords(query) == FallbackKeywords(query);
  }

  // ---------------------------------------------------------------------------
  // Properties

  /** A blank query shows the whole library, in order, whatever the extractor said. */
  lemma BlankQueryShowsLibrary(library: seq<LibraryItem>, query: string, extracted: seq<string>)
    requires IsBlank(query)
    ensures Search(library, query, extracted) == library
  {
    TrimEmptyIffBlank(query);
  }

  /** Search results are a subsequence of the library: nothing is added or reordered. */
  lemma SearchIsSubsequence(library: seq<LibraryItem>, query: string, extracted: seq<string>)
    ensures IsSubsequence(Search(library, query, extracted), library)
  {
    if Trim(query) == [] {
      SubsequenceRefl(library);
    }
  }

  /** For a query that is not blank, an item is shown exactly when it is in the library
      and one of the lower-cased keywords occurs in its searchable text. */
  lemma SearchKeepsMatchingItems(library: seq<LibraryItem>, query: string, extracted: seq<string>, x: LibraryItem)
    requires !IsBlank(query)
    ensures var keywords := SearchKeywords(query, extracted);
      x in Search(library, query, extracted) <==>
      x in library && exists i :: 0 <= i < |keywords| && Contains(ItemText(x), keywords[i])
  {
    TrimEmptyIffBlank(query);
    FilterLibraryKeeps(library, SearchKeywords(query, extracted));
    AnyContainedIff(ItemText(x), SearchKeywords(query, extracted));
  }

  /** The content of an item never decides whether it matches. */
  lemma ContentNotSearched(item: LibraryItem, content: Option<string>, keywords: seq<string>)
    ensures Matches(item.(content := content), keywords) == Matches(item, keywords)
  {
  }

  /** The fallback is used only when the extractor returned no keyword. */
  lemma ExtractedKeywordsUsed(query: string, extracted: seq<string>)
    requires extracted != []
    ensures SearchKeywords(query, extracted) == LowerAll(extracted)
  {
  }

  /** When the extractor returned nothing and no word of the query is longer than two
      characters, nothing is found. */
  lemma NoKeywordsNoResults(library: seq<LibraryItem>, query: string)
    requires !IsBlank(query)
    requires FallbackKeywords(query) == []
    ensures Search(library, query, []) == []
  {
    TrimEmptyIffBlank(query);
    FilterLibraryKeeps(library, LowerAll([]));
  }

  /** The empty keyword is included in every text, so it keeps the whole library. */
  lemma {:induction false} EmptyKeywordKeepsAll(library: seq<LibraryItem>, keywords: seq<string>)
    requires "" in keywords
    ensures FilterLibrary(library, keywords) == library
  {
    if library != [] {
      EmptyKeywordKeepsAll(library[1..], keywords);
      var i :| 0 <= i < |keywords| && keywords[i] == "";
      assert Contains(ItemText(library[0]), keywords[i]);
      AnyContainedIff(ItemText(library[0]), keywords);
      assert library == [library[0]] + library[1..];
    }
  }

  /** The case of the extracted keywords does not matter. */
  lemma KeywordCaseIgnored(library: seq<LibraryItem>, query: string, extracted: seq<string>)
    ensures Search(library, query, LowerAll(extracted)) == Search(library, query, extracted)
  {
    forall i | 0 <= i < |extracted| ensures Lower(Lower(extracted[i])) == Lower(extracted[i]) {
      LowerIsLowerCase(extracted[i]);
      LowerOfLowerCase(Lower(extracted[i]));
    }
    assert LowerAll(LowerAll(extracted)) == LowerAll(extracted);
  }

  /** When the model call fails on a query that starts with a space, the first keyword
      is empty and every item is shown. */
  lemma FailedModelWithLeadingSpaceShowsAll(library: seq<LibraryItem>, query: string)
    requires query != [] && query[0] == ' ' && !IsBlank(query)
    ensures Search(library, query, GeminiService.GenerateSearchQueries(GeminiService.WithApiKey(GeminiService.Failed), query)) == library
  {
    var extracted := GeminiService.ErrorQueries(query);
    GeminiService.ErrorQueriesLeadingSpace(query);
    TrimEmptyIffBlank(query);
    var keywords := SearchKeywords(query, extracted);
    assert keywords[0] == Lower(extracted[0]) == "";
    EmptyKeywordKeepsAll(library, keywords);
  }
}
