/** The demonstration library of data/mockLibrary.ts and what searches over it find. */
module MockLibrary {
  import opened Types
  import opened Text
  import opened Seqs
  import GeminiService
  import Search

  // Longer texts are written as concatenations of short literals, which keeps the
  // character-by-character facts the scenarios need small.

  const Description1: string := "A photo from " + "our trip to " + "the apple " + "orchard last " + "fall."
  const Description2: string := "Quarterly " + "planning for " + "grocery store " + "runs."
  const Description3: string := "Beautiful " + "sunset over " + "the ocean."
  const Description4: string := "Final " + "presentation " + "recording for " + "Project Alpha."
  const Description5: string := "Audio recording " + "of the initial " + "brainstorming " + "for the new " + "marketing " + "campaign."
  const Description6: string := "Photo of the " + "produce aisle " + "at the local " + "store."
  const Description7: string := "A banana tree " + "in Hawaii."

  const Item1: LibraryItem := LibraryItem(
    "1", Image, "Apple Picking Day", Description1,
    ["fruit", "apples", "orchard", "family", "fall"],
    Some("https://picsum.photos/seed/apple/800/600"), None, Local, None, None)

  const Item2: LibraryItem := LibraryItem(
    "2", Document, "Grocery List Q3", Description2,
    ["shopping", "groceries", "planning", "food"],
    Some("#"),
    Some("Remember to buy more apples and especially bananas for smoothies. Also need to check the store for new organic options."),
    Local, None, None)

  const Item3: LibraryItem := LibraryItem(
    "3", Image, "Beach Sunset", Description3,
    ["beach", "sunset", "ocean", "vacation"],
    Some("https://picsum.photos/seed/beach/800/600"), None, Local, None, None)

  const Item4: LibraryItem := LibraryItem(
    "4", Video, "Project Alpha Presentation", Description4,
    ["work", "project", "presentation", "tech"],
    Some("#"),
    Some("In this presentation, we discuss the core architecture... and the benefits of our approach."),
    Local, None, None)

  const Item5: LibraryItem := LibraryItem(
    "5", Audio, "Brainstorming Session", Description5,
    ["work", "marketing", "brainstorming", "ideas"],
    Some("#"),
    Some("What if we target a new demographic? Maybe focus on healthy eating, like apples and bananas."),
    Local, None, None)

  const Item6: LibraryItem := LibraryItem(
    "6", Image, "Local Supermarket", Description6,
    ["store", "shopping", "groceries", "produce"],
    Some("https://picsum.photos/seed/store/800/600"), None, Local, None, None)

  const Item7: LibraryItem := LibraryItem(
    "7", Image, "Banana Tree", Description7,
    ["fruit", "banana", "tree", "hawaii"],
    Some("https://picsum.photos/seed/banana/800/600"), None, Local, None, None)

  const Library: seq<LibraryItem> := [Item1, Item2, Item3, Item4, Item5, Item6, Item7]

  // ---------------------------------------------------------------------------
  // Matching single keywords

  /** Matching a one-keyword list is containing that keyword. */
  lemma MatchesOne(item: LibraryItem, keyword: string)
    ensures Search.Matches(item, [keyword]) <==> Contains(Search.ItemText(item), keyword)
  {
    Search.AnyContainedIff(Search.ItemText(item), [keyword]);
    if Contains(Search.ItemText(item), keyword) {
      assert [keyword][0] == keyword;
    }
  }

  /** Neither the title, the description nor a tag of the item holds the lower-case
      letter `c`, in either case. */
  predicate LacksLetter(item: LibraryItem, c: char)
    requires 'a' <= c <= 'z'
  {
    var upper := (c as int - 32) as char;
    && c !in item.title && upper !in item.title
    && c !in item.description && upper !in item.description
    && (forall i :: 0 <= i < |item.tags| ==> c !in item.tags[i] && upper !in item.tags[i])
  }

  /** A lower-case letter absent from a string in both cases is absent from its lower-case form. */
  lemma LetterMissingFromLower(s: string, c: char)
    requires 'a' <= c <= 'z' && c !in s && (c as int - 32) as char !in s
    ensures c !in Lower(s)
  {
  }

  /** A character that is not the separator and is in no part is not in the joined text. */
  lemma {:induction false} CharMissingFromJoin(parts: seq<string>, sep: char, c: char)
    requires c != sep
    requires forall i :: 0 <= i < |parts| ==> c !in parts[i]
    ensures c !in Join(parts, sep)
    decreases |parts|
  {
    if |parts| > 1 {
      CharMissingFromJoin(parts[1..], sep, c);
      assert parts[1..][0] == parts[1];
    }
  }

  /** An item that lacks a letter matches no keyword holding that letter. */
  lemma LetterMissingFromItem(item: LibraryItem, c: char, keyword: string)
    requires 'a' <= c <= 'z' && c in keyword && LacksLetter(item, c)
    ensures !Search.Matches(item, [keyword])
  {
    var upper := (c as int - 32) as char;
    CharMissingFromJoin(item.tags, ' ', c);
    CharMissingFromJoin(item.tags, ' ', upper);
    var whole := item.title + " " + item.description + " " + Join(item.tags, ' ');
    assert c !in whole && upper !in whole;
    LetterMissingFromLower(whole, c);
    MissingCharNotContained(Search.ItemText(item), keyword, c);
    MatchesOne(item, keyword);
  }

  /** An item whose first tag is a lower-case keyword matches it. */
  lemma FirstTagMatches(item: LibraryItem, keyword: string)
    requires |item.tags| >= 1 && item.tags[0] == keyword && IsLowerCase(keyword)
    ensures Search.Matches(item, [keyword])
  {
    var head := item.title + " " + item.description + " ";
    var rest := if |item.tags| == 1 then "" else [' '] + Join(item.tags[1..], ' ');
    assert Join(item.tags, ' ') == keyword + rest;
    assert head + Join(item.tags, ' ') == head + keyword + rest;
    LowerAppend(head + keyword, rest);
    LowerAppend(head, keyword);
    LowerOfLowerCase(keyword);
    ContainsInInfix(Lower(head), keyword, Lower(rest), keyword);
    MatchesOne(item, keyword);
  }

  /** An item whose title starts with the keyword, ignoring case, matches it. */
  lemma TitleStartMatches(item: LibraryItem, keyword: string)
    requires |keyword| <= |item.title| && Lower(item.title[..|keyword|]) == keyword
    ensures Search.Matches(item, [keyword])
  {
    var whole := item.title + " " + item.description + " " + Join(item.tags, ' ');
    assert whole == item.title[..|keyword|] + whole[|keyword|..];
    LowerAppend(item.title[..|keyword|], whole[|keyword|..]);
    MatchesOne(item, keyword);
  }

  /** A lower-case word of three or more letters is its own keyword list, with or
      without an API key. */
  lemma SingleWordKeywords(q: string)
    requires q != [] && GeminiService.IsWord(q) && IsLowerCase(q) && |q| > 2
    ensures !IsBlank(q) && Trim(q) != []
    ensures GeminiService.NoKeyQueries(q) == [q]
    ensures Search.FallbackKeywords(q) == [q]
    ensures Search.LowerAll([q]) == [q]
  {
    assert !IsSpace(q[0]);
    TrimEmptyIffBlank(q);
    LowerOfLowerCase(q);
    SingleWordNoKeyQueries(q);
    SingleWordFallback(q);
  }

  /** Without an API key, a lower-case word is its own only keyword. */
  lemma SingleWordNoKeyQueries(q: string)
    requires q != [] && GeminiService.IsWord(q) && IsLowerCase(q)
    ensures GeminiService.NoKeyQueries(q) == [q]
  {
    LowerOfLowerCase(q);
    GeminiService.WordRunsOfWord(q);
    assert DedupeFrom([q], {}) == [q] by {
      assert [q][1..] == [];
    }
  }

  /** The fallback keeps a lower-case word of three or more letters as it is. */
  lemma SingleWordFallback(q: string)
    requires GeminiService.IsWord(q) && IsLowerCase(q) && |q| > 2
    ensures Search.FallbackKeywords(q) == [q]
  {
    LowerOfLowerCase(q);
    assert Join([q], ' ') == q;
    SplitJoin([q], ' ');
    var f := Search.FallbackKeywords(q);
    SubsequenceLength(f, [q]);
  }

  /** When the model call fails, a lower-case text without a space is its own only
      keyword. */
  lemma SingleWordErrorQueries(q: string)
    requires ' ' !in q && IsLowerCase(q)
    ensures GeminiService.ErrorQueries(q) == [q]
  {
    LowerOfLowerCase(q);
    assert Join([q], ' ') == q;
    SplitJoin([q], ' ');
  }

  // ---------------------------------------------------------------------------
  // Facts about the fixture texts

  lemma DescriptionsOfItems()
    ensures Item1.description == Description1 && Item2.description == Description2
    ensures Item3.description == Description3 && Item6.description == Description6
    ensures Item7.description == Description7
  {
  }

  lemma LettersMissingFromDescription1() ensures 'w' !in Description1 && 'W' !in Description1 {}
  lemma LettersMissingFromDescription2() ensures 'w' !in Description2 && 'W' !in Description2 {}
  lemma LettersMissingFromDescription3() ensures 'w' !in Description3 && 'W' !in Description3 {}
  lemma LettersMissingFromDescription6() ensures 'w' !in Description6 && 'W' !in Description6 {}
  lemma KMissingFromDescription7() ensures 'k' !in Description7 && 'K' !in Description7 {}
  lemma PMissingFromDescription7() ensures 'p' !in Description7 && 'P' !in Description7 {}

  lemma Item1LacksW() ensures LacksLetter(Item1, 'w') {
    DescriptionsOfItems();
    LettersMissingFromDescription1();
  }

  lemma Item2LacksW() ensures LacksLetter(Item2, 'w') {
    DescriptionsOfItems();
    LettersMissingFromDescription2();
  }

  lemma Item3LacksW() ensures LacksLetter(Item3, 'w') {
    DescriptionsOfItems();
    LettersMissingFromDescription3();
  }

  lemma Item6LacksW() ensures LacksLetter(Item6, 'w') {
    DescriptionsOfItems();
    LettersMissingFromDescription6();
  }

  lemma Item7LacksK() ensures LacksLetter(Item7, 'k') {
    DescriptionsOfItems();
    KMissingFromDescription7();
  }

  lemma Item7LacksP() ensures LacksLetter(Item7, 'p') {
    DescriptionsOfItems();
    PMissingFromDescription7();
  }

  // ---------------------------------------------------------------------------
  // Scenarios

  /** An item that does not match is dropped from the front of a list. */
  lemma FilterSkip(x: LibraryItem, rest: seq<LibraryItem>, keywords: seq<string>)
    requires !Search.Matches(x, keywords)
    ensures Search.FilterLibrary([x] + rest, keywords) == Search.FilterLibrary(rest, keywords)
  {
    assert ([x] + rest)[1..] == rest;
  }

  /** An item that matches is kept at the front of a list. */
  lemma FilterKeep(x: LibraryItem, rest: seq<LibraryItem>, keywords: seq<string>)
    requires Search.Matches(x, keywords)
    ensures Search.FilterLibrary([x] + rest, keywords) == [x] + Search.FilterLibrary(rest, keywords)
  {
    assert ([x] + rest)[1..] == rest;
  }

  /** A list of seven, built up from the back. */
  lemma SevenFromTheBack<T>(a: T, b: T, c: T, d: T, e: T, f: T, g: T)
    ensures [a] + ([b] + ([c] + ([d] + ([e] + ([f] + ([g] + [])))))) == [a, b, c, d, e, f, g]
  {
  }

  /** Filtering seven items of which only the fourth and the fifth match. */
  lemma FilterFourthAndFifth(a: LibraryItem, b: LibraryItem, c: LibraryItem, d: LibraryItem, e: LibraryItem, f: LibraryItem, g: LibraryItem, keywords: seq<string>)
    requires !Search.Matches(a, keywords) && !Search.Matches(b, keywords) && !Search.Matches(c, keywords)
    requires Search.Matches(d, keywords) && Search.Matches(e, keywords)
    requires !Search.Matches(f, keywords) && !Search.Matches(g, keywords)
    ensures Search.FilterLibrary([a] + ([b] + ([c] + ([d] + ([e] + ([f] + ([g] + []))))))  , keywords) == [d, e]
  {
    var k := keywords;
    var l6: seq<LibraryItem> := [];
    var l5 := [g] + l6;
    var l4 := [f] + l5;
    var l3 := [e] + l4;
    var l2 := [d] + l3;
    var l1 := [c] + l2;
    var l0 := [b] + l1;
    FilterSkip(g, l6, k);
    FilterSkip(f, l5, k);
    FilterKeep(e, l4, k);
    FilterKeep(d, l3, k);
    FilterSkip(c, l2, k);
    FilterSkip(b, l1, k);
    FilterSkip(a, l0, k);
  }

  /** Filtering two items of which only the first matches. */
  lemma FilterMatchingFirstOfTwo(a: LibraryItem, b: LibraryItem, keywords: seq<string>)
    requires Search.Matches(a, keywords) && !Search.Matches(b, keywords)
    ensures Search.FilterLibrary([a] + ([b] + []), keywords) == [a]
  {
    var l1: seq<LibraryItem> := [];
    FilterSkip(b, l1, keywords);
    FilterKeep(a, [b] + l1, keywords);
  }

  lemma WorkMissesItem1() ensures !Search.Matches(Item1, ["work"]) {
    Item1LacksW();
    LetterMissingFromItem(Item1, 'w', "work");
  }

  lemma WorkMissesItem2() ensures !Search.Matches(Item2, ["work"]) {
    Item2LacksW();
    LetterMissingFromItem(Item2, 'w', "work");
  }

  lemma WorkMissesItem3() ensures !Search.Matches(Item3, ["work"]) {
    Item3LacksW();
    LetterMissingFromItem(Item3, 'w', "work");
  }

  lemma WorkMissesItem6() ensures !Search.Matches(Item6, ["work"]) {
    Item6LacksW();
    LetterMissingFromItem(Item6, 'w', "work");
  }

  lemma WorkMissesItem7() ensures !Search.Matches(Item7, ["work"]) {
    Item7LacksK();
    LetterMissingFromItem(Item7, 'k', "work");
  }

  lemma WorkMatchesItem4() ensures Search.Matches(Item4, ["work"]) {
    assert IsLowerCase("work");
    FirstTagMatches(Item4, "work");
  }

  lemma WorkMatchesItem5() ensures Search.Matches(Item5, ["work"]) {
    assert IsLowerCase("work");
    FirstTagMatches(Item5, "work");
  }

  lemma WorkFilter()
    ensures Search.FilterLibrary(Library, ["work"]) == [Item4, Item5]
  {
    WorkMissesItem1();
    WorkMissesItem2();
    WorkMissesItem3();
    WorkMatchesItem4();
    WorkMatchesItem5();
    WorkMissesItem6();
    WorkMissesItem7();
    FilterFourthAndFifth(Item1, Item2, Item3, Item4, Item5, Item6, Item7, ["work"]);
    SevenFromTheBack(Item1, Item2, Item3, Item4, Item5, Item6, Item7);
  }

  /** Searching the demonstration library for "work" finds the two items tagged with
      it, in library order, whether the keyword comes from the tokenizer used without
      an API key or from the fallback. */
  lemma WorkFindsWorkItems()
    ensures Search.Search(Library, "work", GeminiService.GenerateSearchQueries(GeminiService.NoApiKey, "work")) == [Item4, Item5]
    ensures Search.Search(Library, "work", []) == [Item4, Item5]
  {
    SingleWordKeywords("work");
    assert Search.SearchKeywords("work", []) == ["work"];
    assert Search.SearchKeywords("work", ["work"]) == ["work"];
    WorkFilter();
  }

  lemma AppleMatchesItem1() ensures Search.Matches(Item1, ["apple"]) {
    assert Item1.title[..5] == "Apple";
    TitleStartMatches(Item1, "apple");
  }

  lemma AppleMissesItem7() ensures !Search.Matches(Item7, ["apple"]) {
    Item7LacksP();
    LetterMissingFromItem(Item7, 'p', "apple");
  }

  lemma AppleFilter()
    ensures Search.FilterLibrary([Item1, Item7], ["apple"]) == [Item1]
  {
    AppleMatchesItem1();
    AppleMissesItem7();
    FilterMatchingFirstOfTwo(Item1, Item7, ["apple"]);
    assert [Item1] + ([Item7] + []) == [Item1, Item7];
  }

  /** With the apple-picking photo and the banana tree, a search for "apple" finds only
      the apple-picking photo, whether the keyword comes from the tokenizer used without
      an API key, from the split used when the model call fails, or from the fallback
      when the extractor returned none. */
  lemma AppleFindsOnlyApplePicking()
    ensures Search.Search([Item1, Item7], "apple", GeminiService.GenerateSearchQueries(GeminiService.NoApiKey, "apple")) == [Item1]
    ensures Search.Search([Item1, Item7], "apple", GeminiService.GenerateSearchQueries(GeminiService.WithApiKey(GeminiService.Failed), "apple")) == [Item1]
    ensures Search.Search([Item1, Item7], "apple", []) == [Item1]
  {
    AppleKeywords();
    AppleFilter();
  }

  /** Each of the three paths yields the single keyword "apple". */
  lemma AppleKeywords()
    ensures Search.SearchKeywords("apple", GeminiService.GenerateSearchQueries(GeminiService.NoApiKey, "apple")) == ["apple"]
    ensures Search.SearchKeywords("apple", GeminiService.GenerateSearchQueries(GeminiService.WithApiKey(GeminiService.Failed), "apple")) == ["apple"]
    ensures Search.SearchKeywords("apple", []) == ["apple"]
    ensures Trim("apple") != []
  {
    SingleWordKeywords("apple");
    SingleWordErrorQueries("apple");
    assert Search.SearchKeywords("apple", ["apple"]) == ["apple"];
  }

  /** A blank query shows the whole demonstration library. */
  lemma BlankQueryShowsMockLibrary(config: GeminiService.ExtractorConfig)
    ensures Search.Search(Library, "  ", GeminiService.GenerateSearchQueries(config, "  ")) == Library
  {
    Search.BlankQueryShowsLibrary(Library, "  ", GeminiService.GenerateSearchQueries(config, "  "));
  }
}
