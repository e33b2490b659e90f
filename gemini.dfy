/** `generateSearchQueries`: the keyword extractor. The language-model call is an
    external service; its outcome is a parameter. What is modelled are the two local
    paths: the tokenizer used when no API key is configured and the split used when the
    model call fails. */
module GeminiService {
  import opened Types
  import opened Text
  import opened Seqs

  // ---------------------------------------------------------------------------
  // Word runs: `match(/\b(\w+)\b/g)`

  /** `\w`: an ASCII letter, a digit or the underscore. */
  predicate IsWordChar(c: char) {
    'a' <= c <= 'z' || 'A' <= c <= 'Z' || '0' <= c <= '9' || c == '_'
  }

  predicate IsWord(w: string) {
    forall i :: 0 <= i < |w| ==> IsWordChar(w[i])
  }

  predicate HasWordChar(s: string) {
    exists i :: 0 <= i < |s| && IsWordChar(s[i])
  }

  /** The length of the run of word characters `s` starts with. */
  function LeadingWordLength(s: string): (n: nat)
    ensures n <= |s| && IsWord(s[..n])
    ensures n < |s| ==> !IsWordChar(s[n])
  {
    if s == [] || !IsWordChar(s[0]) then 0 else 1 + LeadingWordLength(s[1..])
  }

  /** `s.match(/\b(\w+)\b/g) || []`: the maximal runs of word characters of `s`, in
      order. Each is a non-empty word made of characters of `s`, and there is none
      exactly when `s` has no word character. */
  function WordRuns(s: string): (r: seq<string>)
    ensures forall k :: 0 <= k < |r| ==> r[k] != [] && IsWord(r[k])
    ensures forall k, i :: 0 <= k < |r| && 0 <= i < |r[k]| ==> r[k][i] in s
    ensures r == [] <==> !HasWordChar(s)
    decreases |s|
  {
    if s == [] then []
    else if !IsWordChar(s[0]) then
      var r := WordRuns(s[1..]);
      assert HasWordChar(s[1..]) ==> HasWordChar(s) by {
        if HasWordChar(s[1..]) {
          var i :| 0 <= i < |s[1..]| && IsWordChar(s[1..][i]);
          assert IsWordChar(s[i + 1]);
        }
      }
      assert HasWordChar(s) ==> HasWordChar(s[1..]) by {
        if HasWordChar(s) {
          var i :| 0 <= i < |s| && IsWordChar(s[i]);
          assert s[1..][i - 1] == s[i];
        }
      }
      r
    else
      var n := LeadingWordLength(s);
      var rest := WordRuns(s[n..]);
      var r := [s[..n]] + rest;
      assert IsWordChar(s[0]);
      assert forall k, i :: 1 <= k < |r| && 0 <= i < |r[k]| ==> r[k][i] in s[n..];
      r
  }

  /** A single word is its own only run. */
  lemma WordRunsOfWord(w: string)
    requires w != [] && IsWord(w)
    ensures WordRuns(w) == [w]
  {
    var n := LeadingWordLength(w);
    assert n == |w|;
    assert w[n..] == [];
    assert w[..n] == w;
  }

  /** A leading word is cut off whole by the separator that ends it. */
  lemma LeadingWordBeforeSeparator(a: string, c: char, b: string)
    requires IsWord(a) && !IsWordChar(c)
    ensures LeadingWordLength(a + [c] + b) == |a|
    decreases |a|
  {
    if a != [] {
      assert (a + [c] + b)[1..] == a[1..] + [c] + b;
      LeadingWordBeforeSeparator(a[1..], c, b);
    }
  }

  /** A non-word character separates the runs on either side of it. */
  lemma {:induction false} WordRunsAtSeparator(a: string, c: char, b: string)
    requires !IsWordChar(c)
    ensures WordRuns(a + [c] + b) == WordRuns(a) + WordRuns(b)
    decreases |a|
  {
    var s := a + [c] + b;
    if a == [] {
      assert s[1..] == b;
    } else if !IsWordChar(a[0]) {
      assert s[1..] == a[1..] + [c] + b;
      WordRunsAtSeparator(a[1..], c, b);
    } else {
      var n := LeadingWordLength(a);
      var a' := a[n..];
      assert a == a[..n] + a';
      if n == |a| {
        LeadingWordBeforeSeparator(a, c, b);
        assert s[..|a|] == a && s[|a|..] == [c] + b;
        assert ([c] + b)[1..] == b;
        WordRunsOfWord(a);
      } else {
        assert IsWord(s[..n]) && s[..n] == a[..n];
        assert s[n] == a[n];
        assert LeadingWordLength(s) == n by {
          LeadingWordPrefix(s, a[..n]);
        }
        assert s[n..] == a' + [c] + b;
        WordRunsAtSeparator(a', c, b);
      }
    }
  }

  /** The run a string starts with is the same whatever follows a non-word character. */
  lemma LeadingWordPrefix(s: string, w: string)
    requires IsWord(w) && w <= s && (|w| < |s| ==> !IsWordChar(s[|w|]))
    ensures LeadingWordLength(s) == |w|
    decreases |w|
  {
    if w != [] {
      LeadingWordPrefix(s[1..], w[1..]);
    }
  }

  lemma LowerKeepsWordChars(s: string)
    ensures HasWordChar(Lower(s)) <==> HasWordChar(s)
  {
    if HasWordChar(s) {
      var i :| 0 <= i < |s| && IsWordChar(s[i]);
      assert IsWordChar(Lower(s)[i]);
    }
    if HasWordChar(Lower(s)) {
      var i :| 0 <= i < |s| && IsWordChar(Lower(s)[i]);
      assert IsWordChar(s[i]);
    }
  }

  // ---------------------------------------------------------------------------
  // The two local paths

  /** The path taken without an API key: the distinct words of the lower-cased text,
      in the order they first appear: the first three of them. */
  function NoKeyQueries(text: string): (r: seq<string>)
    ensures |r| <= 3
    ensures NoDuplicates(r)
    ensures forall k :: 0 <= k < |r| ==> r[k] != [] && IsWord(r[k]) && IsLowerCase(r[k])
    ensures r == [] <==> !HasWordChar(text)
    ensures forall k :: 0 <= k < |r| ==> r[k] in WordRuns(Lower(text))
    ensures InFirstOccurrenceOrder(r, WordRuns(Lower(text)))
    ensures |r| < 3 ==> forall w :: w in WordRuns(Lower(text)) ==> w in r
    ensures forall k, w :: 0 <= k < |r| && w in WordRuns(Lower(text)) && w !in r ==>
      FirstIndex(WordRuns(Lower(text)), r[k]) < FirstIndex(WordRuns(Lower(text)), w)
  {
    var lowered := Lower(text);
    var runs := WordRuns(lowered);
    var distinct := Dedupe(runs);
    var r := Take(distinct, 3);
    TakeOfDedupe(runs, 3);
    LowerKeepsWordChars(text);
    LowerIsLowerCase(text);
    r
  }

  /** The path taken when the model call fails: the lower-cased text split on single
      spaces, first three pieces. There is always at least one piece; pieces may be empty
      or repeated. Joined back, the pieces spell the start of the lower-cased text, or
      all of it when fewer than three pieces are kept; when three are kept, what they
      spell ends at a space of the text or at its end, so the third piece is whole. */
  function ErrorQueries(text: string): (r: seq<string>)
    ensures 1 <= |r| <= 3
    ensures forall k :: 0 <= k < |r| ==> ' ' !in r[k] && IsLowerCase(r[k])
    ensures Join(r, ' ') <= Lower(text)
    ensures |r| < 3 ==> Join(r, ' ') == Lower(text)
    ensures |Join(r, ' ')| < |Lower(text)| ==> Lower(text)[|Join(r, ' ')|] == ' '
  {
    var pieces := Split(Lower(text), ' ');
    var r := Take(pieces, 3);
    JoinSplit(Lower(text), ' ');
    JoinPrefix(pieces, |r|, ' ');
    assert pieces[..|r|] == r;
    assert |pieces| > 3 ==> Lower(text)[|Join(r, ' ')|] == ' ' by {
      if |pieces| > 3 {
        JoinSplitAt(pieces, 3, ' ');
      }
    }
    LowerIsLowerCase(text);
    SplitPiecesFromText(Lower(text), ' ');
    r
  }

  /** The pieces of a split consist of characters of the string. */
  lemma {:induction false} SplitPiecesFromText(s: string, sep: char)
    ensures forall k, i :: 0 <= k < |Split(s, sep)| && 0 <= i < |Split(s, sep)[k]| ==> Split(s, sep)[k][i] in s
  {
    if s != [] {
      SplitPiecesFromText(s[1..], sep);
    }
  }

  /** On the error path a text starting with a space yields an empty first keyword. */
  lemma ErrorQueriesLeadingSpace(text: string)
    requires text != [] && text[0] == ' '
    ensures ErrorQueries(text)[0] == ""
  {
    assert Lower(text)[0] == ' ';
  }

  // ---------------------------------------------------------------------------
  // generateSearchQueries

  /** What the language-model call produced: a parsed response, whose `queries` field
      may be missing, or a failure (network, quota, malformed JSON). */
  datatype ModelOutcome = Responded(queries: Option<seq<string>>) | Failed

  /** Whether an API key is configured and, if so, how the model call ended. */
  datatype ExtractorConfig = NoApiKey | WithApiKey(outcome: ModelOutcome)

  /** `generateSearchQueries`. Without a key, the local tokenizer's words; a failed call,
      the split pieces; a response, its `queries` as they are, or none when the field is
      missing. A failed call never yields an empty list; without a key at most three
      keywords come back, none of them exactly when the text has no word character. */
  function GenerateSearchQueries(config: ExtractorConfig, text: string): (r: seq<string>)
    ensures config == NoApiKey ==> r == NoKeyQueries(text)
    ensures config == WithApiKey(Failed) ==> r == ErrorQueries(text)
    ensures config.WithApiKey? && config.outcome.Responded? && config.outcome.queries.Some? ==>
      r == config.outcome.queries.value
    ensures config == WithApiKey(Responded(None)) ==> r == []
    ensures config == WithApiKey(Failed) ==> 1 <= |r| <= 3
    ensures config == NoApiKey ==> |r| <= 3 && NoDuplicates(r) && (r == [] <==> !HasWordChar(text))
  {
    match config
    case NoApiKey => NoKeyQueries(text)
    case WithApiKey(Failed) => ErrorQueries(text)
    case WithApiKey(Responded(queries)) => queries.GetOr([])
  }
}
