/** The JavaScript string operations the search pipeline relies on: `toLowerCase`
    (restricted to ASCII letters), `includes`, `split` on one character, `join` with
    one character and `trim`. */
module Text {

  // ---------------------------------------------------------------------------
  // toLowerCase

  predicate IsUpper(c: char) {
    'A' <= c <= 'Z'
  }

  function LowerChar(c: char): char {
    if IsUpper(c) then (c as int + 32) as char else c
  }

  /** `s.toLowerCase()` on ASCII letters; every other character is kept. */
  function Lower(s: string): (r: string)
    ensures |r| == |s|
    ensures forall i :: 0 <= i < |s| ==> r[i] == LowerChar(s[i])
  {
    if s == [] then [] else [LowerChar(s[0])] + Lower(s[1..])
  }

  /** No upper-case ASCII letter is left. */
  predicate IsLowerCase(s: string) {
    forall i :: 0 <= i < |s| ==> !IsUpper(s[i])
  }

  lemma LowerIsLowerCase(s: string)
    ensures IsLowerCase(Lower(s))
  {
  }

  lemma LowerOfLowerCase(s: string)
    requires IsLowerCase(s)
    ensures Lower(s) == s
  {
  }

  lemma LowerAppend(a: string, b: string)
    ensures Lower(a + b) == Lower(a) + Lower(b)
  {
  }

  // ---------------------------------------------------------------------------
  // includes

  /** `k` occurs in `text` at index `i`. */
  predicate OccursAt(text: string, k: string, i: nat) {
    i + |k| <= |text| && text[i..i + |k|] == k
  }

  /** `text.includes(k)`: the empty string is included in every text. */
  predicate Contains(text: string, k: string) {
    k <= text || (text != [] && Contains(text[1..], k))
  }

  /** `Contains` agrees with the positional definition of an occurrence. */
  lemma ContainsIffOccurs(text: string, k: string)
    ensures Contains(text, k) <==> exists i: nat :: OccursAt(text, k, i)
  {
    if Contains(text, k) {
      ContainedOccurs(text, k);
    }
    if exists i: nat :: OccursAt(text, k, i) {
      var i: nat :| OccursAt(text, k, i);
      OccursAtContained(text, k, i);
    }
  }

  /** An included string occurs at some index. */
  lemma {:induction false} ContainedOccurs(text: string, k: string)
    requires Contains(text, k)
    ensures exists i: nat :: OccursAt(text, k, i)
    decreases |text|
  {
    if k <= text {
      assert OccursAt(text, k, 0);
    } else {
      ContainedOccurs(text[1..], k);
      var i: nat :| OccursAt(text[1..], k, i);
      assert text[1..][i..i + |k|] == text[i + 1..i + 1 + |k|];
      assert OccursAt(text, k, i + 1);
    }
  }

  /** A string that occurs at some index is included. */
  lemma {:induction false} OccursAtContained(text: string, k: string, i: nat)
    requires OccursAt(text, k, i)
    ensures Contains(text, k)
    decreases i
  {
    if i == 0 {
      assert k == text[..|k|];
    } else {
      assert text[1..][i - 1..i - 1 + |k|] == text[i..i + |k|];
      OccursAtContained(text[1..], k, i - 1);
    }
  }

  /** An occurrence in a part of a text is an occurrence in the whole text. */
  lemma ContainsInInfix(a: string, b: string, c: string, k: string)
    requires Contains(b, k)
    ensures Contains(a + b + c, k)
  {
    ContainsIffOccurs(b, k);
    var i: nat :| OccursAt(b, k, i);
    assert (a + b + c)[|a| + i..|a| + i + |k|] == b[i..i + |k|];
    assert OccursAt(a + b + c, k, |a| + i);
    ContainsIffOccurs(a + b + c, k);
  }

  /** A string that differs from `p` within the length of `p` does not start with `p`. */
  lemma NotPrefixAt(p: string, s: string, i: nat)
    requires i < |p| && i < |s| && p[i] != s[i]
    ensures !(p <= s)
  {
  }

  /** A text lacking one of the characters of `k` does not contain `k`. */
  lemma MissingCharNotContained(text: string, k: string, c: char)
    requires c in k && c !in text
    ensures !Contains(text, k)
  {
    ContainsIffOccurs(text, k);
  }

  // ---------------------------------------------------------------------------
  // split and join on one character

  /** `s.split(sep)` for a one-character separator: never empty, and no piece holds `sep`. */
  function Split(s: string, sep: char): (r: seq<string>)
    ensures |r| >= 1
    ensures forall i :: 0 <= i < |r| ==> sep !in r[i]
  {
    if s == [] then [[]]
    else
      var rest := Split(s[1..], sep);
      if s[0] == sep then [[]] + rest else [[s[0]] + rest[0]] + rest[1..]
  }

  /** `parts.join(sep)` for a one-character separator; `[].join(sep)` is "". */
  function Join(parts: seq<string>, sep: char): string {
    if |parts| == 0 then []
    else if |parts| == 1 then parts[0]
    else parts[0] + [sep] + Join(parts[1..], sep)
  }

  /** Joining the pieces of a split gives back the original string. */
  lemma {:induction false} JoinSplit(s: string, sep: char)
    ensures Join(Split(s, sep), sep) == s
  {
    if s != [] {
      var rest := Split(s[1..], sep);
      JoinSplit(s[1..], sep);
      if s[0] == sep {
        assert Split(s, sep) == [[]] + rest;
        assert Join([[]] + rest, sep) == [] + [sep] + Join(rest, sep);
      } else {
        var r := Split(s, sep);
        assert r == [[s[0]] + rest[0]] + rest[1..];
        if |rest| == 1 {
          assert Join(r, sep) == [s[0]] + rest[0];
        } else {
          assert r[1..] == rest[1..];
          assert Join(r, sep) == [s[0]] + rest[0] + [sep] + Join(rest[1..], sep);
        }
      }
    }
  }

  /** Splitting a separator-free word followed by a remainder: the word sticks to the
      first piece of the remainder. */
  lemma {:induction false} SplitWordPrefix(w: string, t: string, sep: char)
    requires sep !in w
    ensures Split(w + t, sep) == [w + Split(t, sep)[0]] + Split(t, sep)[1..]
  {
    if w != [] {
      SplitWordPrefix(w[1..], t, sep);
      assert (w + t)[1..] == w[1..] + t;
      assert (w + t)[0] == w[0];
      assert [w[0]] + (w[1..] + Split(t, sep)[0]) == w + Split(t, sep)[0];
    } else {
      var r := Split(t, sep);
      assert w + t == t;
      assert w + r[0] == r[0];
      assert r == [r[0]] + r[1..];
    }
  }

  /** Splitting the join of separator-free pieces gives back the pieces. */
  lemma {:induction false} SplitJoin(parts: seq<string>, sep: char)
    requires |parts| >= 1
    requires forall i :: 0 <= i < |parts| ==> sep !in parts[i]
    ensures Split(Join(parts, sep), sep) == parts
  {
    if |parts| == 1 {
      SplitWordPrefix(parts[0], [], sep);
      assert parts[0] + [] == parts[0];
    } else {
      var tail := Join(parts[1..], sep);
      SplitJoin(parts[1..], sep);
      assert Join(parts, sep) == parts[0] + ([sep] + tail);
      SplitWordPrefix(parts[0], [sep] + tail, sep);
      assert ([sep] + tail)[1..] == tail;
      var r := Split([sep] + tail, sep);
      assert r == [[]] + Split(tail, sep);
      assert r[0] == [] && r[1..] == parts[1..];
      assert parts[0] + r[0] == parts[0];
      assert parts == [parts[0]] + parts[1..];
    }
  }

  /** Joining the first `k` pieces gives a prefix of the joined whole. */
  lemma {:induction false} JoinPrefix(parts: seq<string>, k: nat, sep: char)
    requires k <= |parts|
    ensures Join(parts[..k], sep) <= Join(parts, sep)
  {
    if k > 0 && |parts| > 1 {
      if k == 1 {
        assert parts[..1] == [parts[0]];
      } else {
        JoinPrefix(parts[1..], k - 1, sep);
        assert parts[..k][1..] == parts[1..][..k - 1];
      }
    }
  }

  /** Cutting the parts after the first `k`: the separator sits between the two joins. */
  lemma {:induction false} JoinSplitAt(parts: seq<string>, k: nat, sep: char)
    requires 1 <= k < |parts|
    ensures Join(parts, sep) == Join(parts[..k], sep) + [sep] + Join(parts[k..], sep)
    decreases k
  {
    if k == 1 {
      assert parts[..1] == [parts[0]];
      assert parts[1..] == parts[k..];
    } else {
      JoinSplitAt(parts[1..], k - 1, sep);
      assert parts[1..][..k - 1] == parts[..k][1..];
      assert parts[1..][k - 1..] == parts[k..];
    }
  }

  // ---------------------------------------------------------------------------
  // trim

  /** The characters `String.prototype.trim` removes: the ECMAScript WhiteSpace and
      LineTerminator code points. */
  predicate IsSpace(c: char) {
    c == ' ' || c == '\t' || c == '\n' || c == '\r' || c == '\U{000B}' || c == '\U{000C}'
    || c == '\U{00A0}' || c == '\U{1680}' || ('\U{2000}' <= c <= '\U{200A}')
    || c == '\U{2028}' || c == '\U{2029}' || c == '\U{202F}' || c == '\U{205F}'
    || c == '\U{3000}' || c == '\U{FEFF}'
  }

  /** Every character is white space (the empty string included). */
  predicate IsBlank(s: string) {
    forall i :: 0 <= i < |s| ==> IsSpace(s[i])
  }

  /** The number of white-space characters `s` starts with. */
  function LeadingSpace(s: string): (n: nat)
    ensures n <= |s|
    ensures forall i :: 0 <= i < n ==> IsSpace(s[i])
    ensures n < |s| ==> !IsSpace(s[n])
  {
    if s != [] && IsSpace(s[0]) then 1 + LeadingSpace(s[1..]) else 0
  }

  /** Where the white space `s` ends with begins: every character from there on is white
      space, and the one before it is not. */
  function TrailingSpaceStart(s: string): (n: nat)
    ensures n <= |s|
    ensures forall i :: n <= i < |s| ==> IsSpace(s[i])
    ensures n > 0 ==> !IsSpace(s[n - 1])
  {
    if s != [] && IsSpace(s[|s| - 1]) then TrailingSpaceStart(s[..|s| - 1]) else |s|
  }

  /** `s.trimStart()`. */
  function TrimStart(s: string): string {
    s[LeadingSpace(s)..]
  }

  /** `s.trimEnd()`. */
  function TrimEnd(s: string): string {
    s[..TrailingSpaceStart(s)]
  }

  /** `s.trim()`. */
  function Trim(s: string): string {
    TrimEnd(TrimStart(s))
  }

  /** `s.trim()` is the empty string exactly when `s` is blank. */
  lemma TrimEmptyIffBlank(s: string)
    ensures Trim(s) == [] <==> IsBlank(s)
  {
    var a := LeadingSpace(s);
    var t := s[a..];
    if Trim(s) == [] {
      assert TrailingSpaceStart(t) == 0;
      assert a == |s|;
    }
    if IsBlank(s) {
      assert a == |s|;
    }
  }
}
