/** Character classes and the fixed text patterns the validator scans for.
    Each regular expression the SDK uses is a literal, or a word followed by
    optional whitespace and one character; both are stated here directly. */
module Text {

  predicate IsLower(c: char) { 'a' <= c <= 'z' }

  predicate IsLetter(c: char) { 'a' <= c <= 'z' || 'A' <= c <= 'Z' }

  /** The class `\d` without the `u` flag: ASCII digits only. */
  predicate IsDigit(c: char) { '0' <= c <= '9' }

  /** The class `\s`: the WhiteSpace and LineTerminator characters of the
      ECMAScript language specification. */
  predicate IsWhitespace(c: char) {
    || c == '\t' || c == '\n' || c == '\U{000B}' || c == '\U{000C}' || c == '\r' || c == ' '
    || c == '\U{00A0}' || c == '\U{1680}' || ('\U{2000}' <= c <= '\U{200A}')
    || c == '\U{2028}' || c == '\U{2029}' || c == '\U{202F}' || c == '\U{205F}'
    || c == '\U{3000}' || c == '\U{FEFF}'
  }

  /** `w` occurs in `s` starting at index `i`. */
  predicate StartsAt(s: string, i: int, w: string) {
    0 <= i && i + |w| <= |s| && s[i..i + |w|] == w
  }

  /** `s.includes(w)`. */
  predicate Contains(s: string, w: string) {
    exists i :: 0 <= i <= |s| && StartsAt(s, i, w)
  }

  /** Putting the same prefix before two strings keeps them apart. */
  lemma PrefixInjective(p: string, a: string, b: string)
    ensures p + a == p + b <==> a == b
  {
    if p + a == p + b {
      assert (p + a)[|p|..] == a;
      assert (p + b)[|p|..] == b;
    }
  }

  /** The first index at or after `i` that does not hold whitespace. */
  function SkipWhitespace(s: string, i: nat): (j: nat)
    requires i <= |s|
    ensures i <= j <= |s|
    ensures forall k :: i <= k < j ==> IsWhitespace(s[k])
    ensures j == |s| || !IsWhitespace(s[j])
    decreases |s| - i
  {
    if i == |s| || !IsWhitespace(s[i]) then i else SkipWhitespace(s, i + 1)
  }

  /** A pattern `text` (a literal), or `word\s*next`. */
  datatype Pattern = Literal(text: string) | WordThen(word: string, next: char)

  /** The pattern matches `s` starting at index `i`, whitespace run taken
      greedily. */
  predicate MatchesAt(p: Pattern, s: string, i: int) {
    match p
    case Literal(text) => StartsAt(s, i, text)
    case WordThen(word, next) =>
      StartsAt(s, i, word) &&
      var j := SkipWhitespace(s, i + |word|);
      j < |s| && s[j] == next
  }

  /** `pattern.test(s)`: the unanchored pattern matches somewhere. */
  predicate Matches(p: Pattern, s: string) {
    exists i :: 0 <= i <= |s| && MatchesAt(p, s, i)
  }

  /** The regular-expression reading of `word\s*next`: the word, then any
      number of whitespace characters, then `next`. */
  ghost predicate RegexMatchesAt(p: Pattern, s: string, i: int) {
    match p
    case Literal(text) => StartsAt(s, i, text)
    case WordThen(word, next) =>
      StartsAt(s, i, word) &&
      exists k :: i + |word| <= k < |s| && s[k] == next &&
        forall m :: i + |word| <= m < k ==> IsWhitespace(s[m])
  }

  /** Taking the whitespace run greedily finds exactly the regular
      expression's matches, because the character after the run is not
      itself whitespace. */
  lemma MatchesAtIsRegex(p: Pattern, s: string, i: int)
    requires p.WordThen? ==> !IsWhitespace(p.next)
    ensures MatchesAt(p, s, i) <==> RegexMatchesAt(p, s, i)
  {
    if p.WordThen? && StartsAt(s, i, p.word) {
      var start := i + |p.word|;
      var j := SkipWhitespace(s, start);
      if RegexMatchesAt(p, s, i) {
        var k :| start <= k < |s| && s[k] == p.next &&
          forall m :: start <= m < k ==> IsWhitespace(s[m]);
        assert j == k;
      }
    }
  }

  /** Scans `s` for a match of `p`, index by index. */
  method Test(p: Pattern, s: string) returns (found: bool)
    ensures found <==> Matches(p, s)
  {
    var i := 0;
    while i <= |s|
      invariant 0 <= i <= |s| + 1
      invariant forall k :: 0 <= k < i ==> !MatchesAt(p, s, k)
    {
      if MatchesAt(p, s, i) {
        return true;
      }
      i := i + 1;
    }
    return false;
  }
}
