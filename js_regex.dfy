/** JavaScript regular expressions of the shape `\b(w0|w1|...)\b` with the
    `g` and `i` flags, modelled as the scan the regex engine performs: at
    every position, from left to right, the alternatives are tried in
    declaration order; after a match the scan resumes behind it, otherwise
    one character is copied. All matches are found on the string as it stood
    before the replacement ran. */
module JsRegex {
  import opened Wrappers
  import opened Dicts

  /** `\w` */
  predicate IsWordChar(c: char)
  {
    'A' <= c <= 'Z' || 'a' <= c <= 'z' || '0' <= c <= '9' || c == '_'
  }

  /** `\s`: the white-space and line-terminator characters of ECMAScript. */
  predicate IsSpace(c: char)
  {
    || c == '\t' || c == '\n' || c == '\U{000B}' || c == '\U{000C}' || c == '\r' || c == ' '
    || c == '\U{00A0}' || c == '\U{1680}' || ('\U{2000}' <= c <= '\U{200A}')
    || c == '\U{2028}' || c == '\U{2029}' || c == '\U{202F}' || c == '\U{205F}'
    || c == '\U{3000}' || c == '\U{FEFF}'
  }

  /** Case folding of the `i` flag and of `toLowerCase` on ASCII letters;
      in non-unicode mode no other character folds onto an ASCII letter. */
  function Lower(c: char): char
  {
    if 'A' <= c <= 'Z' then (c as int + 32) as char else c
  }

  function LowerString(s: string): (r: string)
    ensures |r| == |s|
  {
    if s == [] then [] else [Lower(s[0])] + LowerString(s[1..])
  }

  /** `toLowerCase` folds each character on its own. */
  lemma {:induction false} LowerStringAt(s: string)
    ensures forall i :: 0 <= i < |s| ==> LowerString(s)[i] == Lower(s[i])
  {
    if s != [] {
      LowerStringAt(s[1..]);
      forall i | 1 <= i < |s| ensures LowerString(s)[i] == Lower(s[i]) {
        assert LowerString(s)[i] == LowerString(s[1..])[i - 1];
      }
    }
  }

  lemma LowerKeepsWordChar(c: char)
    ensures IsWordChar(Lower(c)) <==> IsWordChar(c)
  {
  }

  predicate WordBefore(s: string, p: nat)
  {
    0 < p <= |s| && IsWordChar(s[p - 1])
  }

  predicate WordAt(s: string, p: nat)
  {
    p < |s| && IsWordChar(s[p])
  }

  /** `\b` at position `p`: the word-character status changes there. */
  predicate Boundary(s: string, p: nat)
  {
    WordBefore(s, p) != WordAt(s, p)
  }

  /** The literal `w` matches case-insensitively at position `p`. */
  predicate FoldsAt(s: string, p: nat, w: string)
    ensures FoldsAt(s, p, w) ==> p + |w| <= |s|
    decreases w
  {
    if w == [] then p <= |s|
    else p < |s| && Lower(s[p]) == Lower(w[0]) && FoldsAt(s, p + 1, w[1..])
  }

  /** The scan agrees with character-by-character comparison. */
  lemma {:induction false} FoldsAtIff(s: string, p: nat, w: string)
    ensures FoldsAt(s, p, w) <==>
      p + |w| <= |s| && forall k :: 0 <= k < |w| ==> Lower(s[p + k]) == Lower(w[k])
    decreases w
  {
    if w != [] {
      FoldsAtIff(s, p + 1, w[1..]);
      if p + |w| <= |s| && forall k :: 0 <= k < |w| ==> Lower(s[p + k]) == Lower(w[k]) {
        forall k | 0 <= k < |w[1..]| ensures Lower(s[p + 1 + k]) == Lower(w[1..][k]) {
          assert Lower(s[p + (k + 1)]) == Lower(w[k + 1]);
        }
      }
    }
  }

  /** `\bw\b` with the `i` flag matches at `p`. */
  predicate WholeWordAt(s: string, p: nat, w: string)
  {
    Boundary(s, p) && FoldsAt(s, p, w) && Boundary(s, p + |w|)
  }

  /** Which alternative of `\b(w0|w1|...)\b` matches at `p`: the first one
      in declaration order whose trailing `\b` also holds. */
  function FirstAlternative(s: string, p: nat, words: seq<string>): (r: Option<nat>)
    ensures r.Some? ==> r.value < |words| && WholeWordAt(s, p, words[r.value])
  {
    if words == [] then None
    else if WholeWordAt(s, p, words[0]) then Some(0)
    else match FirstAlternative(s, p, words[1..])
      case None => None
      case Some(j) => Some(j + 1)
  }

  /** No alternative declared before the chosen one matches, and there is
      no match at all exactly when no alternative matches. */
  lemma {:induction false} FirstAlternativeSpec(s: string, p: nat, words: seq<string>)
    ensures var r := FirstAlternative(s, p, words);
      (r.Some? ==> forall i :: 0 <= i < r.value ==> !WholeWordAt(s, p, words[i])) &&
      (r.None? ==> forall i :: 0 <= i < |words| ==> !WholeWordAt(s, p, words[i]))
  {
    if words != [] && !WholeWordAt(s, p, words[0]) {
      FirstAlternativeSpec(s, p, words[1..]);
      forall i | 1 <= i < |words| ensures words[i] == words[1..][i - 1] { }
    }
  }

  /** An alternative that matches bounds the one chosen. */
  lemma FirstAlternativeAtMost(s: string, p: nat, words: seq<string>, i: nat)
    requires i < |words| && WholeWordAt(s, p, words[i])
    ensures FirstAlternative(s, p, words).Some? && FirstAlternative(s, p, words).value <= i
  {
    FirstAlternativeSpec(s, p, words);
  }

  predicate NonEmptyWords(words: seq<string>)
  {
    forall i :: 0 <= i < |words| ==> words[i] != []
  }

  /** What replaces a match: a fixed string, or the value a table holds for
      the lower-cased match (JavaScript yields "undefined" for a missing key). */
  datatype Substitution = Constant(text: string) | LookupLower(table: Dict<string>)

  function Substitute(sub: Substitution, matched: string): string
  {
    match sub
    case Constant(t) => t
    case LookupLower(table) =>
      match Get(table, LowerString(matched))
      case Some(v) => v
      case None => "undefined"
  }

  /** The output of the global replace from position `p` on. */
  function ReplaceFrom(s: string, p: nat, words: seq<string>, sub: Substitution): string
    requires p <= |s| && NonEmptyWords(words)
    decreases |s| - p
  {
    if p == |s| then ""
    else match FirstAlternative(s, p, words)
      case Some(j) =>
        Substitute(sub, s[p..p + |words[j]|]) + ReplaceFrom(s, p + |words[j]|, words, sub)
      case None => [s[p]] + ReplaceFrom(s, p + 1, words, sub)
  }

  /** `s.replace(/\b(w0|w1|...)\b/gi, sub)` */
  function ReplaceAll(s: string, words: seq<string>, sub: Substitution): string
    requires NonEmptyWords(words)
  {
    ReplaceFrom(s, 0, words, sub)
  }

  /** One step of the scan where no alternative matches: the character is copied. */
  lemma ReplaceCopies(s: string, p: nat, words: seq<string>, sub: Substitution)
    requires p < |s| && NonEmptyWords(words)
    requires FirstAlternative(s, p, words).None?
    ensures ReplaceFrom(s, p, words, sub) == [s[p]] + ReplaceFrom(s, p + 1, words, sub)
  {
  }

  /** The slice `s[p..m]` is its first character followed by the rest. */
  lemma ConsSlice(s: string, p: nat, m: nat, t: string)
    requires p < m <= |s|
    ensures [s[p]] + (s[p + 1..m] + t) == s[p..m] + t
  {
    assert s[p..m] == [s[p]] + s[p + 1..m];
  }

  /** Positions where no alternative matches are copied unchanged. */
  lemma {:induction false} ReplaceSkip(s: string, p: nat, m: nat, words: seq<string>, sub: Substitution)
    requires p <= m <= |s| && NonEmptyWords(words)
    requires forall q :: p <= q < m ==> FirstAlternative(s, q, words).None?
    ensures ReplaceFrom(s, p, words, sub) == s[p..m] + ReplaceFrom(s, m, words, sub)
    decreases m - p
  {
    if p < m {
      ReplaceSkip(s, p + 1, m, words, sub);
      ReplaceCopies(s, p, words, sub);
      ConsSlice(s, p, m, ReplaceFrom(s, m, words, sub));
    }
  }

  /** Text in which no listed word occurs as a whole word is returned unchanged. */
  lemma {:induction false} ReplaceUnchanged(s: string, words: seq<string>, sub: Substitution)
    requires NonEmptyWords(words)
    requires forall q, i :: 0 <= q < |s| && 0 <= i < |words| ==> !WholeWordAt(s, q, words[i])
    ensures ReplaceAll(s, words, sub) == s
  {
    ReplaceSkip(s, 0, |s|, words, sub);
    assert s[0..|s|] == s;
  }

  /** One step of the scan at a match: the matched text is substituted. */
  lemma ReplaceSubstitutes(s: string, p: nat, j: nat, words: seq<string>, sub: Substitution)
    requires p < |s| && NonEmptyWords(words)
    requires FirstAlternative(s, p, words) == Some(j)
    ensures j < |words| && p + |words[j]| <= |s|
    ensures ReplaceFrom(s, p, words, sub) ==
      Substitute(sub, s[p..p + |words[j]|]) + ReplaceFrom(s, p + |words[j]|, words, sub)
  {
  }

  /** Every occurrence the global scan reaches is replaced: from any position
      `p`, the text up to the next whole-word occurrence at `q` is copied, the
      occurrence is substituted, and scanning resumes right after it. */
  lemma {:induction false} ReplaceNextOccurrence(s: string, p: nat, q: nat, j: nat, words: seq<string>, sub: Substitution)
    requires p <= q < |s| && NonEmptyWords(words)
    requires forall r :: p <= r < q ==> FirstAlternative(s, r, words).None?
    requires FirstAlternative(s, q, words) == Some(j)
    ensures j < |words| && q + |words[j]| <= |s|
    ensures ReplaceFrom(s, p, words, sub) ==
      s[p..q] + (Substitute(sub, s[q..q + |words[j]|]) + ReplaceFrom(s, q + |words[j]|, words, sub))
  {
    ReplaceSkip(s, p, q, words, sub);
    ReplaceSubstitutes(s, q, j, words, sub);
  }

  /** The first whole-word occurrence is replaced, the text before it is
      kept, and scanning resumes right after the matched text. */
  lemma {:induction false} ReplaceFirstOccurrence(s: string, q: nat, j: nat, words: seq<string>, sub: Substitution)
    requires q < |s| && NonEmptyWords(words)
    requires forall p :: 0 <= p < q ==> FirstAlternative(s, p, words).None?
    requires FirstAlternative(s, q, words) == Some(j)
    ensures j < |words| && q + |words[j]| <= |s|
    ensures ReplaceAll(s, words, sub) ==
      s[..q] + (Substitute(sub, s[q..q + |words[j]|]) + ReplaceFrom(s, q + |words[j]|, words, sub))
  {
    ReplaceNextOccurrence(s, 0, q, j, words, sub);
    assert s[..q] == s[0..q];
  }

  /** A word that starts with a word character never matches right after a
      word character: a listed form inside a longer word is left alone. */
  lemma NoMatchInsideWord(s: string, p: nat, words: seq<string>)
    requires forall i :: 0 <= i < |words| ==> words[i] != [] && IsWordChar(words[i][0])
    requires WordBefore(s, p)
    ensures FirstAlternative(s, p, words).None?
  {
    forall i | 0 <= i < |words| ensures !WholeWordAt(s, p, words[i]) {
      LowerKeepsWordChar(words[i][0]);
      if p < |s| { LowerKeepsWordChar(s[p]); }
    }
  }
}
