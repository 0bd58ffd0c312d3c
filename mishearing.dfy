/** The mishearing pass of watsonUtils.ts: forms that speech-to-text
    mishears are rewritten to the word the assistant knows. */
module Mishearing {
  import opened Wrappers
  import opened Dicts
  import opened JsRegex

  /** `expansions`: canonical word -> the forms speech-to-text mishears it as. */
  const Expansions: seq<(string, seq<string>)> :=
    [("truist", ["tris", "taurus", "taters"]),
     ("watsonx", ["watson x", "watson x dot ai"])]

  /** `Object.values(expansions).flat()`, in declaration order. */
  function WordsOf(ex: seq<(string, seq<string>)>): (ws: seq<string>)
  {
    if ex == [] then [] else ex[0].1 + WordsOf(ex[1..])
  }

  /** `acc[value] = key` for every value of one entry, in order. */
  function PutAll(acc: Dict<string>, values: seq<string>, key: string): Dict<string>
    decreases |values|
  {
    if values == [] then acc else PutAll(Put(acc, values[0], key), values[1..], key)
  }

  /** After one entry, each of its values maps to its key; other words keep
      what they had. */
  lemma {:induction false} PutAllGet(acc: Dict<string>, values: seq<string>, key: string, w: string)
    ensures Get(PutAll(acc, values, key), w) == if w in values then Some(key) else Get(acc, w)
    decreases |values|
  {
    if values != [] {
      PutAllGet(Put(acc, values[0], key), values[1..], key, w);
      assert w in values <==> w == values[0] || w in values[1..];
    }
  }

  /** The `_replacements` reduce over the entries, in order. */
  function ReplacementsFrom(acc: Dict<string>, ex: seq<(string, seq<string>)>): Dict<string>
    decreases |ex|
  {
    if ex == [] then acc else ReplacementsFrom(PutAll(acc, ex[0].1, ex[0].0), ex[1..])
  }

  /** Every listed form is a key of `_replacements`, so the replace callback
      never answers "undefined" for a form the pattern matched. */
  lemma {:induction false} ReplacementsCover(acc: Dict<string>, ex: seq<(string, seq<string>)>, w: string)
    requires w in WordsOf(ex) || Get(acc, w).Some?
    ensures Get(ReplacementsFrom(acc, ex), w).Some?
    decreases |ex|
  {
    if ex != [] {
      var acc' := PutAll(acc, ex[0].1, ex[0].0);
      PutAllGet(acc, ex[0].1, ex[0].0, w);
      assert WordsOf(ex) == ex[0].1 + WordsOf(ex[1..]);
      ReplacementsCover(acc', ex[1..], w);
    }
  }

  /** `_wordsToReplace`, written out; `MisheardWordsValue` shows it is the
      flattening of `Expansions`. */
  const MisheardWords: seq<string> := ["tris", "taurus", "taters", "watson x", "watson x dot ai"]

  /** `_replacements`, written out; `ReplacementsValue` shows it is what the
      reduce over `Expansions` builds. */
  const Replacements: Dict<string> :=
    [("tris", "truist"), ("taurus", "truist"), ("taters", "truist"),
     ("watson x", "watsonx"), ("watson x dot ai", "watsonx")]

  lemma MisheardWordsValue()
    ensures MisheardWords == WordsOf(Expansions)
  {
    var e0, e1 := Expansions[0], Expansions[1];
    assert Expansions[1..] == [e1];
    assert WordsOf([e1]) == e1.1 by { assert [e1][1..] == []; }
  }

  /** What the reduce over `Expansions` stores under `w`: the later entry
      wins. */
  lemma ReplacementsFromGet(w: string)
    ensures Get(ReplacementsFrom([], Expansions), w) ==
      if w in Expansions[1].1 then Some(Expansions[1].0)
      else if w in Expansions[0].1 then Some(Expansions[0].0)
      else None
  {
    var e0, e1 := Expansions[0], Expansions[1];
    var a := PutAll([], e0.1, e0.0);
    assert Expansions[1..] == [e1];
    assert [e1][1..] == [];
    assert ReplacementsFrom([], Expansions) == PutAll(a, e1.1, e1.0);
    PutAllGet([], e0.1, e0.0, w);
    PutAllGet(a, e1.1, e1.0, w);
  }

  lemma ReplacementsGetAny(w: string)
    ensures Get(Replacements, w) ==
      if w in Expansions[1].1 then Some(Expansions[1].0)
      else if w in Expansions[0].1 then Some(Expansions[0].0)
      else None
  {
    if w in MisheardWords {
      var j :| 0 <= j < |MisheardWords| && MisheardWords[j] == w;
      ReplacementsGet(j);
    } else {
      GetDefinedIff(Replacements, w);
      assert forall i :: 0 <= i < |Replacements| ==> Replacements[i].0 in MisheardWords;
    }
  }

  /** The written-out table answers every lookup as the reduce over
      `Expansions` does. */
  lemma ReplacementsValue(w: string)
    ensures Get(Replacements, w) == Get(ReplacementsFrom([], Expansions), w)
  {
    ReplacementsFromGet(w);
    ReplacementsGetAny(w);
  }

  /** `_replaceMisheardWords`: one global, case-insensitive, whole-word sweep
      with `_pattern`, each match replaced by
      `_replacements[match.toLowerCase()]`. */
  function ReplaceMisheardWords(textQuery: string): string
  {
    ReplaceAll(textQuery, MisheardWords, LookupLower(Replacements))
  }

  /** The canonical word an alternative of `_pattern` stands for. */
  function Canonical(j: nat): string
  {
    if j < 3 then "truist" else "watsonx"
  }

  predicate NoCapitals(w: string)
  {
    forall i :: 0 <= i < |w| ==> !('A' <= w[i] <= 'Z')
  }

  lemma LowerFixed(w: string)
    requires NoCapitals(w)
    ensures LowerString(w) == w
  {
    LowerStringAt(w);
  }

  lemma MisheardWordLower(j: nat)
    requires j < |MisheardWords|
    ensures LowerString(MisheardWords[j]) == MisheardWords[j]
  {
    assert NoCapitals(MisheardWords[j]);
    LowerFixed(MisheardWords[j]);
  }

  lemma ReplacementsGet(j: nat)
    requires j < |MisheardWords|
    ensures Get(Replacements, MisheardWords[j]) == Some(Canonical(j))
  {
    if j == 0 {
      assert MisheardWords[j] == "tris";
    } else if j == 1 {
      assert MisheardWords[j] == "taurus";
    } else if j == 2 {
      assert MisheardWords[j] == "taters";
    } else if j == 3 {
      assert MisheardWords[j] == "watson x";
    } else {
      assert MisheardWords[j] == "watson x dot ai";
    }
  }

  /** `_replacements` maps each listed form to its canonical word, and the
      forms are already lower case. */
  lemma ReplacementsLookup(j: nat)
    requires j < |MisheardWords|
    ensures LowerString(MisheardWords[j]) == MisheardWords[j]
    ensures Get(Replacements, MisheardWords[j]) == Some(Canonical(j))
  {
    MisheardWordLower(j);
    ReplacementsGet(j);
  }

  lemma FoldsAtLowerCase(s: string, p: nat, w: string)
    requires FoldsAt(s, p, w) && LowerString(w) == w
    ensures LowerString(s[p..p + |w|]) == w
  {
    FoldsAtIff(s, p, w);
    LowerStringAt(w);
    LowerStringAt(s[p..p + |w|]);
    var m := LowerString(s[p..p + |w|]);
    forall k | 0 <= k < |w| ensures m[k] == w[k] {
      assert Lower(s[p + k]) == Lower(w[k]);
      assert LowerString(w)[k] == Lower(w[k]);
    }
  }

  /** Whatever casing was matched, the replacement is the lowercase
      canonical key of the form that matched. */
  lemma MisheardSubstitution(s: string, p: nat)
    requires FirstAlternative(s, p, MisheardWords).Some?
    ensures var j := FirstAlternative(s, p, MisheardWords).value;
      p + |MisheardWords[j]| <= |s| &&
      Substitute(LookupLower(Replacements), s[p..p + |MisheardWords[j]|]) == Canonical(j)
  {
    var j := FirstAlternative(s, p, MisheardWords).value;
    ReplacementsLookup(j);
    FoldsAtLowerCase(s, p, MisheardWords[j]);
  }

  lemma LongFormHasShortForm(s: string, p: nat)
    requires WholeWordAt(s, p, "watson x dot ai")
    ensures WholeWordAt(s, p, "watson x")
  {
    assert FoldsAt(s, p, "watson x");
    assert Lower(s[p + 7]) == 'x' && Lower(s[p + 8]) == ' ';
  }

  /** "watson x" is declared before "watson x dot ai" and always matches
      where the longer form would, so the longer form never wins. */
  lemma LongerFormShadowed(s: string, p: nat)
    ensures FirstAlternative(s, p, MisheardWords) != Some(4)
  {
    if WholeWordAt(s, p, MisheardWords[4]) {
      assert MisheardWords[4] == "watson x dot ai";
      LongFormHasShortForm(s, p);
      assert MisheardWords[3] == "watson x";
      FirstAlternativeAtMost(s, p, MisheardWords, 3);
    }
  }

  /** The mishearing pass on the first listed form found in the query. */
  lemma {:induction false} MisheardFirstOccurrence(s: string, q: nat, j: nat)
    requires q < |s|
    requires forall p :: 0 <= p < q ==> FirstAlternative(s, p, MisheardWords).None?
    requires FirstAlternative(s, q, MisheardWords) == Some(j)
    ensures j < |MisheardWords| && q + |MisheardWords[j]| <= |s|
    ensures ReplaceMisheardWords(s) ==
      s[..q] + (Canonical(j) + ReplaceFrom(s, q + |MisheardWords[j]|, MisheardWords, LookupLower(Replacements)))
  {
    var sub := LookupLower(Replacements);
    ReplaceFirstOccurrence(s, q, j, MisheardWords, sub);
    MisheardSubstitution(s, q);
    assert ReplaceMisheardWords(s) == ReplaceAll(s, MisheardWords, sub);
  }

  /** Each listed form starts with a word character. */
  lemma MisheardWordsStartWithWordChar()
    ensures forall i :: 0 <= i < |MisheardWords| ==> MisheardWords[i] != [] && IsWordChar(MisheardWords[i][0])
  {
  }

  /** No listed form can begin at `p`: it is inside a word, or the
      character there is neither a `t` nor a `w`. */
  predicate NoMisheardStart(s: string, p: nat)
    requires p < |s|
  {
    WordBefore(s, p) || (Lower(s[p]) != 't' && Lower(s[p]) != 'w')
  }

  lemma NoMisheardAt(s: string, p: nat)
    requires p < |s| && NoMisheardStart(s, p)
    ensures FirstAlternative(s, p, MisheardWords).None?
  {
    if WordBefore(s, p) {
      MisheardWordsStartWithWordChar();
      NoMatchInsideWord(s, p, MisheardWords);
    } else {
      forall i | 0 <= i < |MisheardWords| ensures !FoldsAt(s, p, MisheardWords[i]) {
        assert MisheardWords[i][0] == 't' || MisheardWords[i][0] == 'w';
      }
    }
  }

  /** Text from `p` on in which no listed form can begin is copied. */
  lemma MisheardCopied(s: string, p: nat)
    requires p <= |s|
    requires forall q :: p <= q < |s| ==> NoMisheardStart(s, q)
    ensures ReplaceFrom(s, p, MisheardWords, LookupLower(Replacements)) == s[p..]
  {
    forall q | p <= q < |s| ensures FirstAlternative(s, q, MisheardWords).None? {
      assert NoMisheardStart(s, q);
      NoMisheardAt(s, q);
    }
    ReplaceSkip(s, p, |s|, MisheardWords, LookupLower(Replacements));
    assert s[p..|s|] == s[p..];
    assert ReplaceFrom(s, |s|, MisheardWords, LookupLower(Replacements)) == "";
  }

  /** A listed form embedded in a longer word is left alone. */
  lemma MisheardEmbeddedExample()
    ensures ReplaceMisheardWords("tristan") == "tristan"
  {
    ReplaceUnchanged("tristan", MisheardWords, LookupLower(Replacements));
  }

  /** Where "watson x" matches as a whole word, it is the alternative chosen:
      the three forms before it start with `t`. */
  lemma WatsonXChosen(s: string, p: nat)
    requires WholeWordAt(s, p, "watson x")
    ensures FirstAlternative(s, p, MisheardWords) == Some(3)
  {
    assert MisheardWords[3] == "watson x";
    FirstAlternativeAtMost(s, p, MisheardWords, 3);
    assert Lower(s[p]) == 'w';
    forall i | 0 <= i < 3 ensures !FoldsAt(s, p, MisheardWords[i]) {
      assert MisheardWords[i][0] == 't';
    }
  }

  /** A form matched at position 0 becomes its canonical key, followed by the
      rest of the scan. */
  lemma MisheardAtStart(s: string, j: nat, tail: string)
    requires |s| > 0 && FirstAlternative(s, 0, MisheardWords) == Some(j)
    requires j < |MisheardWords| && |MisheardWords[j]| <= |s|
    requires ReplaceFrom(s, |MisheardWords[j]|, MisheardWords, LookupLower(Replacements)) == tail
    ensures ReplaceMisheardWords(s) == Canonical(j) + tail
  {
    MisheardFirstOccurrence(s, 0, j);
    assert s[..0] == [];
  }

  lemma MisheardCaseHead(s: string)
    requires s == "Watson X"
    ensures FirstAlternative(s, 0, MisheardWords) == Some(3)
  {
    assert WholeWordAt(s, 0, "watson x");
    WatsonXChosen(s, 0);
  }

  lemma MisheardCaseExample()
    ensures ReplaceMisheardWords("Watson X") == "watsonx"
  {
    MisheardCaseHead("Watson X");
    MisheardAtStart("Watson X", 3, "");
  }

  lemma OverlapHead(s: string)
    requires s == "watson x dot ai"
    ensures FirstAlternative(s, 0, MisheardWords) == Some(3)
  {
    assert WholeWordAt(s, 0, "watson x");
    WatsonXChosen(s, 0);
  }

  lemma OverlapTail(s: string)
    requires s == "watson x dot ai"
    ensures ReplaceFrom(s, 8, MisheardWords, LookupLower(Replacements)) == " dot ai"
  {
    assert forall q :: 8 <= q < |s| ==> NoMisheardStart(s, q);
    MisheardCopied(s, 8);
    assert s[8..] == " dot ai";
  }

  lemma OverlapText()
    ensures "watsonx" + " dot ai" == "watsonx dot ai"
  {
  }

  /** With overlapping forms the one declared first wins. */
  lemma MisheardOverlapExample()
    ensures ReplaceMisheardWords("watson x dot ai") == "watsonx dot ai"
  {
    OverlapHead("watson x dot ai");
    OverlapTail("watson x dot ai");
    MisheardAtStart("watson x dot ai", 3, " dot ai");
    OverlapText();
  }
}
