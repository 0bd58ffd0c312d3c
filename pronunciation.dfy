/** The pronunciation pass of watsonUtils.ts, applied to the text the avatar
    speaks: an ordered list of find/replace rules. */
module Pronunciation {
  import opened Wrappers
  import opened Dicts
  import opened JsRegex

  /** `pronunciations`: word in the reply -> how the avatar should say it. */
  const Pronunciations: seq<(string, string)> := [("watsonx", "Watson X")]

  /** One entry of `_pronounceReplacementList`. */
  datatype Rule =
    | TokenRule(word: string, replacement: string)  // [/\bword\b/gi, replacement]
    | PeriodRule                                    // [/(?<!\w\.)\.(?!\s|$)/g, ' ']
    | QuoteRule                                     // [/"/g, '']

  function PronounceDirective(word: string, phonetic: string): string
  {
    "@pronounce(" + word + ", " + phonetic + ")"
  }

  function TokenRules(table: seq<(string, string)>): (rules: seq<Rule>)
    ensures |rules| == |table|
    ensures forall i :: 0 <= i < |table| ==>
      rules[i] == TokenRule(table[i].0, PronounceDirective(table[i].0, table[i].1))
  {
    if table == [] then []
    else [TokenRule(table[0].0, PronounceDirective(table[0].0, table[0].1))] + TokenRules(table[1..])
  }

  /** `_pronounceReplacementList`: one token rule per table entry, in order,
      then the period rule, then the quote rule. */
  function PronounceReplacementList(table: seq<(string, string)>): (rules: seq<Rule>)
    ensures |rules| == |table| + 2
    ensures forall i :: 0 <= i < |table| ==> rules[i].TokenRule? && rules[i].word == table[i].0
    ensures rules[|table|] == PeriodRule && rules[|table| + 1] == QuoteRule
  {
    TokenRules(table) + [PeriodRule] + [QuoteRule]
  }

  const PronounceRules: seq<Rule> := PronounceReplacementList(Pronunciations)

  /** The period rule replaces the `.` at `i`: it is not preceded by a word
      character and a `.`, and not followed by white space or the end. */
  predicate PeriodReplaced(s: string, i: nat)
    requires i < |s|
  {
    && s[i] == '.'
    && !(i >= 2 && IsWordChar(s[i - 2]) && s[i - 1] == '.')
    && !(i + 1 == |s| || IsSpace(s[i + 1]))
  }

  function PeriodFrom(s: string, p: nat): (r: string)
    requires p <= |s|
    ensures |r| == |s| - p
    ensures forall i :: p <= i < |s| ==> r[i - p] == if PeriodReplaced(s, i) then ' ' else s[i]
    decreases |s| - p
  {
    if p == |s| then ""
    else (if PeriodReplaced(s, p) then " " else [s[p]]) + PeriodFrom(s, p + 1)
  }

  /** `s.replace(/(?<!\w\.)\.(?!\s|$)/g, ' ')`: each match is one character,
      so the result has the same length and differs only at replaced periods. */
  function PeriodPass(s: string): (r: string)
    ensures |r| == |s|
    ensures forall i :: 0 <= i < |s| ==> r[i] == if PeriodReplaced(s, i) then ' ' else s[i]
  {
    PeriodFrom(s, 0)
  }

  /** `s.replace(/"/g, '')` */
  function StripQuotes(s: string): (r: string)
    ensures '"' !in r
    ensures multiset(r) == multiset(s)['"' := 0]
  {
    if s == [] then ""
    else
      var rest := StripQuotes(s[1..]);
      assert s == [s[0]] + s[1..];
      if s[0] == '"' then rest else [s[0]] + rest
  }

  /** The quote rule keeps every other character, in order. */
  lemma {:induction false} StripQuotesAppend(a: string, b: string)
    ensures StripQuotes(a + b) == StripQuotes(a) + StripQuotes(b)
  {
    if a == [] {
      assert a + b == b;
    } else {
      assert (a + b)[0] == a[0] && (a + b)[1..] == a[1..] + b;
      StripQuotesAppend(a[1..], b);
    }
  }

  lemma {:induction false} StripQuotesNoQuotes(s: string)
    requires '"' !in s
    ensures StripQuotes(s) == s
  {
    if s != [] { StripQuotesNoQuotes(s[1..]); }
  }

  predicate ValidRule(r: Rule)
  {
    r.TokenRule? ==> r.word != []
  }

  /** `result.replace(rule[0], rule[1])` */
  function ApplyRule(r: Rule, s: string): string
    requires ValidRule(r)
  {
    match r
    case TokenRule(w, rep) => ReplaceAll(s, [w], Constant(rep))
    case PeriodRule => PeriodPass(s)
    case QuoteRule => StripQuotes(s)
  }

  /** The rules applied in order, each to the previous one's output. */
  function ApplyRules(rules: seq<Rule>, s: string): string
    requires forall i :: 0 <= i < |rules| ==> ValidRule(rules[i])
  {
    if rules == [] then s else ApplyRules(rules[1..], ApplyRule(rules[0], s))
  }

  lemma PronounceRulesValue()
    ensures PronounceRules == [TokenRule("watsonx", "@pronounce(watsonx, Watson X)"), PeriodRule, QuoteRule]
    ensures forall i :: 0 <= i < |PronounceRules| ==> ValidRule(PronounceRules[i])
  {
    assert PronounceDirective("watsonx", "Watson X") == "@pronounce(watsonx, Watson X)";
  }

  const WatsonxDirective := "@pronounce(watsonx, Watson X)"

  /** The whole pass as a function of its input. */
  function Pronounce(s: string): string
  {
    PronounceRulesValue();
    ApplyRules(PronounceRules, s)
  }

  /** Token rules run first, then the period rule, then the quote rule. */
  lemma PronounceOrder(s: string)
    ensures Pronounce(s) == StripQuotes(PeriodPass(ReplaceAll(s, ["watsonx"], Constant(WatsonxDirective))))
  {
    PronounceRulesValue();
    var rules := PronounceRules;
    var t1 := ReplaceAll(s, ["watsonx"], Constant(WatsonxDirective));
    var t2 := PeriodPass(t1);
    assert ApplyRule(rules[0], s) == t1;
    assert rules[1..] == [PeriodRule, QuoteRule];
    assert ApplyRules([PeriodRule, QuoteRule], t1) == ApplyRules([QuoteRule], t2) by {
      assert [PeriodRule, QuoteRule][1..] == [QuoteRule];
    }
    assert ApplyRules([QuoteRule], t2) == StripQuotes(t2) by {
      assert [QuoteRule][1..] == [];
    }
  }

  /** The final text never contains a double quote. */
  lemma PronounceNoQuotes(s: string)
    ensures '"' !in Pronounce(s)
  {
    PronounceOrder(s);
  }

  /** `replaceForPronounce`: `result` is reassigned once per rule, in list order. */
  method ReplaceForPronounce(s: string) returns (result: string)
    ensures result == Pronounce(s)
    ensures result == StripQuotes(PeriodPass(ReplaceAll(s, ["watsonx"], Constant(WatsonxDirective))))
    ensures '"' !in result
  {
    PronounceRulesValue();
    PronounceOrder(s);
    var rules := PronounceRules;
    result := s;
    for i := 0 to |rules|
      invariant ApplyRules(rules[i..], result) == ApplyRules(rules, s)
    {
      assert rules[i..][1..] == rules[i + 1..];
      result := ApplyRule(rules[i], result);
    }
    assert rules[|rules|..] == [];
  }

  /** Every whole-word "watsonx", whatever its casing, becomes exactly the
      directive spelled with the table key. */
  lemma {:induction false} PronounceFirstToken(s: string, q: nat)
    requires q < |s|
    requires forall p :: 0 <= p < q ==> !WholeWordAt(s, p, "watsonx")
    requires WholeWordAt(s, q, "watsonx")
    ensures q + 7 <= |s|
    ensures ReplaceAll(s, ["watsonx"], Constant(WatsonxDirective)) ==
      s[..q] + (WatsonxDirective + ReplaceFrom(s, q + 7, ["watsonx"], Constant(WatsonxDirective)))
  {
    forall p | 0 <= p < q ensures FirstAlternative(s, p, ["watsonx"]).None? {
      assert !WholeWordAt(s, p, ["watsonx"][0]);
    }
    assert FirstAlternative(s, q, ["watsonx"]) == Some(0);
    ReplaceFirstOccurrence(s, q, 0, ["watsonx"], Constant(WatsonxDirective));
  }

  lemma PronounceExampleToken(s: string)
    requires s == "Learn about watsonx."
    ensures ReplaceAll(s, ["watsonx"], Constant(WatsonxDirective)) == "Learn about " + WatsonxDirective + "."
  {
    var sub := Constant(WatsonxDirective);
    forall p | 0 <= p < 12 ensures !WholeWordAt(s, p, "watsonx") {
      assert Lower(s[p]) != 'w';
    }
    assert WholeWordAt(s, 12, "watsonx");
    PronounceFirstToken(s, 12);
    assert !FoldsAt(s, 19, "watsonx");
    assert FirstAlternative(s, 19, ["watsonx"]).None?;
    assert ReplaceFrom(s, 19, ["watsonx"], sub) == ".";
    assert s[..12] == "Learn about ";
  }

  /** A text whose only period is its last character is left alone by the
      period rule. */
  lemma PeriodOnlyAtEnd(a: string)
    requires '.' !in a
    ensures PeriodPass(a + ".") == a + "."
  {
    var t := a + ".";
    forall i | 0 <= i < |t| ensures !PeriodReplaced(t, i) {
      if i < |a| { assert t[i] == a[i]; }
    }
  }

  lemma PronounceExamplePeriod(t: string)
    requires t == "Learn about " + WatsonxDirective + "."
    ensures PeriodPass(t) == t
  {
    var a := "Learn about " + WatsonxDirective;
    assert '.' !in "Learn about ";
    assert '.' !in WatsonxDirective;
    assert '.' !in a;
    PeriodOnlyAtEnd(a);
  }

  lemma PronounceExampleNoQuote(t: string)
    requires t == "Learn about " + WatsonxDirective + "."
    ensures '"' !in t
  {
    assert '"' !in "Learn about ";
    assert '"' !in WatsonxDirective;
  }

  /** When the token rule leaves a text with no quote and no period the
      period rule would replace, that text is the final result. */
  lemma PronounceCleanToken(s: string, t: string)
    requires ReplaceAll(s, ["watsonx"], Constant(WatsonxDirective)) == t
    requires PeriodPass(t) == t && '"' !in t
    ensures Pronounce(s) == t
  {
    StripQuotesNoQuotes(t);
    PronounceOrder(s);
  }

  /** A sentence-final period is kept and the directive is spelled with the
      table key. */
  lemma PronounceExample(s: string, t: string)
    requires s == "Learn about watsonx."
    requires t == "Learn about " + WatsonxDirective + "."
    ensures Pronounce(s) == t
  {
    PronounceExampleToken(s);
    PronounceExamplePeriod(t);
    PronounceExampleNoQuote(t);
    PronounceCleanToken(s, t);
  }
}
