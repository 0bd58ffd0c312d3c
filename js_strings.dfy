/** The JavaScript string operations the core uses with a one-character or
    literal argument: `indexOf`, `replace` with a string pattern (first
    occurrence only), `split`, `join`, and a literal substring search. */
module JsStrings {
  import opened Wrappers

  /** `s.indexOf(c)`, as an option. */
  function IndexOf(s: string, c: char): (r: Option<nat>)
    ensures r.None? <==> c !in s
    ensures r.Some? ==> r.value < |s| && s[r.value] == c && c !in s[..r.value]
  {
    if s == [] then None
    else if s[0] == c then Some(0)
    else match IndexOf(s[1..], c)
      case None => None
      case Some(i) =>
        assert s[..i + 1] == [s[0]] + s[1..][..i];
        Some(i + 1)
  }

  /** `s.replace(c, d)` with a one-character string pattern: only the first
      occurrence is replaced. */
  function ReplaceFirst(s: string, c: char, d: char): (r: string)
    ensures |r| == |s|
    ensures c !in s ==> r == s
    ensures c in s ==> var i := IndexOf(s, c).value;
      r == s[..i] + [d] + s[i + 1..]
  {
    match IndexOf(s, c)
    case None => s
    case Some(i) => s[..i] + [d] + s[i + 1..]
  }

  /** `s.split(c)`: the pieces between occurrences of `c`. */
  function Split(s: string, c: char): (pieces: seq<string>)
    ensures |pieces| >= 1
    ensures forall i :: 0 <= i < |pieces| ==> c !in pieces[i]
    decreases |s|
  {
    match IndexOf(s, c)
    case None => [s]
    case Some(i) => [s[..i]] + Split(s[i + 1..], c)
  }

  /** `s.split(c)[0]`. */
  function FirstSegment(s: string, c: char): (r: string)
    ensures c !in r && r <= s
    ensures r == Split(s, c)[0]
  {
    match IndexOf(s, c)
    case None => s
    case Some(i) => s[..i]
  }

  /** `pieces.join(c)`. */
  function Join(pieces: seq<string>, c: char): string
  {
    if |pieces| <= 1 then (if pieces == [] then "" else pieces[0])
    else pieces[0] + [c] + Join(pieces[1..], c)
  }

  function Count(s: string, c: char): nat
  {
    if s == [] then 0 else (if s[0] == c then 1 else 0) + Count(s[1..], c)
  }

  lemma {:induction false} CountAppend(a: string, b: string, c: char)
    ensures Count(a + b, c) == Count(a, c) + Count(b, c)
  {
    if a == [] {
      assert a + b == b;
    } else {
      assert (a + b)[0] == a[0];
      assert (a + b)[1..] == a[1..] + b;
      CountAppend(a[1..], b, c);
    }
  }

  lemma {:induction false} CountAbsent(s: string, c: char)
    requires c !in s
    ensures Count(s, c) == 0
  {
    if s != [] { CountAbsent(s[1..], c); }
  }

  /** `split` and `join` with the same separator are inverse. */
  lemma {:induction false} SplitJoin(s: string, c: char)
    ensures Join(Split(s, c), c) == s
    decreases |s|
  {
    match IndexOf(s, c)
    case None =>
    case Some(i) =>
      var rest := Split(s[i + 1..], c);
      SplitJoin(s[i + 1..], c);
      assert Split(s, c) == [s[..i]] + rest;
      assert ([s[..i]] + rest)[1..] == rest;
      assert Join(Split(s, c), c) == s[..i] + [c] + Join(rest, c);
      assert s == s[..i] + [c] + s[i + 1..];
  }

  /** `s.split(c).length` is one more than the number of occurrences of `c`. */
  lemma {:induction false} SplitCount(s: string, c: char)
    ensures |Split(s, c)| == Count(s, c) + 1
    decreases |s|
  {
    match IndexOf(s, c)
    case None => CountAbsent(s, c);
    case Some(i) =>
      var rest := s[i + 1..];
      SplitCount(rest, c);
      assert Split(s, c) == [s[..i]] + Split(rest, c);
      assert s == s[..i] + ([c] + rest);
      CountAppend(s[..i], [c] + rest, c);
      CountAppend([c], rest, c);
      assert Count([c], c) == 1 by { assert [c][1..] == []; }
      CountAbsent(s[..i], c);
  }

  predicate OccursAt(s: string, pat: string, p: nat)
  {
    p + |pat| <= |s| && s[p..p + |pat|] == pat
  }

  /** The leftmost position at or after `from` where `pat` occurs. */
  function IndexOfFrom(s: string, pat: string, from: nat): (r: Option<nat>)
    ensures r.Some? ==> from <= r.value && OccursAt(s, pat, r.value)
    ensures forall q :: from <= q && (r.Some? ==> q < r.value) ==> !OccursAt(s, pat, q)
    decreases |s| - from
  {
    if from + |pat| > |s| then
      assert forall q :: from <= q ==> !OccursAt(s, pat, q);
      None
    else if s[from..from + |pat|] == pat then Some(from)
    else IndexOfFrom(s, pat, from + 1)
  }

  /** The longest run of characters other than `c` starting at `from`:
      the capture of `([^c]*)`, which is greedy. */
  function TakeUntil(s: string, from: nat, c: char): (r: string)
    requires from <= |s|
    ensures from + |r| <= |s| && r == s[from..from + |r|]
    ensures c !in r
    ensures from + |r| == |s| || s[from + |r|] == c
    decreases |s| - from
  {
    if from == |s| || s[from] == c then ""
    else [s[from]] + TakeUntil(s, from + 1, c)
  }
}
